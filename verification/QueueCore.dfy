/**
 The single-slot async queue as a state machine on values (asyncQueue.ts). Submissions are
 numbered in call order. Besides the queue's own variables the state holds what the event loop
 holds for it: scheduled `processNext` microtasks, promise chains in flight, and every call of
 a submission's resolve or reject.
 */
module QueueCore {
  import opened Options
  import opened Sequences

  datatype Strategy = Reject | DropOldest | DropNewest

  datatype Config = Config(maxSize: Option<int>, strategy: Strategy)

  /** How a submission's promise was settled; the last three are rejections. */
  datatype Outcome = Fulfilled | TaskFailed | Overflow | Cleared

  /** A started task: still running, or settled with its `finally` still to come. */
  datatype Stage = Running | Finishing

  datatype Flight = Flight(id: nat, stage: Stage)

  datatype Settlement = Settlement(id: nat, outcome: Outcome)

  /** The argument of onStateChange, and the result of getState. */
  datatype Notice = Notice(pendingCount: nat, isProcessing: bool, isPaused: bool)

  datatype Q = Q(queue: seq<nat>, isProcessing: bool, isPaused: bool, inflight: seq<Flight>, microtasks: nat,
                 settled: seq<Settlement>, started: seq<nat>, submitted: nat, fronts: set<nat>, notices: seq<Notice>)

  const EMPTY := Q([], false, false, [], 0, [], [], 0, {}, [])

  function StateOf(q: Q): Notice {
    Notice(|q.queue|, q.isProcessing, q.isPaused)
  }

  function EmitState(q: Q): Q {
    q.(notices := q.notices + [StateOf(q)])
  }

  function Settle(q: Q, id: nat, outcome: Outcome): Q {
    q.(settled := q.settled + [Settlement(id, outcome)])
  }

  function ProcessNext(q: Q): Q {
    if q.isPaused then EmitState(q)
    else if q.isProcessing then q
    else if q.queue == [] then EmitState(q)
    else
      EmitState(q.(queue := q.queue[1..], isProcessing := true, started := q.started + [q.queue[0]],
                   inflight := q.inflight + [Flight(q.queue[0], Running)]))
  }

  predicate CanAccept(q: Q, cfg: Config) {
    cfg.maxSize.None? || cfg.maxSize.value < 0 || |q.queue| < cfg.maxSize.value
  }

  /** Puts the newest submission in, announces it and schedules processNext. */
  function Accept(q: Q, front: bool): Q {
    var id := q.submitted;
    var queue := if front then [id] + q.queue else q.queue + [id];
    var q := EmitState(q.(queue := queue, submitted := id + 1, fronts := if front then q.fronts + {id} else q.fronts));
    q.(microtasks := q.microtasks + 1)
  }

  /** Overflow drops the entry farthest from the end being pushed to. */
  function Enqueue(q: Q, cfg: Config): Q {
    if CanAccept(q, cfg) then Accept(q, false)
    else if cfg.strategy == DropOldest then
      Accept(if q.queue == [] then q else Settle(q.(queue := q.queue[1..]), q.queue[0], Overflow), false)
    else Settle(q.(submitted := q.submitted + 1), q.submitted, Overflow)
  }

  function EnqueueFront(q: Q, cfg: Config): Q {
    if CanAccept(q, cfg) then Accept(q, true)
    else if cfg.strategy == DropOldest then
      var n := |q.queue|;
      Accept(if n == 0 then q else Settle(q.(queue := q.queue[..n - 1]), q.queue[n - 1], Overflow), true)
    else Settle(q.(submitted := q.submitted + 1, fronts := q.fronts + {q.submitted}), q.submitted, Overflow)
  }

  function ClearedAll(ids: seq<nat>): (r: seq<Settlement>)
    ensures |r| == |ids|
  {
    seq(|ids|, k requires 0 <= k < |ids| => Settlement(ids[k], Cleared))
  }

  function Clear(q: Q): Q {
    EmitState(q.(queue := [], settled := q.settled + ClearedAll(q.queue)))
  }

  function Pause(q: Q): Q {
    EmitState(q.(isPaused := true))
  }

  function Resume(q: Q): Q {
    if !q.isPaused then q
    else
      var q := EmitState(q.(isPaused := false));
      q.(microtasks := q.microtasks + 1)
  }

  // ---------------------------------------------------------------- steps

  datatype Step =
    | DoEnqueue
    | DoEnqueueFront
    | DoClear
    | DoPause
    | DoResume
    | RunMicrotask
    | TaskSettles(k: nat, ok: bool)
    | RunFinally(k: nat)

  predicate Internal(step: Step) {
    step.RunMicrotask? || step.TaskSettles? || step.RunFinally?
  }

  predicate Enabled(q: Q, step: Step) {
    match step
    case RunMicrotask => q.microtasks > 0
    case TaskSettles(k, _) => k < |q.inflight| && q.inflight[k].stage.Running?
    case RunFinally(k) => k < |q.inflight| && q.inflight[k].stage.Finishing?
    case _ => true
  }

  /** The slot is given back: chain `k` is over. */
  function Freed(q: Q, k: nat): Q
    requires k < |q.inflight|
  {
    q.(inflight := q.inflight[..k] + q.inflight[k + 1..], isProcessing := false)
  }

  function Take(q: Q, cfg: Config, step: Step): Q
    requires Enabled(q, step)
  {
    match step
    case DoEnqueue => Enqueue(q, cfg)
    case DoEnqueueFront => EnqueueFront(q, cfg)
    case DoClear => Clear(q)
    case DoPause => Pause(q)
    case DoResume => Resume(q)
    case RunMicrotask => ProcessNext(q.(microtasks := q.microtasks - 1))
    case TaskSettles(k, ok) =>
      var id := q.inflight[k].id;
      Settle(q.(inflight := q.inflight[k := Flight(id, Finishing)]), id, if ok then Fulfilled else TaskFailed)
    case RunFinally(k) =>
      ProcessNext(EmitState(Freed(q, k)))
  }

  /** The states a run passes through, if each step is enabled when it is taken. */
  ghost predicate Runs(q: Q, cfg: Config, steps: seq<Step>, q': Q)
    decreases |steps|
  {
    if steps == [] then q == q'
    else Enabled(q, steps[0]) && Runs(Take(q, cfg, steps[0]), cfg, steps[1..], q')
  }

  // ---------------------------------------------------------------- the invariant

  function RunningIds(inflight: seq<Flight>): seq<nat> {
    if inflight == [] then []
    else (if inflight[0].stage.Running? then [inflight[0].id] else []) + RunningIds(inflight[1..])
  }

  function Ids(settled: seq<Settlement>): (r: seq<nat>)
    ensures |r| == |settled|
  {
    seq(|settled|, k requires 0 <= k < |settled| => settled[k].id)
  }

  /** The submissions whose task was actually run to its end. */
  function Ran(settled: seq<Settlement>): seq<nat> {
    if settled == [] then []
    else
      var last := settled[|settled| - 1];
      Ran(settled[..|settled| - 1]) + if last.outcome.Fulfilled? || last.outcome.TaskFailed? then [last.id] else []
  }

  /**
   Submission `id` is waiting, running or settled, exactly once if it was ever made and never
   otherwise; its task was started exactly if it is running or ran to its end.
   */
  predicate PlacedOnce(q: Q, id: nat) {
    && multiset(q.queue)[id] + multiset(RunningIds(q.inflight))[id] + multiset(Ids(q.settled))[id]
       == (if id < q.submitted then 1 else 0)
    && multiset(q.started)[id] == multiset(RunningIds(q.inflight))[id] + multiset(Ran(q.settled))[id]
  }

  ghost predicate Conserved(q: Q) {
    forall id: nat :: PlacedOnce(q, id)
  }

  /** The slot is taken exactly while a promise chain is in flight, and there is at most one. */
  predicate OneSlot(q: Q) {
    |q.inflight| == if q.isProcessing then 1 else 0
  }

  /** Waiting work that nothing holds back has a processNext coming. */
  predicate Live(q: Q) {
    q.queue != [] && !q.isPaused && !q.isProcessing ==> q.microtasks > 0
  }

  predicate Earlier(s: seq<nat>, fronts: set<nat>, i: nat, j: nat)
    requires i < |s| && j < |s|
  {
    s[i] !in fronts && s[j] !in fronts ==> s[i] < s[j]
  }

  /** Back submissions appear in submission order. */
  ghost predicate InOrder(s: seq<nat>, fronts: set<nat>) {
    forall i: nat, j: nat | i < j < |s| :: Earlier(s, fronts, i, j)
  }

  predicate FrontAhead(queue: seq<nat>, fronts: set<nat>, i: nat, j: nat)
    requires i < |queue| && j < |queue|
  {
    queue[j] in fronts ==> queue[i] in fronts && queue[i] > queue[j]
  }

  predicate Known(s: seq<nat>, n: nat, i: nat)
    requires i < |s|
  {
    s[i] < n
  }

  /** The waiting line: front submissions, newest first, then back submissions, oldest first. */
  ghost predicate FrontsThenBacks(q: Q) {
    && (forall i: nat, j: nat | i < j < |q.queue| :: FrontAhead(q.queue, q.fronts, i, j))
    && InOrder(q.started + q.queue, q.fronts)
    && (forall i: nat | i < |q.started + q.queue| :: Known(q.started + q.queue, q.submitted, i))
    && (forall f | f in q.fronts :: f < q.submitted)
  }

  /** The waiting line never grows past the configured size, or past one if that is 0 and oldest entries drop. */
  predicate Bounded(q: Q, cfg: Config) {
    cfg.maxSize.Some? && cfg.maxSize.value >= 0 ==>
      |q.queue| <= cfg.maxSize.value || (cfg.strategy == DropOldest && |q.queue| <= 1)
  }

  /** Observers are never stale: the last notice, if any, is the current state. */
  predicate Observed(q: Q) {
    if q.notices == [] then StateOf(q) == Notice(0, false, false) else q.notices[|q.notices| - 1] == StateOf(q)
  }

  ghost predicate Inv(q: Q, cfg: Config) {
    Conserved(q) && OneSlot(q) && Live(q) && FrontsThenBacks(q) && Bounded(q, cfg) && Observed(q)
  }

  // ---------------------------------------------------------------- every step keeps it

  lemma SettleIds(settled: seq<Settlement>, id: nat, outcome: Outcome)
    ensures Ids(settled + [Settlement(id, outcome)]) == Ids(settled) + [id]
    ensures Ran(settled + [Settlement(id, outcome)])
            == Ran(settled) + if outcome.Fulfilled? || outcome.TaskFailed? then [id] else []
  {
    assert (settled + [Settlement(id, outcome)])[..|settled|] == settled;
  }

  lemma IdsConcat(a: seq<Settlement>, b: seq<Settlement>)
    ensures Ids(a + b) == Ids(a) + Ids(b)
  {
  }

  lemma ClearedSnoc(ids: seq<nat>, id: nat)
    ensures ClearedAll(ids + [id]) == ClearedAll(ids) + [Settlement(id, Cleared)]
  {
  }

  lemma {:induction false} ClearRan(settled: seq<Settlement>, ids: seq<nat>)
    ensures Ran(settled + ClearedAll(ids)) == Ran(settled)
  {
    if ids == [] {
      assert settled + ClearedAll(ids) == settled;
    } else {
      var front, last := ids[..|ids| - 1], ids[|ids| - 1];
      ClearRan(settled, front);
      assert ids == front + [last];
      ClearedSnoc(front, last);
      Regroup(settled, ClearedAll(front), [Settlement(last, Cleared)]);
      SettleIds(settled + ClearedAll(front), last, Cleared);
    }
  }

  lemma ClearIds(settled: seq<Settlement>, ids: seq<nat>)
    ensures Ids(settled + ClearedAll(ids)) == Ids(settled) + ids
    ensures Ran(settled + ClearedAll(ids)) == Ran(settled)
  {
    IdsConcat(settled, ClearedAll(ids));
    assert Ids(ClearedAll(ids)) == ids;
    ClearRan(settled, ids);
  }

  lemma PopFront(s: seq<nat>)
    requires s != []
    ensures multiset(s) == multiset([s[0]]) + multiset(s[1..])
  {
    assert s == [s[0]] + s[1..];
  }

  lemma PlacedProcessNext(q: Q, id: nat)
    requires PlacedOnce(q, id) && (q.isProcessing || q.inflight == [])
    ensures PlacedOnce(ProcessNext(q), id)
  {
    if !q.isPaused && !q.isProcessing && q.queue != [] {
      PopFront(q.queue);
      assert q.inflight + [Flight(q.queue[0], Running)] == [Flight(q.queue[0], Running)];
      assert RunningIds([Flight(q.queue[0], Running)]) == [q.queue[0]];
    }
  }

  /** A submission that is settled at once, without waiting. */
  lemma PlacedRefuse(q: Q, fronts: set<nat>, id: nat)
    requires PlacedOnce(q, id)
    ensures PlacedOnce(Settle(q.(submitted := q.submitted + 1, fronts := fronts), q.submitted, Overflow), id)
  {
    SettleIds(q.settled, q.submitted, Overflow);
  }

  lemma PlacedAccept(q: Q, front: bool, id: nat)
    requires PlacedOnce(q, id)
    ensures PlacedOnce(Accept(q, front), id)
  {
  }

  lemma PlacedDropLast(q: Q, id: nat)
    requires PlacedOnce(q, id) && q.queue != []
    ensures PlacedOnce(Settle(q.(queue := q.queue[..|q.queue| - 1]), q.queue[|q.queue| - 1], Overflow), id)
  {
    assert q.queue == q.queue[..|q.queue| - 1] + [q.queue[|q.queue| - 1]];
    SettleIds(q.settled, q.queue[|q.queue| - 1], Overflow);
  }

  lemma PlacedDropFirst(q: Q, id: nat)
    requires PlacedOnce(q, id) && q.queue != []
    ensures PlacedOnce(Settle(q.(queue := q.queue[1..]), q.queue[0], Overflow), id)
  {
    PopFront(q.queue);
    SettleIds(q.settled, q.queue[0], Overflow);
  }

  lemma PlacedEnqueue(q: Q, cfg: Config, id: nat)
    requires PlacedOnce(q, id)
    ensures PlacedOnce(Enqueue(q, cfg), id)
  {
    if CanAccept(q, cfg) || (cfg.strategy == DropOldest && q.queue == []) {
      PlacedAccept(q, false, id);
    } else if cfg.strategy == DropOldest {
      PlacedDropFirst(q, id);
      PlacedAccept(Settle(q.(queue := q.queue[1..]), q.queue[0], Overflow), false, id);
    } else {
      PlacedRefuse(q, q.fronts, id);
    }
  }

  lemma PlacedEnqueueFront(q: Q, cfg: Config, id: nat)
    requires PlacedOnce(q, id)
    ensures PlacedOnce(EnqueueFront(q, cfg), id)
  {
    var n := |q.queue|;
    if CanAccept(q, cfg) || (cfg.strategy == DropOldest && n == 0) {
      PlacedAccept(q, true, id);
    } else if cfg.strategy == DropOldest {
      PlacedDropLast(q, id);
      PlacedAccept(Settle(q.(queue := q.queue[..n - 1]), q.queue[n - 1], Overflow), true, id);
    } else {
      PlacedRefuse(q, q.fronts + {q.submitted}, id);
    }
  }

  lemma PlacedCall(q: Q, cfg: Config, step: Step, id: nat)
    requires PlacedOnce(q, id) && !Internal(step)
    ensures PlacedOnce(Take(q, cfg, step), id)
  {
    match step
    case DoEnqueue => PlacedEnqueue(q, cfg, id);
    case DoEnqueueFront => PlacedEnqueueFront(q, cfg, id);
    case DoClear => PlacedClear(q, id);
    case _ =>
  }

  lemma PlacedStep(q: Q, cfg: Config, step: Step, id: nat)
    requires PlacedOnce(q, id) && OneSlot(q) && Enabled(q, step)
    ensures PlacedOnce(Take(q, cfg, step), id)
  {
    match step
    case RunMicrotask => PlacedProcessNext(q.(microtasks := q.microtasks - 1), id);
    case TaskSettles(k, ok) => PlacedSettles(q, k, ok, id);
    case RunFinally(k) => PlacedFinally(q, k, id);
    case _ => PlacedCall(q, cfg, step, id);
  }

  lemma PlacedClear(q: Q, id: nat)
    requires PlacedOnce(q, id)
    ensures PlacedOnce(Clear(q), id)
  {
    ClearIds(q.settled, q.queue);
  }

  lemma PlacedFinally(q: Q, k: nat, id: nat)
    requires PlacedOnce(q, id) && OneSlot(q) && k < |q.inflight| && q.inflight[k].stage.Finishing?
    ensures PlacedOnce(ProcessNext(EmitState(Freed(q, k))), id)
  {
    Alone(q.inflight, k);
    PlacedProcessNext(EmitState(q.(inflight := [], isProcessing := false)), id);
  }

  lemma PlacedSettles(q: Q, k: nat, ok: bool, id: nat)
    requires PlacedOnce(q, id) && OneSlot(q) && k < |q.inflight| && q.inflight[k].stage.Running?
    ensures var task := q.inflight[k].id;
            PlacedOnce(Settle(q.(inflight := q.inflight[k := Flight(task, Finishing)]), task,
                              if ok then Fulfilled else TaskFailed), id)
  {
    var task, outcome := q.inflight[k].id, if ok then Fulfilled else TaskFailed;
    Alone(q.inflight, k);
    SettleIds(q.settled, task, outcome);
    var inflight := q.inflight[k := Flight(task, Finishing)];
    var r := Settle(q.(inflight := inflight), task, outcome);
    assert r.queue == q.queue && r.submitted == q.submitted && r.started == q.started;
    assert Ran(r.settled) == Ran(q.settled) + [task];
    assert multiset(Ran(r.settled))[id] == multiset(Ran(q.settled))[id] + multiset([task])[id];
    assert multiset(Ids(r.settled))[id] == multiset(Ids(q.settled))[id] + multiset([task])[id];
    assert RunningIds(r.inflight) == [];
  }

  /** The slot's content and bookkeeping when a single chain is in flight. */
  lemma Alone(inflight: seq<Flight>, k: nat)
    requires |inflight| == 1 && k < |inflight|
    ensures k == 0 && inflight == [inflight[0]]
    ensures RunningIds(inflight) == if inflight[0].stage.Running? then [inflight[0].id] else []
    ensures FlightWork(inflight) == if inflight[0].stage.Running? then 2 else 1
    ensures var settled := inflight[k := Flight(inflight[k].id, Finishing)];
            settled == [Flight(inflight[k].id, Finishing)] && RunningIds(settled) == [] && FlightWork(settled) == 1
    ensures inflight[..k] + inflight[k + 1..] == []
  {
    var settled := inflight[k := Flight(inflight[k].id, Finishing)];
    assert settled[1..] == [] && inflight[1..] == [];
  }

  lemma OrderProcessNext(q: Q)
    requires FrontsThenBacks(q)
    ensures FrontsThenBacks(ProcessNext(q))
  {
    if !q.isPaused && !q.isProcessing && q.queue != [] {
      assert (q.started + [q.queue[0]]) + q.queue[1..] == q.started + q.queue;
      forall i: nat, j: nat | i < j < |q.queue[1..]| ensures FrontAhead(q.queue[1..], q.fronts, i, j) {
        assert FrontAhead(q.queue, q.fronts, i + 1, j + 1);
      }
    }
  }

  /** Dropping one element of a line keeps the order of the others. */
  lemma OrderRemove(s: seq<nat>, fronts: set<nat>, n: nat, k: nat)
    requires k < |s| && InOrder(s, fronts)
    requires forall i: nat | i < |s| :: Known(s, n, i)
    ensures InOrder(s[..k] + s[k + 1..], fronts)
    ensures var r := s[..k] + s[k + 1..]; forall i: nat | i < |r| :: Known(r, n, i)
  {
    var r := s[..k] + s[k + 1..];
    forall i: nat, j: nat | i < j < |r| ensures Earlier(r, fronts, i, j) {
      assert Earlier(s, fronts, if i < k then i else i + 1, if j < k then j else j + 1);
    }
    forall i: nat | i < |r| ensures Known(r, n, i) {
      assert Known(s, n, if i < k then i else i + 1);
    }
  }

  lemma OrderAcceptBack(q: Q)
    requires FrontsThenBacks(q)
    ensures FrontsThenBacks(Accept(q, false))
  {
    var id, s := q.submitted, q.started + q.queue;
    var queue, t := q.queue + [id], s + [id];
    assert q.started + queue == t;
    forall i: nat, j: nat | i < j < |queue| ensures FrontAhead(queue, q.fronts, i, j) {
      if j < |q.queue| {
        assert FrontAhead(q.queue, q.fronts, i, j);
      }
    }
    var n := id + 1;
    forall i: nat | i < |t| ensures Known(t, n, i) {
      if i < |s| {
        assert Known(s, id, i);
      }
    }
    forall i: nat, j: nat | i < j < |t| ensures Earlier(t, q.fronts, i, j) {
      assert Known(s, id, i);
      if j < |s| {
        assert Earlier(s, q.fronts, i, j);
      }
    }
  }

  lemma OrderAcceptFront(q: Q)
    requires FrontsThenBacks(q)
    ensures FrontsThenBacks(Accept(q, true))
  {
    var id, s, m, fronts := q.submitted, q.started + q.queue, |q.started|, q.fronts + {q.submitted};
    var queue := [id] + q.queue;
    var t := q.started + queue;
    forall i: nat, j: nat | i < j < |queue| ensures FrontAhead(queue, fronts, i, j) {
      assert Known(s, id, m + j - 1);
      if i > 0 {
        assert FrontAhead(q.queue, q.fronts, i - 1, j - 1);
      }
    }
    var n := id + 1;
    forall i: nat | i < |t| ensures Known(t, n, i) {
      if i != m {
        assert Known(s, id, if i < m then i else i - 1);
      }
    }
    forall i: nat, j: nat | i < j < |t| ensures Earlier(t, fronts, i, j) {
      if i != m && j != m {
        assert Earlier(s, q.fronts, if i < m then i else i - 1, if j < m then j else j - 1);
      }
    }
  }

  lemma OrderStep(q: Q, cfg: Config, step: Step)
    requires FrontsThenBacks(q) && Enabled(q, step)
    ensures FrontsThenBacks(Take(q, cfg, step))
  {
    match step
    case DoEnqueue => OrderSubmit(q, cfg, false);
    case DoEnqueueFront => OrderSubmit(q, cfg, true);
    case DoClear => OrderClear(q);
    case DoPause =>
    case DoResume =>
    case RunMicrotask => OrderProcessNext(q.(microtasks := q.microtasks - 1));
    case TaskSettles(k, ok) =>
    case RunFinally(k) =>
      OrderProcessNext(EmitState(Freed(q, k)));
  }

  lemma OrderClear(q: Q)
    requires FrontsThenBacks(q)
    ensures FrontsThenBacks(Clear(q))
  {
    var s := q.started + q.queue;
    forall i: nat | i < |q.started| ensures Known(q.started, q.submitted, i) {
      assert Known(s, q.submitted, i);
    }
    forall i: nat, j: nat | i < j < |q.started| ensures Earlier(q.started, q.fronts, i, j) {
      assert Earlier(s, q.fronts, i, j);
    }
    assert q.started + [] == q.started;
  }

  lemma OrderRefuse(q: Q, fronts: set<nat>)
    requires FrontsThenBacks(q) && (fronts == q.fronts || fronts == q.fronts + {q.submitted})
    ensures FrontsThenBacks(Settle(q.(submitted := q.submitted + 1, fronts := fronts), q.submitted, Overflow))
  {
    var s := q.started + q.queue;
    var n := q.submitted + 1;
    forall i: nat | i < |s| ensures Known(s, n, i) && (s[i] in fronts <==> s[i] in q.fronts) {
      assert Known(s, q.submitted, i);
    }
    forall i: nat, j: nat | i < j < |s| ensures Earlier(s, fronts, i, j) {
      assert Earlier(s, q.fronts, i, j) && Known(s, q.submitted, i) && Known(s, q.submitted, j);
    }
    forall i: nat, j: nat | i < j < |q.queue| ensures FrontAhead(q.queue, fronts, i, j) {
      assert FrontAhead(q.queue, q.fronts, i, j);
      assert Known(s, q.submitted, |q.started| + i) && Known(s, q.submitted, |q.started| + j);
    }
  }

  lemma OrderSubmit(q: Q, cfg: Config, front: bool)
    requires FrontsThenBacks(q)
    ensures FrontsThenBacks(if front then EnqueueFront(q, cfg) else Enqueue(q, cfg))
  {
    var n := |q.queue|;
    if !CanAccept(q, cfg) && cfg.strategy != DropOldest {
      OrderRefuse(q, if front then q.fronts + {q.submitted} else q.fronts);
    } else {
      var roomy := q;
      if !CanAccept(q, cfg) && n > 0 {
        if front {
          var queue, s := q.queue[..|q.queue| - 1], q.started + q.queue;
          forall i: nat, j: nat | i < j < |queue| ensures FrontAhead(queue, q.fronts, i, j) {
            assert FrontAhead(q.queue, q.fronts, i, j);
          }
          OrderRemove(s, q.fronts, q.submitted, |s| - 1);
          assert q.started + queue == s[..|s| - 1] + s[|s|..];
          roomy := Settle(q.(queue := q.queue[..n - 1]), q.queue[n - 1], Overflow);
        } else {
          forall i: nat, j: nat | i < j < |q.queue[1..]| ensures FrontAhead(q.queue[1..], q.fronts, i, j) {
            assert FrontAhead(q.queue, q.fronts, i + 1, j + 1);
          }
          var s, m := q.started + q.queue, |q.started|;
          OrderRemove(s, q.fronts, q.submitted, m);
          assert q.started + q.queue[1..] == s[..m] + s[m + 1..];
          roomy := Settle(q.(queue := q.queue[1..]), q.queue[0], Overflow);
        }
      }
      if front {
        OrderAcceptFront(roomy);
      } else {
        OrderAcceptBack(roomy);
      }
    }
  }

  lemma ProcessObserved(q: Q)
    requires Observed(q)
    ensures Observed(ProcessNext(q))
  {
  }

  lemma AcceptObserved(q: Q, front: bool)
    ensures Observed(Accept(q, front))
  {
  }

  lemma EnqueueObserved(q: Q, cfg: Config)
    requires Observed(q)
    ensures Observed(Enqueue(q, cfg))
  {
    if CanAccept(q, cfg) || (cfg.strategy == DropOldest && q.queue == []) {
      AcceptObserved(q, false);
    } else if cfg.strategy == DropOldest {
      AcceptObserved(Settle(q.(queue := q.queue[1..]), q.queue[0], Overflow), false);
    }
  }

  lemma EnqueueFrontObserved(q: Q, cfg: Config)
    requires Observed(q)
    ensures Observed(EnqueueFront(q, cfg))
  {
    var n := |q.queue|;
    if CanAccept(q, cfg) || (cfg.strategy == DropOldest && n == 0) {
      AcceptObserved(q, true);
    } else if cfg.strategy == DropOldest {
      AcceptObserved(Settle(q.(queue := q.queue[..n - 1]), q.queue[n - 1], Overflow), true);
    }
  }

  lemma ObservedStep(q: Q, cfg: Config, step: Step)
    requires Observed(q) && Enabled(q, step)
    ensures Observed(Take(q, cfg, step))
  {
    match step
    case DoEnqueue => EnqueueObserved(q, cfg);
    case DoEnqueueFront => EnqueueFrontObserved(q, cfg);
    case RunMicrotask => ProcessObserved(q.(microtasks := q.microtasks - 1));
    case RunFinally(k) =>
      ProcessObserved(EmitState(Freed(q, k)));
    case _ =>
  }

  predicate Counters(q: Q, cfg: Config) {
    OneSlot(q) && Live(q) && Bounded(q, cfg)
  }

  lemma CountersEnqueue(q: Q, cfg: Config)
    requires Counters(q, cfg)
    ensures Counters(Enqueue(q, cfg), cfg)
  {
  }

  lemma CountersEnqueueFront(q: Q, cfg: Config)
    requires Counters(q, cfg)
    ensures Counters(EnqueueFront(q, cfg), cfg)
  {
  }

  lemma CountersProcessNext(q: Q, cfg: Config)
    requires OneSlot(q) && Bounded(q, cfg)
    ensures Counters(ProcessNext(q), cfg)
  {
  }

  /** Slot, liveness and bound after each step. */
  lemma CountersStep(q: Q, cfg: Config, step: Step)
    requires Counters(q, cfg) && Enabled(q, step)
    ensures Counters(Take(q, cfg, step), cfg)
  {
    match step
    case DoEnqueue => CountersEnqueue(q, cfg);
    case DoEnqueueFront => CountersEnqueueFront(q, cfg);
    case RunMicrotask => CountersProcessNext(q.(microtasks := q.microtasks - 1), cfg);
    case RunFinally(k) => CountersProcessNext(EmitState(Freed(q, k)), cfg);
    case _ =>
  }

  lemma StepKeepsInv(q: Q, cfg: Config, step: Step)
    requires Inv(q, cfg) && Enabled(q, step)
    ensures Inv(Take(q, cfg, step), cfg)
  {
    CountersStep(q, cfg, step);
    forall id: nat ensures PlacedOnce(Take(q, cfg, step), id) {
      PlacedStep(q, cfg, step, id);
    }
    OrderStep(q, cfg, step);
    ObservedStep(q, cfg, step);
  }

  /** The invariant holds in every state any run from the empty queue can reach. */
  lemma {:induction false} RunsKeepInv(q: Q, cfg: Config, steps: seq<Step>, q': Q)
    requires Inv(q, cfg) && Runs(q, cfg, steps, q')
    ensures Inv(q', cfg)
    decreases |steps|
  {
    if steps == [] {
    } else {
      StepKeepsInv(q, cfg, steps[0]);
      RunsKeepInv(Take(q, cfg, steps[0]), cfg, steps[1..], q');
    }
  }

  lemma Reachable(cfg: Config, steps: seq<Step>, q: Q)
    requires Runs(EMPTY, cfg, steps, q)
    ensures Inv(q, cfg)
  {
    assert Ids([]) == [];
    assert forall id: nat :: PlacedOnce(EMPTY, id);
    RunsKeepInv(EMPTY, cfg, steps, q);
  }

  // ---------------------------------------------------------------- what it means

  /**
   Conservation over whole runs: every submission ever made is waiting, running or settled,
   exactly once, so no promise settles twice and nothing is lost; unknown ids occur nowhere.
   A task that was dropped, cleared or is still waiting was never started, and none starts twice.
   */
  lemma {:induction false} ExactlyOnePlace(cfg: Config, steps: seq<Step>, q: Q, id: nat)
    requires Runs(EMPTY, cfg, steps, q)
    ensures multiset(q.queue)[id] + multiset(RunningIds(q.inflight))[id] + multiset(Ids(q.settled))[id]
            == if id < q.submitted then 1 else 0
    ensures multiset(q.started)[id] == multiset(RunningIds(q.inflight))[id] + multiset(Ran(q.settled))[id] <= 1
  {
    Reachable(cfg, steps, q);
    assert PlacedOnce(q, id);
    RanAreSettled(q.settled, id);
  }

  lemma {:induction false} RanAreSettled(settled: seq<Settlement>, id: nat)
    ensures multiset(Ran(settled))[id] <= multiset(Ids(settled))[id]
  {
    if settled == [] {
    } else {
      var front, last := settled[..|settled| - 1], settled[|settled| - 1];
      RanAreSettled(front, id);
      SettleIds(front, last.id, last.outcome);
      assert settled == front + [last];
    }
  }

  /** At most one task runs at a time, and the flag tells exactly whether the slot is taken. */
  lemma SingleSlot(cfg: Config, steps: seq<Step>, q: Q)
    requires Runs(EMPTY, cfg, steps, q)
    ensures |q.inflight| <= 1 && (q.isProcessing <==> q.inflight != [])
  {
    Reachable(cfg, steps, q);
  }

  /** Entries added by enqueue never overtake one another, whatever else happens. */
  lemma NoOvertaking(cfg: Config, steps: seq<Step>, q: Q, i: nat, j: nat)
    requires Runs(EMPTY, cfg, steps, q)
    requires i < j < |q.started| && q.started[i] !in q.fronts && q.started[j] !in q.fronts
    ensures q.started[i] < q.started[j]
  {
    Reachable(cfg, steps, q);
    assert Earlier(q.started + q.queue, q.fronts, i, j);
  }

  /**
   The waiting line in every reachable state: front submissions before all others, the newest of
   them first; then the others, the oldest first.
   */
  lemma WaitingLine(cfg: Config, steps: seq<Step>, q: Q, i: nat, j: nat)
    requires Runs(EMPTY, cfg, steps, q) && i < j < |q.queue|
    ensures q.queue[j] in q.fronts ==> q.queue[i] in q.fronts && q.queue[i] > q.queue[j]
    ensures q.queue[i] !in q.fronts ==> q.queue[j] !in q.fronts && q.queue[i] < q.queue[j]
  {
    Reachable(cfg, steps, q);
    assert FrontAhead(q.queue, q.fronts, i, j);
    var s := q.started + q.queue;
    assert s[|q.started| + i] == q.queue[i] && s[|q.started| + j] == q.queue[j];
    assert Earlier(s, q.fronts, |q.started| + i, |q.started| + j);
  }

  /** The waiting line stays within its bound; dropping the oldest with size 0 still keeps one. */
  lemma WaitingBound(cfg: Config, steps: seq<Step>, q: Q)
    requires Runs(EMPTY, cfg, steps, q) && cfg.maxSize.Some? && cfg.maxSize.value >= 0
    ensures cfg.strategy != DropOldest ==> |q.queue| <= cfg.maxSize.value
    ensures |q.queue| <= if cfg.maxSize.value == 0 then 1 else cfg.maxSize.value
  {
    Reachable(cfg, steps, q);
  }

  /** With size 0 and drop_oldest the bound 1 is reached. */
  lemma SizeZeroHoldsOne()
    ensures var cfg := Config(Some(0), DropOldest);
      Runs(EMPTY, cfg, [DoEnqueue], Enqueue(EMPTY, cfg)) && |Enqueue(EMPTY, cfg).queue| == 1
  {
    var cfg := Config(Some(0), DropOldest);
    assert Runs(Take(EMPTY, cfg, DoEnqueue), cfg, [DoEnqueue][1..], Enqueue(EMPTY, cfg));
  }

  /** While paused no task is started, and one that is already running still finishes. */
  lemma PausedStartsNothing(q: Q, cfg: Config, step: Step)
    requires q.isPaused && Enabled(q, step) && step != DoResume
    ensures Take(q, cfg, step).started == q.started && Take(q, cfg, step).isPaused
  {
    if step.RunFinally? {
      assert ProcessNext(EmitState(Freed(q, step.k))).started == q.started;
    }
  }

  /** What the last pause or resume among the steps asked for. */
  function PauseAsked(steps: seq<Step>): Option<bool> {
    if steps == [] then None
    else
      var rest := PauseAsked(steps[1..]);
      if rest.Some? then rest
      else if steps[0].DoPause? then Some(true)
      else if steps[0].DoResume? then Some(false)
      else None
  }

  lemma StepPauses(q: Q, cfg: Config, step: Step)
    requires Enabled(q, step)
    ensures Take(q, cfg, step).isPaused == if step.DoPause? then true else if step.DoResume? then false else q.isPaused
  {
  }

  lemma {:induction false} PausedFrom(q: Q, cfg: Config, steps: seq<Step>, q': Q)
    requires Runs(q, cfg, steps, q')
    ensures q'.isPaused == if PauseAsked(steps).Some? then PauseAsked(steps).value else q.isPaused
    decreases |steps|
  {
    if steps == [] {
    } else {
      StepPauses(q, cfg, steps[0]);
      PausedFrom(Take(q, cfg, steps[0]), cfg, steps[1..], q');
    }
  }

  /**
   After any run the queue is paused if and only if the last pause or resume was a pause; only then
   does a resume do anything, and it brings a processNext.
   */
  lemma PausedAsAsked(cfg: Config, steps: seq<Step>, q: Q)
    requires Runs(EMPTY, cfg, steps, q)
    ensures q.isPaused <==> PauseAsked(steps) == Some(true)
    ensures var r := Take(q, cfg, DoResume);
      && (r == q <==> PauseAsked(steps) != Some(true))
      && (PauseAsked(steps) == Some(true) ==> r.microtasks == q.microtasks + 1)
  {
    PausedFrom(EMPTY, cfg, steps, q);
    assert PauseAsked(steps) != Some(true) ==> Resume(q) == q;
  }

  // ---------------------------------------------------------------- which way a submission is settled

  /** The call finds the queue at its bound. */
  predicate FindsFull(q: Q, cfg: Config, step: Step) {
    (step.DoEnqueue? || step.DoEnqueueFront?) && cfg.maxSize.Some? && 0 <= cfg.maxSize.value <= |q.queue|
  }

  /**
   The step settles submission `id` this way: by its task, which was in flight; by overflow, if it is
   the one refused, or the one farthest from the end being pushed to; or by a clear that found it waiting.
   */
  predicate SettlesAs(q: Q, cfg: Config, step: Step, id: nat, outcome: Outcome) {
    match outcome
    case Fulfilled => step.TaskSettles? && step.ok && step.k < |q.inflight| && q.inflight[step.k].id == id
    case TaskFailed => step.TaskSettles? && !step.ok && step.k < |q.inflight| && q.inflight[step.k].id == id
    case Overflow =>
      && FindsFull(q, cfg, step)
      && (if cfg.strategy != DropOldest then id == q.submitted
          else q.queue != [] && id == q.queue[if step.DoEnqueue? then 0 else |q.queue| - 1])
    case Cleared => step.DoClear? && id in q.queue
  }

  lemma ProcessSettlesNothing(q: Q)
    ensures ProcessNext(q).settled == q.settled
  {
  }

  lemma ClearSettles(q: Q, s: Settlement)
    ensures s in Clear(q).settled <==> s in q.settled || (s.outcome.Cleared? && s.id in q.queue)
  {
    var all := ClearedAll(q.queue);
    if s.outcome.Cleared? && s.id in q.queue {
      var k: nat :| k < |q.queue| && q.queue[k] == s.id;
      assert all[k] == s;
    }
    assert Clear(q).settled == q.settled + all;
  }

  lemma AcceptSettlesNothing(q: Q, front: bool)
    ensures Accept(q, front).settled == q.settled
  {
  }

  lemma EnqueueSettles(q: Q, cfg: Config, s: Settlement)
    ensures s in Enqueue(q, cfg).settled <==> s in q.settled || SettlesAs(q, cfg, DoEnqueue, s.id, s.outcome)
  {
    if CanAccept(q, cfg) || (cfg.strategy == DropOldest && q.queue == []) {
      AcceptSettlesNothing(q, false);
    } else if cfg.strategy == DropOldest {
      AcceptSettlesNothing(Settle(q.(queue := q.queue[1..]), q.queue[0], Overflow), false);
    }
  }

  lemma EnqueueFrontSettles(q: Q, cfg: Config, s: Settlement)
    ensures s in EnqueueFront(q, cfg).settled <==> s in q.settled || SettlesAs(q, cfg, DoEnqueueFront, s.id, s.outcome)
  {
    var n := |q.queue|;
    if CanAccept(q, cfg) || (cfg.strategy == DropOldest && n == 0) {
      AcceptSettlesNothing(q, true);
    } else if cfg.strategy == DropOldest {
      AcceptSettlesNothing(Settle(q.(queue := q.queue[..n - 1]), q.queue[n - 1], Overflow), true);
    }
  }

  lemma StepSettlesAs(q: Q, cfg: Config, step: Step, s: Settlement)
    requires Enabled(q, step)
    ensures s in Take(q, cfg, step).settled <==> s in q.settled || SettlesAs(q, cfg, step, s.id, s.outcome)
  {
    match step
    case DoEnqueue => EnqueueSettles(q, cfg, s);
    case DoEnqueueFront => EnqueueFrontSettles(q, cfg, s);
    case DoClear => ClearSettles(q, s);
    case RunMicrotask => ProcessSettlesNothing(q.(microtasks := q.microtasks - 1));
    case RunFinally(k) => ProcessSettlesNothing(EmitState(Freed(q, k)));
    case _ =>
  }

  /** Some step of the run settles the submission this way. */
  ghost predicate EverSettles(q: Q, cfg: Config, steps: seq<Step>, id: nat, outcome: Outcome)
    decreases |steps|
  {
    steps != [] && (SettlesAs(q, cfg, steps[0], id, outcome)
                    || (Enabled(q, steps[0]) && EverSettles(Take(q, cfg, steps[0]), cfg, steps[1..], id, outcome)))
  }

  lemma {:induction false} SettledFrom(q: Q, cfg: Config, steps: seq<Step>, q': Q, s: Settlement)
    requires Runs(q, cfg, steps, q')
    ensures s in q'.settled <==> s in q.settled || EverSettles(q, cfg, steps, s.id, s.outcome)
    decreases |steps|
  {
    if steps == [] {
    } else {
      StepSettlesAs(q, cfg, steps[0], s);
      SettledFrom(Take(q, cfg, steps[0]), cfg, steps[1..], q', s);
    }
  }

  /**
   Every promise is settled the way the run says: fulfilled or rejected as its own task ended, or
   rejected by the overflow or the clear that met it. By `ExactlyOnePlace` this happens at most once.
   */
  lemma SettledAsTold(cfg: Config, steps: seq<Step>, q: Q, id: nat, outcome: Outcome)
    requires Runs(EMPTY, cfg, steps, q)
    ensures Settlement(id, outcome) in q.settled <==> EverSettles(EMPTY, cfg, steps, id, outcome)
  {
    SettledFrom(EMPTY, cfg, steps, q, Settlement(id, outcome));
  }

  // ---------------------------------------------------------------- progress

  function FlightWork(inflight: seq<Flight>): nat {
    if inflight == [] then 0
    else (if inflight[0].stage.Running? then 2 else 1) + FlightWork(inflight[1..])
  }

  /** The work the event loop still owes the queue. */
  function Work(q: Q): nat {
    3 * |q.queue| + FlightWork(q.inflight) + q.microtasks
  }

  /** Every internal step uses up work. */
  lemma InternalStepsUseWork(q: Q, cfg: Config, step: Step)
    requires Inv(q, cfg) && Internal(step) && Enabled(q, step)
    ensures Work(Take(q, cfg, step)) < Work(q)
    ensures Take(q, cfg, step).submitted == q.submitted && Take(q, cfg, step).isPaused == q.isPaused
  {
    if step.TaskSettles? || step.RunFinally? {
      Alone(q.inflight, step.k);
    }
    if step.RunMicrotask? || step.RunFinally? {
      var r := Take(q, cfg, step);
      if r.inflight != [] && |r.inflight| == 1 {
        Alone(r.inflight, 0);
      }
    }
  }

  ghost predicate Quiescent(q: Q) {
    forall step | Internal(step) :: !Enabled(q, step)
  }

  /** An unpaused queue that can take no internal step has nothing left to do. */
  lemma QuiescentIsDrained(q: Q, cfg: Config, id: nat)
    requires Inv(q, cfg) && !q.isPaused && Quiescent(q)
    ensures q.queue == [] && q.inflight == [] && !q.isProcessing
    ensures multiset(Ids(q.settled))[id] == if id < q.submitted then 1 else 0
  {
    assert !Enabled(q, RunMicrotask);
    assert !Enabled(q, TaskSettles(0, true)) && !Enabled(q, RunFinally(0));
    assert PlacedOnce(q, id);
  }

  /**
   With no further calls and unpaused, every schedule of tasks finishing and callbacks running is
   finite, at most as long as the work left, and one that cannot go on has settled every
   submission.
   */
  lemma {:induction false} EveryScheduleDrains(q: Q, cfg: Config, steps: seq<Step>, q': Q)
    requires Inv(q, cfg) && !q.isPaused && Runs(q, cfg, steps, q')
    requires forall k | 0 <= k < |steps| :: Internal(steps[k])
    ensures |steps| <= Work(q) - Work(q')
    ensures Quiescent(q') ==>
              && q'.queue == [] && q'.inflight == []
              && forall id: nat :: multiset(Ids(q'.settled))[id] == if id < q.submitted then 1 else 0
    decreases |steps|
  {
    if steps == [] {
      if Quiescent(q') {
        forall id: nat ensures multiset(Ids(q'.settled))[id] == if id < q.submitted then 1 else 0 {
          QuiescentIsDrained(q', cfg, id);
        }
        QuiescentIsDrained(q', cfg, 0);
      }
    } else {
      StepKeepsInv(q, cfg, steps[0]);
      InternalStepsUseWork(q, cfg, steps[0]);
      EveryScheduleDrains(Take(q, cfg, steps[0]), cfg, steps[1..], q');
    }
  }
}
