/** The queue object: the closure variables of createAsyncQueue and its event loop (asyncQueue.ts). */
module AsyncQueue {
  import opened QueueCore
  import Spec = QueueCore

  class AsyncQueueControls {
    const cfg: Config
    /** The closure variables. An entry is the number of its submission. */
    var queue: seq<nat>
    var isProcessing: bool
    var isPaused: bool
    /** What the event loop and the promises hold. */
    var inflight: seq<Flight>
    var microtasks: nat
    var settled: seq<Settlement>
    var submitted: nat
    var notices: seq<Notice>
    ghost var started: seq<nat>
    ghost var fronts: set<nat>

    ghost function View(): Q
      reads this
    {
      Q(queue, isProcessing, isPaused, inflight, microtasks, settled, started, submitted, fronts, notices)
    }

    constructor (cfg: Config)
      ensures View() == EMPTY && this.cfg == cfg
    {
      this.cfg := cfg;
      queue, isProcessing, isPaused := [], false, false;
      inflight, microtasks, settled, submitted, notices := [], 0, [], 0, [];
      started, fronts := [], {};
    }

    method GetState() returns (state: Notice)
      ensures state == StateOf(View())
    {
      state := Notice(|queue|, isProcessing, isPaused);
    }

    method EmitState()
      modifies this`notices
      ensures View() == Spec.EmitState(old(View()))
    {
      notices := notices + [Notice(|queue|, isProcessing, isPaused)];
    }

    /** A call of an entry's resolve or reject. */
    method Settle(id: nat, outcome: Outcome)
      modifies this`settled
      ensures View() == Spec.Settle(old(View()), id, outcome)
    {
      settled := settled + [Settlement(id, outcome)];
    }

    method ProcessNext()
      modifies this
      ensures View() == Spec.ProcessNext(old(View()))
    {
      if isPaused {
        EmitState();
        return;
      }
      if isProcessing {
        return;
      }
      if |queue| == 0 {
        EmitState();
        return;
      }
      var next := queue[0];
      queue := queue[1..];
      isProcessing := true;
      started := started + [next];
      inflight := inflight + [Flight(next, Running)];
      EmitState();
    }

    /** canAccept and enforceCapacity; `front` tells which end an overflow drops from. */
    method EnforceCapacity(id: nat, front: bool) returns (accepted: bool)
      modifies this`queue, this`settled
      ensures accepted == (CanAccept(old(View()), cfg) || cfg.strategy == DropOldest)
      ensures View() ==
        if CanAccept(old(View()), cfg) || (cfg.strategy == DropOldest && |old(queue)| == 0) then old(View())
        else if cfg.strategy == DropOldest then
          if front then Spec.Settle(old(View()).(queue := old(queue)[..|old(queue)| - 1]),
                                    old(queue)[|old(queue)| - 1], Overflow)
          else Spec.Settle(old(View()).(queue := old(queue)[1..]), old(queue)[0], Overflow)
        else Spec.Settle(old(View()), id, Overflow)
    {
      if cfg.maxSize.None? || cfg.maxSize.value < 0 || |queue| < cfg.maxSize.value {
        return true;
      }
      if cfg.strategy == DropOldest {
        if |queue| > 0 {
          var dropped := if front then queue[|queue| - 1] else queue[0];
          queue := if front then queue[..|queue| - 1] else queue[1..];
          Settle(dropped, Overflow);
        }
        return true;
      }
      Settle(id, Overflow);
      accepted := false;
    }

    method Enqueue()
      modifies this
      ensures View() == Spec.Enqueue(old(View()), cfg)
    {
      var id := submitted;
      submitted := submitted + 1;
      var accepted := EnforceCapacity(id, false);
      if !accepted {
        return;
      }
      queue := queue + [id];
      EmitState();
      microtasks := microtasks + 1;
    }

    method EnqueueFront()
      modifies this
      ensures View() == Spec.EnqueueFront(old(View()), cfg)
    {
      var id := submitted;
      submitted := submitted + 1;
      fronts := fronts + {id};
      var accepted := EnforceCapacity(id, true);
      if !accepted {
        return;
      }
      queue := [id] + queue;
      EmitState();
      microtasks := microtasks + 1;
    }

    /** Rejects every waiting entry, oldest position first, and counts them. */
    method Clear() returns (cleared: nat)
      modifies this`queue, this`settled, this`notices
      ensures View() == Spec.Clear(old(View()))
      ensures cleared == |old(queue)|
    {
      cleared := 0;
      while |queue| > 0
        invariant cleared <= |old(queue)| && queue == old(queue)[cleared..]
        invariant settled == old(settled) + ClearedAll(old(queue)[..cleared])
        invariant notices == old(notices)
      {
        var entry := queue[0];
        queue := queue[1..];
        Settle(entry, Cleared);
        cleared := cleared + 1;
      }
      assert old(queue)[..cleared] == old(queue);
      EmitState();
    }

    method Pause()
      modifies this
      ensures View() == Spec.Pause(old(View()))
    {
      isPaused := true;
      EmitState();
    }

    method Resume()
      modifies this
      ensures View() == Spec.Resume(old(View()))
    {
      if !isPaused {
        return;
      }
      isPaused := false;
      EmitState();
      microtasks := microtasks + 1;
    }

    /** The event loop runs one scheduled processNext. */
    method OnMicrotask()
      requires Enabled(View(), RunMicrotask)
      modifies this
      ensures View() == Take(old(View()), cfg, RunMicrotask)
    {
      microtasks := microtasks - 1;
      ProcessNext();
    }

    /** The promise of the k-th task in flight settles: its then or catch handler runs. */
    method OnSettled(k: nat, ok: bool)
      requires Enabled(View(), TaskSettles(k, ok))
      modifies this
      ensures View() == Take(old(View()), cfg, TaskSettles(k, ok))
    {
      var id := inflight[k].id;
      inflight := inflight[k := Flight(id, Finishing)];
      Settle(id, if ok then Fulfilled else TaskFailed);
    }

    /** The finally handler of the k-th task in flight runs. */
    method OnFinally(k: nat)
      requires Enabled(View(), RunFinally(k))
      modifies this
      ensures View() == Take(old(View()), cfg, RunFinally(k))
    {
      inflight := inflight[..k] + inflight[k + 1..];
      isProcessing := false;
      EmitState();
      ProcessNext();
    }

    method CanPerform(step: Step) returns (can: bool)
      ensures can == Enabled(View(), step)
    {
      match step
      case RunMicrotask => can := microtasks > 0;
      case TaskSettles(k, _) => can := k < |inflight| && inflight[k].stage.Running?;
      case RunFinally(k) => can := k < |inflight| && inflight[k].stage.Finishing?;
      case _ => can := true;
    }

    /** One step: a call from outside, or something the event loop does. */
    method Perform(step: Step)
      requires Enabled(View(), step)
      modifies this
      ensures View() == Take(old(View()), cfg, step)
    {
      match step
      case DoEnqueue => Enqueue();
      case DoEnqueueFront => EnqueueFront();
      case DoClear => var _ := Clear();
      case DoPause => Pause();
      case DoResume => Resume();
      case RunMicrotask => OnMicrotask();
      case TaskSettles(k, ok) => OnSettled(k, ok);
      case RunFinally(k) => OnFinally(k);
    }

    /**
     Lets the event loop run until nothing is left to do: microtasks first, then the task in flight,
     which `succeeds` or fails, and its finally handler. It comes to rest, and if not paused has
     settled every submission exactly once.
     */
    method Drain(succeeds: nat -> bool)
      requires Inv(View(), cfg)
      modifies this
      ensures Inv(View(), cfg) && submitted == old(submitted) && isPaused == old(isPaused)
      ensures microtasks == 0 && inflight == [] && !isProcessing
      ensures !isPaused ==> queue == [] && SettledOnce(settled, submitted)
      ensures old(settled) <= settled && ByTasks(settled[|old(settled)|..], succeeds)
    {
      while microtasks > 0 || |inflight| > 0
        invariant Inv(View(), cfg) && submitted == old(submitted) && isPaused == old(isPaused)
        invariant old(settled) <= settled && ByTasks(settled[|old(settled)|..], succeeds)
        decreases Work(View())
      {
        var step := if microtasks > 0 then RunMicrotask
                    else if inflight[0].stage.Running? then TaskSettles(0, succeeds(inflight[0].id))
                    else RunFinally(0);
        StepKeepsInv(View(), cfg, step);
        InternalStepsUseWork(View(), cfg, step);
        DrainStepSettles(View(), cfg, step, succeeds, |old(settled)|);
        Perform(step);
      }
      if !isPaused {
        assert Quiescent(View());
        forall id: nat ensures multiset(Ids(View().settled))[id] == if id < View().submitted then 1 else 0 {
          QuiescentIsDrained(View(), cfg, id);
        }
        QuiescentIsDrained(View(), cfg, 0);
      }
    }
  }

  /** Each of these promises was settled as its own task ended. */
  predicate ByTasks(more: seq<Settlement>, succeeds: nat -> bool) {
    forall k | 0 <= k < |more| :: more[k].outcome == if succeeds(more[k].id) then Fulfilled else TaskFailed
  }

  /** A step of the draining event loop settles at most the task in flight, as that task ends. */
  lemma DrainStepSettles(q: Q, cfg: Config, step: Step, succeeds: nat -> bool, n: nat)
    requires Enabled(q, step) && Internal(step) && n <= |q.settled| && ByTasks(q.settled[n..], succeeds)
    requires step.TaskSettles? ==> step.ok == succeeds(q.inflight[step.k].id)
    ensures q.settled <= Take(q, cfg, step).settled && ByTasks(Take(q, cfg, step).settled[n..], succeeds)
  {
    match step
    case RunMicrotask => ProcessSettlesNothing(q.(microtasks := q.microtasks - 1));
    case RunFinally(k) => ProcessSettlesNothing(EmitState(Freed(q, k)));
    case TaskSettles(_, _) =>
  }

  ghost predicate SettledOnce(settled: seq<Settlement>, submitted: nat) {
    forall id: nat :: multiset(Ids(settled))[id] == if id < submitted then 1 else 0
  }

  /** What a schedule does to a queue, leaving out the steps that are not enabled when their turn comes. */
  function Played(q: Q, cfg: Config, schedule: seq<Step>): (Q, seq<Step>) {
    if schedule == [] then (q, [])
    else
      var (r, taken) := Played(q, cfg, schedule[..|schedule| - 1]);
      var step := schedule[|schedule| - 1];
      if Enabled(r, step) then (Take(r, cfg, step), taken + [step]) else (r, taken)
  }

  lemma {:induction false} RunsSnoc(q: Q, cfg: Config, steps: seq<Step>, r: Q, step: Step)
    requires Runs(q, cfg, steps, r) && Enabled(r, step)
    ensures Runs(q, cfg, steps + [step], Take(r, cfg, step))
    decreases |steps|
  {
    if steps == [] {
      assert ([] + [step])[1..] == [];
      assert Runs(Take(q, cfg, step), cfg, [], Take(r, cfg, step));
    } else {
      assert (steps + [step])[1..] == steps[1..] + [step];
      RunsSnoc(Take(q, cfg, steps[0]), cfg, steps[1..], r, step);
    }
  }

  lemma {:induction false} PlayedRuns(q: Q, cfg: Config, schedule: seq<Step>)
    ensures Runs(q, cfg, Played(q, cfg, schedule).1, Played(q, cfg, schedule).0)
  {
    if schedule == [] {
    } else {
      PlayedRuns(q, cfg, schedule[..|schedule| - 1]);
      var before, step := Played(q, cfg, schedule[..|schedule| - 1]), schedule[|schedule| - 1];
      if Enabled(before.0, step) {
        RunsSnoc(q, cfg, before.1, before.0, step);
      }
    }
  }

  /**
   Any schedule of calls and event loop steps on a new queue object, then letting it come to rest.
   The object goes through the states of a run, so in particular at most one task is ever in
   flight; and unless it ends paused, every submission has been settled exactly once.
   */
  method RunSchedule(cfg: Config, schedule: seq<Step>, succeeds: nat -> bool)
    returns (before: Notice, after: Notice, submitted: nat, settled: seq<Settlement>)
    ensures var (q, taken) := Played(EMPTY, cfg, schedule);
      && Runs(EMPTY, cfg, taken, q) && Inv(q, cfg) && before == StateOf(q) && submitted == q.submitted
      && after.isPaused == before.isPaused && !after.isProcessing
      && (!after.isPaused ==> after.pendingCount == 0 && SettledOnce(settled, submitted))
      && q.settled <= settled && ByTasks(settled[|q.settled|..], succeeds)
  {
    var controls := new AsyncQueueControls(cfg);
    for n := 0 to |schedule|
      invariant controls.cfg == cfg && fresh(controls)
      invariant controls.View() == Played(EMPTY, cfg, schedule[..n]).0
    {
      assert schedule[..n + 1][..n] == schedule[..n];
      var can := controls.CanPerform(schedule[n]);
      if can {
        controls.Perform(schedule[n]);
      }
    }
    assert schedule[..|schedule|] == schedule;
    PlayedRuns(EMPTY, cfg, schedule);
    Reachable(cfg, Played(EMPTY, cfg, schedule).1, controls.View());
    before := controls.GetState();
    controls.Drain(succeeds);
    after := controls.GetState();
    submitted, settled := controls.submitted, controls.settled;
  }
}
