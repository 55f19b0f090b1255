/** Load counters in recency-evicting maps (allowlist.ts). */
module AllowlistStats {
  import opened Options
  import opened Sequences

  /** A JavaScript Map: entries in iteration order. */
  type OrderedMap<V> = seq<(string, V)>

  function Keys<V>(m: OrderedMap<V>): (r: seq<string>)
    ensures |r| == |m|
  {
    if m == [] then [] else [m[0].0] + Keys(m[1..])
  }

  function Get<V>(m: OrderedMap<V>, key: string): Option<V> {
    if m == [] then None else if m[0].0 == key then Some(m[0].1) else Get(m[1..], key)
  }

  /** map.set: a known key keeps its place. */
  function Set<V>(m: OrderedMap<V>, key: string, value: V): OrderedMap<V> {
    if m == [] then [(key, value)]
    else if m[0].0 == key then [(key, value)] + m[1..]
    else [m[0]] + Set(m[1..], key, value)
  }

  /** map.delete */
  function Delete<V>(m: OrderedMap<V>, key: string): OrderedMap<V> {
    if m == [] then [] else if m[0].0 == key then m[1..] else [m[0]] + Delete(m[1..], key)
  }

  /** Makes `key` the newest entry, then evicts the oldest one if there are too many. */
  function Touch<V>(m: OrderedMap<V>, key: string, value: V, limit: nat): OrderedMap<V> {
    var touched := Delete(m, key) + [(key, value)];
    if |touched| > limit then touched[1..] else touched
  }

  function Bumped(m: OrderedMap<nat>, key: string): nat {
    match Get(m, key)
    case Some(n) => n + 1
    case None => 1
  }

  // ---------------------------------------------------------------- map laws

  lemma {:induction false} KeysConcat<V>(a: OrderedMap<V>, b: OrderedMap<V>)
    ensures Keys(a + b) == Keys(a) + Keys(b)
  {
    if a == [] {
      assert a + b == b;
    } else {
      assert (a + b)[1..] == a[1..] + b;
      KeysConcat(a[1..], b);
    }
  }

  lemma {:induction false} DeleteKeys<V>(m: OrderedMap<V>, key: string)
    requires Distinct(Keys(m))
    ensures Keys(Delete(m, key)) == Without(Keys(m), key)
  {
    if m == [] {
    } else {
      DistinctTail(Keys(m));
      assert Keys(m)[1..] == Keys(m[1..]);
      if m[0].0 == key {
        assert key !in Keys(m[1..]);
        WithoutAbsent(Keys(m[1..]), key);
      } else {
        DeleteKeys(m[1..], key);
        assert ([m[0]] + Delete(m[1..], key))[1..] == Delete(m[1..], key);
      }
    }
  }

  lemma {:induction false} GetPresent<V>(m: OrderedMap<V>, key: string)
    ensures Get(m, key).Some? <==> key in Keys(m)
  {
    if m == [] {
    } else {
      GetPresent(m[1..], key);
    }
  }

  lemma {:induction false} GetDelete<V>(m: OrderedMap<V>, key: string, other: string)
    requires other != key
    ensures Get(Delete(m, key), other) == Get(m, other)
  {
    if m == [] || m[0].0 == key {
    } else {
      GetDelete(m[1..], key, other);
      assert ([m[0]] + Delete(m[1..], key))[1..] == Delete(m[1..], key);
    }
  }

  lemma {:induction false} GetConcat<V>(a: OrderedMap<V>, b: OrderedMap<V>, key: string)
    ensures Get(a + b, key) == if Get(a, key).Some? then Get(a, key) else Get(b, key)
  {
    if a == [] {
      assert a + b == b;
    } else {
      assert (a + b)[1..] == a[1..] + b;
      GetConcat(a[1..], b, key);
    }
  }

  /** Setting, deleting and setting again moves a key to the end. */
  lemma {:induction false} SetDelete<V>(m: OrderedMap<V>, key: string, value: V)
    ensures Delete(Set(m, key, value), key) == Delete(m, key)
  {
    if m == [] || m[0].0 == key {
    } else {
      SetDelete(m[1..], key, value);
      assert ([m[0]] + Set(m[1..], key, value))[1..] == Set(m[1..], key, value);
    }
  }

  lemma {:induction false} SetNew<V>(m: OrderedMap<V>, key: string, value: V)
    requires key !in Keys(m)
    ensures Set(m, key, value) == m + [(key, value)]
  {
    if m == [] {
    } else {
      SetNew(m[1..], key, value);
    }
  }

  // ---------------------------------------------------------------- one update

  /** The keys after a touch: the key moves to the end, and the list is cut to the newest. */
  lemma TouchKeys<V>(m: OrderedMap<V>, key: string, value: V, limit: nat)
    requires Distinct(Keys(m))
    ensures var keys := Without(Keys(m), key) + [key];
      && Keys(Touch(m, key, value, limit)) == (if |keys| > limit then keys[1..] else keys)
      && Distinct(Keys(Touch(m, key, value, limit)))
  {
    DeleteKeys(m, key);
    KeysConcat(Delete(m, key), [(key, value)]);
    assert Keys([(key, value)]) == [key];
    MovedToEnd(Keys(m), key);
    var touched := Delete(m, key) + [(key, value)];
    if |touched| > limit {
      DistinctTail(Keys(touched));
    }
  }

  /** The values after a touch, for every key that is still there. */
  lemma TouchValues<V>(m: OrderedMap<V>, key: string, value: V, limit: nat, k: string)
    requires Distinct(Keys(m)) && k in Keys(Touch(m, key, value, limit))
    ensures Get(Touch(m, key, value, limit), k) == if k == key then Some(value) else Get(m, k)
  {
    var kept := Delete(m, key);
    var touched := kept + [(key, value)];
    DeleteKeys(m, key);
    WithoutAbsent(Keys(m), key);
    WithoutDistinct(Keys(m), key);
    KeysConcat(kept, [(key, value)]);
    assert Keys([(key, value)]) == [key];
    GetConcat(kept, [(key, value)], k);
    GetPresent(kept, k);
    if k != key {
      GetDelete(m, key, k);
    }
    if |touched| > limit {
      DistinctTail(Keys(touched));
      assert Keys(touched[1..]) == Keys(touched)[1..];
      assert touched[0].0 != k;
    }
  }

  method UpdateCountMap(m: OrderedMap<nat>, key: string, limit: nat) returns (r: OrderedMap<nat>, next: nat)
    requires Distinct(Keys(m))
    ensures next == Bumped(m, key) && r == Touch(m, key, next, limit)
  {
    var current := Get(m, key);
    next := (if current.Some? then current.value else 0) + 1;
    r := Set(m, key, next);
    r := Delete(r, key);
    SetDelete(m, key, next);
    DeleteKeys(m, key);
    WithoutAbsent(Keys(m), key);
    SetNew(r, key, next);
    r := Set(r, key, next);
    if |r| > limit {
      var oldest := r[0].0;
      r := Delete(r, oldest);
    }
  }

  // ---------------------------------------------------------------- recency refinement

  /** The distinct keys of a history, by their last touch. */
  function Recency(touches: seq<string>): seq<string> {
    if touches == [] then []
    else
      var key := touches[|touches| - 1];
      Without(Recency(touches[..|touches| - 1]), key) + [key]
  }

  /** The counting map after a history of touches under a fixed limit. */
  function CountRun(touches: seq<string>, limit: nat): OrderedMap<nat> {
    if touches == [] then []
    else
      var m, key := CountRun(touches[..|touches| - 1], limit), touches[|touches| - 1];
      Touch(m, key, Bumped(m, key), limit)
  }

  lemma {:induction false} RecencyDistinct(touches: seq<string>)
    ensures Distinct(Recency(touches))
    ensures forall k :: k in Recency(touches) <==> k in touches
  {
    if touches == [] {
    } else {
      var front, key := touches[..|touches| - 1], touches[|touches| - 1];
      RecencyDistinct(front);
      WithoutDistinct(Recency(front), key);
      WithoutAbsent(Recency(front), key);
      assert touches == front + [key];
    }
  }

  /** The position of the last touch of a key. */
  function LastTouch(touches: seq<string>, key: string): int {
    if touches == [] then -1
    else if touches[|touches| - 1] == key then |touches| - 1
    else LastTouch(touches[..|touches| - 1], key)
  }

  lemma {:induction false} LastTouchBelow(touches: seq<string>, key: string)
    ensures -1 <= LastTouch(touches, key) < |touches|
  {
    if touches == [] || touches[|touches| - 1] == key {
    } else {
      LastTouchBelow(touches[..|touches| - 1], key);
    }
  }

  /** Recency really is the order of last touches. */
  lemma {:induction false} RecencyIsByLastTouch(touches: seq<string>, i: nat, j: nat)
    requires i < j < |Recency(touches)|
    ensures LastTouch(touches, Recency(touches)[i]) < LastTouch(touches, Recency(touches)[j])
  {
    var front, key := touches[..|touches| - 1], touches[|touches| - 1];
    var r := Recency(front);
    WithoutAbsent(r, key);
    assert Without(r, key)[i] in Without(r, key);
    if j < |Without(r, key)| {
      assert Without(r, key)[j] in Without(r, key);
      var p, q := WithoutAt(r, key, i, j);
      RecencyIsByLastTouch(front, p, q);
    } else {
      LastTouchBelow(front, Without(r, key)[i]);
    }
  }

  lemma {:induction false} CutNew(head: seq<string>, tail: seq<string>, key: string)
    requires key !in tail
    ensures Without(tail, key) == tail
    ensures LastN(Without(head + tail, key) + [key], |tail|) == (tail + [key])[1..]
  {
    WithoutAbsent(tail, key);
    WithoutConcat(head, tail, key);
    Regroup(Without(head, key), tail, [key]);
    LastNConcat(Without(head, key), tail + [key], |tail|);
  }

  /** Cutting to the newest n keys commutes with a touch. */
  /** A key that is among the last ones. */
  lemma CutOld(head: seq<string>, tail: seq<string>, key: string)
    requires Distinct(head + tail) && key in tail
    ensures LastN(Without(head + tail, key) + [key], |tail|) == Without(tail, key) + [key]
  {
    DistinctSuffix(head, tail);
    WithoutSize(tail, key);
    WithoutConcat(head, tail, key);
    Regroup(Without(head, key), Without(tail, key), [key]);
    LastNConcat(Without(head, key), Without(tail, key) + [key], |tail|);
  }

  lemma {:induction false} CutThenTouch(r: seq<string>, key: string, n: nat)
    requires Distinct(r) && n >= 1
    ensures var keys := Without(LastN(r, n), key) + [key];
            LastN(Without(r, key) + [key], n) == if |keys| > n then keys[1..] else keys
  {
    if |r| > n {
      var head, tail := r[..|r| - n], r[|r| - n..];
      assert r == head + tail;
      if key in tail {
        CutOld(head, tail, key);
      } else {
        CutNew(head, tail, key);
      }
    } else {
      WithoutSize(r, key);
    }
  }

  /** Iteration order: the map holds exactly the newest `limit` keys, oldest touch first. */
  lemma {:induction false} KeysAreMostRecent(touches: seq<string>, limit: nat)
    requires limit >= 1
    ensures Distinct(Keys(CountRun(touches, limit)))
    ensures Keys(CountRun(touches, limit)) == LastN(Recency(touches), limit)
  {
    if touches == [] {
    } else {
      var front, key := touches[..|touches| - 1], touches[|touches| - 1];
      KeysAreMostRecent(front, limit);
      RecencyDistinct(front);
      var m := CountRun(front, limit);
      TouchKeys(m, key, Bumped(m, key), limit);
      CutThenTouch(Recency(front), key, limit);
    }
  }

  /** Touches of a key since it last entered the map: each earlier one only if it was still held. */
  function SinceEntry(touches: seq<string>, key: string, limit: nat): nat {
    if touches == [] then 0
    else
      var front := touches[..|touches| - 1];
      if touches[|touches| - 1] != key then SinceEntry(front, key, limit)
      else 1 + if key in LastN(Recency(front), limit) then SinceEntry(front, key, limit) else 0
  }

  lemma TouchedWasThere<V>(m: OrderedMap<V>, last: string, value: V, limit: nat, key: string)
    requires Distinct(Keys(m)) && key in Keys(Touch(m, last, value, limit)) && key != last
    ensures key in Keys(m)
  {
    TouchKeys(m, last, value, limit);
    WithoutAbsent(Keys(m), last);
    var keys := Without(Keys(m), last) + [last];
    assert key in keys;
  }

  /** What one more touch does to the count of a key that is still there afterwards. */
  lemma {:induction false} CountStep(m: OrderedMap<nat>, last: string, limit: nat, key: string)
    requires Distinct(Keys(m)) && key in Keys(Touch(m, last, Bumped(m, last), limit))
    ensures Get(Touch(m, last, Bumped(m, last), limit), key)
            == if key == last then Some(Bumped(m, key)) else Get(m, key)
    ensures Get(m, key).Some? <==> key in Keys(m)
    ensures key != last ==> key in Keys(m)
  {
    TouchValues(m, last, Bumped(m, last), limit, key);
    if key != last {
      TouchedWasThere(m, last, Bumped(m, last), limit, key);
    }
    GetPresent(m, key);
  }

  /** Every count in the map is the number of touches since the key's entry. */
  lemma {:induction false} CountsSinceEntry(touches: seq<string>, limit: nat, key: string)
    requires limit >= 1 && key in Keys(CountRun(touches, limit))
    ensures Get(CountRun(touches, limit), key) == Some(SinceEntry(touches, key, limit))
  {
    var front, last := touches[..|touches| - 1], touches[|touches| - 1];
    var m := CountRun(front, limit);
    KeysAreMostRecent(front, limit);
    CountStep(m, last, limit, key);
    if key !in Keys(m) {
    } else {
      CountsSinceEntry(front, limit, key);
    }
  }

  // ---------------------------------------------------------------- the load recorder

  datatype Outcome = Success | Failure

  datatype Stats = Stats(total: nat, success: nat, failure: nat)

  function AddOutcome(s: Stats, outcome: Outcome): Stats {
    Stats(s.total + 1, s.success + (if outcome.Success? then 1 else 0), s.failure + (if outcome.Failure? then 1 else 0))
  }

  function StatsOf(m: OrderedMap<Stats>, key: string): Stats {
    match Get(m, key)
    case Some(s) => s
    case None => Stats(0, 0, 0)
  }

  method UpdateToolStatsMap(m: OrderedMap<Stats>, key: string, outcome: Outcome, limit: nat)
    returns (r: OrderedMap<Stats>, current: Stats)
    requires Distinct(Keys(m))
    ensures current == AddOutcome(StatsOf(m, key), outcome) && r == Touch(m, key, current, limit)
  {
    current := AddOutcome(StatsOf(m, key), outcome);
    r := Set(m, key, current);
    r := Delete(r, key);
    SetDelete(m, key, current);
    DeleteKeys(m, key);
    WithoutAbsent(Keys(m), key);
    SetNew(r, key, current);
    r := Set(r, key, current);
    if |r| > limit {
      var oldest := r[0].0;
      r := Delete(r, oldest);
    }
  }

  /** The summary configuration in force at a load. */
  datatype Config = Config(every: nat, minIntervalMs: int, failureMinIntervalMs: int,
                           maxToolStats: nat, maxPathStats: nat)

  /** The counters of one scope, and what was last logged of them. */
  datatype Scope = Scope(stats: Stats, toolCounts: OrderedMap<nat>, toolStats: OrderedMap<Stats>,
                         pathCounts: OrderedMap<nat>, loggedAt: int, loggedTotal: int, loggedFailure: int)

  const NEW_SCOPE := Scope(Stats(0, 0, 0), [], [], [], 0, 0, 0)

  /** One load: its outcome, the tool and path it was for, and the configuration and clock it met. */
  datatype Load = Load(outcome: Outcome, tool: Option<string>, path: Option<string>, cfg: Config, now: int)

  predicate ShouldLog(s: Scope, load: Load) {
    || s.stats.total - s.loggedTotal >= load.cfg.every
    || load.now - s.loggedAt >= load.cfg.minIntervalMs
    || (load.outcome.Failure? && s.stats.failure - s.loggedFailure > 0
        && load.now - s.loggedAt >= load.cfg.failureMinIntervalMs)
  }

  function Record(s: Scope, load: Load): Scope {
    var s := s.(stats := AddOutcome(s.stats, load.outcome));
    var counted := if !Truthy(load.tool) then s else
      s.(toolCounts := Touch(s.toolCounts, load.tool.value, Bumped(s.toolCounts, load.tool.value),
                           load.cfg.maxToolStats),
         toolStats := Touch(s.toolStats, load.tool.value,
                          AddOutcome(StatsOf(s.toolStats, load.tool.value), load.outcome),
                            load.cfg.maxToolStats));
    var counted := if !Truthy(load.path) then counted else
      counted.(pathCounts := Touch(s.pathCounts, load.path.value, Bumped(s.pathCounts, load.path.value),
                                    load.cfg.maxPathStats));
    if ShouldLog(s, load) then counted.(loggedAt := load.now,
                                               loggedTotal := s.stats.total, loggedFailure := s.stats.failure)
    else counted
  }

  ghost predicate Valid(s: Scope) {
    Distinct(Keys(s.toolCounts)) && Distinct(Keys(s.toolStats)) && Distinct(Keys(s.pathCounts))
  }

  /** The per-scope module variables. */
  class LoadRecorder {
    var scope: Scope

    constructor ()
      ensures scope == NEW_SCOPE && Valid(scope)
    {
      scope := NEW_SCOPE;
    }

    /** recordAllowlistLoadSummary; answers whether a summary was logged. */
    method RecordLoad(load: Load) returns (logged: bool)
      requires Valid(scope)
      modifies this
      ensures Valid(scope) && scope == Record(old(scope), load)
      ensures logged == ShouldLog(old(scope).(stats := AddOutcome(old(scope).stats, load.outcome)), load)
    {
      scope := scope.(stats := AddOutcome(scope.stats, load.outcome));
      logged := ShouldLog(scope, load);
      if Truthy(load.tool) {
        var key, limit := load.tool.value, load.cfg.maxToolStats;
        TouchKeys(scope.toolCounts, key, Bumped(scope.toolCounts, key), limit);
        TouchKeys(scope.toolStats, key, AddOutcome(StatsOf(scope.toolStats, key), load.outcome), limit);
        var counts, _ := UpdateCountMap(scope.toolCounts, key, limit);
        var stats, _ := UpdateToolStatsMap(scope.toolStats, key, load.outcome, limit);
        scope := scope.(toolCounts := counts, toolStats := stats);
      }
      if Truthy(load.path) {
        var key, limit := load.path.value, load.cfg.maxPathStats;
        TouchKeys(scope.pathCounts, key, Bumped(scope.pathCounts, key), limit);
        var counts, _ := UpdateCountMap(scope.pathCounts, key, limit);
        scope := scope.(pathCounts := counts);
      }
      if logged {
        scope := scope.(loggedAt := load.now, loggedTotal := scope.stats.total, loggedFailure := scope.stats.failure);
      }
    }
  }

  function RecordAll(loads: seq<Load>): Scope {
    if loads == [] then NEW_SCOPE else Record(RecordAll(loads[..|loads| - 1]), loads[|loads| - 1])
  }

  predicate Agree(counts: OrderedMap<nat>, stats: OrderedMap<Stats>, key: string) {
    match (Get(counts, key), Get(stats, key))
    case (None, None) => true
    case (Some(n), Some(s)) => n == s.total == s.success + s.failure
    case _ => false
  }

  /** The two tool maps hold the same keys in the same order, with agreeing numbers. */
  ghost predicate Lockstep(s: Scope) {
    && Valid(s)
    && Keys(s.toolCounts) == Keys(s.toolStats)
    && (forall k :: Agree(s.toolCounts, s.toolStats, k))
    && s.stats.total == s.stats.success + s.stats.failure
  }

  lemma TouchLockstep(counts: OrderedMap<nat>, stats: OrderedMap<Stats>, key: string,
                      outcome: Outcome, limit: nat, k: string)
    requires Distinct(Keys(counts)) && Keys(counts) == Keys(stats)
    requires Agree(counts, stats, key) && Agree(counts, stats, k)
    ensures var s := AddOutcome(StatsOf(stats, key), outcome);
            var counts', stats' := Touch(counts, key, Bumped(counts, key), limit), Touch(stats, key, s, limit);
            Keys(counts') == Keys(stats') && Agree(counts', stats', k)
  {
    var n, s := Bumped(counts, key), AddOutcome(StatsOf(stats, key), outcome);
    var counts', stats' := Touch(counts, key, n, limit), Touch(stats, key, s, limit);
    TouchKeys(counts, key, n, limit);
    TouchKeys(stats, key, s, limit);
    GetPresent(counts', k);
    GetPresent(stats', k);
    if k in Keys(counts') {
      TouchValues(counts, key, n, limit, k);
      TouchValues(stats, key, s, limit, k);
    }
  }

  lemma {:induction false} RecordLockstep(s: Scope, load: Load)
    requires Lockstep(s)
    ensures Lockstep(Record(s, load))
  {
    var r := Record(s, load);
    if Truthy(load.tool) {
      var key, limit := load.tool.value, load.cfg.maxToolStats;
      var n, t := Bumped(s.toolCounts, key), AddOutcome(StatsOf(s.toolStats, key), load.outcome);
      TouchKeys(s.toolCounts, key, n, limit);
      TouchKeys(s.toolStats, key, t, limit);
      assert Agree(s.toolCounts, s.toolStats, key);
      forall k
        ensures Agree(Touch(s.toolCounts, key, n, limit), Touch(s.toolStats, key, t, limit), k)
      {
        assert Agree(s.toolCounts, s.toolStats, k);
        TouchLockstep(s.toolCounts, s.toolStats, key, load.outcome, limit, k);
      }
    }
    if Truthy(load.path) {
      TouchKeys(s.pathCounts, load.path.value, Bumped(s.pathCounts, load.path.value), load.cfg.maxPathStats);
    }
  }

  /** Lockstep survives every history of loads, even when the limits change from load to load. */
  lemma {:induction false} MapsInLockstep(loads: seq<Load>)
    ensures Lockstep(RecordAll(loads))
    ensures RecordAll(loads).stats.total == |loads|
  {
    if loads == [] {
    } else {
      MapsInLockstep(loads[..|loads| - 1]);
      RecordLockstep(RecordAll(loads[..|loads| - 1]), loads[|loads| - 1]);
    }
  }

  // ---------------------------------------------------------------- what the recorder says of the loads

  function CountOf(loads: seq<Load>, outcome: Outcome): nat {
    if loads == [] then 0
    else CountOf(loads[..|loads| - 1], outcome) + if loads[|loads| - 1].outcome == outcome then 1 else 0
  }

  function ToolsOf(loads: seq<Load>): seq<string> {
    if loads == [] then []
    else
      var tool := loads[|loads| - 1].tool;
      ToolsOf(loads[..|loads| - 1]) + if Truthy(tool) then [tool.value] else []
  }

  function PathsOf(loads: seq<Load>): seq<string> {
    if loads == [] then []
    else
      var path := loads[|loads| - 1].path;
      PathsOf(loads[..|loads| - 1]) + if Truthy(path) then [path.value] else []
  }

  /** The totals count the loads by outcome, and the last summary was of some earlier totals. */
  lemma {:induction false} TotalsCountLoads(loads: seq<Load>)
    ensures RecordAll(loads).stats == Stats(|loads|, CountOf(loads, Success), CountOf(loads, Failure))
    ensures 0 <= RecordAll(loads).loggedTotal <= |loads|
    ensures 0 <= RecordAll(loads).loggedFailure <= CountOf(loads, Failure)
  {
    if loads == [] {
    } else {
      TotalsCountLoads(loads[..|loads| - 1]);
    }
  }

  lemma CountRunSnoc(touches: seq<string>, key: string, limit: nat)
    ensures var m := CountRun(touches, limit);
            CountRun(touches + [key], limit) == Touch(m, key, Bumped(m, key), limit)
  {
    assert (touches + [key])[..|touches|] == touches;
  }

  /** With fixed limits the tool and path counters are the counters of the tools and paths of the loads. */
  lemma {:induction false} MapsCountLoads(loads: seq<Load>, tools: nat, paths: nat)
    requires forall k | 0 <= k < |loads| :: loads[k].cfg.maxToolStats == tools && loads[k].cfg.maxPathStats == paths
    ensures RecordAll(loads).toolCounts == CountRun(ToolsOf(loads), tools)
    ensures RecordAll(loads).pathCounts == CountRun(PathsOf(loads), paths)
  {
    if loads == [] {
    } else {
      var front, last := loads[..|loads| - 1], loads[|loads| - 1];
      MapsCountLoads(front, tools, paths);
      if Truthy(last.tool) {
        CountRunSnoc(ToolsOf(front), last.tool.value, tools);
      } else {
        assert ToolsOf(loads) == ToolsOf(front);
      }
      if Truthy(last.path) {
        CountRunSnoc(PathsOf(front), last.path.value, paths);
      } else {
        assert PathsOf(loads) == PathsOf(front);
      }
    }
  }

  /** The last summary said this. */
  predicate SummaryOf(s: Scope, now: int) {
    s.loggedAt == now && s.loggedTotal == s.stats.total && s.loggedFailure == s.stats.failure
  }

  /** A load reaches one of the bounds at which a summary is due. */
  predicate Due(s: Scope, load: Load) {
    || s.stats.total + 1 - s.loggedTotal >= load.cfg.every
    || load.now - s.loggedAt >= load.cfg.minIntervalMs
    || (load.outcome.Failure? && load.now - s.loggedAt >= load.cfg.failureMinIntervalMs)
  }

  /**
   Summaries come when due and only then: after any loads, one more load logs the new totals exactly
   if enough loads or enough time have passed since the last summary, less time being enough for a
   failed load.
   */
  lemma SummariesWhenDue(loads: seq<Load>, load: Load)
    ensures var s, r := RecordAll(loads), RecordAll(loads + [load]);
      if Due(s, load) then SummaryOf(r, load.now)
      else r.loggedAt == s.loggedAt && r.loggedTotal == s.loggedTotal && r.loggedFailure == s.loggedFailure
  {
    assert (loads + [load])[..|loads|] == loads;
    TotalsCountLoads(loads);
  }
}
