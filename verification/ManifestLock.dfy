/**
 Concurrent edits of one manifest under its lock file (manifest-store.ts), as a state machine whose
 steps are the single file operations of any number of calls in any number of processes.

 `acquired`, `committed` and `writes` are history variables: no step tests them.
 */
module ManifestLock {
  import opened Options
  import opened ManifestStore

  const MAX_ATTEMPTS := 8

  /** What a process writes into the lock file. */
  datatype Stamp = Stamp(pid: nat, createdAt: int)

  /** `content` is None while the file is empty or torn. A file created anew gets a new `inode`. */
  datatype LockFile = LockFile(inode: nat, content: Option<Stamp>, mtime: int)

  datatype Phase =
    | Trying(attempt: nat)
    | Opened(inode: nat)                          // created the lock file and holds its handle
    | Locked                                      // and wrote its stamp
    | Loaded(copy: Manifest)
    | Done
    | Finished                                    // unlinked the lock file
    | Probing(attempt: nat)                       // the lock file was there
    | Inspecting(attempt: nat, stamp: Stamp)
    | Unreadable(attempt: nat)
    | Statted(attempt: nat, mtime: int, at: int)
    | Reclaiming(attempt: nat, torn: bool)        // about to unlink a lock judged stale or torn
    | Waiting(attempt: nat)
    | TimedOut

  datatype Call = Call(pid: nat, op: Op, phase: Phase)

  datatype Entry = Entry(call: nat, op: Op)

  /** `inodes` is the number of files created so far. */
  datatype World = World(now: int, alive: set<nat>, lock: Option<LockFile>, inodes: nat, file: Manifest,
                         calls: map<nat, Call>, acquired: seq<Entry>, committed: seq<Entry>, writes: nat)

  function Init(now: int, alive: set<nat>, file: Manifest): World {
    World(now, alive, None, 0, file, map[], [], [], 0)
  }

  datatype Step =
    | Begin(c: nat, pid: nat, op: Op)
    | TryOpen(c: nat)
    | WriteStamp(c: nat, createdAt: int)
    | ReadManifest(c: nat)
    | Commit(c: nat)
    | Unlock(c: nat)
    | Probe(c: nat)
    | Inspect(c: nat)
    | StatLock(c: nat)
    | Judge(c: nat)
    | Reclaim(c: nat)
    | Retry(c: nat)
    | Beat(pid: nat, torn: bool, createdAt: int)  // a heartbeat write, perhaps caught half done, perhaps late
    | Tick(d: nat)
    | Exit(pid: nat)

  /** The call exists, its process lives, and it is at this phase. */
  predicate Ready(w: World, c: nat) {
    c in w.calls && w.calls[c].pid in w.alive
  }

  predicate Enabled(w: World, step: Step) {
    match step
    case Begin(c, pid, _) => c !in w.calls && pid in w.alive
    case TryOpen(c) => Ready(w, c) && w.calls[c].phase.Trying?
    case WriteStamp(c, _) => Ready(w, c) && w.calls[c].phase.Opened?
    case ReadManifest(c) => Ready(w, c) && w.calls[c].phase.Locked?
    case Commit(c) => Ready(w, c) && w.calls[c].phase.Loaded?
    case Unlock(c) => Ready(w, c) && w.calls[c].phase.Done?
    case Probe(c) => Ready(w, c) && w.calls[c].phase.Probing?
    case Inspect(c) => Ready(w, c) && w.calls[c].phase.Inspecting?
    case StatLock(c) => Ready(w, c) && w.calls[c].phase.Unreadable?
    case Judge(c) => Ready(w, c) && w.calls[c].phase.Statted?
    case Reclaim(c) => Ready(w, c) && w.calls[c].phase.Reclaiming?
    case Retry(c) => Ready(w, c) && w.calls[c].phase.Waiting?
    case Beat(pid, _, _) => pid in w.alive
    case Tick(_) => true
    case Exit(pid) => pid in w.alive
  }

  function Enter(w: World, c: nat, phase: Phase): World
    requires c in w.calls
  {
    w.(calls := w.calls[c := w.calls[c].(phase := phase)])
  }

  /** `stale` is the age in milliseconds beyond which a lock may be reclaimed. */
  function Take(w: World, stale: int, step: Step): World
    requires Enabled(w, step)
  {
    match step
    case Begin(c, pid, op) => w.(calls := w.calls[c := Call(pid, op, Trying(0))])
    case TryOpen(c) =>
      if w.lock.None? then
        Enter(w.(lock := Some(LockFile(w.inodes, None, w.now)), inodes := w.inodes + 1,
                 acquired := w.acquired + [Entry(c, w.calls[c].op)]), c, Opened(w.inodes))
      else Enter(w, c, Probing(w.calls[c].phase.attempt))
    case WriteStamp(c, createdAt) =>
      // Written through the handle: if the file was unlinked meanwhile, nobody sees it.
      var stamped := LockFile(w.calls[c].phase.inode, Some(Stamp(w.calls[c].pid, createdAt)), w.now);
      var own := w.lock.Some? && w.lock.value.inode == w.calls[c].phase.inode;
      Enter(w.(lock := if own then Some(stamped) else w.lock), c, Locked)
    case ReadManifest(c) => Enter(w, c, Loaded(w.file))
    case Commit(c) =>
      var copy, op := w.calls[c].phase.copy, w.calls[c].op;
      var w := w.(committed := w.committed + [Entry(c, op)]);
      if Writes(copy, op) == 0 then Enter(w, c, Done)
      else Enter(w.(file := Apply(copy, op), writes := w.writes + 1), c, Done)
    case Unlock(c) => Enter(w.(lock := None), c, Finished)
    case Probe(c) =>
      var attempt := w.calls[c].phase.attempt;
      if w.lock.None? || w.lock.value.content.None? then Enter(w, c, Unreadable(attempt))
      else Enter(w, c, Inspecting(attempt, w.lock.value.content.value))
    case Inspect(c) =>
      var ph := w.calls[c].phase;
      if w.now - ph.stamp.createdAt <= stale || ph.stamp.pid in w.alive then Enter(w, c, Waiting(ph.attempt))
      else Enter(w, c, Reclaiming(ph.attempt, false))
    case StatLock(c) =>
      var attempt := w.calls[c].phase.attempt;
      if w.lock.None? then Enter(w, c, Waiting(attempt)) else Enter(w, c, Statted(attempt, w.lock.value.mtime, w.now))
    case Judge(c) =>
      var ph := w.calls[c].phase;
      if w.now - ph.mtime > 2 * stale then Enter(w, c, Reclaiming(ph.attempt, true))
      else Enter(w, c, Waiting(ph.attempt))
    case Reclaim(c) =>
      var ph := w.calls[c].phase;
      if w.lock.None? && !ph.torn then Enter(w, c, Unreadable(ph.attempt))
      else Enter(w.(lock := None), c, Waiting(ph.attempt))
    case Retry(c) =>
      var n := w.calls[c].phase.attempt + 1;
      Enter(w, c, if n < MAX_ATTEMPTS then Trying(n) else TimedOut)
    case Beat(pid, torn, createdAt) =>
      var content := if torn then None else Some(Stamp(pid, createdAt));
      if w.lock.Some? then w.(lock := Some(LockFile(w.lock.value.inode, content, w.now)))
      else w.(lock := Some(LockFile(w.inodes, content, w.now)), inodes := w.inodes + 1)
    case Tick(d) => w.(now := w.now + d)
    case Exit(pid) => w.(alive := w.alive - {pid})
  }

  // ---------------------------------------------------------------- calm runs

  /** A lock file is at most `maxAge` old, and a process looks at the clock at most `delay` after a stat. */
  datatype Pace = Pace(stale: int, maxAge: nat, delay: nat)

  predicate Prompt(w: World, pace: Pace, c: nat) {
    c in w.calls && w.calls[c].phase.Statted? ==> w.now - w.calls[c].phase.at <= pace.delay
  }

  ghost predicate Calm(w: World, pace: Pace) {
    (w.lock.Some? ==> w.now - w.lock.value.mtime <= pace.maxAge) && forall c: nat :: Prompt(w, pace, c)
  }

  /** A run in which no process exits, the lock file is kept fresh and probes are prompt. */
  ghost predicate CalmRun(w: World, pace: Pace, steps: seq<Step>, w': World)
    decreases |steps|
  {
    && Calm(w, pace)
    && if steps == [] then w == w'
       else !steps[0].Exit? && Enabled(w, steps[0]) && CalmRun(Take(w, pace.stale, steps[0]), pace, steps[1..], w')
  }

  // ---------------------------------------------------------------- invariant

  /** Holds the lock and has not committed yet. */
  predicate Editing(ph: Phase) {
    ph.Opened? || ph.Locked? || ph.Loaded?
  }

  /** Between creating and unlinking the lock file. */
  predicate Holding(ph: Phase) {
    Editing(ph) || ph.Done?
  }

  function Ops(entries: seq<Entry>): seq<Op> {
    seq(|entries|, i requires 0 <= i < |entries| => entries[i].op)
  }

  predicate CallOk(w: World, pace: Pace, c: nat) {
    c in w.calls ==>
      var call := w.calls[c];
      && call.pid in w.alive
      && !call.phase.Reclaiming?
      && (call.phase.Inspecting? ==> call.phase.stamp.pid in w.alive)
      && (call.phase.Statted? ==> call.phase.at - call.phase.mtime <= pace.maxAge)
      && (Holding(call.phase) ==> w.lock.Some? && w.acquired != [] && w.acquired[|w.acquired| - 1] == Entry(c, call.op))
      && (Editing(call.phase) ==> |w.acquired| == |w.committed| + 1)
      && (call.phase.Done? ==> w.acquired == w.committed)
      && (call.phase.Loaded? ==> call.phase.copy == w.file)
      && (call.phase.Finished? ==> Entry(c, call.op) in w.committed)
  }

  /** Who acquired the lock has entered, under its own operation, and only once. */
  predicate EntryOk(w: World, i: nat) {
    i < |w.acquired| ==>
      var e := w.acquired[i];
      e.call in w.calls && w.calls[e.call].op == e.op
      && (Holding(w.calls[e.call].phase) || w.calls[e.call].phase.Finished?)
  }

  predicate OnceOk(w: World, i: nat, j: nat) {
    i < j < |w.acquired| ==> w.acquired[i].call != w.acquired[j].call
  }

  /** Commits follow the order of the lock, at most one acquisition behind, whose call is still editing. */
  predicate LogOk(w: World) {
    && w.committed <= w.acquired
    && |w.acquired| <= |w.committed| + 1
    && (|w.acquired| > |w.committed| ==>
          var c := w.acquired[|w.acquired| - 1].call;
          c in w.calls && Editing(w.calls[c].phase))
  }

  predicate FileOk(w: World, file: Manifest) {
    w.file == ApplyAll(file, Ops(w.committed)) && w.file.revision == file.revision + w.writes
  }

  predicate StampOk(w: World) {
    w.lock.Some? && w.lock.value.content.Some? ==> w.lock.value.content.value.pid in w.alive
  }

  ghost predicate Inv(w: World, pace: Pace, file: Manifest) {
    && LogOk(w) && FileOk(w, file) && StampOk(w)
    && (forall c: nat :: CallOk(w, pace, c))
    && (forall i: nat :: EntryOk(w, i))
    && (forall i: nat, j: nat :: OnceOk(w, i, j))
  }

  // ---------------------------------------------------------------- every calm step keeps it

  lemma Exclusive(w: World, pace: Pace, file: Manifest, c: nat, d: nat)
    requires Inv(w, pace, file) && c in w.calls && d in w.calls && Holding(w.calls[c].phase)
             && Holding(w.calls[d].phase)
    ensures c == d
  {
    assert CallOk(w, pace, c) && CallOk(w, pace, d);
  }

  /** A move of one call outside the critical section, or within it before the commit. */
  lemma EnterKeeps(w: World, pace: Pace, file: Manifest, c: nat, phase: Phase)
    requires Inv(w, pace, file) && c in w.calls
    requires CallOk(Enter(w, c, phase), pace, c)
    requires Editing(phase) == Editing(w.calls[c].phase) && phase.Done? == w.calls[c].phase.Done?
    requires phase.Finished? == w.calls[c].phase.Finished?
    ensures Inv(Enter(w, c, phase), pace, file)
  {
    var w' := Enter(w, c, phase);
    forall d: nat ensures CallOk(w', pace, d) {
      assert CallOk(w, pace, d);
    }
    forall i: nat ensures EntryOk(w', i) {
      assert EntryOk(w, i);
    }
    forall i: nat, j: nat ensures OnceOk(w', i, j) {
      assert OnceOk(w, i, j);
    }
  }

  /** The lock file is there after the write, with a live process in it. */
  lemma TouchKeeps(w: World, pace: Pace, file: Manifest, lock: LockFile, inodes: nat)
    requires Inv(w, pace, file) && StampOk(w.(lock := Some(lock)))
    ensures Inv(w.(lock := Some(lock), inodes := inodes), pace, file)
  {
    var w' := w.(lock := Some(lock), inodes := inodes);
    forall d: nat ensures CallOk(w', pace, d) {
      assert CallOk(w, pace, d);
    }
    forall i: nat ensures EntryOk(w', i) {
      assert EntryOk(w, i);
    }
    forall i: nat, j: nat ensures OnceOk(w', i, j) {
      assert OnceOk(w, i, j);
    }
  }

  lemma BeginKeeps(w: World, pace: Pace, file: Manifest, step: Step)
    requires Inv(w, pace, file) && Enabled(w, step) && (step.Begin? || step.Tick?)
    ensures Inv(Take(w, pace.stale, step), pace, file)
  {
    var w' := Take(w, pace.stale, step);
    forall d: nat ensures CallOk(w', pace, d) {
      assert CallOk(w, pace, d);
    }
    forall i: nat ensures EntryOk(w', i) {
      assert EntryOk(w, i);
    }
    forall i: nat, j: nat ensures OnceOk(w', i, j) {
      assert OnceOk(w, i, j);
    }
  }

  lemma OpenKeeps(w: World, pace: Pace, file: Manifest, c: nat)
    requires Inv(w, pace, file) && Enabled(w, TryOpen(c)) && w.lock.None?
    ensures Inv(Take(w, pace.stale, TryOpen(c)), pace, file)
  {
    var w' := Take(w, pace.stale, TryOpen(c));
    forall d | d in w.calls ensures !Holding(w.calls[d].phase) {
      assert CallOk(w, pace, d);
    }
    assert w'.acquired[..|w.acquired|] == w.acquired;
    forall d: nat ensures CallOk(w', pace, d) {
      assert CallOk(w, pace, d);
    }
    forall i: nat ensures EntryOk(w', i) {
      assert EntryOk(w, i);
    }
    forall i: nat, j: nat ensures OnceOk(w', i, j) {
      assert OnceOk(w, i, j) && EntryOk(w, i);
    }
  }

  lemma OpsSnoc(entries: seq<Entry>, e: Entry)
    ensures Ops(entries + [e]) == Ops(entries) + [e.op]
  {
  }

  /** A commit catches up with the lock order, and the copy it writes back is the current manifest. */
  lemma CommitLogs(w: World, pace: Pace, file: Manifest, c: nat)
    requires LogOk(w) && FileOk(w, file) && CallOk(w, pace, c) && Enabled(w, Commit(c))
    ensures var w' := Take(w, pace.stale, Commit(c));
            w'.committed == w.acquired && LogOk(w') && FileOk(w', file)
  {
    var op := w.calls[c].op;
    assert w.acquired == w.committed + [Entry(c, op)];
    ApplyCounts(w.file, op);
    OpsSnoc(w.committed, Entry(c, op));
    var ops := Ops(w.committed) + [op];
    assert ops[..|ops| - 1] == Ops(w.committed);
  }

  lemma CommitKeeps(w: World, pace: Pace, file: Manifest, c: nat)
    requires Inv(w, pace, file) && Enabled(w, Commit(c))
    ensures Inv(Take(w, pace.stale, Commit(c)), pace, file)
  {
    var w' := Take(w, pace.stale, Commit(c));
    assert CallOk(w, pace, c);
    CommitLogs(w, pace, file, c);
    forall d: nat ensures CallOk(w', pace, d) {
      assert CallOk(w, pace, d);
      if d in w.calls && Holding(w.calls[d].phase) {
        Exclusive(w, pace, file, c, d);
      }
    }
    forall i: nat ensures EntryOk(w', i) {
      assert EntryOk(w, i);
    }
    forall i: nat, j: nat ensures OnceOk(w', i, j) {
      assert OnceOk(w, i, j);
    }
  }

  lemma UnlockKeeps(w: World, pace: Pace, file: Manifest, c: nat)
    requires Inv(w, pace, file) && Enabled(w, Unlock(c))
    ensures Inv(Take(w, pace.stale, Unlock(c)), pace, file)
  {
    var w' := Take(w, pace.stale, Unlock(c));
    assert CallOk(w, pace, c);
    forall d: nat ensures CallOk(w', pace, d) {
      assert CallOk(w, pace, d);
      if d in w.calls && Holding(w.calls[d].phase) {
        Exclusive(w, pace, file, c, d);
      }
    }
    forall i: nat ensures EntryOk(w', i) {
      assert EntryOk(w, i);
    }
    forall i: nat, j: nat ensures OnceOk(w', i, j) {
      assert OnceOk(w, i, j);
    }
  }

  /** The reads and decisions of one call, none of which touches the lock or the manifest. */
  lemma LookKeeps(w: World, pace: Pace, file: Manifest, step: Step)
    requires Inv(w, pace, file) && Calm(w, pace) && pace.maxAge + pace.delay <= 2 * pace.stale && Enabled(w, step)
    requires step.ReadManifest? || step.Probe? || step.Inspect? || step.StatLock? || step.Judge? || step.Retry?
             || (step.TryOpen? && w.lock.Some?)
    ensures Inv(Take(w, pace.stale, step), pace, file)
  {
    var c := step.c;
    assert CallOk(w, pace, c) && Prompt(w, pace, c);
    var w' := Take(w, pace.stale, step);
    assert w' == Enter(w, c, w'.calls[c].phase);
    EnterKeeps(w, pace, file, c, w'.calls[c].phase);
  }

  lemma StampKeeps(w: World, pace: Pace, file: Manifest, c: nat, createdAt: int)
    requires Inv(w, pace, file) && Enabled(w, WriteStamp(c, createdAt))
    ensures Inv(Take(w, pace.stale, WriteStamp(c, createdAt)), pace, file)
  {
    assert CallOk(w, pace, c);
    var w1 := w;
    if w.lock.value.inode == w.calls[c].phase.inode {
      var lock := LockFile(w.calls[c].phase.inode, Some(Stamp(w.calls[c].pid, createdAt)), w.now);
      TouchKeeps(w, pace, file, lock, w.inodes);
      w1 := w.(lock := Some(lock));
    }
    assert CallOk(w1, pace, c);
    EnterKeeps(w1, pace, file, c, Locked);
  }

  lemma NotReclaiming(w: World, pace: Pace, file: Manifest, c: nat)
    requires Inv(w, pace, file) && c in w.calls
    ensures !w.calls[c].phase.Reclaiming?
  {
    assert CallOk(w, pace, c);
  }

  /** Every calm step keeps the invariant; the reclaim step is never among them. */
  lemma StepKeeps(w: World, pace: Pace, file: Manifest, step: Step)
    requires Inv(w, pace, file) && Calm(w, pace) && pace.maxAge + pace.delay <= 2 * pace.stale
    requires Enabled(w, step) && !step.Exit?
    ensures !step.Reclaim? && Inv(Take(w, pace.stale, step), pace, file)
  {
    match step
    case Begin(_, _, _) => BeginKeeps(w, pace, file, step);
    case Tick(_) => BeginKeeps(w, pace, file, step);
    case TryOpen(c) =>
      if w.lock.None? {
        OpenKeeps(w, pace, file, c);
      } else {
        LookKeeps(w, pace, file, step);
      }
    case WriteStamp(c, createdAt) => StampKeeps(w, pace, file, c, createdAt);
    case Commit(c) => CommitKeeps(w, pace, file, c);
    case Unlock(c) => UnlockKeeps(w, pace, file, c);
    case Beat(pid, torn, createdAt) =>
      var w' := Take(w, pace.stale, step);
      TouchKeeps(w, pace, file, w'.lock.value, w'.inodes);
    case Reclaim(c) => NotReclaiming(w, pace, file, c);
    case _ => LookKeeps(w, pace, file, step);
  }

  lemma {:induction false} RunKeeps(w: World, pace: Pace, file: Manifest, steps: seq<Step>, w': World)
    requires Inv(w, pace, file) && pace.maxAge + pace.delay <= 2 * pace.stale && CalmRun(w, pace, steps, w')
    ensures Inv(w', pace, file) && Calm(w', pace)
    decreases |steps|
  {
    if steps == [] {
    } else {
      StepKeeps(w, pace, file, steps[0]);
      RunKeeps(Take(w, pace.stale, steps[0]), pace, file, steps[1..], w');
    }
  }

  ghost predicate Reached(pace: Pace, now: int, alive: set<nat>, file: Manifest, steps: seq<Step>, w: World) {
    pace.maxAge + pace.delay <= 2 * pace.stale && CalmRun(Init(now, alive, file), pace, steps, w)
  }

  lemma Reachable(pace: Pace, now: int, alive: set<nat>, file: Manifest, steps: seq<Step>, w: World)
    requires Reached(pace, now, alive, file, steps, w)
    ensures Inv(w, pace, file) && Calm(w, pace)
  {
    var i := Init(now, alive, file);
    assert forall c: nat :: CallOk(i, pace, c);
    assert forall k: nat :: EntryOk(i, k);
    assert forall j: nat, k: nat :: OnceOk(i, j, k);
    RunKeeps(i, pace, file, steps, w);
  }

  // ---------------------------------------------------------------- main results

  /**
   No lock is ever reclaimed in a calm run: whoever inspects a stamp finds its process alive, and
   whoever judges a torn lock finds it young enough.
   */
  lemma NeverReclaimed(pace: Pace, now: int, alive: set<nat>, file: Manifest, steps: seq<Step>, w: World, c: nat)
    requires Reached(pace, now, alive, file, steps, w) && c in w.calls
    ensures !Enabled(w, Reclaim(c))
    ensures Enabled(w, Inspect(c)) ==> Take(w, pace.stale, Inspect(c)).calls[c].phase.Waiting?
    ensures Enabled(w, Judge(c)) ==> Take(w, pace.stale, Judge(c)).calls[c].phase.Waiting?
  {
    Reachable(pace, now, alive, file, steps, w);
    assert CallOk(w, pace, c) && Prompt(w, pace, c);
  }

  /** At most one call is between creating and unlinking the lock file, and the file is there meanwhile. */
  lemma OneHolder(pace: Pace, now: int, alive: set<nat>, file: Manifest, steps: seq<Step>, w: World, c: nat, d: nat)
    requires Reached(pace, now, alive, file, steps, w)
    requires c in w.calls && d in w.calls && Holding(w.calls[c].phase) && Holding(w.calls[d].phase)
    ensures c == d && w.lock.Some?
  {
    Reachable(pace, now, alive, file, steps, w);
    assert CallOk(w, pace, c);
    Exclusive(w, pace, file, c, d);
  }

  /**
   No lost update: at every moment of every interleaving the manifest is the initial one with the
   committed operations applied one after the other in the order of lock acquisition, which the
   commits trail by at most one; and its revision has moved by the number of manifest writes.
   */
  lemma {:induction false} NoLostUpdate(pace: Pace, now: int, alive: set<nat>,
                                      file: Manifest, steps: seq<Step>, w: World)
    requires Reached(pace, now, alive, file, steps, w)
    ensures w.file == ApplyAll(file, Ops(w.committed))
    ensures w.committed <= w.acquired && |w.acquired| <= |w.committed| + 1
    ensures (forall c | c in w.calls :: !Holding(w.calls[c].phase)) ==> w.acquired == w.committed
    ensures w.file.revision == file.revision + w.writes
    ensures forall i, j | 0 <= i < j < |w.committed| :: w.committed[i].call != w.committed[j].call
  {
    Reachable(pace, now, alive, file, steps, w);
    forall i, j | 0 <= i < j < |w.committed| ensures w.committed[i].call != w.committed[j].call {
      var a: nat, b: nat := i, j;
      assert OnceOk(w, a, b);
    }
  }

  /** A call that finished has taken effect, under its own operation; one that timed out has not. */
  lemma {:induction false} EffectOfCall(pace: Pace, now: int, alive: set<nat>,
                                      file: Manifest, steps: seq<Step>, w: World, c: nat)
    requires Reached(pace, now, alive, file, steps, w) && c in w.calls
    ensures w.calls[c].phase.Finished? ==> Entry(c, w.calls[c].op) in w.committed
    ensures w.calls[c].phase.TimedOut? ==> forall e | e in w.committed :: e.call != c
  {
    Reachable(pace, now, alive, file, steps, w);
    assert CallOk(w, pace, c);
    if w.calls[c].phase.TimedOut? {
      forall e | e in w.committed ensures e.call != c {
        var i: nat :| i < |w.committed| && w.committed[i] == e;
        assert EntryOk(w, i) && w.acquired[i] == e;
      }
    }
  }

  /** From the empty manifest, every calm interleaving keeps the manifest well formed. */
  lemma {:induction false} SharedManifestIsWellFormed(pace: Pace, now: int, alive: set<nat>, steps: seq<Step>, w: World)
    requires Reached(pace, now, alive, EMPTY, steps, w)
    ensures WellFormed(w.file)
  {
    Reachable(pace, now, alive, EMPTY, steps, w);
    RunsAreWellFormed(Ops(w.committed));
  }

  // ---------------------------------------------------------------- exactly how fresh the lock file must stay

  /** No update is ever lost at this pace. */
  ghost predicate Safe(pace: Pace) {
    forall now, alive, file, steps, w :: CalmRun(Init(now, alive, file), pace, steps, w) ==> FileOk(w, file)
  }

  lemma {:induction false} CalmConcat(w: World, pace: Pace, steps: seq<Step>, w1: World, more: seq<Step>, w2: World)
    requires CalmRun(w, pace, steps, w1) && CalmRun(w1, pace, more, w2)
    ensures CalmRun(w, pace, steps + more, w2)
    decreases |steps|
  {
    if steps == [] {
      assert steps + more == more;
    } else {
      assert (steps + more)[1..] == steps[1..] + more;
      CalmConcat(Take(w, pace.stale, steps[0]), pace, steps[1..], w1, more, w2);
    }
  }

  /** Three calm steps. */
  lemma CalmThree(w: World, pace: Pace, a: Step, b: Step, c: Step) returns (w': World)
    requires !a.Exit? && !b.Exit? && !c.Exit?
    requires Calm(w, pace) && Enabled(w, a)
    requires var w1 := Take(w, pace.stale, a); Calm(w1, pace) && Enabled(w1, b)
    requires var w2 := Take(Take(w, pace.stale, a), pace.stale, b); Calm(w2, pace) && Enabled(w2, c)
    requires Calm(Take(Take(Take(w, pace.stale, a), pace.stale, b), pace.stale, c), pace)
    ensures w' == Take(Take(Take(w, pace.stale, a), pace.stale, b), pace.stale, c)
    ensures CalmRun(w, pace, [a, b, c], w')
  {
    var w1 := Take(w, pace.stale, a);
    var w2 := Take(w1, pace.stale, b);
    w' := Take(w2, pace.stale, c);
    assert CalmRun(w', pace, [c][1..], w');
    assert CalmRun(w2, pace, [c], w');
    assert [b, c][1..] == [c];
    assert CalmRun(w1, pace, [b, c], w');
    assert [a, b, c][1..] == [b, c];
  }

  const COLLECT := OpCollect(0, 0)
  const UPSERT_A := OpUpsert(Handle("a", 1, None))
  const UPSERT_B := OpUpsert(Handle("b", 2, None))

  function Trio(first: Phase, second: Phase, third: Phase): map<nat, Call> {
    map[0 := Call(1, COLLECT, first), 1 := Call(2, UPSERT_A, second), 2 := Call(3, UPSERT_B, third)]
  }

  /** Three calls, an empty manifest nobody has written yet, and a lock file or none. */
  ghost predicate Scene(w: World, now: int, lock: Option<LockFile>, calls: map<nat, Call>) {
    w.now == now && w.alive == {1, 2, 3} && w.lock == lock && w.file == EMPTY && w.calls == calls && w.writes == 0
  }

  /** The first call has created the lock file; its stamp is late. */
  lemma {:induction false} FirstStalls(pace: Pace) returns (steps: seq<Step>, w: World)
    ensures CalmRun(Init(0, {1, 2, 3}, EMPTY), pace, steps, w)
    ensures Scene(w, pace.maxAge, Some(LockFile(0, None, 0)), Trio(Opened(0), Probing(0), Trying(0))) && w.inodes == 1
  {
    var w0 := Init(0, {1, 2, 3}, EMPTY);
    var w1 := CalmThree(w0, pace, Begin(0, 1, COLLECT), Begin(1, 2, UPSERT_A), Begin(2, 3, UPSERT_B));
    assert w1.calls == Trio(Trying(0), Trying(0), Trying(0));
    w := CalmThree(w1, pace, TryOpen(0), Tick(pace.maxAge), TryOpen(1));
    steps := [Begin(0, 1, COLLECT), Begin(1, 2, UPSERT_A), Begin(2, 3, UPSERT_B)]
             + [TryOpen(0), Tick(pace.maxAge), TryOpen(1)];
    CalmConcat(w0, pace, [Begin(0, 1, COLLECT), Begin(1, 2, UPSERT_A), Begin(2, 3, UPSERT_B)], w1,
               [TryOpen(0), Tick(pace.maxAge), TryOpen(1)], w);
  }

  /** The second call notes the age of the torn file. */
  lemma {:induction false} SecondNotesAge(pace: Pace, w: World) returns (w': World)
    requires Scene(w, pace.maxAge, Some(LockFile(0, None, 0)), Trio(Opened(0), Probing(0), Trying(0))) && w.inodes == 1
    ensures CalmRun(w, pace, [Probe(1), StatLock(1), WriteStamp(0, 0)], w')
    ensures Scene(w', pace.maxAge, Some(LockFile(0, Some(Stamp(1, 0)), pace.maxAge)),
                  Trio(Locked, Statted(0, 0, pace.maxAge), Trying(0))) && w'.inodes == 1
  {
    w' := CalmThree(w, pace, Probe(1), StatLock(1), WriteStamp(0, 0));
  }

  /** Meanwhile the first one finishes. */
  lemma {:induction false} FirstFinishes(pace: Pace, w: World) returns (w': World)
    requires Scene(w, pace.maxAge, Some(LockFile(0, Some(Stamp(1, 0)), pace.maxAge)),
                   Trio(Locked, Statted(0, 0, pace.maxAge), Trying(0))) && w.inodes == 1
    ensures CalmRun(w, pace, [ReadManifest(0), Commit(0), Unlock(0)], w')
    ensures Scene(w', pace.maxAge, None, Trio(Finished, Statted(0, 0, pace.maxAge), Trying(0))) && w'.inodes == 1
  {
    w' := CalmThree(w, pace, ReadManifest(0), Commit(0), Unlock(0));
  }

  /** The third call takes the lock; the second one, judging by the age it noted, unlinks it and takes its own. */
  lemma {:induction false} SecondReclaims(pace: Pace, w: World) returns (steps: seq<Step>, w': World)
    requires pace.maxAge + pace.delay > 2 * pace.stale
    requires Scene(w, pace.maxAge, None, Trio(Finished, Statted(0, 0, pace.maxAge), Trying(0))) && w.inodes == 1
    ensures CalmRun(w, pace, steps, w')
    ensures var now := pace.maxAge + pace.delay;
            Scene(w', now, Some(LockFile(2, None, now)), Trio(Finished, Opened(2), Opened(1)))
  {
    var w1 := CalmThree(w, pace, Tick(pace.delay), TryOpen(2), Judge(1));
    assert w1.calls == Trio(Finished, Reclaiming(0, true), Opened(1));
    w' := CalmThree(w1, pace, Reclaim(1), Retry(1), TryOpen(1));
    steps := [Tick(pace.delay), TryOpen(2), Judge(1)] + [Reclaim(1), Retry(1), TryOpen(1)];
    CalmConcat(w, pace, [Tick(pace.delay), TryOpen(2), Judge(1)], w1, [Reclaim(1), Retry(1), TryOpen(1)], w');
  }

  /** Both read the same manifest, so the later write drops the earlier one's handle. */
  lemma {:induction false} BothCommit(pace: Pace, w: World) returns (steps: seq<Step>, w': World)
    requires Scene(w, w.now, Some(LockFile(2, None, w.now)), Trio(Finished, Opened(2), Opened(1)))
    ensures CalmRun(w, pace, steps, w')
    ensures w'.writes == 2 && w'.file == Upsert(EMPTY, UPSERT_B.h) && Entry(1, UPSERT_A) in w'.committed
  {
    var w1 := CalmThree(w, pace, WriteStamp(1, 0), ReadManifest(1), WriteStamp(2, 0));
    assert w1.calls == Trio(Finished, Loaded(EMPTY), Locked);
    w' := CalmThree(w1, pace, ReadManifest(2), Commit(1), Commit(2));
    steps := [WriteStamp(1, 0), ReadManifest(1), WriteStamp(2, 0)] + [ReadManifest(2), Commit(1), Commit(2)];
    CalmConcat(w, pace, [WriteStamp(1, 0), ReadManifest(1), WriteStamp(2, 0)], w1,
               [ReadManifest(2), Commit(1), Commit(2)], w');
  }

  /** Up to the moment when the second call holds an outdated age of a lock file that is gone. */
  lemma {:induction false} OutdatedAge(pace: Pace) returns (steps: seq<Step>, w: World)
    ensures CalmRun(Init(0, {1, 2, 3}, EMPTY), pace, steps, w)
    ensures Scene(w, pace.maxAge, None, Trio(Finished, Statted(0, 0, pace.maxAge), Trying(0))) && w.inodes == 1
  {
    var s1, w1 := FirstStalls(pace);
    var w2 := SecondNotesAge(pace, w1);
    w := FirstFinishes(pace, w2);
    var s2, s3 := [Probe(1), StatLock(1), WriteStamp(0, 0)], [ReadManifest(0), Commit(0), Unlock(0)];
    CalmConcat(w1, pace, s2, w2, s3, w);
    CalmConcat(Init(0, {1, 2, 3}, EMPTY), pace, s1, w1, s2 + s3, w);
    steps := s1 + (s2 + s3);
  }

  /**
   At any pace at which a lock file may look older than twice the stale age, a calm run loses an
   update: two writes move the revision by one, and a committed handle is not in the manifest.
   */
  lemma {:induction false} TornLockLosesUpdate(pace: Pace) returns (steps: seq<Step>, w: World)
    requires pace.maxAge + pace.delay > 2 * pace.stale
    ensures CalmRun(Init(0, {1, 2, 3}, EMPTY), pace, steps, w)
    ensures w.writes == 2 && w.file.revision == 1
    ensures Entry(1, UPSERT_A) in w.committed && UPSERT_A.h.id !in w.file.checkpoints
  {
    var s1, w1 := OutdatedAge(pace);
    var s2, w2 := SecondReclaims(pace, w1);
    var s3, w3 := BothCommit(pace, w2);
    CalmConcat(w1, pace, s2, w2, s3, w3);
    CalmConcat(Init(0, {1, 2, 3}, EMPTY), pace, s1, w1, s2 + s3, w3);
    steps, w := s1 + (s2 + s3), w3;
  }

  /**
   No update is ever lost if and only if the age at which a lock file is refreshed and the time a
   probe may take add up to at most twice the stale age.
   */
  lemma SafeExactlyIf(pace: Pace)
    ensures Safe(pace) <==> pace.maxAge + pace.delay <= 2 * pace.stale
  {
    if pace.maxAge + pace.delay <= 2 * pace.stale {
      forall now, alive, file, steps, w | CalmRun(Init(now, alive, file), pace, steps, w) ensures FileOk(w, file) {
        Reachable(pace, now, alive, file, steps, w);
      }
    } else {
      var steps, w := TornLockLosesUpdate(pace);
      assert !FileOk(w, EMPTY);
    }
  }

  // ---------------------------------------------------------------- late heartbeats

  /** Nobody is between creating and unlinking the lock file. */
  ghost predicate Idle(w: World) {
    forall c | c in w.calls :: !Holding(w.calls[c].phase)
  }

  /** A lock file without an owner. */
  ghost predicate Orphaned(w: World) {
    w.lock.Some? && Idle(w)
  }

  /** The run contains a heartbeat write that lands while nobody holds the lock. */
  ghost predicate LateBeat(w: World, stale: int, steps: seq<Step>)
    decreases |steps|
  {
    steps != [] && ((steps[0].Beat? && Idle(w))
        || (Enabled(w, steps[0]) && LateBeat(Take(w, stale, steps[0]), stale, steps[1..])))
  }

  /** As long as it is refreshed often enough, nothing removes an orphaned lock file, and no call gets in. */
  lemma OrphanStays(w: World, pace: Pace, file: Manifest, step: Step)
    requires Inv(w, pace, file) && Orphaned(w) && Enabled(w, step) && !step.Exit?
    ensures Orphaned(Take(w, pace.stale, step))
  {
    if step.Reclaim? {
      NotReclaiming(w, pace, file, step.c);
    }
  }

  /** Who holds the lock keeps it or takes the lock file away. */
  lemma HolderStep(w: World, stale: int, step: Step, c: nat)
    requires c in w.calls && Holding(w.calls[c].phase) && Enabled(w, step)
    ensures var w' := Take(w, stale, step);
            !Idle(w') || w'.lock.None?
  {
    var w' := Take(w, stale, step);
    if !step.Unlock? {
      assert c in w'.calls && Holding(w'.calls[c].phase);
    }
  }

  /** Only a late heartbeat makes a lock file that nobody owns. */
  lemma OrphanStep(w: World, pace: Pace, file: Manifest, step: Step)
    requires Inv(w, pace, file) && !Orphaned(w) && Enabled(w, step) && !step.Exit?
    ensures Orphaned(Take(w, pace.stale, step)) <==> step.Beat? && Idle(w)
  {
    if !Idle(w) {
      var c :| c in w.calls && Holding(w.calls[c].phase);
      HolderStep(w, pace.stale, step, c);
    } else if step.TryOpen? {
      assert Holding(Take(w, pace.stale, step).calls[step.c].phase);
    }
  }

  lemma {:induction false} OrphanRun(w: World, pace: Pace, file: Manifest, steps: seq<Step>, w': World)
    requires Inv(w, pace, file) && pace.maxAge + pace.delay <= 2 * pace.stale && CalmRun(w, pace, steps, w')
    ensures Orphaned(w') <==> Orphaned(w) || LateBeat(w, pace.stale, steps)
    decreases |steps|
  {
    if steps == [] {
    } else {
      var w1 := Take(w, pace.stale, steps[0]);
      StepKeeps(w, pace, file, steps[0]);
      OrphanRun(w1, pace, file, steps[1..], w');
      if Orphaned(w) {
        OrphanStays(w, pace, file, steps[0]);
      } else {
        OrphanStep(w, pace, file, steps[0]);
      }
    }
  }

  /**
   When nobody holds the lock after a calm run, the lock file is gone if and only if no heartbeat
   landed while nobody held it.
   */
  lemma LockIsFreed(pace: Pace, now: int, alive: set<nat>, file: Manifest, steps: seq<Step>, w: World)
    requires Reached(pace, now, alive, file, steps, w) && Idle(w)
    ensures w.lock.None? <==> !LateBeat(Init(now, alive, file), pace.stale, steps)
  {
    var i := Init(now, alive, file);
    Reachable(pace, now, alive, file, [], i);
    OrphanRun(i, pace, file, steps, w);
  }

  /** A call on its own, up to its stamp. */
  lemma {:induction false} OneCallLocks(pace: Pace, op: Op) returns (steps: seq<Step>, w: World)
    ensures CalmRun(Init(0, {1}, EMPTY), pace, steps, w)
    ensures w.now == 0 && w.alive == {1} && w.calls == map[0 := Call(1, op, Locked)]
    ensures w.lock == Some(LockFile(0, Some(Stamp(1, 0)), 0))
  {
    steps := [Begin(0, 1, op), TryOpen(0), WriteStamp(0, 0)];
    w := CalmThree(Init(0, {1}, EMPTY), pace, steps[0], steps[1], steps[2]);
  }

  lemma {:induction false} OneCallEnds(pace: Pace, op: Op, w: World) returns (steps: seq<Step>, w': World)
    requires w.now == 0 && w.alive == {1} && w.calls == map[0 := Call(1, op, Locked)]
    requires w.lock == Some(LockFile(0, Some(Stamp(1, 0)), 0))
    ensures CalmRun(w, pace, steps, w')
    ensures w'.now == 0 && w'.alive == {1} && w'.lock == None && w'.calls == map[0 := Call(1, op, Finished)]
  {
    steps := [ReadManifest(0), Commit(0), Unlock(0)];
    w' := CalmThree(w, pace, steps[0], steps[1], steps[2]);
  }

  /** A call on its own, from its beginning to its end. */
  lemma {:induction false} OneCall(pace: Pace, op: Op) returns (steps: seq<Step>, w: World)
    ensures CalmRun(Init(0, {1}, EMPTY), pace, steps, w)
    ensures w.now == 0 && w.alive == {1} && w.lock == None && w.calls == map[0 := Call(1, op, Finished)]
  {
    var s1, w1 := OneCallLocks(pace, op);
    var s2, w2 := OneCallEnds(pace, op, w1);
    CalmConcat(Init(0, {1}, EMPTY), pace, s1, w1, s2, w2);
    steps, w := s1 + s2, w2;
  }

  /** The heartbeat of a process lands after its call has finished, and its next call runs into the file. */
  lemma {:induction false} BeatThenCall(pace: Pace, w: World, next: Op) returns (steps: seq<Step>, w': World)
    requires w.now == 0 && w.alive == {1} && w.lock == None && 0 in w.calls && w.calls.Keys == {0}
    requires w.calls[0].phase.Finished?
    ensures CalmRun(w, pace, steps, w') && w'.calls == w.calls[1 := Call(1, next, Probing(0))] && Stuck(w')
  {
    steps := [Beat(1, false, 0), Begin(1, 1, next), TryOpen(1)];
    w' := CalmThree(w, pace, steps[0], steps[1], steps[2]);
  }

  /** A run without a hitch but for one late heartbeat: the lock file stays behind. */
  lemma {:induction false} LateBeatOrphans(pace: Pace, op: Op, next: Op) returns (steps: seq<Step>, w: World)
    requires pace.maxAge + pace.delay <= 2 * pace.stale
    ensures Reached(pace, 0, {1}, EMPTY, steps, w) && LateBeat(Init(0, {1}, EMPTY), pace.stale, steps)
    ensures w.calls == map[0 := Call(1, op, Finished), 1 := Call(1, next, Probing(0))] && Stuck(w)
  {
    var s1, w1 := OneCall(pace, op);
    var s2, w2 := BeatThenCall(pace, w1, next);
    CalmConcat(Init(0, {1}, EMPTY), pace, s1, w1, s2, w2);
    steps, w := s1 + s2, w2;
    assert Harmless(w, 0) && Harmless(w, 1);
    LockIsFreed(pace, 0, {1}, EMPTY, steps, w);
  }

  // ---------------------------------------------------------------- how long a lock file without an owner stays

  /** Any steps at any pace, but no process exits and no heartbeat is caught half done. */
  ghost predicate WholeRun(w: World, stale: int, steps: seq<Step>, w': World)
    decreases |steps|
  {
    if steps == [] then w == w'
    else
      && !steps[0].Exit? && (steps[0].Beat? ==> !steps[0].torn)
      && Enabled(w, steps[0]) && WholeRun(Take(w, stale, steps[0]), stale, steps[1..], w')
  }

  /** The call neither holds the lock nor is on its way to unlink the lock file. */
  predicate Harmless(w: World, c: nat) {
    c in w.calls ==>
      var ph := w.calls[c].phase;
      && !Holding(ph) && !ph.Unreadable? && !ph.Statted? && !ph.Reclaiming?
      && (ph.Inspecting? ==> ph.stamp.pid in w.alive)
  }

  /** The lock file holds the whole stamp of a live process, and no call owns it or is about to unlink it. */
  ghost predicate Stuck(w: World) {
    && w.lock.Some? && w.lock.value.content.Some? && w.lock.value.content.value.pid in w.alive
    && forall c: nat :: Harmless(w, c)
  }

  lemma StuckStep(w: World, stale: int, step: Step)
    requires Stuck(w) && Enabled(w, step) && !step.Exit? && (step.Beat? ==> !step.torn)
    ensures var w' := Take(w, stale, step);
            Stuck(w') && w'.acquired == w.acquired && w'.committed == w.committed && w'.file == w.file
  {
    var w' := Take(w, stale, step);
    forall c: nat ensures Harmless(w', c) {
      assert Harmless(w, c);
    }
    if !step.Begin? && !step.Beat? && !step.Tick? {
      assert Harmless(w, step.c);
    }
  }

  /**
   A whole stamp of a live process that nobody owns stays at any age and whatever the calls do, so no
   call ever takes the lock again and the manifest stays as it is.
   */
  lemma {:induction false} StuckForGood(w: World, stale: int, steps: seq<Step>, w': World)
    requires Stuck(w) && WholeRun(w, stale, steps, w')
    ensures Stuck(w') && w'.acquired == w.acquired && w'.committed == w.committed && w'.file == w.file
    decreases |steps|
  {
    if steps == [] {
    } else {
      StuckStep(w, stale, steps[0]);
      StuckForGood(Take(w, stale, steps[0]), stale, steps[1..], w');
    }
  }

  /** What a call that wants the lock does next, if it does not have it, wait or give up. */
  function Next(c: nat, ph: Phase): Option<Step> {
    match ph
    case Trying(_) => Some(TryOpen(c))
    case Probing(_) => Some(Probe(c))
    case Inspecting(_, _) => Some(Inspect(c))
    case Unreadable(_) => Some(StatLock(c))
    case Statted(_, _, _) => Some(Judge(c))
    case Reclaiming(_, _) => Some(Reclaim(c))
    case _ => None
  }

  /** The steps an attempt may still take. */
  function Left(ph: Phase): nat {
    match ph
    case Trying(_) => 7
    case Probing(_) => 6
    case Inspecting(_, _) => 5
    case Reclaiming(_, torn) => if torn then 1 else 4
    case Unreadable(_) => 3
    case Statted(_, _, _) => 2
    case _ => 0
  }

  /** The rest of one attempt to get the lock, which nobody interrupts. */
  function Attempt(w: World, stale: int, c: nat): World
    requires Ready(w, c)
    decreases Left(w.calls[c].phase)
  {
    var next := Next(c, w.calls[c].phase);
    if next.None? then w else Attempt(Take(w, stale, next.value), stale, c)
  }

  lemma AttemptStep(w: World, stale: int, c: nat, step: Step)
    requires Ready(w, c) && Next(c, w.calls[c].phase) == Some(step)
    ensures Enabled(w, step) && Attempt(w, stale, c) == Attempt(Take(w, stale, step), stale, c)
  {
  }

  /** The attempt of a call that found no stamp to read. */
  lemma AttemptOnTorn(w: World, stale: int, c: nat, n: nat)
    requires Ready(w, c) && w.calls[c].phase == Unreadable(n) && w.lock.Some?
    ensures var aged := w.now - w.lock.value.mtime > 2 * stale;
            Attempt(w, stale, c) == Enter(w.(lock := if aged then None else w.lock), c, Waiting(n))
  {
    AttemptStep(w, stale, c, StatLock(c));
    var w1 := Take(w, stale, StatLock(c));
    AttemptStep(w1, stale, c, Judge(c));
    var w2 := Take(w1, stale, Judge(c));
    if w.now - w.lock.value.mtime > 2 * stale {
      AttemptStep(w2, stale, c, Reclaim(c));
      assert Take(w2, stale, Reclaim(c)) == Enter(w.(lock := None), c, Waiting(n));
    } else {
      assert w2 == Enter(w, c, Waiting(n));
    }
  }

  /** The attempt of a call that has read a stamp. */
  lemma AttemptOnWhole(w: World, stale: int, c: nat, n: nat, stamp: Stamp)
    requires Ready(w, c) && w.calls[c].phase == Inspecting(n, stamp) && w.lock.Some?
    ensures var gone := w.now - stamp.createdAt > stale && stamp.pid !in w.alive;
            Attempt(w, stale, c) == Enter(w.(lock := if gone then None else w.lock), c, Waiting(n))
  {
    AttemptStep(w, stale, c, Inspect(c));
    var w1 := Take(w, stale, Inspect(c));
    if w.now - stamp.createdAt > stale && stamp.pid !in w.alive {
      AttemptStep(w1, stale, c, Reclaim(c));
      assert Take(w1, stale, Reclaim(c)) == Enter(w.(lock := None), c, Waiting(n));
    } else {
      assert w1 == Enter(w, c, Waiting(n));
    }
  }

  /** The lock file is one that an attempt takes away. */
  predicate Reclaimable(w: World, stale: int) {
    w.lock.Some? &&
      match w.lock.value.content
      case None => w.now - w.lock.value.mtime > 2 * stale
      case Some(stamp) => w.now - stamp.createdAt > stale && stamp.pid !in w.alive
  }

  /**
   One attempt that finds a lock file takes it away if and only if it is torn and older than twice
   the stale age, or holds a stamp older than the stale age of a process that is gone; and it never
   gets the lock itself.
   */
  lemma AttemptClearsExactlyIf(w: World, stale: int, c: nat)
    requires Ready(w, c) && w.calls[c].phase.Trying? && w.lock.Some?
    ensures var waiting := Waiting(w.calls[c].phase.attempt);
            Attempt(w, stale, c) == Enter(w.(lock := if Reclaimable(w, stale) then None else w.lock), c, waiting)
  {
    var n := w.calls[c].phase.attempt;
    AttemptStep(w, stale, c, TryOpen(c));
    var w1 := Take(w, stale, TryOpen(c));
    AttemptStep(w1, stale, c, Probe(c));
    var w2 := Take(w1, stale, Probe(c));
    match w.lock.value.content
    case None =>
      assert w2 == Enter(w, c, Unreadable(n));
      AttemptOnTorn(w2, stale, c, n);
    case Some(stamp) =>
      assert w2 == Enter(w, c, Inspecting(n, stamp));
      AttemptOnWhole(w2, stale, c, n, stamp);
  }

  /** A torn lock file that nobody owns goes with the first attempt after twice the stale age. */
  lemma TornOrphanGoes(w: World, stale: int, c: nat, pid: nat, op: Op) returns (w': World)
    requires Orphaned(w) && w.lock.value.content.None? && Reclaimable(w, stale)
    requires Enabled(w, Begin(c, pid, op))
    ensures w' == Attempt(Take(w, stale, Begin(c, pid, op)), stale, c) && w'.lock == None
    ensures Enabled(w', Retry(c)) && var again := Take(w', stale, Retry(c));
            Enabled(again, TryOpen(c)) && Take(again, stale, TryOpen(c)).calls[c].phase.Opened?
  {
    var w1 := Take(w, stale, Begin(c, pid, op));
    AttemptClearsExactlyIf(w1, stale, c);
    w' := Attempt(w1, stale, c);
  }

  /** A late heartbeat that is caught half done leaves a file that goes after twice the stale age. */
  lemma TornBeatGoes(w: World, stale: int, pid: nat, d: nat)
    requires Idle(w) && pid in w.alive && d > 2 * stale
    ensures var torn := Take(w, stale, Beat(pid, true, 0));
      Orphaned(torn) && Reclaimable(Take(torn, stale, Tick(d)), stale)
  {
  }

  /** The lock of a process that exited is taken away by the first attempt after the stale age. */
  lemma CrashIsRecovered(w: World, stale: int, pid: nat, d: nat, c: nat)
    requires pid in w.alive && w.lock.Some? && w.lock.value.content.Some? && w.lock.value.content.value.pid == pid
    requires w.now + d - w.lock.value.content.value.createdAt > stale
    requires Ready(w, c) && w.calls[c].pid != pid && w.calls[c].phase.Trying?
    ensures Enabled(w, Exit(pid))
    ensures var later := Take(Take(w, stale, Exit(pid)), stale, Tick(d));
      Ready(later, c) && Attempt(later, stale, c).lock == None
  {
    AttemptClearsExactlyIf(Take(Take(w, stale, Exit(pid)), stale, Tick(d)), stale, c);
  }

  /** A reclaim that finds the file gone looks at the age of whatever file is there, if it was misled by a stamp. */
  lemma ReclaimOfNothing(w: World, stale: int, c: nat)
    requires Enabled(w, Reclaim(c)) && w.lock.None?
    ensures var r, ph := Take(w, stale, Reclaim(c)), w.calls[c].phase;
      r == Enter(w, c, if ph.torn then Waiting(ph.attempt) else Unreadable(ph.attempt))
  {
  }

  /** A stamp that is judged stale is reclaimed as such, a torn file as torn. */
  lemma JudgedAs(w: World, stale: int, c: nat)
    ensures Enabled(w, Inspect(c)) && Take(w, stale, Inspect(c)).calls[c].phase.Reclaiming? ==>
              !Take(w, stale, Inspect(c)).calls[c].phase.torn
    ensures Enabled(w, Judge(c)) && Take(w, stale, Judge(c)).calls[c].phase.Reclaiming? ==>
              Take(w, stale, Judge(c)).calls[c].phase.torn
  {
  }

  /** Any steps at any pace. */
  ghost predicate AnyRun(w: World, stale: int, steps: seq<Step>, w': World)
    decreases |steps|
  {
    if steps == [] then w == w'
    else Enabled(w, steps[0]) && AnyRun(Take(w, stale, steps[0]), stale, steps[1..], w')
  }

  /** The call does not have the lock and never had it. */
  predicate Contending(ph: Phase) {
    !Holding(ph) && !ph.Finished?
  }

  /** How often a contending call has waited and tried again. */
  function RetriesOf(ph: Phase): nat
    requires Contending(ph)
  {
    match ph
    case Trying(n) => n
    case Probing(n) => n
    case Inspecting(n, _) => n
    case Unreadable(n) => n
    case Statted(n, _, _) => n
    case Reclaiming(n, _) => n
    case Waiting(n) => n
    case TimedOut => 8
  }

  function RetriesIn(steps: seq<Step>, c: nat): nat {
    if steps == [] then 0 else (if steps[0] == Retry(c) then 1 else 0) + RetriesIn(steps[1..], c)
  }

  lemma RetryStep(w: World, stale: int, step: Step, c: nat)
    requires Enabled(w, step) && c in w.calls && Contending(Take(w, stale, step).calls[c].phase)
    requires Contending(w.calls[c].phase) ==> RetriesOf(w.calls[c].phase) <= 7 || w.calls[c].phase.TimedOut?
    ensures var before, after := w.calls[c].phase, Take(w, stale, step).calls[c].phase;
      && Contending(before) && RetriesOf(after) == RetriesOf(before) + (if step == Retry(c) then 1 else 0)
      && (RetriesOf(after) <= 7 || after.TimedOut?)
  {
  }

  /**
   Over every run, a call that has not got the lock has tried again exactly as often as its phase
   says, eight times at most, and it has timed out exactly if it was eight times.
   */
  lemma {:induction false} RetriesAreCounted(w: World, stale: int, steps: seq<Step>, w': World, c: nat)
    requires AnyRun(w, stale, steps, w') && c in w.calls && c in w'.calls && Contending(w'.calls[c].phase)
    requires Contending(w.calls[c].phase) ==> RetriesOf(w.calls[c].phase) <= 7 || w.calls[c].phase.TimedOut?
    ensures Contending(w.calls[c].phase)
    ensures RetriesOf(w'.calls[c].phase) == RetriesOf(w.calls[c].phase) + RetriesIn(steps, c) <= 8
    ensures RetriesOf(w'.calls[c].phase) == 8 <==> w'.calls[c].phase.TimedOut?
    decreases |steps|
  {
    if steps == [] {
    } else {
      var w1 := Take(w, stale, steps[0]);
      StaysOut(w1, stale, steps[1..], w', c);
      RetryStep(w, stale, steps[0], c);
      RetriesAreCounted(w1, stale, steps[1..], w', c);
    }
  }

  /** Who once had the lock does not contend again. */
  lemma {:induction false} StaysOut(w: World, stale: int, steps: seq<Step>, w': World, c: nat)
    requires AnyRun(w, stale, steps, w') && c in w.calls
    ensures c in w'.calls && (Contending(w'.calls[c].phase) ==> Contending(w.calls[c].phase))
    decreases |steps|
  {
    if steps == [] {
    } else {
      StaysOut(Take(w, stale, steps[0]), stale, steps[1..], w', c);
    }
  }

  // ---------------------------------------------------------------- whose file it is

  /** Who has created the lock file and not yet written its stamp holds the handle of the file that is there. */
  predicate OwnFile(w: World, c: nat) {
    c in w.calls && w.calls[c].phase.Opened? ==>
      w.calls[c].phase.inode < w.inodes && w.lock.Some? && w.lock.value.inode == w.calls[c].phase.inode
  }

  ghost predicate OwnFiles(w: World) {
    (w.lock.Some? ==> w.lock.value.inode < w.inodes) && forall c: nat :: OwnFile(w, c)
  }

  lemma OwnFileStep(w: World, pace: Pace, file: Manifest, step: Step)
    requires Inv(w, pace, file) && Calm(w, pace) && pace.maxAge + pace.delay <= 2 * pace.stale
    requires Enabled(w, step) && !step.Exit? && !step.Reclaim? && OwnFiles(w)
    ensures OwnFiles(Take(w, pace.stale, step))
  {
    var w' := Take(w, pace.stale, step);
    forall c: nat ensures OwnFile(w', c) {
      assert OwnFile(w, c) && CallOk(w, pace, c);
      if step.Unlock? {
        assert CallOk(w, pace, step.c);
      }
    }
  }

  lemma {:induction false} OwnFileRun(w: World, pace: Pace, file: Manifest, steps: seq<Step>, w': World)
    requires Inv(w, pace, file) && pace.maxAge + pace.delay <= 2 * pace.stale && CalmRun(w, pace, steps, w')
    requires OwnFiles(w)
    ensures OwnFiles(w')
    decreases |steps|
  {
    if steps == [] {
    } else {
      StepKeeps(w, pace, file, steps[0]);
      OwnFileStep(w, pace, file, steps[0]);
      OwnFileRun(Take(w, pace.stale, steps[0]), pace, file, steps[1..], w');
    }
  }

  /** In a calm run the stamp a call writes through its handle is the one everybody reads. */
  lemma StampIsSeen(pace: Pace, now: int, alive: set<nat>, file: Manifest, steps: seq<Step>, w: World,
                    c: nat, createdAt: int)
    requires Reached(pace, now, alive, file, steps, w) && Enabled(w, WriteStamp(c, createdAt))
    ensures var lock := Take(w, pace.stale, WriteStamp(c, createdAt)).lock;
      lock.Some? && lock.value.content == Some(Stamp(w.calls[c].pid, createdAt)) && lock.value.mtime == w.now
  {
    var i := Init(now, alive, file);
    Reachable(pace, now, alive, file, [], i);
    OwnFileRun(i, pace, file, steps, w);
    assert OwnFile(w, c);
  }
}
