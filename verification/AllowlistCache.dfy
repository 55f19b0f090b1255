/**
 Lock-free cached loads racing with serialised writers (allowlist.ts), as a state machine whose
 steps are the single file operations and lock hand-overs of any number of concurrent calls.

 Fields named `since`, `statAt`, `readAt`, `at` and `until` are history variables: indices of file
 versions that the code does not store and no step tests.
 */
module AllowlistCache {
  import opened Options
  import opened AllowlistRules

  const CACHE_VERSION := 3

  /** The allowlist file: absent, or its text with the stamp that stat reports. */
  datatype File = Missing | Present(raw: string, mtime: int, size: int)

  datatype CacheFile = CacheFile(version: int, sourcePath: string, mtime: int, size: int, hash: string,
                                 data: Option<Tools>, statAt: nat, readAt: nat)

  /** getCacheInvalidationReason; a load passes no hash. */
  function InvalidationReason(c: CacheFile, sourcePath: string, mtime: int, size: int,
                              hash: Option<string>): Option<string> {
    if c.version != CACHE_VERSION then Some("version_mismatch")
    else if c.sourcePath != sourcePath then Some("source_path_mismatch")
    else if c.mtime != mtime then Some("mtime_mismatch")
    else if c.size != size then Some("size_mismatch")
    else if Truthy(hash) && c.hash != hash.value then Some("hash_mismatch")
    else if c.data.None? then Some("missing_tools")
    else None
  }

  /** A cache file is good exactly if it is of this version, for this file as it is, and holds tools. */
  lemma InvalidationMeans(c: CacheFile, sourcePath: string, mtime: int, size: int, hash: Option<string>)
    ensures InvalidationReason(c, sourcePath, mtime, size, hash).None? <==>
              && c.version == CACHE_VERSION && c.sourcePath == sourcePath && c.mtime == mtime && c.size == size
              && (Truthy(hash) ==> c.hash == hash.value) && c.data.Some?
  {
  }

  /** The path of the file, its JSON reader and writer, and the hash of its text. */
  datatype Env = Env(path: string, parse: string -> Option<Tools>, print_: Tools -> string, hash: string -> string)

  ghost predicate RoundTrips(env: Env) {
    forall t: Tools :: env.parse(env.print_(t)) == Some(t)
  }

  /** What a load makes of a file: absent and malformed files are empty allowlists. */
  function Interp(env: Env, f: File): Tools {
    match f
    case Missing => map[]
    case Present(raw, _, _) => match env.parse(raw) case Some(t) => t case None => map[]
  }

  datatype Edit = PersistRule(mode: Mode, ctx: Context) | RemoveRules(toolName: string, sel: Selector) | ClearAll

  /** The new content an edit writes; removing from a tool without entry writes nothing. */
  function Edited(edit: Edit, tools: Tools): Option<Tools> {
    match edit
    case PersistRule(mode, ctx) => Some(Persist(tools, mode, ctx))
    case RemoveRules(toolName, sel) => if toolName in tools then Some(Remove(tools, toolName, sel)) else None
    case ClearAll => Some(map[])
  }

  datatype Job = Load | Change(edit: Edit)

  datatype Phase =
    | Waiting                                                    // for the in-process lock
    | Begun(since: nat)
    | Statted(since: nat, mtime: int, size: int, statAt: nat)
    | Missed(since: nat, mtime: int, size: int, statAt: nat)     // no usable cache
    | Parsed(since: nat, mtime: int, size: int, statAt: nat, text: string, data: Tools, readAt: nat)
    | Loaded(since: nat, until: nat, data: Tools, at: nat, saved: bool)  // the load has returned
    | Written(tools: Tools)
    | Restatted(tools: Tools, mtime: int, size: int, at: nat)
    | Finished

  datatype Proc = Proc(job: Job, ticket: nat, phase: Phase)

  /** A committed edit; `lost` if the load before it returned nothing because its cache could not be saved. */
  datatype Commit = Commit(edit: Edit, lost: bool)

  /**
   All versions the file ever had, the edits that made them, the cache file, the calls in progress,
   and the lock chain: how many calls have queued up and which of them have released.
   */
  datatype World = World(history: seq<File>, edits: seq<Commit>, cache: Option<CacheFile>, procs: map<nat, Proc>,
                         tickets: nat, released: set<nat>)

  function Current(w: World): nat
    requires w.history != []
  {
    |w.history| - 1
  }

  function Init(file: File): World {
    World([file], [], None, map[], 0, {})
  }

  datatype Step =
    | Call(p: nat, job: Job)
    | Grant(p: nat)
    | Stat(p: nat)
    | ReadCache(p: nat, torn: bool)     // a torn or unreadable cache file is a miss
    | ReadFile(p: nat)
    | SaveCache(p: nat, ok: bool)
    | Write(p: nat, mtime: int, size: int)
    | GiveUp(p: nat)                    // an edit that writes nothing
    | Restat(p: nat)
    | SaveWritten(p: nat, ok: bool)
    | Restart                           // the process ends, in the middle of anything, and another one starts

  predicate At(w: World, p: nat) {
    w.history != [] && p in w.procs
  }

  /** No version of the file ever had this stamp. */
  predicate FreshStamp(w: World, mtime: int, size: int) {
    forall f | f in w.history && f.Present? :: f.mtime != mtime || f.size != size
  }

  predicate Holding(proc: Proc) {
    proc.job.Change? && !proc.phase.Waiting? && !proc.phase.Finished?
  }

  predicate Enabled(w: World, env: Env, step: Step) {
    match step
    case Call(p, _) => w.history != [] && p !in w.procs
    case Grant(p) => At(w, p) && w.procs[p].phase.Waiting? && (forall t: nat | t < w.procs[p].ticket :: t in w.released)
    case Stat(p) => At(w, p) && w.procs[p].phase.Begun?
    case ReadCache(p, _) => At(w, p) && w.procs[p].phase.Statted?
    case ReadFile(p) => At(w, p) && w.procs[p].phase.Missed? && w.history[Current(w)].Present?
    case SaveCache(p, _) => At(w, p) && w.procs[p].phase.Parsed?
    case Write(p, mtime, size) =>
      && At(w, p) && w.procs[p].phase.Loaded? && w.procs[p].job.Change?
      && Edited(w.procs[p].job.edit, w.procs[p].phase.data).Some?
      && FreshStamp(w, mtime, size)
    case GiveUp(p) =>
      && At(w, p) && w.procs[p].phase.Loaded? && w.procs[p].job.Change?
      && Edited(w.procs[p].job.edit, w.procs[p].phase.data).None?
    case Restat(p) => At(w, p) && w.procs[p].phase.Written? && w.history[Current(w)].Present?
    case SaveWritten(p, _) => At(w, p) && w.procs[p].phase.Restatted?
    case Restart => true
  }

  function Enter(w: World, p: nat, phase: Phase): World
    requires p in w.procs
  {
    w.(procs := w.procs[p := w.procs[p].(phase := phase)])
  }

  function Release(w: World, p: nat): World
    requires p in w.procs
  {
    var w := w.(released := w.released + {w.procs[p].ticket});
    Enter(w, p, Finished)
  }

  function Take(w: World, env: Env, step: Step): World
    requires Enabled(w, env, step)
  {
    match step
    case Call(p, job) =>
      if job.Load? then w.(procs := w.procs[p := Proc(job, 0, Begun(Current(w)))])
      else w.(procs := w.procs[p := Proc(job, w.tickets, Waiting)], tickets := w.tickets + 1)
    case Grant(p) =>
      // Clearing does not load first.
      var n := Current(w);
      if w.procs[p].job == Change(ClearAll) then Enter(w, p, Loaded(n, n, Interp(env, w.history[n]), n, true))
      else Enter(w, p, Begun(n))
    case Stat(p) =>
      var since := w.procs[p].phase.since;
      (match w.history[Current(w)]
       case Missing => Enter(w, p, Loaded(since, Current(w), map[], Current(w), true))
       case Present(_, mtime, size) => Enter(w, p, Statted(since, mtime, size, Current(w))))
    case ReadCache(p, torn) =>
      var ph := w.procs[p].phase;
      if !torn && w.cache.Some? && InvalidationReason(w.cache.value, env.path, ph.mtime, ph.size, None).None? then
        Enter(w, p, Loaded(ph.since, Current(w), w.cache.value.data.value, w.cache.value.readAt, true))
      else Enter(w, p, Missed(ph.since, ph.mtime, ph.size, ph.statAt))
    case ReadFile(p) =>
      var ph, raw := w.procs[p].phase, w.history[Current(w)].raw;
      (match env.parse(raw)
       case None => Enter(w, p, Loaded(ph.since, Current(w), map[], Current(w), true))
       case Some(t) => Enter(w, p, Parsed(ph.since, ph.mtime, ph.size, ph.statAt, raw, t, Current(w))))
    case SaveCache(p, ok) =>
      var ph := w.procs[p].phase;
      // A failed save is rethrown, and the load answers with an empty allowlist.
      if !ok then Enter(w, p, Loaded(ph.since, Current(w), map[], ph.readAt, false))
      else
        var c := CacheFile(CACHE_VERSION, env.path, ph.mtime, ph.size, env.hash(ph.text),
                           Some(ph.data), ph.statAt, ph.readAt);
        Enter(w.(cache := Some(c)), p, Loaded(ph.since, Current(w), ph.data, ph.readAt, true))
    case Write(p, mtime, size) =>
      var edit := w.procs[p].job.edit;
      var tools := Edited(edit, w.procs[p].phase.data).value;
      Enter(w.(history := w.history + [Present(env.print_(tools), mtime, size)],
              edits := w.edits + [Commit(edit, !w.procs[p].phase.saved)]), p, Written(tools))
    case GiveUp(p) => Release(w, p)
    case Restat(p) =>
      var f := w.history[Current(w)];
      Enter(w, p, Restatted(w.procs[p].phase.tools, f.mtime, f.size, Current(w)))
    case SaveWritten(p, ok) =>
      var ph := w.procs[p].phase;
      // The edit is in the file either way.
      if !ok then Release(w, p)
      else
        var c := CacheFile(CACHE_VERSION, env.path, ph.mtime, ph.size, env.hash(env.print_(ph.tools)),
                           Some(ph.tools), ph.at, ph.at);
        Release(w.(cache := Some(c)), p)
    case Restart =>
      // The file and its cache stay; the calls and the lock chain are gone.
      w.(procs := map[], tickets := 0, released := {})
  }

  /** Every interleaving of the steps of any set of calls. */
  ghost predicate Runs(w: World, env: Env, steps: seq<Step>, w': World)
    decreases |steps|
  {
    if steps == [] then w == w'
    else Enabled(w, env, steps[0]) && Runs(Take(w, env, steps[0]), env, steps[1..], w')
  }

  // ---------------------------------------------------------------- invariant

  predicate Stamped(w: World, v: nat, mtime: int, size: int) {
    v < |w.history| && w.history[v].Present? && w.history[v].mtime == mtime && w.history[v].size == size
  }

  /** A stamp names at most one version. */
  predicate UniqueStamp(w: World, a: nat, b: nat)
    requires a < |w.history| && b < |w.history|
  {
    (w.history[a].Present? && w.history[b].Present?
     && w.history[a].mtime == w.history[b].mtime && w.history[a].size == w.history[b].size) ==> a == b
  }

  predicate Holds(w: World, env: Env, data: Tools, v: nat) {
    v < |w.history| && data == Interp(env, w.history[v])
  }

  /** What a call in progress has observed so far. */
  predicate Consistent(w: World, env: Env, ph: Phase) {
    match ph
    case Waiting => true
    case Begun(since) => since < |w.history|
    case Statted(since, mtime, size, a) => since <= a && Stamped(w, a, mtime, size)
    case Missed(since, mtime, size, a) => since <= a && Stamped(w, a, mtime, size)
    case Parsed(since, mtime, size, a, _, data, b) =>
      since <= a <= b && Stamped(w, a, mtime, size) && Holds(w, env, data, b)
    case Loaded(since, until, data, v, saved) =>
      since <= v <= until < |w.history| && if saved then Holds(w, env, data, v) else data == map[]
    case Written(tools) => w.history != [] && Holds(w, env, tools, |w.history| - 1)
    case Restatted(tools, mtime, size, a) => Stamped(w, a, mtime, size) && Holds(w, env, tools, a)
    case Finished => true
  }

  function SinceOf(w: World, ph: Phase): nat {
    match ph
    case Begun(since) => since
    case Statted(since, _, _, _) => since
    case Missed(since, _, _, _) => since
    case Parsed(since, _, _, _, _, _, _) => since
    case Loaded(since, _, _, _, _) => since
    case _ => if |w.history| == 0 then 0 else |w.history| - 1
  }

  /** A call and its place in the lock chain. A holder has seen no foreign write since it entered. */
  predicate ProcOk(w: World, env: Env, p: nat) {
    p in w.procs ==>
      var proc := w.procs[p];
      && Consistent(w, env, proc.phase)
      && (proc.job.Load? ==> !proc.phase.Waiting? && !proc.phase.Written? && !proc.phase.Restatted?)
      && (proc.job.Change? ==> proc.ticket < w.tickets)
      && (proc.job.Change? && !proc.phase.Finished? ==> proc.ticket !in w.released)
      && (Holding(proc) ==>
            && (forall t: nat | t < proc.ticket :: t in w.released)
            && SinceOf(w, proc.phase) == |w.history| - 1)
  }

  predicate OwnTicket(w: World, p: nat, q: nat) {
    (p in w.procs && q in w.procs && w.procs[p].job.Change? && w.procs[q].job.Change?
     && w.procs[p].ticket == w.procs[q].ticket) ==> p == q
  }

  /** The data of a cache file that a load could use. */
  predicate Usable(c: CacheFile, env: Env) {
    c.version == CACHE_VERSION && c.sourcePath == env.path && c.data.Some?
  }

  /** The cached data is the reading of a version no older than the one its stamp names. */
  predicate CacheOk(w: World, env: Env) {
    w.cache.Some? && Usable(w.cache.value, env) ==>
      var c := w.cache.value;
      c.statAt <= c.readAt && Stamped(w, c.statAt, c.mtime, c.size) && Holds(w, env, c.data.value, c.readAt)
  }

  /** What an edit starts from: the version before, or nothing if its load was lost. */
  function Base(env: Env, f: File, lost: bool): Tools {
    if lost then map[] else Interp(env, f)
  }

  /** Each version is the edit of the version before it, or of nothing if the load before the edit was lost. */
  predicate Serial(w: World, env: Env, v: nat)
    requires |w.edits| + 1 == |w.history| && v < |w.edits|
  {
    Edited(w.edits[v].edit, Base(env, w.history[v], w.edits[v].lost)) == Some(Interp(env, w.history[v + 1]))
  }

  ghost predicate Inv(w: World, env: Env) {
    && |w.history| == |w.edits| + 1
    && (forall a: nat, b: nat | a < |w.history| && b < |w.history| :: UniqueStamp(w, a, b))
    && (forall p: nat :: ProcOk(w, env, p))
    && (forall p: nat, q: nat :: OwnTicket(w, p, q))
    && CacheOk(w, env)
    && (forall v: nat | v < |w.edits| :: Serial(w, env, v))
    && (forall t | t in w.released :: t < w.tickets)
  }

  /**
   No call is in progress. Cache files of earlier processes may be there, and the file may have a
   history: `FreshRests` and `RestartKeeps` say where such a world comes from.
   */
  ghost predicate Rest(w: World, env: Env) {
    Inv(w, env) && w.procs == map[] && w.tickets == 0
  }

  // ---------------------------------------------------------------- every step keeps it

  /** The in-process lock: at most one call is past its grant and has not released. */
  lemma Exclusive(w: World, env: Env, p: nat, q: nat)
    requires Inv(w, env) && p in w.procs && q in w.procs && Holding(w.procs[p]) && Holding(w.procs[q])
    ensures p == q
  {
    assert ProcOk(w, env, p) && ProcOk(w, env, q) && OwnTicket(w, p, q);
  }

  lemma EnterKeeps(w: World, env: Env, p: nat, phase: Phase)
    requires Inv(w, env) && p in w.procs && ProcOk(Enter(w, p, phase), env, p)
    ensures Inv(Enter(w, p, phase), env)
  {
    var w' := Enter(w, p, phase);
    forall q: nat ensures ProcOk(w', env, q) {
      assert ProcOk(w, env, q);
    }
    forall q: nat, r: nat ensures OwnTicket(w', q, r) {
      assert OwnTicket(w, q, r);
    }
    forall a: nat, b: nat | a < |w'.history| && b < |w'.history| ensures UniqueStamp(w', a, b) {
      assert UniqueStamp(w, a, b);
    }
    forall v: nat | v < |w'.edits| ensures Serial(w', env, v) {
      assert Serial(w, env, v);
    }
  }

  lemma CacheKeeps(w: World, env: Env, c: CacheFile)
    requires Inv(w, env) && CacheOk(w.(cache := Some(c)), env)
    ensures Inv(w.(cache := Some(c)), env)
  {
    var w' := w.(cache := Some(c));
    forall q: nat ensures ProcOk(w', env, q) {
      assert ProcOk(w, env, q);
    }
    forall q: nat, r: nat ensures OwnTicket(w', q, r) {
      assert OwnTicket(w, q, r);
    }
    forall a: nat, b: nat | a < |w'.history| && b < |w'.history| ensures UniqueStamp(w', a, b) {
      assert UniqueStamp(w, a, b);
    }
    forall v: nat | v < |w'.edits| ensures Serial(w', env, v) {
      assert Serial(w, env, v);
    }
  }

  lemma ReleaseKeeps(w: World, env: Env, p: nat)
    requires Inv(w, env) && p in w.procs && Holding(w.procs[p])
    ensures Inv(Release(w, p), env)
  {
    var w' := Release(w, p);
    assert ProcOk(w, env, p);
    forall q: nat ensures ProcOk(w', env, q) {
      assert ProcOk(w, env, q) && OwnTicket(w, p, q);
    }
    forall q: nat, r: nat ensures OwnTicket(w', q, r) {
      assert OwnTicket(w, q, r);
    }
    forall a: nat, b: nat | a < |w'.history| && b < |w'.history| ensures UniqueStamp(w', a, b) {
      assert UniqueStamp(w, a, b);
    }
    forall v: nat | v < |w'.edits| ensures Serial(w', env, v) {
      assert Serial(w, env, v);
    }
  }

  /** A call that begins gets a ticket nobody else has. */
  lemma CallTickets(w: World, env: Env, p: nat, job: Job)
    requires Inv(w, env) && Enabled(w, env, Call(p, job))
    ensures forall q: nat, r: nat :: OwnTicket(Take(w, env, Call(p, job)), q, r)
  {
    var w' := Take(w, env, Call(p, job));
    forall q: nat, r: nat ensures OwnTicket(w', q, r) {
      assert OwnTicket(w, q, r) && ProcOk(w, env, q) && ProcOk(w, env, r);
    }
  }

  lemma CallKeeps(w: World, env: Env, p: nat, job: Job)
    requires Inv(w, env) && Enabled(w, env, Call(p, job))
    ensures Inv(Take(w, env, Call(p, job)), env)
  {
    var w' := Take(w, env, Call(p, job));
    CallTickets(w, env, p, job);
    forall q: nat ensures ProcOk(w', env, q) {
      assert ProcOk(w, env, q);
    }
    forall a: nat, b: nat | a < |w'.history| && b < |w'.history| ensures UniqueStamp(w', a, b) {
      assert UniqueStamp(w, a, b);
    }
    forall v: nat | v < |w'.edits| ensures Serial(w', env, v) {
      assert Serial(w, env, v);
    }
  }

  lemma RestartKeeps(w: World, env: Env)
    requires Inv(w, env)
    ensures Rest(Take(w, env, Restart), env)
  {
    var w' := Take(w, env, Restart);
    forall a: nat, b: nat | a < |w'.history| && b < |w'.history| ensures UniqueStamp(w', a, b) {
      assert UniqueStamp(w, a, b);
    }
    forall v: nat | v < |w'.edits| ensures Serial(w', env, v) {
      assert Serial(w, env, v);
    }
  }

  lemma WriteKeeps(w: World, env: Env, p: nat, mtime: int, size: int)
    requires Inv(w, env) && RoundTrips(env) && Enabled(w, env, Write(p, mtime, size))
    ensures Inv(Take(w, env, Write(p, mtime, size)), env)
  {
    var w' := Take(w, env, Write(p, mtime, size));
    var n, edit := |w.history|, w.procs[p].job.edit;
    var tools := Edited(edit, w.procs[p].phase.data).value;
    assert ProcOk(w, env, p);
    assert env.parse(env.print_(tools)) == Some(tools);
    assert Interp(env, w'.history[n]) == tools;
    assert forall a: nat | a < n :: w'.history[a] == w.history[a];
    forall q: nat ensures ProcOk(w', env, q) {
      assert ProcOk(w, env, q);
      if q in w.procs && Holding(w.procs[q]) {
        Exclusive(w, env, p, q);
      }
    }
    forall q: nat, r: nat ensures OwnTicket(w', q, r) {
      assert OwnTicket(w, q, r);
    }
    forall a: nat, b: nat | a < |w'.history| && b < |w'.history| ensures UniqueStamp(w', a, b) {
      if a < n && b < n {
        assert UniqueStamp(w, a, b);
      } else if a < n {
        assert w.history[a] in w.history;
      } else if b < n {
        assert w.history[b] in w.history;
      }
    }
    forall v: nat | v < |w'.edits| ensures Serial(w', env, v) {
      if v < n - 1 {
        assert Serial(w, env, v);
      }
    }
  }

  /** A cache hit: the stamp is the one the call saw, so the cached reading is not older than the call. */
  lemma CacheHit(w: World, env: Env, p: nat)
    requires Inv(w, env) && Enabled(w, env, ReadCache(p, false)) && w.cache.Some?
    requires var ph := w.procs[p].phase;
      InvalidationReason(w.cache.value, env.path, ph.mtime, ph.size, None).None?
    ensures var ph := w.procs[p].phase;
      Inv(Enter(w, p, Loaded(ph.since, Current(w), w.cache.value.data.value, w.cache.value.readAt, true)), env)
  {
    var ph, c := w.procs[p].phase, w.cache.value;
    assert ProcOk(w, env, p);
    assert UniqueStamp(w, ph.statAt, c.statAt);
    var loaded := Loaded(ph.since, Current(w), c.data.value, c.readAt, true);
    assert Consistent(w, env, loaded);
    assert ProcOk(Enter(w, p, loaded), env, p);
    EnterKeeps(w, env, p, loaded);
  }

  lemma LoadStepKeeps(w: World, env: Env, step: Step)
    requires Inv(w, env) && Enabled(w, env, step)
    requires step.Grant? || step.Stat? || step.ReadCache? || step.ReadFile? || step.Restat?
    ensures Inv(Take(w, env, step), env)
  {
    var p := step.p;
    assert ProcOk(w, env, p);
    var w' := Take(w, env, step);
    if step.ReadCache? && w'.procs[p].phase.Loaded? {
      CacheHit(w, env, p);
    } else {
      assert w' == Enter(w, p, w'.procs[p].phase);
      assert Consistent(w', env, w'.procs[p].phase);
      EnterKeeps(w, env, p, w'.procs[p].phase);
    }
  }

  lemma SaveStepKeeps(w: World, env: Env, step: Step)
    requires Inv(w, env) && Enabled(w, env, step) && (step.SaveCache? || step.SaveWritten?)
    ensures Inv(Take(w, env, step), env)
  {
    var p, ph := step.p, w.procs[step.p].phase;
    assert ProcOk(w, env, p);
    if step.SaveCache? {
      if step.ok {
        var c := CacheFile(CACHE_VERSION, env.path, ph.mtime, ph.size, env.hash(ph.text),
                           Some(ph.data), ph.statAt, ph.readAt);
        CacheKeeps(w, env, c);
        LoadReturns(w.(cache := Some(c)), env, p, Loaded(ph.since, Current(w), ph.data, ph.readAt, true));
      } else {
        LoadReturns(w, env, p, Loaded(ph.since, Current(w), map[], ph.readAt, false));
      }
    } else if step.ok {
      var c := CacheFile(CACHE_VERSION, env.path, ph.mtime, ph.size, env.hash(env.print_(ph.tools)),
                         Some(ph.tools), ph.at, ph.at);
      CacheKeeps(w, env, c);
      ReleaseKeeps(w.(cache := Some(c)), env, p);
    } else {
      ReleaseKeeps(w, env, p);
    }
  }

  lemma LoadReturns(w: World, env: Env, p: nat, loaded: Phase)
    requires Inv(w, env) && p in w.procs && w.procs[p].phase.Parsed? && loaded.Loaded?
    requires loaded.since == w.procs[p].phase.since && Consistent(w, env, loaded)
    ensures Inv(Enter(w, p, loaded), env)
  {
    assert ProcOk(w, env, p);
    assert ProcOk(Enter(w, p, loaded), env, p);
    EnterKeeps(w, env, p, loaded);
  }

  lemma StepKeeps(w: World, env: Env, step: Step)
    requires Inv(w, env) && RoundTrips(env) && Enabled(w, env, step)
    ensures Inv(Take(w, env, step), env)
  {
    match step
    case Call(p, job) => CallKeeps(w, env, p, job);
    case Write(p, mtime, size) => WriteKeeps(w, env, p, mtime, size);
    case GiveUp(p) => ReleaseKeeps(w, env, p);
    case SaveCache(_, _) => SaveStepKeeps(w, env, step);
    case SaveWritten(_, _) => SaveStepKeeps(w, env, step);
    case Restart => RestartKeeps(w, env);
    case _ => LoadStepKeeps(w, env, step);
  }

  lemma {:induction false} RunsKeep(w: World, env: Env, steps: seq<Step>, w': World)
    requires Inv(w, env) && RoundTrips(env) && Runs(w, env, steps, w')
    ensures Inv(w', env)
    decreases |steps|
  {
    if steps == [] {
    } else {
      StepKeeps(w, env, steps[0]);
      RunsKeep(Take(w, env, steps[0]), env, steps[1..], w');
    }
  }

  /** Before the first process starts there is a file or none, and no cache. */
  lemma FreshRests(env: Env, file: File)
    ensures Rest(Init(file), env)
  {
    var i := Init(file);
    assert forall p: nat :: ProcOk(i, env, p);
    assert forall a: nat, b: nat | a < 1 && b < 1 :: UniqueStamp(i, a, b);
  }

  // ---------------------------------------------------------------- main results

  /**
   Linearizable loads: however the calls interleave, and whether or not the cache was hit, a load
   returns the reading of a version that was current at some moment between its call and its return,
   unless its own attempt to save the cache failed; then it returns an empty allowlist.
   */
  lemma LoadsAreLinearizable(env: Env, w0: World, steps: seq<Step>, w: World, p: nat)
    requires RoundTrips(env) && Rest(w0, env) && Runs(w0, env, steps, w)
    requires p in w.procs && w.procs[p].phase.Loaded?
    ensures var ph := w.procs[p].phase;
      ph.since <= ph.at <= ph.until < |w.history| && ph.data == Base(env, w.history[ph.at], !ph.saved)
  {
    RunsKeep(w0, env, steps, w);
    assert ProcOk(w, env, p);
  }

  /** When an edit is about to write, the content it loaded is still the current one, unless its load was lost. */
  lemma EditsStartFromCurrent(env: Env, w0: World, steps: seq<Step>, w: World, p: nat, mtime: int, size: int)
    requires RoundTrips(env) && Rest(w0, env) && Runs(w0, env, steps, w) && Enabled(w, env, Write(p, mtime, size))
    ensures var ph := w.procs[p].phase;
            ph.data == Base(env, w.history[Current(w)], !ph.saved)
  {
    RunsKeep(w0, env, steps, w);
    assert ProcOk(w, env, p);
  }

  /** The commits one after the other; one whose load was lost starts over from nothing. */
  function EditAll(edits: seq<Commit>, tools: Tools): Option<Tools> {
    if edits == [] then Some(tools)
    else
      var last := edits[|edits| - 1];
      match EditAll(edits[..|edits| - 1], tools)
      case None => None
      case Some(t) => Edited(last.edit, if last.lost then map[] else t)
  }

  /** The file is its first version with every committed edit applied, in commit order; nothing is ever taken back. */
  lemma EditsAreSerial(env: Env, w0: World, steps: seq<Step>, w: World)
    requires RoundTrips(env) && Rest(w0, env) && Runs(w0, env, steps, w)
    ensures |w.history| == |w.edits| + 1
    ensures EditAll(w.edits, Interp(env, w.history[0])) == Some(Interp(env, w.history[Current(w)]))
    ensures w0.history <= w.history && w0.edits <= w.edits
  {
    RunsKeep(w0, env, steps, w);
    OnlyAppends(w0, env, steps, w);
    SerialFrom(w, env, |w.edits|);
    assert w.edits[..|w.edits|] == w.edits;
  }

  /** No lost update: an edit that did not start over keeps what the file held for every other tool. */
  lemma EditKeepsOthers(env: Env, w0: World, steps: seq<Step>, w: World, v: nat, tool: string)
    requires RoundTrips(env) && Rest(w0, env) && Runs(w0, env, steps, w)
    requires v < |w.edits| && |w.history| == |w.edits| + 1
    requires !w.edits[v].edit.ClearAll? && tool != ToolOf(w.edits[v].edit)
    ensures var before, after := Interp(env, w.history[v]), Interp(env, w.history[v + 1]);
      if w.edits[v].lost then tool !in after
      else (tool in after <==> tool in before) && (tool in before ==> after[tool] == before[tool])
  {
    RunsKeep(w0, env, steps, w);
    assert Serial(w, env, v);
  }

  /**
   What a committed edit leaves: clearing leaves nothing; a persisted rule is there; of the tool whose
   rules were removed nothing is left that carries all selectors given.
   */
  lemma EditTakesEffect(env: Env, w0: World, steps: seq<Step>, w: World, v: nat)
    requires RoundTrips(env) && Rest(w0, env) && Runs(w0, env, steps, w)
    requires v < |w.edits| && |w.history| == |w.edits| + 1
    ensures var after := Interp(env, w.history[v + 1]);
      match w.edits[v].edit
      case ClearAll => after == map[]
      case PersistRule(mode, ctx) => ctx.toolName in after && RuleFor(mode, ctx) in RulesOf(after[ctx.toolName])
      case RemoveRules(tool, sel) =>
        tool in after ==>
          forall r | r in RulesOf(after[tool]) ::
            || (Truthy(sel.phase) && r.phase != sel.phase) || (Truthy(sel.argsHash) && r.argsHash != sel.argsHash)
            || exists e :: e in NonEmpty(sel.sideEffects) && e !in NonEmpty(r.sideEffects)
  {
    RunsKeep(w0, env, steps, w);
    assert Serial(w, env, v);
    var before := Base(env, w.history[v], w.edits[v].lost);
    match w.edits[v].edit
    case RemoveRules(tool, sel) => SurvivingMeaning(RulesOf(before[tool]), sel);
    case _ =>
  }

  function ToolOf(edit: Edit): string
    requires !edit.ClearAll?
  {
    if edit.PersistRule? then edit.ctx.toolName else edit.toolName
  }

  /** No step takes back a version or a commit. */
  lemma {:induction false} OnlyAppends(w: World, env: Env, steps: seq<Step>, w': World)
    requires Runs(w, env, steps, w')
    ensures w.history <= w'.history && w.edits <= w'.edits
    decreases |steps|
  {
    if steps == [] {
    } else {
      var w1 := Take(w, env, steps[0]);
      assert w.history <= w1.history && w.edits <= w1.edits;
      OnlyAppends(w1, env, steps[1..], w');
    }
  }

  lemma {:induction false} SerialFrom(w: World, env: Env, n: nat)
    requires Inv(w, env) && n <= |w.edits|
    ensures EditAll(w.edits[..n], Interp(env, w.history[0])) == Some(Interp(env, w.history[n]))
  {
    if n == 0 {
    } else {
      SerialFrom(w, env, n - 1);
      assert Serial(w, env, n - 1);
      assert w.edits[..n][..n - 1] == w.edits[..n - 1];
    }
  }

  // ---------------------------------------------------------------- hits, losses, and progress

  /** A load answers from the cache exactly if the cache file can be read and is good for the stamp it saw. */
  lemma HitsExactly(w: World, env: Env, p: nat, torn: bool)
    requires Enabled(w, env, ReadCache(p, torn))
    ensures var ph, r := w.procs[p].phase, Take(w, env, ReadCache(p, torn));
      var good := !torn && w.cache.Some?
                  && InvalidationReason(w.cache.value, env.path, ph.mtime, ph.size, None).None?;
      && (r.procs[p].phase.Loaded? <==> good) && (r.procs[p].phase.Missed? <==> !good)
      && (good ==> Some(r.procs[p].phase.data) == w.cache.value.data && r.procs[p].phase.saved)
  {
  }

  /** The load of this call was lost. */
  predicate LostAt(w: World, p: nat) {
    p in w.procs && w.procs[p].phase.Loaded? && !w.procs[p].phase.saved
  }

  predicate NoneLost(w: World) {
    forall p | p in w.procs :: !LostAt(w, p)
  }

  lemma {:induction false} OnlyFailedSavesLose(w: World, env: Env, steps: seq<Step>, w': World, p: nat)
    requires Runs(w, env, steps, w') && SaveCache(p, false) !in steps && !LostAt(w, p)
    ensures !LostAt(w', p)
    decreases |steps|
  {
    if steps == [] {
    } else {
      assert steps[0] in steps && !LostAt(Take(w, env, steps[0]), p);
      OnlyFailedSavesLose(Take(w, env, steps[0]), env, steps[1..], w', p);
    }
  }

  /** A load is lost only if its own attempt to save the cache failed. */
  lemma LostOnlyByFailedSave(env: Env, w0: World, steps: seq<Step>, w: World, p: nat)
    requires Rest(w0, env) && Runs(w0, env, steps, w) && LostAt(w, p)
    ensures SaveCache(p, false) in steps
  {
    if SaveCache(p, false) !in steps {
      OnlyFailedSavesLose(w0, env, steps, w, p);
    }
  }

  /** Clearing does not load, so it is never lost. */
  predicate ClearsWell(w: World) {
    && (forall p | p in w.procs && w.procs[p].job == Change(ClearAll) ::
          w.procs[p].phase.Waiting? || (w.procs[p].phase.Loaded? && w.procs[p].phase.saved)
          || w.procs[p].phase.Written? || w.procs[p].phase.Restatted? || w.procs[p].phase.Finished?)
    && (forall k | 0 <= k < |w.edits| && w.edits[k].edit.ClearAll? :: !w.edits[k].lost)
  }

  lemma {:induction false} ClearIsNeverLost(w: World, env: Env, steps: seq<Step>, w': World)
    requires ClearsWell(w) && Runs(w, env, steps, w')
    ensures ClearsWell(w')
    decreases |steps|
  {
    if steps == [] {
    } else {
      assert ClearsWell(Take(w, env, steps[0]));
      ClearIsNeverLost(Take(w, env, steps[0]), env, steps[1..], w');
    }
  }

  /** An edit that has loaded writes, unless it removes rules of a tool that has no entry. */
  lemma WritesOrGivesUp(w: World, env: Env, p: nat, mtime: int, size: int)
    requires At(w, p) && w.procs[p].phase.Loaded? && w.procs[p].job.Change?
    ensures var edit, data := w.procs[p].job.edit, w.procs[p].phase.data;
      && (Enabled(w, env, GiveUp(p)) <==> edit.RemoveRules? && edit.toolName !in data)
      && (FreshStamp(w, mtime, size) ==> (Enabled(w, env, Write(p, mtime, size)) <==> !Enabled(w, env, GiveUp(p))))
  {
  }

  /** The edit with this ticket has not released the lock. */
  predicate HasTicket(w: World, p: nat, t: nat) {
    p in w.procs && w.procs[p].job.Change? && w.procs[p].ticket == t && !w.procs[p].phase.Finished?
  }

  /** A ticket that was handed out is released or in the hands of an unfinished edit. */
  ghost predicate TicketOk(w: World, t: nat) {
    t < w.tickets ==> t in w.released || exists p :: HasTicket(w, p, t)
  }

  /** An edit that has written finds its file. */
  predicate WrittenOk(w: World, p: nat) {
    p in w.procs && w.procs[p].phase.Written? ==> w.history != [] && w.history[|w.history| - 1].Present?
  }

  ghost predicate Flows(w: World) {
    (forall t: nat :: TicketOk(w, t)) && (forall p: nat :: WrittenOk(w, p))
  }

  lemma TicketStep(w: World, env: Env, step: Step, t: nat)
    requires TicketOk(w, t) && Enabled(w, env, step)
    ensures TicketOk(Take(w, env, step), t)
  {
    var w' := Take(w, env, step);
    if step.Restart? {
    } else if step.Call? && step.job.Change? && t == w.tickets {
      assert HasTicket(w', step.p, t);
    } else if t < w.tickets && t !in w.released {
      var p :| HasTicket(w, p, t);
      if !HasTicket(w', p, t) {
        assert t in w'.released;
      }
    }
  }

  lemma WrittenStep(w: World, env: Env, step: Step, p: nat)
    requires WrittenOk(w, p) && Enabled(w, env, step)
    ensures WrittenOk(Take(w, env, step), p)
  {
  }

  lemma {:induction false} RunsFlow(w: World, env: Env, steps: seq<Step>, w': World)
    requires Flows(w) && Runs(w, env, steps, w')
    ensures Flows(w')
    decreases |steps|
  {
    if steps == [] {
    } else {
      var w1 := Take(w, env, steps[0]);
      forall t: nat ensures TicketOk(w1, t) {
        TicketStep(w, env, steps[0], t);
      }
      forall p: nat ensures WrittenOk(w1, p) {
        WrittenStep(w, env, steps[0], p);
      }
      RunsFlow(w1, env, steps[1..], w');
    }
  }

  /** The first ticket that is not released, up to one that is not. */
  lemma {:induction false} FirstTicket(w: World, t: nat, n: nat) returns (first: nat)
    requires t !in w.released && n <= t && forall u: nat | u < n :: u in w.released
    ensures first <= t && first !in w.released && forall u: nat | u < first :: u in w.released
    decreases t - n
  {
    if n in w.released {
      first := FirstTicket(w, t, n + 1);
    } else {
      first := n;
    }
  }

  lemma {:induction false} SomeFreshStamp(history: seq<File>) returns (mtime: int)
    ensures forall f | f in history && f.Present? :: f.mtime < mtime
  {
    if history == [] {
      mtime := 0;
    } else {
      var front, last := history[..|history| - 1], history[|history| - 1];
      mtime := SomeFreshStamp(front);
      if last.Present? && last.mtime >= mtime {
        mtime := last.mtime + 1;
      }
    }
  }

  /** What an edit that is past its grant can do next. */
  lemma HolderCanGo(w: World, env: Env, p: nat) returns (step: Step)
    requires Inv(w, env) && WrittenOk(w, p) && p in w.procs && Holding(w.procs[p])
    ensures Enabled(w, env, step) && !step.Call? && !step.Restart? && step.p == p
  {
    assert ProcOk(w, env, p);
    match w.procs[p].phase
    case Begun(_) => step := Stat(p);
    case Statted(_, _, _, _) => step := ReadCache(p, true);
    case Missed(_, _, _, _) => step := ReadFile(p);
    case Parsed(_, _, _, _, _, _, _) => step := SaveCache(p, true);
    case Loaded(_, _, data, _, _) =>
      if Edited(w.procs[p].job.edit, data).None? {
        step := GiveUp(p);
      } else {
        var mtime := SomeFreshStamp(w.history);
        step := Write(p, mtime, 0);
      }
    case Written(_) => step := Restat(p);
    case Restatted(_, _, _, _) => step := SaveWritten(p, true);
  }

  /**
   The lock never blocks for good: as long as some edit is unfinished, some edit whose ticket is no
   later can take its next step.
   */
  lemma NoDeadlock(env: Env, w0: World, steps: seq<Step>, w: World, p: nat) returns (step: Step)
    requires RoundTrips(env) && Rest(w0, env) && Runs(w0, env, steps, w)
    requires p in w.procs && w.procs[p].job.Change? && !w.procs[p].phase.Finished?
    ensures Enabled(w, env, step) && !step.Call? && !step.Restart?
    ensures w.procs[step.p].job.Change? && w.procs[step.p].ticket <= w.procs[p].ticket
  {
    RunsKeep(w0, env, steps, w);
    RunsFlow(w0, env, steps, w);
    assert ProcOk(w, env, p);
    var t := FirstTicket(w, w.procs[p].ticket, 0);
    assert TicketOk(w, t);
    var q :| HasTicket(w, q, t);
    if w.procs[q].phase.Waiting? {
      step := Grant(q);
    } else {
      assert WrittenOk(w, q);
      step := HolderCanGo(w, env, q);
    }
  }

  /** Mutual exclusion over whole runs. */
  lemma OneHolder(env: Env, w0: World, steps: seq<Step>, w: World, p: nat, q: nat)
    requires RoundTrips(env) && Rest(w0, env) && Runs(w0, env, steps, w)
    requires p in w.procs && q in w.procs && Holding(w.procs[p]) && Holding(w.procs[q])
    ensures p == q
  {
    RunsKeep(w0, env, steps, w);
    Exclusive(w, env, p, q);
  }

  lemma {:induction false} RunsSnoc(w: World, env: Env, steps: seq<Step>, w1: World, step: Step)
    requires Runs(w, env, steps, w1) && Enabled(w1, env, step)
    ensures Runs(w, env, steps + [step], Take(w1, env, step))
    decreases |steps|
  {
    if steps == [] {
      assert Runs(Take(w1, env, step), env, [step][1..], Take(w1, env, step));
    } else {
      assert (steps + [step])[1..] == steps[1..] + [step];
      RunsSnoc(Take(w, env, steps[0]), env, steps[1..], w1, step);
    }
  }

  /** An edit on its own takes the lock and reads the file. */
  lemma {:induction false} EditReads(env: Env, tools: Tools, edit: Edit) returns (steps: seq<Step>, w: World)
    requires RoundTrips(env) && !edit.ClearAll?
    ensures var file := Present(env.print_(tools), 0, 0);
      && Runs(Init(file), env, steps, w) && w.history == [file] && w.edits == []
      && w.procs.Keys == {0} && w.procs[0].job == Change(edit) && w.procs[0].phase.Parsed?
  {
    var file := Present(env.print_(tools), 0, 0);
    assert env.parse(env.print_(tools)) == Some(tools);
    var i := Init(file);
    steps, w := [], i;
    RunsSnoc(i, env, steps, w, Call(0, Change(edit)));
    steps, w := steps + [Call(0, Change(edit))], Take(w, env, Call(0, Change(edit)));
    RunsSnoc(i, env, steps, w, Grant(0));
    steps, w := steps + [Grant(0)], Take(w, env, Grant(0));
    RunsSnoc(i, env, steps, w, Stat(0));
    steps, w := steps + [Stat(0)], Take(w, env, Stat(0));
    RunsSnoc(i, env, steps, w, ReadCache(0, false));
    steps, w := steps + [ReadCache(0, false)], Take(w, env, ReadCache(0, false));
    RunsSnoc(i, env, steps, w, ReadFile(0));
    steps, w := steps + [ReadFile(0)], Take(w, env, ReadFile(0));
  }

  /** Its load cannot save the cache, so the rule it persists is all that is left. */
  lemma {:induction false} LostLoadDropsOthers(env: Env, tools: Tools, mode: Mode, ctx: Context, other: string)
    returns (steps: seq<Step>, w: World)
    requires RoundTrips(env) && other in tools && other != ctx.toolName
    ensures Runs(Init(Present(env.print_(tools), 0, 0)), env, steps, w)
    ensures w.edits == [Commit(PersistRule(mode, ctx), true)] && |w.history| == 2
    ensures other in Interp(env, w.history[0]) && other !in Interp(env, w.history[1])
  {
    var i, edit := Init(Present(env.print_(tools), 0, 0)), PersistRule(mode, ctx);
    steps, w := EditReads(env, tools, edit);
    RunsSnoc(i, env, steps, w, SaveCache(0, false));
    steps, w := steps + [SaveCache(0, false)], Take(w, env, SaveCache(0, false));
    var left := Persist(map[], mode, ctx);
    assert Edited(edit, w.procs[0].phase.data) == Some(left);
    RunsSnoc(i, env, steps, w, Write(0, 1, 0));
    steps, w := steps + [Write(0, 1, 0)], Take(w, env, Write(0, 1, 0));
    assert env.parse(env.print_(tools)) == Some(tools) && env.parse(env.print_(left)) == Some(left);
  }
}
