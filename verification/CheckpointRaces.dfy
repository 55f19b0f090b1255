/**
 Concurrent creations and collections of checkpoints (service.ts). A creation edits the manifest
 twice, each time under the lock, so edits of others can come in between.
 */
module CheckpointRaces {
  import opened Options
  import opened ManifestStore
  import opened ManifestGc
  import opened CheckpointService
  import Lock = ManifestLock

  predicate StoresAt(ops: seq<Op>, i: nat, id: string)
    requires i < |ops|
  {
    ops[i].OpUpsert? && ops[i].h.id == id
  }

  predicate LinksAt(ops: seq<Op>, j: nat, id: string)
    requires j < |ops|
  {
    ops[j].OpLink? && ops[j].id == id
  }

  /** The handle a link refers to was stored before. */
  ghost predicate StoredBefore(ops: seq<Op>, j: nat)
    requires j < |ops| && ops[j].OpLink?
  {
    exists i: nat :: i < j && StoresAt(ops, i, ops[j].id)
  }

  /** Two edits store two checkpoints, and link two. */
  predicate PairOk(ops: seq<Op>, i: nat, j: nat) {
    i < j < |ops| ==>
      && (ops[i].OpUpsert? ==> !StoresAt(ops, j, ops[i].h.id))
      && (ops[i].OpLink? ==> !LinksAt(ops, j, ops[i].id))
  }

  /** Nothing is deleted, and a commit hash is linked after it was stored. */
  ghost predicate EditOk(ops: seq<Op>, j: nat) {
    j < |ops| ==> !ops[j].OpRemove? && (ops[j].OpLink? ==> ops[j].id != "" && StoredBefore(ops, j))
  }

  /**
   The edits of any number of creations and collections, interleaved in any way: each creation
   stores a handle under a commit hash of its own and links it later, once, if it has a session.
   */
  ghost predicate CreationLog(ops: seq<Op>) {
    (forall i: nat, j: nat :: PairOk(ops, i, j)) && (forall j: nat :: EditOk(ops, j))
  }

  /** Between storing and linking a handle comes a collection for which the handle is too old. */
  predicate Raced(ops: seq<Op>, i: nat, k: nat, j: nat) {
    && i < k < j < |ops| && ops[i].OpUpsert? && LinksAt(ops, j, ops[i].h.id)
    && ops[k].OpCollect? && ops[i].h.createdAt < ops[k].cutoff
  }

  ghost predicate SomeRace(ops: seq<Op>) {
    exists i: nat, k: nat, j: nat :: Raced(ops, i, k, j)
  }

  function After(ops: seq<Op>, n: nat): Manifest
    requires n <= |ops|
  {
    ApplyAll(EMPTY, ops[..n])
  }

  lemma AfterNext(ops: seq<Op>, n: nat)
    requires n < |ops|
    ensures After(ops, n + 1) == Apply(After(ops, n), ops[n]) && WellFormed(After(ops, n))
  {
    assert ops[..n + 1][..n] == ops[..n];
    RunsAreWellFormed(ops[..n]);
  }

  /** No session names the checkpoint, now or in its history. */
  ghost predicate Unlinked(m: Manifest, id: string) {
    forall s | s in m.sessions :: id !in m.sessions[s].history && m.sessions[s].current != Some(id)
  }

  /** A checkpoint that has not been linked yet is in no session. */
  lemma {:induction false} NotLinkedYet(ops: seq<Op>, n: nat, id: string)
    requires CreationLog(ops) && n <= |ops| && forall j: nat | j < n :: !LinksAt(ops, j, id)
    ensures Unlinked(After(ops, n), id)
  {
    if n == 0 {
    } else {
      NotLinkedYet(ops, n - 1, id);
      AfterNext(ops, n - 1);
      assert !LinksAt(ops, n - 1, id) && EditOk(ops, n - 1);
    }
  }

  lemma {:induction false} LiveIds(checkpoints: map<string, Handle>, history: seq<string>, id: string)
    requires id !in history && forall x | x in checkpoints :: checkpoints[x].id == x
    ensures forall h | h in Live(checkpoints, history) :: h.id != id
  {
    if history == [] {
    } else {
      LiveIds(checkpoints, history[..|history| - 1], id);
    }
  }

  /** Nobody protects a checkpoint that is in no session: a collection keeps it if and only if it is young enough. */
  lemma {:induction false} CollectUnlinked(m: Manifest, cutoff: int, max: nat, id: string)
    requires WellFormed(m) && Unlinked(m, id) && id in m.checkpoints
    ensures id in Collect(m, cutoff, max).checkpoints <==> m.checkpoints[id].createdAt >= cutoff
    ensures id in Collect(m, cutoff, max).checkpoints ==> Collect(m, cutoff, max).checkpoints[id] == m.checkpoints[id]
  {
    CollectIsExact(m, cutoff, max, id);
    forall x | x in m.checkpoints ensures m.checkpoints[x].id == x {
      assert HandleOk(m, x);
    }
    forall s | s in m.sessions ensures !Kept(m, m.sessions[s], max, id) {
      LiveIds(m.checkpoints, m.sessions[s].history, id);
    }
  }

  /** Among the edits from `i` to `n` is a collection for which the handle stored at `i` is too old. */
  ghost predicate Swept(ops: seq<Op>, i: nat, n: nat)
    requires i < n <= |ops| && ops[i].OpUpsert?
  {
    exists k: nat :: i < k < n && ops[k].OpCollect? && ops[i].h.createdAt < ops[k].cutoff
  }

  lemma SweptNext(ops: seq<Op>, i: nat, n: nat)
    requires i < n < |ops| && ops[i].OpUpsert?
    ensures Swept(ops, i, n + 1)
            <==> Swept(ops, i, n) || (ops[n].OpCollect? && ops[i].h.createdAt < ops[n].cutoff)
  {
    if Swept(ops, i, n) {
      var k: nat :| i < k < n && ops[k].OpCollect? && ops[i].h.createdAt < ops[k].cutoff;
      assert Swept(ops, i, n + 1);
    }
  }

  /** The handle is gone or there as it was stored. */
  predicate Status(m: Manifest, h: Handle, gone: bool) {
    if gone then h.id !in m.checkpoints else h.id in m.checkpoints && m.checkpoints[h.id] == h
  }

  /** What one edit of others does to a handle that is in no session. */
  lemma {:induction false} UnlinkedStep(m: Manifest, op: Op, h: Handle, gone: bool)
    requires WellFormed(m) && Unlinked(m, h.id) && !op.OpRemove? && !(op.OpUpsert? && op.h.id == h.id)
    requires Status(m, h, gone)
    ensures Status(Apply(m, op), h, gone || (op.OpCollect? && h.createdAt < op.cutoff))
  {
    if op.OpCollect? && h.id in m.checkpoints {
      CollectUnlinked(m, op.cutoff, op.max, h.id);
    }
  }

  lemma JustStored(ops: seq<Op>, i: nat)
    requires i < |ops| && ops[i].OpUpsert?
    ensures Status(After(ops, i + 1), ops[i].h, false) && !Swept(ops, i, i + 1)
  {
    AfterNext(ops, i);
  }

  /** Until it is linked, a stored handle is there if and only if no such collection came. */
  lemma {:induction false} StoredUnlessSwept(ops: seq<Op>, i: nat, n: nat)
    requires CreationLog(ops) && i < n <= |ops| && ops[i].OpUpsert?
    requires forall j: nat | j < n :: !LinksAt(ops, j, ops[i].h.id)
    ensures Status(After(ops, n), ops[i].h, Swept(ops, i, n))
  {
    if n == i + 1 {
      JustStored(ops, i);
    } else {
      var m, op, h := After(ops, n - 1), ops[n - 1], ops[i].h;
      StoredUnlessSwept(ops, i, n - 1);
      NotLinkedYet(ops, n - 1, h.id);
      AfterNext(ops, n - 1);
      assert PairOk(ops, i, n - 1) && EditOk(ops, n - 1);
      UnlinkedStep(m, op, h, Swept(ops, i, n - 1));
      SweptNext(ops, i, n - 1);
    }
  }

  /** A link finds its checkpoint if and only if the creation was not raced. */
  lemma LinkFinds(ops: seq<Op>, j: nat)
    requires CreationLog(ops) && j < |ops| && ops[j].OpLink?
    ensures ops[j].id in After(ops, j).checkpoints <==> forall i: nat, k: nat :: !Raced(ops, i, k, j)
  {
    assert EditOk(ops, j);
    var i: nat :| i < j && StoresAt(ops, i, ops[j].id);
    forall l: nat | l < j ensures !LinksAt(ops, l, ops[i].h.id) {
      assert PairOk(ops, l, j);
    }
    StoredUnlessSwept(ops, i, j);
    if Swept(ops, i, j) {
      var k: nat :| i < k < j && ops[k].OpCollect? && ops[i].h.createdAt < ops[k].cutoff;
      assert Raced(ops, i, k, j);
    } else {
      forall i': nat, k: nat ensures !Raced(ops, i', k, j) {
        if Raced(ops, i', k, j) {
          OneStore(ops, i, i', ops[j].id);
        }
      }
    }
  }

  lemma OneStore(ops: seq<Op>, i: nat, i': nat, id: string)
    requires CreationLog(ops) && i < |ops| && i' < |ops| && StoresAt(ops, i, id) && StoresAt(ops, i', id)
    ensures i == i'
  {
    assert PairOk(ops, i, i') && PairOk(ops, i', i);
  }

  /** What one edit does to the current checkpoints. */
  lemma {:induction false} EditKeepsCurrent(m: Manifest, op: Op)
    requires WellFormed(m) && CurrentStored(m) && !op.OpRemove? && (op.OpLink? ==> op.id != "")
    ensures CurrentStored(Apply(m, op)) <==> (op.OpLink? ==> op.id in m.checkpoints)
  {
    match op
    case OpCollect(cutoff, max) =>
      forall s | s in m.sessions && Truthy(m.sessions[s].current)
        ensures m.sessions[s].current.value in Collect(m, cutoff, max).checkpoints
      {
        var id := m.sessions[s].current.value;
        CollectIsExact(m, cutoff, max, id);
        assert Kept(m, m.sessions[s], max, id);
      }
    case OpLink(s, id) =>
      assert Apply(m, op).sessions[s].current == Some(id);
    case _ =>
  }

  lemma {:induction false} NoRaceKeepsCurrent(ops: seq<Op>, n: nat)
    requires CreationLog(ops) && !SomeRace(ops) && n <= |ops|
    ensures CurrentStored(After(ops, n))
  {
    if n == 0 {
    } else {
      NoRaceKeepsCurrent(ops, n - 1);
      AfterNext(ops, n - 1);
      assert EditOk(ops, n - 1);
      if ops[n - 1].OpLink? {
        LinkFinds(ops, n - 1);
      }
      EditKeepsCurrent(After(ops, n - 1), ops[n - 1]);
    }
  }

  /**
   However creations and collections interleave, every session's current checkpoint is stored at
   every moment if and only if no collection falls between the two edits of a creation whose handle
   is too old for it.
   */
  lemma {:induction false} CurrentStoredExactlyIf(ops: seq<Op>)
    requires CreationLog(ops)
    ensures (forall n: nat | n <= |ops| :: CurrentStored(After(ops, n))) <==> !SomeRace(ops)
  {
    if SomeRace(ops) {
      var i: nat, k: nat, j: nat :| Raced(ops, i, k, j);
      LinkFinds(ops, j);
      AfterNext(ops, j);
      assert EditOk(ops, j);
      if CurrentStored(After(ops, j)) {
        EditKeepsCurrent(After(ops, j), ops[j]);
      }
    } else {
      forall n: nat | n <= |ops| ensures CurrentStored(After(ops, n)) {
        NoRaceKeepsCurrent(ops, n);
      }
    }
  }

  /** So it is for processes that share the manifest under its lock. */
  lemma SharedCurrentStored(pace: Lock.Pace, now: int, alive: set<nat>, steps: seq<Lock.Step>, w: Lock.World)
    requires Lock.Reached(pace, now, alive, EMPTY, steps, w)
    requires CreationLog(Lock.Ops(w.committed)) && !SomeRace(Lock.Ops(w.committed))
    ensures CurrentStored(w.file)
  {
    var ops := Lock.Ops(w.committed);
    Lock.NoLostUpdate(pace, now, alive, EMPTY, steps, w);
    NoRaceKeepsCurrent(ops, |ops|);
    assert ops[..|ops|] == ops;
  }

  /** A collection with a cutoff in the future of the new handle comes between storing and linking it. */
  lemma {:induction false} CreateCanDangle(h: Handle, s: string, cutoff: int, max: nat)
    requires h.id != "" && h.createdAt < cutoff
    ensures var ops := [OpUpsert(h), OpCollect(cutoff, max), OpLink(s, h.id)];
            CreationLog(ops) && Raced(ops, 0, 1, 2) && After(ops, 3).sessions[s].current == Some(h.id)
            && h.id !in After(ops, 3).checkpoints
  {
    var ops := [OpUpsert(h), OpCollect(cutoff, max), OpLink(s, h.id)];
    assert StoresAt(ops, 0, h.id);
    assert EditOk(ops, 2);
    assert Raced(ops, 0, 1, 2);
    AfterNext(ops, 2);
    LinkFinds(ops, 2);
  }
}
