/** The checkpoint service as sequences of manifest edits (service.ts). */
module CheckpointService {
  import opened Options
  import opened Sequences
  import opened Sorting
  import opened ManifestStore
  import opened ManifestGc

  /** Every session's current checkpoint, if it names one, is stored. */
  ghost predicate CurrentStored(m: Manifest) {
    forall s | s in m.sessions :: Truthy(m.sessions[s].current) ==> m.sessions[s].current.value in m.checkpoints
  }

  // ---------------------------------------------------------------- service operations

  /** create: stores the handle, then links the session if one is given. */
  function Create(m: Manifest, h: Handle, sessionId: Option<string>): Manifest {
    var m := Upsert(m, h);
    if Truthy(sessionId) then LinkSession(m, sessionId.value, h.id) else m
  }

  /** list of one session: newest first, cut to a positive limit. */
  function ListSession(m: Manifest, sessionId: string, limit: Option<int>): seq<Handle> {
    if sessionId !in m.sessions then []
    else
      var sorted := Sort(NEWEST_FIRST, Live(m.checkpoints, m.sessions[sessionId].history));
      if limit.None? || limit.value <= 0 then sorted else FirstN(sorted, limit.value)
  }

  class GitSnapshotCheckpointService {
    const manifest: CheckpointManifest
    /** The snapshot refs of the repository. */
    var refs: set<string>

    constructor (manifest: CheckpointManifest)
      ensures this.manifest == manifest && refs == {}
    {
      this.manifest, refs := manifest, {};
    }

    /** `commitHash` is the new snapshot, `now` the clock. */
    method CreateCheckpoint(commitHash: string, now: int, parentId: Option<string>, sessionId: Option<string>)
      returns (handle: Handle)
      modifies this, manifest
      ensures handle == Handle(commitHash, now, parentId)
      ensures manifest.View() == Create(old(manifest.View()), handle, sessionId) && refs == old(refs) + {commitHash}
    {
      refs := refs + {commitHash};
      handle := Handle(commitHash, now, parentId);
      manifest.UpsertHandle(handle);
      if Truthy(sessionId) {
        manifest.LinkSessionTo(sessionId.value, handle.id);
      }
    }

    /** Stops before the manifest when the ref cannot be deleted. */
    method Delete(id: string, failing: set<string>) returns (ok: bool)
      modifies this, manifest
      ensures ok <==> id !in failing
      ensures manifest.View() == (if ok then Remove(old(manifest.View()), id) else old(manifest.View()))
      ensures refs == if ok then old(refs) - {id} else old(refs)
    {
      ok := id !in failing;
      if ok {
        refs := refs - {id};
        manifest.RemoveHandle(id);
      }
    }

    /** Collects the manifest, then drops the refs of what was removed, skipping those that fail. */
    method Gc(cutoff: int, maxPerSession: nat, failing: set<string>) returns (removed: nat, refsRemoved: nat)
      modifies this, manifest
      ensures manifest.View() == Collect(old(manifest.View()), cutoff, maxPerSession)
      ensures var gone := Removed(old(manifest.View()), cutoff, maxPerSession);
              removed == |gone| && refsRemoved == |gone - failing| && refs == old(refs) - (gone - failing)
    {
      ghost var gone := Removed(manifest.View(), cutoff, maxPerSession);
      var ids := manifest.GarbageCollect(cutoff, maxPerSession);
      removed := |ids|;
      refsRemoved := DropRefs(ids, failing, gone);
    }

    /** Deletes the snapshot refs of the given distinct ids, counting those that could be deleted. */
    method DropRefs(ids: seq<string>, failing: set<string>, ghost gone: set<string>) returns (refsRemoved: nat)
      requires Lists(ids, gone)
      modifies this`refs
      ensures refsRemoved == |gone - failing| && refs == old(refs) - (gone - failing)
    {
      refsRemoved := 0;
      for k := 0 to |ids|
        invariant refsRemoved == |Elements(ids[..k]) - failing|
        invariant refs == old(refs) - (Elements(ids[..k]) - failing)
      {
        OneMoreElement(ids, gone, k);
        DropOne(old(refs), Elements(ids[..k]), failing, ids[k]);
        if ids[k] !in failing {
          refs := refs - {ids[k]};
          refsRemoved := refsRemoved + 1;
        }
      }
      assert ids[..|ids|] == ids;
      assert Elements(ids) == gone;
    }
  }

  function Elements(ids: seq<string>): set<string> {
    set x | x in ids
  }

  lemma OneMoreElement(ids: seq<string>, gone: set<string>, k: nat)
    requires Lists(ids, gone) && k < |ids|
    ensures Elements(ids[..k + 1]) == Elements(ids[..k]) + {ids[k]} && ids[k] !in Elements(ids[..k])
  {
    DistinctIfFull(ids, gone);
    assert ids[..k + 1] == ids[..k] + [ids[k]];
  }

  lemma DropOne(refs: set<string>, done: set<string>, failing: set<string>, id: string)
    requires id !in done
    ensures id in failing ==> done + {id} - failing == done - failing
    ensures id !in failing ==>
              |done + {id} - failing| == |done - failing| + 1
              && refs - (done + {id} - failing) == refs - (done - failing) - {id}
  {
    if id in failing {
      assert done + {id} - failing == done - failing;
    } else {
      assert done + {id} - failing == (done - failing) + {id};
    }
  }

  /** A list as long as the set of its elements repeats nothing. */
  lemma DistinctIfFull(ids: seq<string>, gone: set<string>)
    requires Lists(ids, gone)
    ensures forall k | 0 <= k < |ids| :: ids[k] !in ids[..k]
  {
    assert gone == Elements(ids);
    forall k | 0 <= k < |ids| ensures ids[k] !in ids[..k] {
      if ids[k] in ids[..k] {
        RepeatShortens(ids, k);
      }
    }
  }

  lemma RepeatShortens(ids: seq<string>, k: nat)
    requires k < |ids| && ids[k] in ids[..k]
    ensures |Elements(ids)| < |ids|
  {
    var rest := ids[..k] + ids[k + 1..];
    assert ids == ids[..k] + [ids[k]] + ids[k + 1..];
    assert Elements(ids) == Elements(rest);
    SetOfAtMost(rest);
  }

  lemma {:induction false} SetOfAtMost(ids: seq<string>)
    ensures |Elements(ids)| <= |ids|
  {
    if ids == [] {
    } else {
      SetOfAtMost(ids[1..]);
      assert Elements(ids) == {ids[0]} + Elements(ids[1..]);
    }
  }

  // ---------------------------------------------------------------- runs

  datatype Action = DoCreate(h: Handle, sessionId: Option<string>) | DoGc(cutoff: int, max: nat) | DoDelete(id: string)

  function Act(m: Manifest, a: Action): Manifest {
    match a
    case DoCreate(h, s) => Create(m, h, s)
    case DoGc(cutoff, max) => Collect(m, cutoff, max)
    case DoDelete(id) => Remove(m, id)
  }

  function ActAll(actions: seq<Action>): Manifest {
    if actions == [] then EMPTY else Act(ActAll(actions[..|actions| - 1]), actions[|actions| - 1])
  }

  lemma ActKeepsWellFormed(m: Manifest, a: Action)
    requires WellFormed(m)
    ensures WellFormed(Act(m, a))
  {
    match a
    case DoCreate(h, s) =>
      ApplyKeepsWellFormed(m, OpUpsert(h));
      if Truthy(s) {
        ApplyKeepsWellFormed(Upsert(m, h), OpLink(s.value, h.id));
      }
    case DoGc(cutoff, max) => ApplyKeepsWellFormed(m, OpCollect(cutoff, max));
    case DoDelete(id) => ApplyKeepsWellFormed(m, OpRemove(id));
  }

  /** Sequential runs of create and gc, with any limits, keep every session's current checkpoint stored. */
  lemma {:induction false} CreateAndGcKeepCurrent(actions: seq<Action>)
    requires forall k | 0 <= k < |actions| :: !actions[k].DoDelete?
    ensures CurrentStored(ActAll(actions)) && WellFormed(ActAll(actions))
  {
    if actions == [] {
      RunsAreWellFormed([]);
    } else {
      var front, a := actions[..|actions| - 1], actions[|actions| - 1];
      CreateAndGcKeepCurrent(front);
      ActKeepsWellFormed(ActAll(front), a);
    }
  }

  /** The checkpoint a session would fall back to if `id` were deleted. */
  function Fallback(m: Manifest, s: string, id: string): Option<string>
    requires s in m.sessions
  {
    Last(Without(m.sessions[s].history, id))
  }

  /**
   Deleting keeps every current checkpoint stored if and only if, for each session whose current
   one is being deleted, the last other entry of its history is absent or still stored.
   */
  lemma {:induction false} DeleteKeepsCurrent(m: Manifest, id: string)
    requires WellFormed(m) && CurrentStored(m)
    ensures CurrentStored(Remove(m, id)) <==>
              forall s | s in m.sessions && m.sessions[s].current == Some(id) ::
                Truthy(Fallback(m, s, id)) ==> Fallback(m, s, id).value in m.checkpoints
  {
    var r := Remove(m, id);
    forall s | s in m.sessions && m.sessions[s].current == Some(id)
      ensures r.sessions[s].current == Fallback(m, s, id) != Some(id)
    {
      WithoutMeaning(m.sessions[s].history, id);
      var h := Without(m.sessions[s].history, id);
      if h != [] {
        assert h[|h| - 1] in h;
      }
    }
    forall s | s in m.sessions && m.sessions[s].current != Some(id)
      ensures r.sessions[s].current == m.sessions[s].current
    {
    }
    if CurrentStored(r) {
      forall s | s in m.sessions && m.sessions[s].current == Some(id) && Truthy(Fallback(m, s, id))
        ensures Fallback(m, s, id).value in m.checkpoints
      {
        assert r.sessions[s].current == Fallback(m, s, id);
      }
    }
  }

  const A := Handle("a", 1, None)
  const B := Handle("b", 2, None)

  lemma ActSnoc(actions: seq<Action>, a: Action)
    ensures ActAll(actions + [a]) == Act(ActAll(actions), a)
  {
    assert (actions + [a])[..|actions|] == actions;
  }

  /** Two checkpoints created in one session. */
  lemma TwoCreated()
    ensures var m := Create(Create(EMPTY, A, Some("s")), B, Some("s"));
      && m.checkpoints == map["a" := A, "b" := B] && m.lineage == map["a" := None, "b" := None]
      && m.sessions == map["s" := SessionLink("s", Some("b"), ["a", "b"])]
  {
    assert [] + ["a"] == ["a"] && ["a"] + ["b"] == ["a", "b"];
  }

  lemma BothLive(checkpoints: map<string, Handle>)
    requires checkpoints == map["a" := A, "b" := B]
    ensures Live(checkpoints, ["a", "b"]) == [A, B] && Rank([A, B], 0) == 1
  {
    var history := ["a", "b"];
    assert history[..1] == ["a"] && ["a"][..0] == [];
    assert Live(checkpoints, ["a"]) == [] + [A];
    assert Live(checkpoints, history) == [A] + [B];
    assert [A, B][..0] == [] && [A, B][0 + 1..] == [B] && [B][1..] == [];
    assert CountNewer([B], 1) == 1;
  }

  lemma OnlyNewestKept(m: Manifest)
    requires m.checkpoints == map["a" := A, "b" := B]
    requires m.sessions == map["s" := SessionLink("s", Some("b"), ["a", "b"])]
    ensures !Kept(m, m.sessions["s"], 1, "a") && Kept(m, m.sessions["s"], 1, "b")
  {
    BothLive(m.checkpoints);
    assert !RankedBelow([A, B], 1, "a");
  }

  /** Collecting everything but the newest removes the older one, which stays in the history. */
  lemma OlderCollected(m: Manifest)
    requires m.checkpoints == map["a" := A, "b" := B]
    requires m.sessions == map["s" := SessionLink("s", Some("b"), ["a", "b"])]
    ensures Collect(m, 9, 1).checkpoints == m.checkpoints - {"a"} && Collect(m, 9, 1).sessions == m.sessions
  {
    OnlyNewestKept(m);
    CollectIsExact(m, 9, 1, "a");
    CollectIsExact(m, 9, 1, "b");
    assert Removed(m, 9, 1) == {"a"};
  }

  lemma NewestDeleted(m: Manifest)
    requires m.sessions == map["s" := SessionLink("s", Some("b"), ["a", "b"])]
    ensures Remove(m, "b").sessions["s"].current == Some("a") && Remove(m, "b").checkpoints == m.checkpoints - {"b"}
  {
    assert ["a", "b"][1..] == ["b"] && ["b"][1..] == [];
    assert Without(["a", "b"], "b") == ["a"];
  }

  lemma FourActions(a: Action, b: Action, c: Action, d: Action)
    ensures ActAll([a, b, c, d]) == Act(Act(Act(Act(EMPTY, a), b), c), d)
  {
    ActSnoc([], a);
    ActSnoc([a], b);
    ActSnoc([a, b], c);
    ActSnoc([a, b, c], d);
    assert [] + [a] == [a] && [a] + [b] == [a, b] && [a, b] + [c] == [a, b, c] && [a, b, c] + [d] == [a, b, c, d];
  }

  /** It can fail: the fallback may have been collected before. */
  lemma DeleteCanDangle()
    ensures var m := ActAll([DoCreate(A, Some("s")), DoCreate(B, Some("s")), DoGc(9, 1), DoDelete("b")]);
      "s" in m.sessions && m.sessions["s"].current == Some("a") && "a" !in m.checkpoints
  {
    FourActions(DoCreate(A, Some("s")), DoCreate(B, Some("s")), DoGc(9, 1), DoDelete("b"));
    TwoCreated();
    var two := Create(Create(EMPTY, A, Some("s")), B, Some("s"));
    OlderCollected(two);
    NewestDeleted(Collect(two, 9, 1));
  }

  /**
   Listing a session: every stored handle of its history as often as it is there, the newest first,
   equally old ones in history order; a positive limit cuts this list, any other does not.
   */
  lemma {:induction false} ListingMeans(m: Manifest, s: string, limit: int)
    requires s in m.sessions
    ensures var all, live := ListSession(m, s, None), Live(m.checkpoints, m.sessions[s].history);
      && multiset(all) == multiset(live) && Descending(all)
      && (forall h :: Peers(NEWEST_FIRST, h, all) == Peers(NEWEST_FIRST, h, live))
      && ListSession(m, s, Some(limit)) == if 0 < limit <= |all| then all[..limit] else all
  {
    var live := Live(m.checkpoints, m.sessions[s].history);
    SortPermutes(NEWEST_FIRST, live);
    SortDescends(live);
    forall h ensures Peers(NEWEST_FIRST, h, Sort(NEWEST_FIRST, live)) == Peers(NEWEST_FIRST, h, live) {
      SortStable(NEWEST_FIRST, h, live);
    }
  }

  /** A history's live handles: those stored under its ids, in order, with multiplicity. */
  lemma {:induction false} LiveMeans(checkpoints: map<string, Handle>, history: seq<string>, more: seq<string>)
    ensures Live(checkpoints, history + more) == Live(checkpoints, history) + Live(checkpoints, more)
    ensures |more| == 1 ==> Live(checkpoints, more) == if more[0] in checkpoints then [checkpoints[more[0]]] else []
  {
    if more == [] {
      assert history + more == history;
    } else {
      var front, id := more[..|more| - 1], more[|more| - 1];
      LiveMeans(checkpoints, history, front);
      assert (history + more)[..|history + more| - 1] == history + front;
      Regroup(Live(checkpoints, history), Live(checkpoints, front),
              if id in checkpoints then [checkpoints[id]] else []);
    }
  }

  lemma LastIsLive(checkpoints: map<string, Handle>, history: seq<string>)
    requires history != [] && history[|history| - 1] in checkpoints
    ensures checkpoints[history[|history| - 1]] in Live(checkpoints, history)
  {
  }

  lemma NewestFirst(list: seq<Handle>, h: Handle)
    requires Descending(list) && h in list && forall g | g in list && g != h :: g.createdAt < h.createdAt
    ensures list[0] == h
  {
    var k :| 0 <= k < |list| && list[k] == h;
    assert k > 0 ==> list[0].createdAt >= list[k].createdAt;
  }

  /**
   A checkpoint created in a session is stored, is the session's current one and is listed there,
   first of all if no other is as new; without a session no session changes.
   */
  lemma CreatedIsListed(m: Manifest, h: Handle, sessionId: Option<string>)
    ensures var r := Create(m, h, sessionId);
      && r.checkpoints == m.checkpoints[h.id := h] && r.lineage == m.lineage[h.id := h.parentId]
      && (!Truthy(sessionId) ==> r.sessions == m.sessions)
      && (Truthy(sessionId) ==>
            var s, list := sessionId.value, ListSession(r, sessionId.value, None);
            && s in r.sessions && r.sessions[s].current == Some(h.id) && h in list
            && ((forall g | g in list && g != h :: g.createdAt < h.createdAt) ==> list[0] == h)
            && forall o | o != s :: (o in r.sessions <==> o in m.sessions)
                                    && (o in m.sessions ==> r.sessions[o] == m.sessions[o]))
  {
    if Truthy(sessionId) {
      var r, s := Create(m, h, sessionId), sessionId.value;
      LinkExtends(Upsert(m, h), s, h.id, s);
      LastIsLive(r.checkpoints, r.sessions[s].history);
      ListingMeans(r, s, 0);
      var list := ListSession(r, s, None);
      SortPermutes(NEWEST_FIRST, Live(r.checkpoints, r.sessions[s].history));
      if forall g | g in list && g != h :: g.createdAt < h.createdAt {
        NewestFirst(list, h);
      }
    }
  }

  /** Listing a session with a positive limit shows exactly what a collection with that limit keeps for it. */
  lemma {:induction false} ListedIsProtected(m: Manifest, s: string, limit: nat, id: string)
    requires s in m.sessions && limit > 0
    ensures id in IdsOf(ListSession(m, s, Some(limit)))
            <==> RankedBelow(Live(m.checkpoints, m.sessions[s].history), limit, id)
  {
    ProtectedIsRanked(Live(m.checkpoints, m.sessions[s].history), limit, id);
  }

  /** Whatever a session lists with limit n survives every collection that keeps n per session. */
  lemma {:induction false} ListedSurvives(m: Manifest, s: string, limit: nat, cutoff: int, h: Handle)
    requires WellFormed(m) && s in m.sessions && limit > 0 && h in ListSession(m, s, Some(limit))
    ensures h.id in Collect(m, cutoff, limit).checkpoints && Collect(m, cutoff, limit).checkpoints[h.id] == h
  {
    var live := Live(m.checkpoints, m.sessions[s].history);
    ListedIsProtected(m, s, limit, h.id);
    SortPermutes(NEWEST_FIRST, live);
    assert h in Sort(NEWEST_FIRST, live);
    LiveIsStored(m, m.sessions[s].history, h);
    assert Kept(m, m.sessions[s], limit, h.id);
    CollectIsExact(m, cutoff, limit, h.id);
  }

  lemma {:induction false} LiveIsStored(m: Manifest, history: seq<string>, h: Handle)
    requires WellFormed(m) && h in Live(m.checkpoints, history)
    ensures h.id in m.checkpoints && m.checkpoints[h.id] == h
  {
    var front, id := history[..|history| - 1], history[|history| - 1];
    if h in Live(m.checkpoints, front) {
      LiveIsStored(m, front, h);
    } else {
      assert HandleOk(m, id);
    }
  }
}
