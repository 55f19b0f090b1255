/** What garbage collection keeps, exactly, and why it is idempotent (manifest-store.ts). */
module ManifestGc {
  import opened Options
  import opened Sequences
  import opened Sorting
  import opened ManifestStore

  // ---------------------------------------------------------------- rank in a stable newest-first sort

  /** How many handles are at least as new as `date`, and how many are strictly newer. */
  function CountSince(hs: seq<Handle>, date: int): nat {
    if hs == [] then 0 else (if hs[0].createdAt >= date then 1 else 0) + CountSince(hs[1..], date)
  }

  function CountNewer(hs: seq<Handle>, date: int): nat {
    if hs == [] then 0 else (if hs[0].createdAt > date then 1 else 0) + CountNewer(hs[1..], date)
  }

  /**
   The rank of position `k`, without sorting: everything before it that is at least as new, and
   everything after it that is strictly newer.
   */
  function Rank(hs: seq<Handle>, k: nat): nat
    requires k < |hs|
  {
    CountSince(hs[..k], hs[k].createdAt) + CountNewer(hs[k + 1..], hs[k].createdAt)
  }

  ghost predicate Descending(hs: seq<Handle>) {
    forall i, j | 0 <= i < j < |hs| :: hs[i].createdAt >= hs[j].createdAt
  }

  lemma SortDescends(hs: seq<Handle>)
    ensures Descending(Sort(NEWEST_FIRST, hs)) && |Sort(NEWEST_FIRST, hs)| == |hs|
  {
    SortSorts(NEWEST_FIRST, hs);
    SortPermutes(NEWEST_FIRST, hs);
    var s := Sort(NEWEST_FIRST, hs);
    forall i, j | 0 <= i < j < |s| ensures s[i].createdAt >= s[j].createdAt {
      assert NEWEST_FIRST(s[i], s[j]);
    }
  }

  lemma {:induction false} InsertCounts(x: Handle, s: seq<Handle>, date: int)
    ensures CountNewer(Insert(NEWEST_FIRST, x, s), date) == (if x.createdAt > date then 1 else 0) + CountNewer(s, date)
  {
    if s == [] || NEWEST_FIRST(x, s[0]) {
      assert ([x] + s)[1..] == s;
    } else {
      InsertCounts(x, s[1..], date);
      assert ([s[0]] + Insert(NEWEST_FIRST, x, s[1..]))[1..] == Insert(NEWEST_FIRST, x, s[1..]);
    }
  }

  lemma {:induction false} SortCounts(hs: seq<Handle>, date: int)
    ensures CountNewer(Sort(NEWEST_FIRST, hs), date) == CountNewer(hs, date)
  {
    if hs == [] {
    } else {
      SortCounts(hs[1..], date);
      InsertCounts(hs[0], Sort(NEWEST_FIRST, hs[1..]), date);
    }
  }

  /** In descending order the strictly newer handles are exactly the first ones. */
  lemma {:induction false} NewerArePrefix(s: seq<Handle>, date: int, p: nat)
    requires Descending(s) && p < |s|
    ensures CountNewer(s, date) <= |s|
    ensures p < CountNewer(s, date) <==> s[p].createdAt > date
  {
    if |s| == 1 {
    } else if p > 0 {
      NewerArePrefix(s[1..], date, p - 1);
      assert s[0].createdAt >= s[p].createdAt;
    } else {
      NewerArePrefix(s[1..], date, 0);
      assert s[0].createdAt >= s[1].createdAt;
    }
  }

  /** Insertion puts a handle right behind the strictly newer ones. */
  lemma {:induction false} InsertPosition(x: Handle, s: seq<Handle>)
    requires Descending(s)
    ensures var p := CountNewer(s, x.createdAt);
            p <= |s| && Insert(NEWEST_FIRST, x, s) == s[..p] + [x] + s[p..]
  {
    if s == [] {
    } else {
      NewerArePrefix(s, x.createdAt, 0);
      if x.createdAt < s[0].createdAt {
        InsertPosition(x, s[1..]);
        var q := CountNewer(s[1..], x.createdAt);
        assert s[..q + 1] == [s[0]] + s[1..][..q] && s[q + 1..] == s[1..][q..];
      } else {
        assert CountNewer(s, x.createdAt) == 0;
      }
    }
  }

  lemma RankTail(hs: seq<Handle>, k: nat)
    requires 0 < k < |hs|
    ensures Rank(hs, k) == Rank(hs[1..], k - 1) + if hs[0].createdAt >= hs[k].createdAt then 1 else 0
  {
    assert hs[..k][1..] == hs[1..][..k - 1];
    assert hs[k + 1..] == hs[1..][k..];
  }

  /** The sort puts every entry at its rank. */
  lemma {:induction false} SortByRank(hs: seq<Handle>, k: nat)
    requires k < |hs|
    ensures Rank(hs, k) < |hs| == |Sort(NEWEST_FIRST, hs)|
    ensures Sort(NEWEST_FIRST, hs)[Rank(hs, k)] == hs[k]
  {
    var t := Sort(NEWEST_FIRST, hs[1..]);
    var p := CountNewer(t, hs[0].createdAt);
    SortDescends(hs[1..]);
    InsertPosition(hs[0], t);
    SortCounts(hs[1..], hs[0].createdAt);
    if k == 0 {
      assert hs[..0] == [];
    } else {
      SortByRank(hs[1..], k - 1);
      RankTail(hs, k);
      NewerArePrefix(t, hs[0].createdAt, Rank(hs[1..], k - 1));
    }
  }

  /** Every place of the sorted list is some entry's rank. */
  lemma {:induction false} EntryAtRank(hs: seq<Handle>, p: nat) returns (k: nat)
    requires p < |hs|
    ensures k < |hs| && Rank(hs, k) == p
  {
    var t := Sort(NEWEST_FIRST, hs[1..]);
    var q := CountNewer(t, hs[0].createdAt);
    SortDescends(hs[1..]);
    SortCounts(hs[1..], hs[0].createdAt);
    InsertPosition(hs[0], t);
    if p == q {
      k := 0;
      assert hs[..0] == [];
    } else {
      var j := EntryAtRank(hs[1..], if p < q then p else p - 1);
      SortByRank(hs[1..], j);
      NewerArePrefix(t, hs[0].createdAt, if p < q then p else p - 1);
      k := j + 1;
      RankTail(hs, k);
    }
  }

  // ---------------------------------------------------------------- exactness

  /** `id` is among the newest `max` live entries of the history, or is the current checkpoint. */
  ghost predicate Kept(m: Manifest, link: SessionLink, max: nat, id: string) {
    || (Truthy(link.current) && link.current.value == id)
    || RankedBelow(Live(m.checkpoints, link.history), max, id)
  }

  ghost predicate RankedBelow(live: seq<Handle>, max: nat, id: string) {
    exists k: nat :: k < |live| && Rank(live, k) < max && live[k].id == id
  }

  lemma {:induction false} ProtectedIsRanked(live: seq<Handle>, max: nat, id: string)
    ensures id in IdsOf(FirstN(Sort(NEWEST_FIRST, live), max)) <==> RankedBelow(live, max, id)
  {
    var sorted := Sort(NEWEST_FIRST, live);
    SortDescends(live);
    if id in IdsOf(FirstN(sorted, max)) {
      var h :| h in FirstN(sorted, max) && h.id == id;
      var p :| 0 <= p < |FirstN(sorted, max)| && FirstN(sorted, max)[p] == h;
      var k := EntryAtRank(live, p);
      SortByRank(live, k);
    }
    if RankedBelow(live, max, id) {
      var k: nat :| k < |live| && Rank(live, k) < max && live[k].id == id;
      SortByRank(live, k);
      assert FirstN(sorted, max)[Rank(live, k)] == live[k];
      assert live[k] in FirstN(sorted, max);
    }
  }

  /**
   Garbage collection is exact: a stored checkpoint survives if and only if it is not older than the
   cutoff, or is some session's current one, or ranks among some session's newest `max` live
   history entries. Survivors keep their handle and lineage; sessions are untouched.
   */
  lemma {:induction false} CollectIsExact(m: Manifest, cutoff: int, max: nat, id: string)
    requires id in m.checkpoints
    ensures var r := Collect(m, cutoff, max);
      && (id in r.checkpoints <==>
            m.checkpoints[id].createdAt >= cutoff || exists s :: s in m.sessions && Kept(m, m.sessions[s], max, id))
      && (id in r.checkpoints ==> r.checkpoints[id] == m.checkpoints[id])
      && r.checkpoints.Keys == m.checkpoints.Keys - Removed(m, cutoff, max)
      && r.sessions == m.sessions
  {
    forall s | s in m.sessions
      ensures id in ProtectedBy(m, m.sessions[s], max) <==> Kept(m, m.sessions[s], max, id)
    {
      ProtectedIsRanked(Live(m.checkpoints, m.sessions[s].history), max, id);
    }
    if s :| s in m.sessions && Kept(m, m.sessions[s], max, id) {
      assert id in ProtectedBy(m, m.sessions[s], max);
    }
  }

  // ---------------------------------------------------------------- idempotence

  function Keep(hs: seq<Handle>, ids: set<string>): seq<Handle> {
    if hs == [] then [] else (if hs[0].id in ids then [hs[0]] else []) + Keep(hs[1..], ids)
  }

  lemma {:induction false} KeepConcat(a: seq<Handle>, b: seq<Handle>, ids: set<string>)
    ensures Keep(a + b, ids) == Keep(a, ids) + Keep(b, ids)
  {
    if a == [] {
      assert a + b == b;
    } else {
      assert (a + b)[1..] == a[1..] + b;
      KeepConcat(a[1..], b, ids);
      Regroup(if a[0].id in ids then [a[0]] else [], Keep(a[1..], ids), Keep(b, ids));
    }
  }

  lemma {:induction false} KeepCounts(hs: seq<Handle>, ids: set<string>, date: int)
    ensures CountSince(Keep(hs, ids), date) <= CountSince(hs, date)
    ensures CountNewer(Keep(hs, ids), date) <= CountNewer(hs, date)
  {
    if hs == [] {
    } else {
      KeepCounts(hs[1..], ids, date);
      if hs[0].id in ids {
        assert ([hs[0]] + Keep(hs[1..], ids))[1..] == Keep(hs[1..], ids);
      } else {
        assert Keep(hs, ids) == Keep(hs[1..], ids);
      }
    }
  }

  /** Dropping other entries never worsens a rank. */
  lemma KeepRanks(hs: seq<Handle>, ids: set<string>, k: nat) returns (j: nat)
    requires k < |hs| && hs[k].id in ids
    ensures j < |Keep(hs, ids)| && Keep(hs, ids)[j] == hs[k] && Rank(Keep(hs, ids), j) <= Rank(hs, k)
  {
    var a, b := hs[..k], hs[k + 1..];
    assert hs == a + ([hs[k]] + b);
    KeepConcat(a, [hs[k]] + b, ids);
    assert ([hs[k]] + b)[1..] == b;
    var r := Keep(hs, ids);
    j := |Keep(a, ids)|;
    assert r == Keep(a, ids) + ([hs[k]] + Keep(b, ids));
    assert r[..j] == Keep(a, ids) && r[j + 1..] == Keep(b, ids);
    KeepCounts(a, ids, hs[k].createdAt);
    KeepCounts(b, ids, hs[k].createdAt);
  }

  /** The live entries after a collection are the live entries that survived. */
  lemma {:induction false} LiveAfter(checkpoints: map<string, Handle>, survivors: map<string, Handle>,
                                   history: seq<string>)
    requires forall id | id in checkpoints :: checkpoints[id].id == id
    requires survivors.Keys <= checkpoints.Keys && forall id | id in survivors :: survivors[id] == checkpoints[id]
    ensures Live(survivors, history) == Keep(Live(checkpoints, history), survivors.Keys)
  {
    if history == [] {
    } else {
      var front, id := history[..|history| - 1], history[|history| - 1];
      LiveAfter(checkpoints, survivors, front);
      KeepConcat(Live(checkpoints, front), if id in checkpoints then [checkpoints[id]] else [], survivors.Keys);
    }
  }

  lemma {:induction false} KeptStaysKept(m: Manifest, cutoff: int, max: nat, s: string, id: string)
    requires (forall x | x in m.checkpoints :: m.checkpoints[x].id == x) && s in m.sessions && id in m.checkpoints
    requires Kept(m, m.sessions[s], max, id)
    ensures Kept(Collect(m, cutoff, max), m.sessions[s], max, id)
  {
    var r, link := Collect(m, cutoff, max), m.sessions[s];
    CollectIsExact(m, cutoff, max, id);
    var live := Live(m.checkpoints, link.history);
    if RankedBelow(live, max, id) {
      var k: nat :| k < |live| && Rank(live, k) < max && live[k].id == id;
      LiveAfter(m.checkpoints, r.checkpoints, link.history);
      var j := KeepRanks(live, r.checkpoints.Keys, k);
    }
  }

  /** A second collection with the same cutoff and limit removes nothing and changes nothing. */
  lemma {:induction false} CollectIsIdempotent(m: Manifest, cutoff: int, max: nat)
    requires forall id | id in m.checkpoints :: m.checkpoints[id].id == id
    ensures var r := Collect(m, cutoff, max);
            Removed(r, cutoff, max) == {} && Collect(r, cutoff, max) == r
  {
    var r := Collect(m, cutoff, max);
    forall id | id in r.checkpoints ensures id !in Removed(r, cutoff, max) {
      CollectIsExact(m, cutoff, max, id);
      CollectIsExact(r, cutoff, max, id);
      if r.checkpoints[id].createdAt < cutoff {
        var s :| s in m.sessions && Kept(m, m.sessions[s], max, id);
        KeptStaysKept(m, cutoff, max, s, id);
        assert Kept(r, r.sessions[s], max, id);
      }
    }
  }
}
