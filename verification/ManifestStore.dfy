/** The checkpoint manifest and its edits (manifest-store.ts). */
module ManifestStore {
  import opened Options
  import opened Sequences
  import opened Sorting

  /** `createdAt` is the parsed creation date in milliseconds. */
  datatype Handle = Handle(id: string, createdAt: int, parentId: Option<string>)

  datatype SessionLink = SessionLink(sessionId: string, current: Option<string>, history: seq<string>)

  datatype Manifest = Manifest(revision: nat, checkpoints: map<string, Handle>, sessions: map<string, SessionLink>,
                               lineage: map<string, Option<string>>)

  const EMPTY := Manifest(0, map[], map[], map[])

  function Last(s: seq<string>): Option<string> {
    if s == [] then None else Some(s[|s| - 1])
  }

  // ---------------------------------------------------------------- edits on values

  function Upsert(m: Manifest, h: Handle): Manifest {
    m.(revision := m.revision + 1, checkpoints := m.checkpoints[h.id := h], lineage := m.lineage[h.id := h.parentId])
  }

  function LinkSession(m: Manifest, sessionId: string, id: string): Manifest {
    var link := if sessionId in m.sessions then m.sessions[sessionId] else SessionLink(sessionId, None, []);
    var history := if Last(link.history) != Some(id) then link.history + [id] else link.history;
    m.(revision := m.revision + 1, sessions := m.sessions[sessionId := link.(history := history, current := Some(id))])
  }

  function Unlink(link: SessionLink, id: string): SessionLink {
    var history := Without(link.history, id);
    link.(history := history, current := if link.current == Some(id) then Last(history) else link.current)
  }

  function Remove(m: Manifest, id: string): Manifest {
    Manifest(m.revision + 1, m.checkpoints - {id}, map s | s in m.sessions :: Unlink(m.sessions[s], id),
             m.lineage - {id})
  }

  /** b.createdAt - a.createdAt at most zero: newest first. */
  const NEWEST_FIRST: (Handle, Handle) -> bool := (a: Handle, b: Handle) => a.createdAt >= b.createdAt

  /** The stored handles of a history, with multiplicity. */
  function Live(checkpoints: map<string, Handle>, history: seq<string>): seq<Handle> {
    if history == [] then []
    else
      var id := history[|history| - 1];
      Live(checkpoints, history[..|history| - 1]) + if id in checkpoints then [checkpoints[id]] else []
  }

  function IdsOf(handles: seq<Handle>): set<string> {
    set h | h in handles :: h.id
  }

  /** What one session protects: its newest live entries and its current checkpoint. */
  function ProtectedBy(m: Manifest, link: SessionLink, maxPerSession: nat): set<string> {
    IdsOf(FirstN(Sort(NEWEST_FIRST, Live(m.checkpoints, link.history)), maxPerSession))
    + if Truthy(link.current) then {link.current.value} else {}
  }

  predicate Protected(m: Manifest, maxPerSession: nat, id: string) {
    ProtectedAmong(m, m.sessions.Keys, maxPerSession, id)
  }

  function Removed(m: Manifest, cutoff: int, maxPerSession: nat): set<string> {
    set id | id in m.checkpoints && !Protected(m, maxPerSession, id) && m.checkpoints[id].createdAt < cutoff
  }

  function Collect(m: Manifest, cutoff: int, maxPerSession: nat): Manifest {
    var removed := Removed(m, cutoff, maxPerSession);
    if removed == {} then m
    else m.(revision := m.revision + 1, checkpoints := m.checkpoints - removed, lineage := m.lineage - removed)
  }

  // ---------------------------------------------------------------- the manifest object

  class CheckpointManifest {
    var revision: nat
    var checkpoints: map<string, Handle>
    var sessions: map<string, SessionLink>
    var lineage: map<string, Option<string>>

    function View(): Manifest
      reads this
    {
      Manifest(revision, checkpoints, sessions, lineage)
    }

    constructor (m: Manifest)
      ensures View() == m
    {
      revision, checkpoints, sessions, lineage := m.revision, m.checkpoints, m.sessions, m.lineage;
    }

    method UpsertHandle(h: Handle)
      modifies this
      ensures View() == Upsert(old(View()), h)
    {
      checkpoints := checkpoints[h.id := h];
      lineage := lineage[h.id := h.parentId];
      revision := revision + 1;
    }

    method LinkSessionTo(sessionId: string, id: string)
      modifies this
      ensures View() == LinkSession(old(View()), sessionId, id)
    {
      var existing := if sessionId in sessions then sessions[sessionId] else SessionLink(sessionId, None, []);
      if Last(existing.history) != Some(id) {
        existing := existing.(history := existing.history + [id]);
      }
      existing := existing.(current := Some(id));
      sessions := sessions[sessionId := existing];
      revision := revision + 1;
    }

    method RemoveHandle(id: string)
      modifies this
      ensures View() == Remove(old(View()), id)
    {
      checkpoints := checkpoints - {id};
      lineage := lineage - {id};
      var todo := sessions.Keys;
      while todo != {}
        invariant todo <= old(sessions).Keys && sessions == UnlinkedBut(old(sessions), todo, id)
        invariant checkpoints == old(checkpoints) - {id} && lineage == old(lineage) - {id} && revision == old(revision)
        decreases |todo|
      {
        var s :| s in todo;
        var session := sessions[s];
        session := session.(history := Without(session.history, id));
        if session.current == Some(id) {
          session := session.(current := Last(session.history));
        }
        UnlinkOneMore(old(sessions), todo, id, s);
        sessions := sessions[s := session];
        todo := todo - {s};
      }
      revision := revision + 1;
    }

    /** The ids removed, each once, in the order the entries were met. */
    method GarbageCollect(cutoff: int, maxPerSession: nat) returns (removedIds: seq<string>)
      modifies this
      ensures View() == Collect(old(View()), cutoff, maxPerSession)
      ensures Lists(removedIds, Removed(old(View()), cutoff, maxPerSession))
    {
      var protectedIds := CollectProtected(maxPerSession);
      removedIds := DeleteUnprotected(protectedIds, cutoff, Removed(View(), cutoff, maxPerSession));
      if |removedIds| > 0 {
        revision := revision + 1;
      }
    }

    /** The second loop of garbage collection: deletes old entries that nothing protects. */
    method DeleteUnprotected(protectedIds: set<string>, cutoff: int, ghost gone: set<string>)
      returns (removedIds: seq<string>)
      requires forall id :: id in gone <==> Doomed(checkpoints, protectedIds, cutoff, id)
      modifies this`checkpoints, this`lineage
      ensures checkpoints == old(checkpoints) - gone && lineage == old(lineage) - gone
      ensures Lists(removedIds, gone)
    {
      removedIds := [];
      var entries := checkpoints;
      var todo := entries.Keys;
      assert gone - todo == {};
      while todo != {}
        invariant todo <= entries.Keys
        invariant DroppedBut(entries, checkpoints, gone, todo) && DroppedBut(old(lineage), lineage, gone, todo)
        invariant Lists(removedIds, gone - todo)
        decreases |todo|
      {
        var id :| id in todo;
        assert id in gone <==> Doomed(entries, protectedIds, cutoff, id);
        OneLess(entries, checkpoints, removedIds, gone, todo, id);
        OneLess(old(lineage), lineage, removedIds, gone, todo, id);
        todo := todo - {id};
        if id in protectedIds || entries[id].createdAt >= cutoff {
          continue;
        }
        checkpoints := checkpoints - {id};
        lineage := lineage - {id};
        removedIds := removedIds + [id];
      }
      assert gone - {} == gone;
    }

    static method AddIds(items: seq<Handle>, ids0: set<string>) returns (ids: set<string>)
      ensures ids == ids0 + IdsOf(items)
    {
      ids := ids0;
      for k := 0 to |items|
        invariant ids == ids0 + IdsOf(items[..k])
      {
        assert items[..k + 1] == items[..k] + [items[k]];
        ids := ids + {items[k].id};
      }
      assert items[..|items|] == items;
    }

    /** The first loop of garbage collection: what all sessions protect. */
    method CollectProtected(maxPerSession: nat) returns (protectedIds: set<string>)
      ensures forall id :: id in protectedIds <==> Protected(View(), maxPerSession, id)
    {
      protectedIds := {};
      ghost var m := View();
      var todo := sessions.Keys;
      while todo != {}
        invariant todo <= sessions.Keys
        invariant forall id :: id in protectedIds <==> ProtectedAmong(m, sessions.Keys - todo, maxPerSession, id)
        decreases |todo|
      {
        var s :| s in todo;
        ghost var before, done := protectedIds, sessions.Keys - todo;
        var sorted := Sort(NEWEST_FIRST, Live(checkpoints, sessions[s].history));
        protectedIds := AddIds(FirstN(sorted, maxPerSession), protectedIds);
        if Truthy(sessions[s].current) {
          protectedIds := protectedIds + {sessions[s].current.value};
        }
        todo := todo - {s};
        assert protectedIds == before + ProtectedBy(m, m.sessions[s], maxPerSession);
        assert sessions.Keys - todo == done + {s};
        forall id ensures id in protectedIds <==> ProtectedAmong(m, done + {s}, maxPerSession, id) {
          OneMoreSession(m, done, s, maxPerSession, id);
        }
      }
      assert sessions.Keys - {} == sessions.Keys;
    }
  }

  /** The sessions with `id` taken out of all but those in `todo`. */
  function UnlinkedBut(sessions: map<string, SessionLink>, todo: set<string>, id: string): map<string, SessionLink> {
    map s | s in sessions :: if s in todo then sessions[s] else Unlink(sessions[s], id)
  }

  lemma UnlinkOneMore(sessions: map<string, SessionLink>, todo: set<string>, id: string, s: string)
    requires s in todo && s in sessions
    ensures UnlinkedBut(sessions, todo, id)[s := Unlink(sessions[s], id)] == UnlinkedBut(sessions, todo - {s}, id)
  {
  }

  /** The list holds the elements of the set, each once. */
  ghost predicate Lists(ids: seq<string>, all: set<string>) {
    (forall id :: id in ids <==> id in all) && |ids| == |all|
  }

  lemma ListsOneMore(ids: seq<string>, all: set<string>, id: string)
    requires Lists(ids, all) && id !in all
    ensures Lists(ids + [id], all + {id})
  {
  }

  /** Old and not protected. */
  predicate Doomed(checkpoints: map<string, Handle>, protectedIds: set<string>, cutoff: int, id: string) {
    id in checkpoints && id !in protectedIds && checkpoints[id].createdAt < cutoff
  }

  /** `left` is what remains of a map once the members of `gone` that are not in `todo` have been dropped. */
  predicate DroppedBut<V(==)>(m: map<string, V>, left: map<string, V>, gone: set<string>, todo: set<string>) {
    left == m - (gone - todo)
  }

  /** One step of dropping the members of `gone` and listing them. */
  lemma OneLess<V>(m: map<string, V>, left: map<string, V>, ids: seq<string>, gone: set<string>, todo: set<string>,
                   id: string)
    requires id in todo && DroppedBut(m, left, gone, todo) && Lists(ids, gone - todo)
    ensures id in gone ==> DroppedBut(m, left - {id}, gone, todo - {id}) && Lists(ids + [id], gone - (todo - {id}))
    ensures id !in gone ==> DroppedBut(m, left, gone, todo - {id}) && Lists(ids, gone - (todo - {id}))
  {
    if id in gone {
      assert gone - (todo - {id}) == (gone - todo) + {id};
      ListsOneMore(ids, gone - todo, id);
      assert (m - ((gone - todo) + {id})).Keys == (left - {id}).Keys;
    } else {
      assert gone - (todo - {id}) == gone - todo;
    }
  }

  predicate ProtectedAmong(m: Manifest, among: set<string>, maxPerSession: nat, id: string)
    requires among <= m.sessions.Keys
  {
    exists s :: s in among && id in ProtectedBy(m, m.sessions[s], maxPerSession)
  }

  lemma OneMoreSession(m: Manifest, among: set<string>, s: string, maxPerSession: nat, id: string)
    requires among <= m.sessions.Keys && s in m.sessions
    ensures ProtectedAmong(m, among + {s}, maxPerSession, id)
            <==> ProtectedAmong(m, among, maxPerSession, id) || id in ProtectedBy(m, m.sessions[s], maxPerSession)
  {
    if ProtectedAmong(m, among, maxPerSession, id) {
      var t :| t in among && id in ProtectedBy(m, m.sessions[t], maxPerSession);
      assert t in among + {s};
    }
    if id in ProtectedBy(m, m.sessions[s], maxPerSession) {
      assert s in among + {s};
    }
  }

  // ---------------------------------------------------------------- invariant over all runs

  datatype Op =
    | OpUpsert(h: Handle)
    | OpLink(sessionId: string, id: string)
    | OpRemove(id: string)
    | OpCollect(cutoff: int, max: nat)

  function Apply(m: Manifest, op: Op): Manifest {
    match op
    case OpUpsert(h) => Upsert(m, h)
    case OpLink(s, id) => LinkSession(m, s, id)
    case OpRemove(id) => Remove(m, id)
    case OpCollect(cutoff, max) => Collect(m, cutoff, max)
  }

  function ApplyAll(m: Manifest, ops: seq<Op>): Manifest {
    if ops == [] then m else Apply(ApplyAll(m, ops[..|ops| - 1]), ops[|ops| - 1])
  }

  predicate LinkOk(m: Manifest, s: string) {
    s in m.sessions ==> m.sessions[s].sessionId == s && m.sessions[s].current == Last(m.sessions[s].history)
  }

  predicate HandleOk(m: Manifest, id: string) {
    && (id in m.checkpoints <==> id in m.lineage)
    && (id in m.checkpoints ==> m.checkpoints[id].id == id && m.lineage[id] == m.checkpoints[id].parentId)
  }

  ghost predicate WellFormed(m: Manifest) {
    (forall s :: LinkOk(m, s)) && (forall id :: HandleOk(m, id))
  }

  /** The id is gone, other ids stay, and the last entry changes only if it was the id. */
  lemma WithoutMeaning(s: seq<string>, id: string)
    ensures id !in Without(s, id)
    ensures forall x | x != id :: x in Without(s, id) <==> x in s
    ensures s != [] && s[|s| - 1] != id ==> Last(Without(s, id)) == Last(s)
  {
    WithoutAbsent(s, id);
  }

  lemma ApplyKeepsWellFormed(m: Manifest, op: Op)
    requires WellFormed(m)
    ensures WellFormed(Apply(m, op))
  {
    var r := Apply(m, op);
    forall s ensures LinkOk(r, s) {
      assert LinkOk(m, s);
      if op.OpRemove? && s in m.sessions {
        WithoutMeaning(m.sessions[s].history, op.id);
      }
    }
    forall id ensures HandleOk(r, id) {
      assert HandleOk(m, id);
    }
  }

  /**
   Over every run from the empty manifest: each session's current checkpoint is the last of its
   history (absent exactly if that is empty), every handle is stored under its own id, and lineage
   has exactly the stored ids with their parents.
   */
  lemma {:induction false} RunsAreWellFormed(ops: seq<Op>)
    ensures WellFormed(ApplyAll(EMPTY, ops))
  {
    if ops == [] {
      assert forall s :: LinkOk(EMPTY, s);
      assert forall id :: HandleOk(EMPTY, id);
    } else {
      RunsAreWellFormed(ops[..|ops| - 1]);
      ApplyKeepsWellFormed(ApplyAll(EMPTY, ops[..|ops| - 1]), ops[|ops| - 1]);
    }
  }

  predicate Mentions(m: Manifest, id: string) {
    || id in m.checkpoints
    || id in m.lineage
    || exists s :: s in m.sessions && (id in m.sessions[s].history || m.sessions[s].current == Some(id))
  }

  /** After a removal the id occurs nowhere, and every history keeps all other entries as often as it had them. */
  lemma {:induction false} RemoveErases(ops: seq<Op>, id: string)
    ensures var m := ApplyAll(EMPTY, ops);
      && !Mentions(Remove(m, id), id)
      && (forall s | s in m.sessions ::
            multiset(Remove(m, id).sessions[s].history) == multiset(m.sessions[s].history)[id := 0])
  {
    var m := ApplyAll(EMPTY, ops);
    RunsAreWellFormed(ops);
    forall s | s in m.sessions
      ensures id !in Remove(m, id).sessions[s].history && Remove(m, id).sessions[s].current != Some(id)
      ensures multiset(Remove(m, id).sessions[s].history) == multiset(m.sessions[s].history)[id := 0]
    {
      assert LinkOk(m, s);
      WithoutMeaning(m.sessions[s].history, id);
      WithoutKeepsOthers(m.sessions[s].history, id);
      var h := Without(m.sessions[s].history, id);
      if h != [] {
        assert h[|h| - 1] in h;
      }
    }
  }

  /** All other checkpoints and sessions stay, and a session's current checkpoint unless it is the one removed. */
  lemma RemoveSparesOthers(m: Manifest, id: string, other: string)
    requires other != id
    ensures var r := Remove(m, id);
      && (other in r.checkpoints <==> other in m.checkpoints)
      && (other in m.checkpoints ==> r.checkpoints[other] == m.checkpoints[other])
      && (other in r.lineage <==> other in m.lineage) && (other in m.lineage ==> r.lineage[other] == m.lineage[other])
      && (forall s :: s in r.sessions <==> s in m.sessions)
      && (forall s | s in m.sessions ::
            && r.sessions[s].sessionId == m.sessions[s].sessionId
            && (m.sessions[s].current != Some(id) ==> r.sessions[s].current == m.sessions[s].current))
  {
  }

  /** And it keeps them in order: any two entries left come from two places in the same order. */
  lemma {:induction false} RemoveKeepsOrder(m: Manifest, s: string, id: string, i: nat, j: nat) returns (p: nat, q: nat)
    requires s in m.sessions && i < j < |Remove(m, id).sessions[s].history|
    ensures p < q < |m.sessions[s].history|
    ensures m.sessions[s].history[p] == Remove(m, id).sessions[s].history[i]
    ensures m.sessions[s].history[q] == Remove(m, id).sessions[s].history[j]
  {
    p, q := WithoutAt(m.sessions[s].history, id, i, j);
  }

  /** How far one edit moves the revision: garbage collection that removes nothing writes nothing. */
  function Writes(m: Manifest, op: Op): nat {
    if op.OpCollect? && Removed(m, op.cutoff, op.max) == {} then 0 else 1
  }

  lemma ApplyCounts(m: Manifest, op: Op)
    ensures Apply(m, op).revision == m.revision + Writes(m, op)
    ensures Writes(m, op) == 0 ==> Apply(m, op) == m
  {
  }

  /** The history of a session, empty if it has none. */
  function HistoryOf(m: Manifest, s: string): seq<string> {
    if s in m.sessions then m.sessions[s].history else []
  }

  /**
   Linking extends the history by the id, unless it ends there, and makes the id current; other
   sessions, handles and lineage stay.
   */
  lemma LinkExtends(m: Manifest, s: string, id: string, other: string)
    ensures var r := LinkSession(m, s, id);
      && s in r.sessions && r.sessions[s].current == Some(id) && r.sessions[s].sessionId
         == (if s in m.sessions then m.sessions[s].sessionId else s)
      && HistoryOf(r, s) == HistoryOf(m, s) + (if Last(HistoryOf(m, s)) == Some(id) then [] else [id])
      && Last(HistoryOf(r, s)) == Some(id)
      && (other != s ==> (other in r.sessions <==> other in m.sessions)
                         && (other in m.sessions ==> r.sessions[other] == m.sessions[other]))
      && r.checkpoints == m.checkpoints && r.lineage == m.lineage
  {
  }

  /** Storing a handle replaces only what was stored under its id. */
  lemma UpsertStores(m: Manifest, h: Handle, other: string)
    ensures var r := Upsert(m, h);
      && h.id in r.checkpoints && r.checkpoints[h.id] == h && h.id in r.lineage && r.lineage[h.id] == h.parentId
      && (other != h.id ==> (other in r.checkpoints <==> other in m.checkpoints)
                            && (other in m.checkpoints ==> r.checkpoints[other] == m.checkpoints[other]))
      && r.sessions == m.sessions
  {
  }
}
