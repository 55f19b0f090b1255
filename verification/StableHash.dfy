/**
 Canonical forms behind the context signatures (hash.ts). Strings are compared by `leq`, standing
 for localeCompare as a total order; JSON printing and hashing are taken as injective.
 */
module StableHash {
  import opened JsonValues
  import opened Options
  import opened Sorting

  type Order = (string, string) -> bool

  ghost predicate TotalOrder(leq: Order) {
    TotalPreorder(leq) && forall a, b | leq(a, b) && leq(b, a) :: a == b
  }

  function ByKey(leq: Order): (Entry, Entry) -> bool {
    (a: Entry, b: Entry) => leq(a.key, b.key)
  }

  /**
   stableValue: arrays keep their order; objects lose undefined fields and are sorted by key.
   Sorting looks at keys only, so it may as well come after the values have been converted.
   */
  function StableValue(leq: Order, v: Json): Json
    decreases v, 0
  {
    match v
    case Undefined => v
    case Leaf(_) => v
    case Array(items) => Array(StableItems(leq, items))
    case Object(entries) => Object(Sort(ByKey(leq), StableEntries(leq, entries)))
  }

  function StableItems(leq: Order, items: seq<Json>): (r: seq<Json>)
    ensures |r| == |items|
    decreases items, 0
  {
    if items == [] then [] else [StableValue(leq, items[0])] + StableItems(leq, items[1..])
  }

  function StableEntries(leq: Order, entries: seq<Entry>): seq<Entry>
    decreases entries, 1
  {
    if entries == [] then []
    else
      (if entries[0].value.Undefined? then [] else [Entry(entries[0].key, StableValue(leq, entries[0].value))])
      + StableEntries(leq, entries[1..])
  }

  // ---------------------------------------------------------------- meaning of equality

  /** Equal up to key order and undefined fields, at every depth. */
  ghost predicate Same(u: Json, v: Json)
    decreases u
  {
    match (u, v)
    case (Undefined, Undefined) => true
    case (Leaf(a), Leaf(b)) => a == b
    case (Array(a), Array(b)) => |a| == |b| && forall i | 0 <= i < |a| :: Same(a[i], b[i])
    case (Object(a), Object(b)) =>
      && (forall x | x in a && !x.value.Undefined? :: exists y :: y in b && Twin(x, y))
      && (forall y | y in b && !y.value.Undefined? :: exists x :: x in a && Twin(x, y))
    case _ => false
  }

  ghost predicate Twin(x: Entry, y: Entry)
    decreases x
  {
    !x.value.Undefined? && !y.value.Undefined? && x.key == y.key && Same(x.value, y.value)
  }

  lemma {:induction false} ItemAt(leq: Order, items: seq<Json>, i: nat)
    requires i < |items|
    ensures StableItems(leq, items)[i] == StableValue(leq, items[i])
    decreases items
  {
    if i == 0 {
    } else {
      ItemAt(leq, items[1..], i - 1);
    }
  }

  predicate Converts(leq: Order, x: Entry, e: Entry) {
    !x.value.Undefined? && e == Entry(x.key, StableValue(leq, x.value))
  }

  /** The entries of a canonical object are exactly the converted defined entries. */
  lemma {:induction false} EntryIn(leq: Order, entries: seq<Entry>, e: Entry)
    ensures e in StableEntries(leq, entries) <==> exists x :: x in entries && Converts(leq, x, e)
    decreases entries
  {
    if entries == [] {
    } else {
      EntryIn(leq, entries[1..], e);
      if x :| x in entries && Converts(leq, x, e) {
        assert x == entries[0] || x in entries[1..];
      }
      if e in StableEntries(leq, entries) && e !in StableEntries(leq, entries[1..]) {
        assert Converts(leq, entries[0], e);
      }
    }
  }

  lemma {:induction false} EntriesDistinct(leq: Order, entries: seq<Entry>)
    requires DistinctKeys(entries)
    ensures DistinctKeys(StableEntries(leq, entries))
    ensures forall e | e in StableEntries(leq, entries) :: !e.value.Undefined?
    decreases entries
  {
    if entries == [] {
    } else {
      var rest := StableEntries(leq, entries[1..]);
      EntriesDistinct(leq, entries[1..]);
      forall j | 0 <= j < |rest| ensures rest[j].key != entries[0].key {
        EntryIn(leq, entries[1..], rest[j]);
        var x :| x in entries[1..] && Converts(leq, x, rest[j]);
        var i :| 0 <= i < |entries[1..]| && entries[1..][i] == x;
        assert entries[i + 1] == x;
      }
    }
  }

  lemma ByKeyOrders(leq: Order, entries: seq<Entry>)
    requires TotalOrder(leq)
    ensures TotalPreorder(ByKey(leq))
    ensures DistinctKeys(entries) ==> Separates(ByKey(leq), entries)
  {
    var f := ByKey(leq);
    forall a, b ensures Comparable(f, a, b) {
      assert Comparable(leq, a.key, b.key);
    }
    forall a, b, c ensures Transits(f, a, b, c) {
      assert Transits(leq, a.key, b.key, c.key);
    }
  }

  lemma {:induction false} OnceOrNever(s: seq<Entry>, e: Entry)
    requires DistinctKeys(s)
    ensures multiset(s)[e] == if e in s then 1 else 0
  {
    if s == [] {
    } else {
      OnceOrNever(s[1..], e);
      assert s == [s[0]] + s[1..];
      forall j | 0 <= j < |s[1..]| ensures s[1..][j] != s[0] {
        assert s[1..][j] == s[j + 1];
      }
    }
  }

  /** Two lists with distinct keys sort to the same list exactly if they have the same entries. */
  lemma {:induction false} SortedEqual(leq: Order, s: seq<Entry>, t: seq<Entry>)
    requires TotalOrder(leq) && DistinctKeys(s) && DistinctKeys(t)
    ensures Sort(ByKey(leq), s) == Sort(ByKey(leq), t) <==> forall e :: e in s <==> e in t
  {
    SortPermutes(ByKey(leq), s);
    SortPermutes(ByKey(leq), t);
    if forall e :: e in s <==> e in t {
      ByKeyOrders(leq, s);
      forall e ensures multiset(s)[e] == multiset(t)[e] {
        OnceOrNever(s, e);
        OnceOrNever(t, e);
      }
      SortForgetsOrder(ByKey(leq), s, t);
    }
  }

  /** Canonical forms are equal exactly for values that agree up to key order and undefined fields. */
  lemma {:induction false} CanonicalForm(leq: Order, u: Json, v: Json)
    requires TotalOrder(leq) && Proper(u) && Proper(v)
    ensures StableValue(leq, u) == StableValue(leq, v) <==> Same(u, v)
    decreases u
  {
    match (u, v)
    case (Array(a), Array(b)) =>
      if |a| == |b| {
        forall i | 0 <= i < |a| ensures StableItems(leq, a)[i] == StableItems(leq, b)[i] <==> Same(a[i], b[i]) {
          ItemAt(leq, a, i);
          ItemAt(leq, b, i);
          CanonicalForm(leq, a[i], b[i]);
        }
      }
    case (Object(a), Object(b)) =>
      var s, t := StableEntries(leq, a), StableEntries(leq, b);
      EntriesDistinct(leq, a);
      EntriesDistinct(leq, b);
      SortedEqual(leq, s, t);
      forall x, y | x in a && y in b ensures Agree(leq, x, y) {
        CanonicalForm(leq, x.value, y.value);
      }
      if Same(u, v) {
        forall e ensures e in s <==> e in t {
          SameEntries(leq, a, b, e);
        }
      }
      if forall e :: e in s <==> e in t {
        EntriesSame(leq, a, b);
      }
    case _ =>
  }

  ghost predicate Agree(leq: Order, x: Entry, y: Entry) {
    StableValue(leq, x.value) == StableValue(leq, y.value) <==> Same(x.value, y.value)
  }

  lemma {:induction false} TwinOf(a: seq<Entry>, b: seq<Entry>, x: Entry) returns (y: Entry)
    requires Same(Object(a), Object(b)) && x in a && !x.value.Undefined?
    ensures y in b && Twin(x, y)
  {
    y :| y in b && Twin(x, y);
  }

  lemma {:induction false} TwinFor(a: seq<Entry>, b: seq<Entry>, y: Entry) returns (x: Entry)
    requires Same(Object(a), Object(b)) && y in b && !y.value.Undefined?
    ensures x in a && Twin(x, y)
  {
    x :| x in a && Twin(x, y);
  }

  lemma TwinsConvertAlike(leq: Order, x: Entry, y: Entry, e: Entry)
    requires Agree(leq, x, y) && Twin(x, y)
    ensures Converts(leq, x, e) <==> Converts(leq, y, e)
  {
  }

  lemma {:induction false} SameEntries(leq: Order, a: seq<Entry>, b: seq<Entry>, e: Entry)
    requires Same(Object(a), Object(b))
    requires forall x, y | x in a && y in b :: Agree(leq, x, y)
    ensures e in StableEntries(leq, a) <==> e in StableEntries(leq, b)
  {
    EntryIn(leq, a, e);
    EntryIn(leq, b, e);
    if e in StableEntries(leq, a) {
      var x :| x in a && Converts(leq, x, e);
      var y := TwinOf(a, b, x);
      TwinsConvertAlike(leq, x, y, e);
    } else if e in StableEntries(leq, b) {
      var y :| y in b && Converts(leq, y, e);
      var x := TwinFor(a, b, y);
      TwinsConvertAlike(leq, x, y, e);
    }
  }

  lemma {:induction false} EntriesSame(leq: Order, a: seq<Entry>, b: seq<Entry>)
    requires forall e :: e in StableEntries(leq, a) <==> e in StableEntries(leq, b)
    requires forall x, y | x in a && y in b :: Agree(leq, x, y)
    ensures Same(Object(a), Object(b))
  {
    forall x | x in a && !x.value.Undefined? ensures exists y :: y in b && Twin(x, y) {
      var e := Entry(x.key, StableValue(leq, x.value));
      assert Converts(leq, x, e);
      EntryIn(leq, a, e);
      EntryIn(leq, b, e);
      var y :| y in b && Converts(leq, y, e);
      assert Agree(leq, x, y) && Twin(x, y);
    }
    forall y | y in b && !y.value.Undefined? ensures exists x :: x in a && Twin(x, y) {
      var e := Entry(y.key, StableValue(leq, y.value));
      assert Converts(leq, y, e);
      EntryIn(leq, a, e);
      EntryIn(leq, b, e);
      var x :| x in a && Converts(leq, x, e);
      assert Agree(leq, x, y) && Twin(x, y);
    }
  }

  /** A canonical form is its own canonical form. */
  lemma {:induction false} CanonicalIdempotent(leq: Order, v: Json)
    requires TotalOrder(leq)
    ensures StableValue(leq, StableValue(leq, v)) == StableValue(leq, v)
    decreases v
  {
    match v
    case Undefined =>
    case Leaf(_) =>
    case Array(items) =>
      var once := StableItems(leq, items);
      forall i | 0 <= i < |items| ensures StableItems(leq, once)[i] == once[i] {
        ItemAt(leq, items, i);
        ItemAt(leq, once, i);
        CanonicalIdempotent(leq, items[i]);
      }
    case Object(entries) =>
      var s := StableEntries(leq, entries);
      var sorted := Sort(ByKey(leq), s);
      SortPermutes(ByKey(leq), s);
      ByKeyOrders(leq, s);
      SortSorts(ByKey(leq), s);
      forall e | e in sorted ensures !e.value.Undefined? && StableValue(leq, e.value) == e.value {
        EntryIn(leq, entries, e);
        var x :| x in entries && Converts(leq, x, e);
        CanonicalIdempotent(leq, x.value);
      }
      StableAlready(leq, sorted);
      SortIdle(ByKey(leq), sorted);
  }

  lemma {:induction false} StableAlready(leq: Order, entries: seq<Entry>)
    requires forall e | e in entries :: !e.value.Undefined? && StableValue(leq, e.value) == e.value
    ensures StableEntries(leq, entries) == entries
    decreases entries
  {
    if entries == [] {
    } else {
      assert entries[0] in entries;
      StableAlready(leq, entries[1..]);
    }
  }

  // ---------------------------------------------------------------- target sets

  datatype Ranking = Ranking(semanticScore: real, churnScore: real, primaryBoostScore: real, finalScore: real)

  /** A normalised target, with its scores already rounded. */
  datatype Target = Target(path: string, reason: string, confidence: string, churnWeight: real,
                           ranking: Option<Ranking>)

  function Score(name: string, score: real): Entry {
    Entry(name, Leaf(Number(score)))
  }

  /** The fields of a ranking, in order. */
  function RankingField(r: Ranking, i: nat): Entry {
    if i == 0 then Score("semanticScore", r.semanticScore)
    else if i == 1 then Score("churnScore", r.churnScore)
    else if i == 2 then Score("primaryBoostScore", r.primaryBoostScore)
    else Score("finalScore", r.finalScore)
  }

  function RankingJson(r: Ranking): Json {
    Object(seq(4, i requires i >= 0 => RankingField(r, i)))
  }

  /** The fields of a normalised target, in order; a missing ranking is present and undefined. */
  function TargetField(t: Target, i: nat): Entry {
    if i == 0 then Entry("path", Leaf(Text(t.path)))
    else if i == 1 then Entry("reason", Leaf(Text(t.reason)))
    else if i == 2 then Entry("confidence", Leaf(Text(t.confidence)))
    else if i == 3 then Score("churnWeight", t.churnWeight)
    else Entry("ranking", if t.ranking.Some? then RankingJson(t.ranking.value) else Undefined)
  }

  function TargetJson(t: Target): Json {
    Object(seq(5, i requires i >= 0 => TargetField(t, i)))
  }

  function TargetsJson(targets: seq<Target>): (r: seq<Json>)
    ensures |r| == |targets|
  {
    seq(|targets|, i requires 0 <= i < |targets| => TargetJson(targets[i]))
  }

  /** a.path.localeCompare(b.path) || a.reason.localeCompare(b.reason) || ... at most zero. */
  function ByTriple(leq: Order): (Target, Target) -> bool {
    (a: Target, b: Target) =>
      if a.path != b.path then leq(a.path, b.path)
      else if a.reason != b.reason then leq(a.reason, b.reason)
      else leq(a.confidence, b.confidence)
  }

  predicate SameTriple(a: Target, b: Target) {
    a.path == b.path && a.reason == b.reason && a.confidence == b.confidence
  }

  /** The sorted target list that is hashed. */
  function SortedTargets(leq: Order, targets: Option<seq<Target>>): seq<Target> {
    Sort(ByTriple(leq), if targets.Some? then targets.value else [])
  }

  /** What createTargetSetSignature prints and hashes. */
  function TargetForm(leq: Order, targets: Option<seq<Target>>): Json {
    StableValue(leq, Array(TargetsJson(SortedTargets(leq, targets))))
  }

  predicate Aligned(a: seq<Entry>, b: seq<Entry>) {
    |a| == |b| && DistinctKeys(a) && forall k | 0 <= k < |a| :: a[k].key == b[k].key
  }

  /** Objects with the same keys in the same places and one canonical form agree place by place. */
  lemma FieldShows(leq: Order, a: seq<Entry>, b: seq<Entry>, i: nat)
    requires TotalOrder(leq) && Aligned(a, b) && DistinctKeys(b) && i < |a| && !a[i].value.Undefined?
    requires StableValue(leq, Object(a)) == StableValue(leq, Object(b))
    ensures !b[i].value.Undefined? && StableValue(leq, b[i].value) == StableValue(leq, a[i].value)
  {
    var e := Entry(a[i].key, StableValue(leq, a[i].value));
    EntriesDistinct(leq, a);
    EntriesDistinct(leq, b);
    SortedEqual(leq, StableEntries(leq, a), StableEntries(leq, b));
    assert a[i] in a && Converts(leq, a[i], e);
    EntryIn(leq, a, e);
    EntryIn(leq, b, e);
    var y :| y in b && Converts(leq, y, e);
    var k :| 0 <= k < |b| && b[k] == y;
    assert a[k].key == a[i].key;
  }

  lemma SameRanking(leq: Order, r: Ranking, q: Ranking)
    requires TotalOrder(leq) && StableValue(leq, RankingJson(r)) == StableValue(leq, RankingJson(q))
    ensures r == q
  {
    var a, b := RankingJson(r).entries, RankingJson(q).entries;
    forall i: nat | i < 4 ensures RankingField(r, i) == RankingField(q, i) {
      FieldShows(leq, a, b, i);
    }
    assert RankingField(r, 0) == RankingField(q, 0) && RankingField(r, 1) == RankingField(q, 1);
    assert RankingField(r, 2) == RankingField(q, 2) && RankingField(r, 3) == RankingField(q, 3);
  }

  /** Different targets print differently. */
  /** The four fields that are always there. */
  lemma SameField(leq: Order, t: Target, u: Target, i: nat)
    requires TotalOrder(leq) && StableValue(leq, TargetJson(t)) == StableValue(leq, TargetJson(u)) && i < 4
    ensures TargetField(t, i) == TargetField(u, i)
  {
    FieldShows(leq, TargetJson(t).entries, TargetJson(u).entries, i);
  }

  lemma SameTarget(leq: Order, t: Target, u: Target)
    requires TotalOrder(leq) && StableValue(leq, TargetJson(t)) == StableValue(leq, TargetJson(u))
    ensures t == u
  {
    var a, b := TargetJson(t).entries, TargetJson(u).entries;
    SameField(leq, t, u, 0);
    SameField(leq, t, u, 1);
    SameField(leq, t, u, 2);
    SameField(leq, t, u, 3);
    if t.ranking.Some? {
      FieldShows(leq, a, b, 4);
      SameRanking(leq, t.ranking.value, u.ranking.value);
    } else if u.ranking.Some? {
      FieldShows(leq, b, a, 4);
    }
  }

  /** The printed form determines the sorted targets. */
  lemma {:induction false} FormsShowTargets(leq: Order, s: seq<Target>, t: seq<Target>)
    requires TotalOrder(leq)
    requires StableValue(leq, Array(TargetsJson(s))) == StableValue(leq, Array(TargetsJson(t)))
    ensures s == t
  {
    var a, b := TargetsJson(s), TargetsJson(t);
    assert |StableItems(leq, a)| == |StableItems(leq, b)|;
    forall i | 0 <= i < |s| ensures s[i] == t[i] {
      ItemAt(leq, a, i);
      ItemAt(leq, b, i);
      SameTarget(leq, s[i], t[i]);
    }
  }

  lemma ByTripleOrders(leq: Order)
    requires TotalOrder(leq)
    ensures TotalPreorder(ByTriple(leq))
    ensures forall a, b :: Peer(ByTriple(leq), a, b) <==> SameTriple(a, b)
  {
    var f := ByTriple(leq);
    forall a: Target, b: Target ensures Comparable(f, a, b) {
      assert Comparable(leq, a.path, b.path) && Comparable(leq, a.reason, b.reason);
      assert Comparable(leq, a.confidence, b.confidence);
    }
    forall a: Target, b: Target, c: Target ensures Transits(f, a, b, c) {
      assert Transits(leq, a.path, b.path, c.path) && Transits(leq, a.reason, b.reason, c.reason);
      assert Transits(leq, a.confidence, b.confidence, c.confidence);
    }
    forall a: Target, b: Target ensures Peer(f, a, b) <==> SameTriple(a, b) {
      assert Comparable(leq, a.confidence, a.confidence);
    }
  }

  /** Targets with one (path, reason, confidence) triple are identical. */
  predicate Unambiguous(targets: seq<Target>) {
    forall i, j | 0 <= i < |targets| && 0 <= j < |targets| && SameTriple(targets[i], targets[j])
      :: targets[i] == targets[j]
  }

  /** Listing the same targets in any other order gives the same form. */
  lemma TargetFormForgetsOrder(leq: Order, s: seq<Target>, t: seq<Target>)
    requires TotalOrder(leq) && Unambiguous(s) && multiset(s) == multiset(t)
    ensures TargetForm(leq, Some(s)) == TargetForm(leq, Some(t))
  {
    ByTripleOrders(leq);
    var f := ByTriple(leq);
    forall x, y | x in s && y in s && f(x, y) && f(y, x) ensures x == y {
      assert Peer(f, x, y);
    }
    SortForgetsOrder(f, s, t);
  }

  /** Sorting keeps the order of peers, so listing two of them the other way round shows. */
  lemma SwappedPeersDiffer(f: (Target, Target) -> bool, x: Target, y: Target, r: seq<Target>)
    requires TotalPreorder(f) && Peer(f, x, x) && Peer(f, x, y) && x != y
    ensures Sort(f, [x] + ([y] + r)) != Sort(f, [y] + ([x] + r))
  {
    var a, b := [x] + ([y] + r), [y] + ([x] + r);
    SortStable(f, x, a);
    SortStable(f, x, b);
    assert Peers(f, x, a)[0] == x && Peers(f, x, b)[0] == y;
  }

  /** The same targets, led by `x` and `y` either way round. */
  lemma TwoFirst(s: seq<Target>, x: Target, y: Target) returns (r: seq<Target>)
    requires x in s && y in s && x != y
    ensures multiset([x] + ([y] + r)) == multiset(s) == multiset([y] + ([x] + r))
  {
    r := ListOf(multiset(s) - multiset{x} - multiset{y});
    assert x in multiset(s) && y in multiset(s);
  }

  /** If two different targets share a triple, swapping them changes the form. */
  lemma AmbiguousTargetsShow(leq: Order, s: seq<Target>, i: nat, j: nat) returns (t: seq<Target>)
    requires TotalOrder(leq) && i < |s| && j < |s| && SameTriple(s[i], s[j]) && s[i] != s[j]
    ensures multiset(t) == multiset(s) && TargetForm(leq, Some(t)) != TargetForm(leq, Some(s))
  {
    ByTripleOrders(leq);
    var f, x, y := ByTriple(leq), s[i], s[j];
    var r := TwoFirst(s, x, y);
    assert Peer(f, x, x) && Peer(f, x, y);
    SwappedPeersDiffer(f, x, y, r);
    var a, b := [x] + ([y] + r), [y] + ([x] + r);
    if TargetForm(leq, Some(a)) == TargetForm(leq, Some(b)) {
      FormsShowTargets(leq, Sort(f, a), Sort(f, b));
    }
    t := if TargetForm(leq, Some(a)) == TargetForm(leq, Some(s)) then b else a;
  }

  lemma {:induction false} ListOf(m: multiset<Target>) returns (r: seq<Target>)
    ensures multiset(r) == m
    decreases |m|
  {
    if m == multiset{} {
      r := [];
    } else {
      var x :| x in m;
      r := ListOf(m - multiset{x});
      r := [x] + r;
    }
  }

  /** The form is the same for every order of the targets exactly if no triple is ambiguous. */
  lemma TargetFormIsInvariant(leq: Order, s: seq<Target>)
    requires TotalOrder(leq)
    ensures Unambiguous(s) <==>
              forall t | multiset(t) == multiset(s) :: TargetForm(leq, Some(t)) == TargetForm(leq, Some(s))
  {
    if Unambiguous(s) {
      forall t | multiset(t) == multiset(s) ensures TargetForm(leq, Some(t)) == TargetForm(leq, Some(s)) {
        TargetFormForgetsOrder(leq, s, t);
      }
    } else {
      var i, j :| 0 <= i < |s| && 0 <= j < |s| && SameTriple(s[i], s[j]) && s[i] != s[j];
      var t := AmbiguousTargetsShow(leq, s, i, j);
    }
  }

  /** Two targets that differ in their churn weight only can be told apart by their order. */
  lemma ChurnOrderShows(leq: Order) returns (t: seq<Target>)
    requires TotalOrder(leq)
    ensures var s := [Target("a.ts", "primary", "high", 0.0, None), Target("a.ts", "primary", "high", 1.0, None)];
            multiset(t) == multiset(s) && TargetForm(leq, Some(t)) != TargetForm(leq, Some(s))
  {
    var s := [Target("a.ts", "primary", "high", 0.0, None), Target("a.ts", "primary", "high", 1.0, None)];
    t := AmbiguousTargetsShow(leq, s, 0, 1);
  }
}
