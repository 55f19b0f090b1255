/** Array.prototype.sort as a stable sort, by insertion, over any total preorder. */
module Sorting {
  predicate Comparable<T>(leq: (T, T) -> bool, a: T, b: T) {
    leq(a, b) || leq(b, a)
  }

  predicate Transits<T>(leq: (T, T) -> bool, a: T, b: T, c: T) {
    leq(a, b) && leq(b, c) ==> leq(a, c)
  }

  ghost predicate TotalPreorder<T(!new)>(leq: (T, T) -> bool) {
    (forall a, b :: Comparable(leq, a, b)) && (forall a, b, c :: Transits(leq, a, b, c))
  }

  /** `x` goes before the first element it may precede. */
  function Insert<T>(leq: (T, T) -> bool, x: T, s: seq<T>): seq<T> {
    if s == [] then [x]
    else if leq(x, s[0]) then [x] + s
    else [s[0]] + Insert(leq, x, s[1..])
  }

  function Sort<T>(leq: (T, T) -> bool, s: seq<T>): seq<T> {
    if s == [] then [] else Insert(leq, s[0], Sort(leq, s[1..]))
  }

  ghost predicate Sorted<T>(leq: (T, T) -> bool, s: seq<T>) {
    forall i, j | 0 <= i < j < |s| :: leq(s[i], s[j])
  }

  lemma {:induction false} InsertPermutes<T>(leq: (T, T) -> bool, x: T, s: seq<T>)
    ensures multiset(Insert(leq, x, s)) == multiset{x} + multiset(s)
  {
    if s == [] || leq(x, s[0]) {
    } else {
      InsertPermutes(leq, x, s[1..]);
      assert Insert(leq, x, s) == [s[0]] + Insert(leq, x, s[1..]);
      assert s == [s[0]] + s[1..];
    }
  }

  lemma {:induction false} SortPermutes<T>(leq: (T, T) -> bool, s: seq<T>)
    ensures multiset(Sort(leq, s)) == multiset(s)
    ensures |Sort(leq, s)| == |s|
    ensures forall x :: x in Sort(leq, s) <==> x in s
  {
    if s == [] {
    } else {
      SortPermutes(leq, s[1..]);
      InsertPermutes(leq, s[0], Sort(leq, s[1..]));
      assert s == [s[0]] + s[1..];
    }
    SameElements(Sort(leq, s), s);
  }

  lemma SameElements<T>(s: seq<T>, t: seq<T>)
    requires multiset(s) == multiset(t)
    ensures |s| == |t| && forall x :: x in s <==> x in t
  {
    assert |multiset(s)| == |s| && |multiset(t)| == |t|;
    assert forall x :: x in s <==> x in multiset(s);
    assert forall x :: x in t <==> x in multiset(t);
  }

  lemma {:induction false} InsertSorted<T(!new)>(leq: (T, T) -> bool, x: T, s: seq<T>)
    requires TotalPreorder(leq) && Sorted(leq, s)
    ensures Sorted(leq, Insert(leq, x, s))
  {
    if s == [] {
    } else if leq(x, s[0]) {
      forall j | 0 <= j < |s| ensures leq(x, s[j]) {
        assert Transits(leq, x, s[0], s[j]);
      }
    } else {
      var rest := Insert(leq, x, s[1..]);
      InsertSorted(leq, x, s[1..]);
      InsertPermutes(leq, x, s[1..]);
      assert Comparable(leq, x, s[0]);
      forall j | 0 <= j < |rest| ensures leq(s[0], rest[j]) {
        assert rest[j] in multiset(rest);
        if rest[j] != x {
          assert rest[j] in s[1..];
        }
      }
    }
  }

  lemma {:induction false} SortSorts<T(!new)>(leq: (T, T) -> bool, s: seq<T>)
    requires TotalPreorder(leq)
    ensures Sorted(leq, Sort(leq, s))
  {
    if s == [] {
    } else {
      SortSorts(leq, s[1..]);
      InsertSorted(leq, s[0], Sort(leq, s[1..]));
    }
  }

  /** Sorting a sorted sequence changes nothing. */
  lemma {:induction false} SortIdle<T>(leq: (T, T) -> bool, s: seq<T>)
    requires Sorted(leq, s)
    ensures Sort(leq, s) == s
  {
    if s == [] {
    } else {
      assert Sorted(leq, s[1..]);
      SortIdle(leq, s[1..]);
      if |s| > 1 {
        assert leq(s[0], s[1]);
      }
    }
  }

  /** The preorder tells the elements of `s` apart. */
  ghost predicate Separates<T>(leq: (T, T) -> bool, s: seq<T>) {
    forall x, y | x in s && y in s && leq(x, y) && leq(y, x) :: x == y
  }

  lemma SameHead<T>(leq: (T, T) -> bool, s: seq<T>, t: seq<T>)
    requires Sorted(leq, s) && Sorted(leq, t) && s != [] && t != [] && s[0] in t && t[0] in s && Separates(leq, s)
    ensures s[0] == t[0]
  {
    var i :| 0 <= i < |t| && t[i] == s[0];
    var j :| 0 <= j < |s| && s[j] == t[0];
    if i > 0 && j > 0 {
      assert leq(t[0], t[i]) && leq(s[0], s[j]);
    }
  }

  /** A sorted sequence is determined by its elements. */
  lemma {:induction false} SortedUnique<T>(leq: (T, T) -> bool, s: seq<T>, t: seq<T>)
    requires Sorted(leq, s) && Sorted(leq, t) && multiset(s) == multiset(t) && Separates(leq, s)
    ensures s == t
  {
    SameElements(s, t);
    if s == [] {
    } else {
      SameHead(leq, s, t);
      assert s == [s[0]] + s[1..] && t == [t[0]] + t[1..];
      assert multiset(s[1..]) == multiset(s) - multiset{s[0]};
      assert multiset(t[1..]) == multiset(t) - multiset{t[0]};
      SortedTail(leq, s);
      SortedTail(leq, t);
      SortedUnique(leq, s[1..], t[1..]);
    }
  }

  lemma SortedTail<T>(leq: (T, T) -> bool, s: seq<T>)
    requires Sorted(leq, s) && s != []
    ensures Sorted(leq, s[1..]) && forall x | x in s[1..] :: x in s
  {
  }

  /** Permuting the input of a sort changes nothing if the preorder tells the elements apart. */
  lemma SortForgetsOrder<T(!new)>(leq: (T, T) -> bool, s: seq<T>, t: seq<T>)
    requires TotalPreorder(leq) && multiset(s) == multiset(t) && Separates(leq, s)
    ensures Sort(leq, s) == Sort(leq, t)
  {
    SortPermutes(leq, s);
    SortPermutes(leq, t);
    SortSorts(leq, s);
    SortSorts(leq, t);
    SortedUnique(leq, Sort(leq, s), Sort(leq, t));
  }

  /** The elements that are equivalent to `x`, in order. */
  function Peers<T>(leq: (T, T) -> bool, x: T, s: seq<T>): seq<T> {
    if s == [] then []
    else (if Peer(leq, x, s[0]) then [s[0]] else []) + Peers(leq, x, s[1..])
  }

  predicate Peer<T>(leq: (T, T) -> bool, x: T, y: T) {
    leq(x, y) && leq(y, x)
  }

  lemma PeersTransitive<T(!new)>(leq: (T, T) -> bool, x: T, y: T, z: T)
    requires TotalPreorder(leq) && Peer(leq, x, y) && Peer(leq, x, z)
    ensures leq(y, z)
  {
    assert Transits(leq, y, x, z);
  }

  lemma {:induction false} InsertPeers<T(!new)>(leq: (T, T) -> bool, x: T, y: T, s: seq<T>)
    requires TotalPreorder(leq)
    ensures Peers(leq, x, Insert(leq, y, s)) == Peers(leq, x, [y] + s)
  {
    if s == [] {
      assert [y] + s == [y];
    } else if leq(y, s[0]) {
    } else {
      var z, t := s[0], s[1..];
      assert s == [z] + t;
      InsertPeers(leq, x, y, t);
      if Peer(leq, x, y) && Peer(leq, x, z) {
        PeersTransitive(leq, x, y, z);
      }
    }
  }

  /** Stability: equivalent elements keep their order. */
  lemma {:induction false} SortStable<T(!new)>(leq: (T, T) -> bool, x: T, s: seq<T>)
    requires TotalPreorder(leq)
    ensures Peers(leq, x, Sort(leq, s)) == Peers(leq, x, s)
  {
    if s == [] {
    } else {
      SortStable(leq, x, s[1..]);
      InsertPeers(leq, x, s[0], Sort(leq, s[1..]));
      assert s == [s[0]] + s[1..];
    }
  }
}
