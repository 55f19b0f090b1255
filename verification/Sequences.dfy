/** Prefixes, suffixes and removals of sequences, shared by the models of lists and ordered maps. */
module Sequences {
  /** s.slice(0, n) */
  function FirstN<T>(s: seq<T>, n: nat): seq<T> {
    if |s| <= n then s else s[..n]
  }

  function LastN<T>(s: seq<T>, n: nat): seq<T> {
    if |s| <= n then s else s[|s| - n..]
  }

  predicate Distinct<T(==)>(s: seq<T>) {
    forall i, j | 0 <= i < j < |s| :: s[i] != s[j]
  }

  /** s.filter(y => y !== x) */
  function Without<T(==)>(s: seq<T>, x: T): seq<T> {
    if s == [] then [] else if s[0] == x then Without(s[1..], x) else [s[0]] + Without(s[1..], x)
  }

  lemma LastNConcat<T>(a: seq<T>, b: seq<T>, n: nat)
    requires n <= |b|
    ensures LastN(a + b, n) == b[|b| - n..]
  {
  }

  /** Appending twice is appending both. */
  lemma Regroup<T>(s: seq<T>, first: seq<T>, second: seq<T>)
    ensures s + first + second == s + (first + second)
  {
  }

  lemma DistinctTail<T>(s: seq<T>)
    requires Distinct(s) && s != []
    ensures Distinct(s[1..]) && s[0] !in s[1..]
  {
    forall i | 0 <= i < |s[1..]| ensures s[1..][i] != s[0] {
      assert s[1..][i] == s[i + 1];
    }
  }

  lemma DistinctSuffix<T>(head: seq<T>, tail: seq<T>)
    requires Distinct(head + tail)
    ensures Distinct(tail)
  {
    forall i, j | 0 <= i < j < |tail| ensures tail[i] != tail[j] {
      assert (head + tail)[|head| + i] == tail[i] && (head + tail)[|head| + j] == tail[j];
    }
  }

  /** The element is gone, and all others are there as often as before. */
  lemma {:induction false} WithoutKeepsOthers<T>(s: seq<T>, x: T)
    ensures multiset(Without(s, x)) == multiset(s)[x := 0]
  {
    if s == [] {
    } else {
      WithoutKeepsOthers(s[1..], x);
      assert s == [s[0]] + s[1..];
    }
  }

  lemma {:induction false} WithoutAbsent<T>(s: seq<T>, x: T)
    ensures x !in Without(s, x)
    ensures forall y | y != x :: y in Without(s, x) <==> y in s
    ensures x !in s ==> Without(s, x) == s
  {
    if s == [] {
    } else {
      WithoutAbsent(s[1..], x);
      assert s == [s[0]] + s[1..];
    }
  }

  lemma {:induction false} WithoutMember<T>(s: seq<T>, x: T, y: T)
    ensures y in Without(s, x) <==> y in s && y != x
  {
    if s == [] {
    } else {
      WithoutMember(s[1..], x, y);
      assert s == [s[0]] + s[1..];
    }
  }

  lemma {:induction false} WithoutDistinct<T>(s: seq<T>, x: T)
    requires Distinct(s)
    ensures Distinct(Without(s, x))
  {
    if s == [] {
    } else {
      DistinctTail(s);
      WithoutDistinct(s[1..], x);
      WithoutAbsent(s[1..], x);
    }
  }

  /** Moving an element to the end repeats nothing. */
  lemma MovedToEnd<T>(s: seq<T>, x: T)
    requires Distinct(s)
    ensures Distinct(Without(s, x) + [x])
  {
    WithoutDistinct(s, x);
    WithoutAbsent(s, x);
  }

  lemma {:induction false} WithoutConcat<T>(a: seq<T>, b: seq<T>, x: T)
    ensures Without(a + b, x) == Without(a, x) + Without(b, x)
  {
    if a == [] {
      assert a + b == b;
    } else {
      assert (a + b)[1..] == a[1..] + b;
      WithoutConcat(a[1..], b, x);
    }
  }

  lemma {:induction false} WithoutSize<T>(s: seq<T>, x: T)
    requires Distinct(s)
    ensures |Without(s, x)| == |s| - if x in s then 1 else 0
  {
    if s == [] {
    } else {
      DistinctTail(s);
      WithoutSize(s[1..], x);
      assert s == [s[0]] + s[1..];
    }
  }

  /** What is left is in the order it was. */
  lemma {:induction false} WithoutAt<T>(s: seq<T>, x: T, i: nat, j: nat) returns (p: nat, q: nat)
    requires i < j < |Without(s, x)|
    ensures p < q < |s| && s[p] == Without(s, x)[i] && s[q] == Without(s, x)[j]
  {
    if s[0] == x {
      p, q := WithoutAt(s[1..], x, i, j);
      p, q := p + 1, q + 1;
    } else if i > 0 {
      p, q := WithoutAt(s[1..], x, i - 1, j - 1);
      p, q := p + 1, q + 1;
    } else {
      var y := Without(s[1..], x)[j - 1];
      WithoutMember(s[1..], x, y);
      q :| 0 <= q < |s[1..]| && s[1..][q] == y;
      p, q := 0, q + 1;
    }
  }

}
