/** Bounded import closure of a file, level by level (dependencies.ts). */
module Dependencies {
  import opened Options
  import opened Sequences

  /** findDirectDependencies as a fixed function: the imports of a file in order of appearance. */
  type Imports = string -> seq<string>

  const MAX_DEPENDENCY_DEPTH := 3
  const DEFAULT_MAX_FILES := 1000

  function Max(a: int, b: int): int {
    if a < b then b else a
  }

  function Min(a: int, b: int): int {
    if a < b then a else b
  }

  function EffectiveDepth(depth: Option<int>): (d: nat)
    ensures 1 <= d <= MAX_DEPENDENCY_DEPTH
  {
    Max(1, Min(MAX_DEPENDENCY_DEPTH, if depth.Some? then depth.value else 1))
  }

  function EffectiveMaxFiles(maxFiles: Option<int>): (m: nat)
    ensures 1 <= m
  {
    Max(1, if maxFiles.Some? then maxFiles.value else DEFAULT_MAX_FILES)
  }

  /** Options in range are taken as they are, others are moved to the nearest end, absent ones are 1 and 1000. */
  lemma LimitsTaken(depth: Option<int>, maxFiles: Option<int>)
    ensures EffectiveDepth(None) == 1 && EffectiveMaxFiles(None) == 1000
    ensures depth.Some? ==>
              && (depth.value <= 1 ==> EffectiveDepth(depth) == 1)
              && (1 <= depth.value <= 3 ==> EffectiveDepth(depth) == depth.value)
              && (depth.value >= 3 ==> EffectiveDepth(depth) == 3)
    ensures maxFiles.Some? ==>
              && (maxFiles.value <= 1 ==> EffectiveMaxFiles(maxFiles) == 1)
              && (maxFiles.value >= 1 ==> EffectiveMaxFiles(maxFiles) == maxFiles.value)
  {
  }

  // ---------------------------------------------------------------- the unlimited closure

  /** Appends the dependencies that were not found before, in order. */
  function Visit(found: seq<string>, deps: seq<string>): seq<string>
    decreases |deps|
  {
    if deps == [] then found
    else Visit(if deps[0] in found then found else found + [deps[0]], deps[1..])
  }

  function Expand(imports: Imports, found: seq<string>, frontier: seq<string>): seq<string>
    decreases |frontier|
  {
    if frontier == [] then found
    else Expand(imports, Visit(found, imports(frontier[0])), frontier[1..])
  }

  lemma {:induction false} VisitGrows(found: seq<string>, deps: seq<string>)
    ensures found <= Visit(found, deps)
    decreases |deps|
  {
    if deps == [] {
    } else {
      VisitGrows(if deps[0] in found then found else found + [deps[0]], deps[1..]);
    }
  }

  lemma {:induction false} ExpandGrows(imports: Imports, found: seq<string>, frontier: seq<string>)
    ensures found <= Expand(imports, found, frontier)
    decreases |frontier|
  {
    if frontier == [] {
    } else {
      VisitGrows(found, imports(frontier[0]));
      ExpandGrows(imports, Visit(found, imports(frontier[0])), frontier[1..]);
    }
  }

  /** The search between two levels: all files found, and those the last level added. */
  datatype Level = Level(found: seq<string>, frontier: seq<string>)

  function Next(imports: Imports, l: Level): Level {
    ExpandGrows(imports, l.found, l.frontier);
    var found := Expand(imports, l.found, l.frontier);
    Level(found, found[|l.found|..])
  }

  /** The search after `d` levels without a limit. */
  function After(imports: Imports, start: string, d: nat): Level {
    if d == 0 then Level([], [start]) else Next(imports, After(imports, start, d - 1))
  }

  function Found(imports: Imports, start: string, d: nat): seq<string> {
    After(imports, start, d).found
  }

  /** Each level appends exactly its frontier. */
  lemma NextAppends(imports: Imports, l: Level)
    ensures Next(imports, l).found == l.found + Next(imports, l).frontier
  {
    ExpandGrows(imports, l.found, l.frontier);
  }

  /** A deeper search extends a shallower one. */
  lemma {:induction false} DepthPrefix(imports: Imports, start: string, d: nat, e: nat)
    requires d <= e
    ensures Found(imports, start, d) <= Found(imports, start, e)
    decreases e
  {
    if d == e {
    } else {
      DepthPrefix(imports, start, d, e - 1);
      NextAppends(imports, After(imports, start, e - 1));
    }
  }

  /** Once a level adds nothing, no later level does. */
  lemma {:induction false} ClosureIsStable(imports: Imports, start: string, d: nat, e: nat)
    requires d <= e && After(imports, start, d).frontier == []
    ensures Found(imports, start, e) == Found(imports, start, d) && After(imports, start, e).frontier == []
    decreases e
  {
    if d == e {
    } else {
      ClosureIsStable(imports, start, d, e - 1);
    }
  }

  lemma {:induction false} VisitMeaning(found: seq<string>, deps: seq<string>)
    ensures Distinct(found) ==> Distinct(Visit(found, deps))
    ensures forall x :: x in Visit(found, deps) <==> x in found || x in deps
    decreases |deps|
  {
    if deps == [] {
    } else {
      VisitMeaning(if deps[0] in found then found else found + [deps[0]], deps[1..]);
      assert deps == [deps[0]] + deps[1..];
    }
  }

  lemma {:induction false} ExpandMeaning(imports: Imports, found: seq<string>, frontier: seq<string>)
    ensures Distinct(found) ==> Distinct(Expand(imports, found, frontier))
    ensures forall x ::
              x in Expand(imports, found, frontier) <==> x in found || exists f :: f in frontier && x in imports(f)
    decreases |frontier|
  {
    if frontier == [] {
    } else {
      VisitMeaning(found, imports(frontier[0]));
      ExpandMeaning(imports, Visit(found, imports(frontier[0])), frontier[1..]);
      assert frontier == [frontier[0]] + frontier[1..];
    }
  }

  /** Nothing is found twice. */
  lemma {:induction false} FoundNoDuplicates(imports: Imports, start: string, d: nat)
    ensures Distinct(Found(imports, start, d))
    decreases d
  {
    if d == 0 {
    } else {
      FoundNoDuplicates(imports, start, d - 1);
      var l := After(imports, start, d - 1);
      ExpandMeaning(imports, l.found, l.frontier);
    }
  }

  // ---------------------------------------------------------------- distances

  /** A chain of exactly `n` imports leads from `start` to `x`. */
  ghost predicate Chain(imports: Imports, start: string, x: string, n: nat)
    decreases n
  {
    if n == 0 then x == start
    else exists y :: Chain(imports, start, y, n - 1) && x in imports(y)
  }

  /** The imports of everything found by level `d` are found by level `d + 1`. */
  lemma {:induction false} ImportsFoundNext(imports: Imports, start: string, d: nat, y: string, x: string)
    requires y in Found(imports, start, d) && x in imports(y)
    ensures x in Found(imports, start, d + 1)
    decreases d
  {
    var l, m := After(imports, start, d - 1), After(imports, start, d);
    ExpandMeaning(imports, m.found, m.frontier);
    if y in l.found {
      ImportsFoundNext(imports, start, d - 1, y, x);
    } else {
      NextAppends(imports, l);
      assert y in m.frontier;
    }
  }

  /** The unlimited search finds exactly the files at import distance 1 to `d`. */
  lemma {:induction false} FoundIsReachable(imports: Imports, start: string, d: nat, x: string)
    ensures x in Found(imports, start, d) <==> exists n: nat :: 1 <= n <= d && Chain(imports, start, x, n)
  {
    if d == 0 {
    } else {
      if x in Found(imports, start, d) {
        var n := SomeChain(imports, start, d, x);
        assert 1 <= n <= d && Chain(imports, start, x, n);
      }
      forall n: nat | 1 <= n <= d && Chain(imports, start, x, n) ensures x in Found(imports, start, d) {
        ChainFound(imports, start, x, n);
        DepthPrefix(imports, start, n, d);
      }
    }
  }

  /** What imports a file that was found at level `d` and not before. */
  lemma Importer(imports: Imports, start: string, d: nat, x: string) returns (f: string)
    requires d > 0 && x in Found(imports, start, d) && x !in Found(imports, start, d - 1)
    ensures f in After(imports, start, d - 1).frontier && x in imports(f)
  {
    var l := After(imports, start, d - 1);
    ExpandMeaning(imports, l.found, l.frontier);
    f :| f in l.frontier && x in imports(f);
  }

  lemma FrontierFound(imports: Imports, start: string, d: nat, f: string)
    requires f in After(imports, start, d).frontier
    ensures if d == 0 then f == start else f in Found(imports, start, d)
  {
    if d > 0 {
      NextAppends(imports, After(imports, start, d - 1));
    }
  }

  lemma ChainLonger(imports: Imports, start: string, f: string, x: string, n: nat)
    requires Chain(imports, start, f, n) && x in imports(f)
    ensures Chain(imports, start, x, n + 1)
  {
  }

  lemma {:induction false} SomeChain(imports: Imports, start: string, d: nat, x: string) returns (n: nat)
    requires x in Found(imports, start, d)
    ensures 1 <= n <= d && Chain(imports, start, x, n)
    decreases d
  {
    if x in Found(imports, start, d - 1) {
      n := SomeChain(imports, start, d - 1, x);
    } else {
      var f := Importer(imports, start, d, x);
      FrontierFound(imports, start, d - 1, f);
      n := 0;
      if d > 1 {
        n := SomeChain(imports, start, d - 1, f);
      }
      ChainLonger(imports, start, f, x, n);
      n := n + 1;
    }
  }

  lemma {:induction false} ChainFound(imports: Imports, start: string, x: string, n: nat)
    requires n >= 1 && Chain(imports, start, x, n)
    ensures x in Found(imports, start, n)
    decreases n
  {
    var y :| Chain(imports, start, y, n - 1) && x in imports(y);
    if n == 1 {
      ExpandMeaning(imports, [], [start]);
      assert After(imports, start, 0) == Level([], [start]);
      assert y in [start];
    } else {
      ChainFound(imports, start, y, n - 1);
      ImportsFoundNext(imports, start, n - 1, y, x);
    }
  }

  /** `n` is the length of the shortest non-empty import chain to `x`. */
  ghost predicate Distance(imports: Imports, start: string, x: string, n: nat) {
    n >= 1 && Chain(imports, start, x, n) && forall m: nat | 1 <= m < n :: !Chain(imports, start, x, m)
  }

  /** The k-th level holds exactly the files at distance k. */
  lemma LevelIsDistance(imports: Imports, start: string, k: nat, i: nat)
    requires k >= 1 && |Found(imports, start, k - 1)| <= i < |Found(imports, start, k)|
    ensures Distance(imports, start, Found(imports, start, k)[i], k)
  {
    var found, prior := Found(imports, start, k), Found(imports, start, k - 1);
    DepthPrefix(imports, start, k - 1, k);
    FoundNoDuplicates(imports, start, k);
    assert forall j | 0 <= j < |prior| :: prior[j] == found[j];
    FoundIsReachable(imports, start, k, found[i]);
    FoundIsReachable(imports, start, k - 1, found[i]);
  }

  /** The level an index of the result belongs to. */
  lemma {:induction false} LevelOf(imports: Imports, start: string, d: nat, i: nat) returns (k: nat)
    requires i < |Found(imports, start, d)|
    ensures 1 <= k <= d && |Found(imports, start, k - 1)| <= i < |Found(imports, start, k)|
    ensures Found(imports, start, k)[i] == Found(imports, start, d)[i]
    decreases d
  {
    if i >= |Found(imports, start, d - 1)| {
      k := d;
    } else {
      DepthPrefix(imports, start, d - 1, d);
      k := LevelOf(imports, start, d - 1, i);
    }
  }

  /** Distances never decrease along the result, and never exceed the depth. */
  lemma DistancesAscend(imports: Imports, start: string, d: nat, i: nat, j: nat) returns (m: nat, n: nat)
    requires i <= j < |Found(imports, start, d)|
    ensures 1 <= m <= n <= d
    ensures Distance(imports, start, Found(imports, start, d)[i], m)
            && Distance(imports, start, Found(imports, start, d)[j], n)
  {
    m := LevelOf(imports, start, d, i);
    n := LevelOf(imports, start, d, j);
    LevelIsDistance(imports, start, m, i);
    LevelIsDistance(imports, start, n, j);
    if n < m {
      DepthPrefix(imports, start, n, m - 1);
    }
  }

  // ---------------------------------------------------------------- order

  /** The imports of files, read one file after the other. */
  function Imported(imports: Imports, files: seq<string>): seq<string> {
    if files == [] then [] else Imported(imports, files[..|files| - 1]) + imports(files[|files| - 1])
  }

  /** Every entry at its first place only. */
  function FirstMentions(s: seq<string>): (r: seq<string>)
    ensures forall x :: x in r <==> x in s
  {
    if s == [] then []
    else
      var front, last := s[..|s| - 1], s[|s| - 1];
      assert s == front + [last];
      if last in front then FirstMentions(front) else FirstMentions(front) + [last]
  }

  lemma {:induction false} ImportedConcat(imports: Imports, a: seq<string>, b: seq<string>)
    ensures Imported(imports, a + b) == Imported(imports, a) + Imported(imports, b)
  {
    if b == [] {
      assert a + b == a;
    } else {
      var front, last := b[..|b| - 1], b[|b| - 1];
      ImportedConcat(imports, a, front);
      assert (a + b)[..|a + b| - 1] == a + front;
      Regroup(Imported(imports, a), Imported(imports, front), imports(last));
    }
  }

  lemma {:induction false} VisitMentions(s: seq<string>, deps: seq<string>)
    ensures Visit(FirstMentions(s), deps) == FirstMentions(s + deps)
    decreases |deps|
  {
    if deps == [] {
      assert s + deps == s;
    } else {
      assert (s + [deps[0]])[..|s|] == s;
      VisitMentions(s + [deps[0]], deps[1..]);
      assert s + [deps[0]] + deps[1..] == s + deps;
    }
  }

  lemma {:induction false} ExpandMentions(imports: Imports, s: seq<string>, frontier: seq<string>)
    ensures Expand(imports, FirstMentions(s), frontier) == FirstMentions(s + Imported(imports, frontier))
    decreases |frontier|
  {
    if frontier == [] {
      assert s + [] == s;
    } else {
      var deps, rest := imports(frontier[0]), frontier[1..];
      VisitMentions(s, deps);
      ExpandMentions(imports, s + deps, rest);
      ImportedConcat(imports, [frontier[0]], rest);
      assert frontier == [frontier[0]] + rest && Imported(imports, [frontier[0]]) == deps;
      Regroup(s, deps, Imported(imports, rest));
    }
  }

  lemma NextMentions(imports: Imports, l: Level, read: seq<string>)
    requires l.found == FirstMentions(read)
    ensures Next(imports, l).found == FirstMentions(read + Imported(imports, l.frontier))
  {
    ExpandMentions(imports, read, l.frontier);
  }

  lemma ReadOn(imports: Imports, start: string, prior: seq<string>, frontier: seq<string>)
    ensures Imported(imports, [start] + (prior + frontier))
            == Imported(imports, [start] + prior) + Imported(imports, frontier)
  {
    ImportedConcat(imports, [start] + prior, frontier);
    Regroup([start], prior, frontier);
  }

  /** What has been read once the files found are `found`. */
  function ReadFor(imports: Imports, start: string, found: seq<string>): seq<string> {
    Imported(imports, [start] + found)
  }

  lemma FirstMentioned(imports: Imports, start: string)
    ensures Found(imports, start, 1) == FirstMentions(ReadFor(imports, start, []))
  {
    NextMentions(imports, After(imports, start, 0), []);
    assert [] + Imported(imports, [start]) == Imported(imports, [start]) && [start] + [] == [start];
  }

  lemma NextMentioned(imports: Imports, start: string, before: Level, l: Level)
    requires l == Next(imports, before) && l.found == FirstMentions(ReadFor(imports, start, before.found))
    ensures Next(imports, l).found == FirstMentions(ReadFor(imports, start, l.found))
  {
    NextAppends(imports, before);
    NextMentions(imports, l, ReadFor(imports, start, before.found));
    ReadOn(imports, start, before.found, l.frontier);
  }

  /**
   The search finds files in the order in which they are first mentioned when one reads the imports
   of the file itself and then of the files found, in that order.
   */
  lemma {:induction false} FoundAsMentioned(imports: Imports, start: string, d: nat)
    ensures Found(imports, start, d + 1) == FirstMentions(Imported(imports, [start] + Found(imports, start, d)))
    decreases d
  {
    if d == 0 {
      FirstMentioned(imports, start);
    } else {
      FoundAsMentioned(imports, start, d - 1);
      NextMentioned(imports, start, After(imports, start, d - 1), After(imports, start, d));
    }
  }

  // ---------------------------------------------------------------- the limited search

  /** The inner loop: takes over the unseen dependencies of one file until the limit is reached. */
  method TakeDependencies(directDeps: seq<string>, maxFiles: nat, results0: seq<string>, seen0: set<string>)
    returns (results: seq<string>, seen: set<string>, added: seq<string>)
    requires |results0| <= maxFiles && (forall x :: x in seen0 <==> x in results0)
    ensures (forall x :: x in seen <==> x in results) && results == results0 + added && |results| <= maxFiles
    ensures results <= Visit(results0, directDeps)
    ensures |results| < maxFiles ==> results == Visit(results0, directDeps)
  {
    results, seen, added := results0, seen0, [];
    ghost var goal := Visit(results0, directDeps);
    var j := 0;
    while j < |directDeps|
      invariant 0 <= j <= |directDeps|
      invariant forall x :: x in seen <==> x in results
      invariant |results| <= maxFiles && results == results0 + added
      invariant Visit(results, directDeps[j..]) == goal
    {
      var dep := directDeps[j];
      if |results| >= maxFiles {
        VisitGrows(results, directDeps[j..]);
        return;
      }
      assert directDeps[j..][0] == dep && directDeps[j..][1..] == directDeps[j + 1..];
      if dep !in seen {
        seen := seen + {dep};
        results := results + [dep];
        added := added + [dep];
      }
      j := j + 1;
    }
    assert directDeps[j..] == [];
  }

  /** The middle loop: expands one frontier until the limit is reached. */
  method ExpandFrontier(frontier: seq<string>, imports: Imports, maxFiles: nat,
                        results0: seq<string>, seen0: set<string>)
    returns (results: seq<string>, seen: set<string>, nextFrontier: seq<string>, full: bool)
    requires |results0| <= maxFiles && (forall x :: x in seen0 <==> x in results0)
    ensures (forall x :: x in seen <==> x in results) && results == results0 + nextFrontier && |results| <= maxFiles
    ensures results <= Expand(imports, results0, frontier)
    ensures |results| < maxFiles ==> results == Expand(imports, results0, frontier)
    ensures full ==> |results| == maxFiles
  {
    results, seen, nextFrontier, full := results0, seen0, [], false;
    ghost var goal := Expand(imports, results0, frontier);
    ExpandGrows(imports, results0, frontier);
    for i := 0 to |frontier|
      invariant forall x :: x in seen <==> x in results
      invariant |results| <= maxFiles && results == results0 + nextFrontier
      invariant results <= goal
      invariant |results| < maxFiles ==> Expand(imports, results, frontier[i..]) == goal
    {
      var current := frontier[i];
      if |results| >= maxFiles {
        full := true;
        return;
      }
      assert frontier[i..][0] == current && frontier[i..][1..] == frontier[i + 1..];
      var directDeps := imports(current);
      ExpandGrows(imports, Visit(results, directDeps), frontier[i + 1..]);
      var added;
      results, seen, added := TakeDependencies(directDeps, maxFiles, results, seen);
      nextFrontier := nextFrontier + added;
    }
    assert frontier[|frontier|..] == [];
  }

  /** The result is the first `maxFiles` entries of the unlimited search to the effective depth. */
  method FindFileDependencies(filePath: string, imports: Imports, depthOption: Option<int>, maxFilesOption: Option<int>)
    returns (results: seq<string>)
    ensures results == FirstN(Found(imports, filePath, EffectiveDepth(depthOption)), EffectiveMaxFiles(maxFilesOption))
  {
    var depth, maxFiles := EffectiveDepth(depthOption), EffectiveMaxFiles(maxFilesOption);
    ghost var all := Found(imports, filePath, depth);
    results := [];
    var seen: set<string> := {};
    var frontier := [filePath];
    var d := 0;
    while d < depth
      invariant 0 <= d <= depth
      invariant forall x :: x in seen <==> x in results
      invariant results <= all && |results| <= maxFiles
      invariant |results| < maxFiles ==> After(imports, filePath, d) == Level(results, frontier)
    {
      ghost var before, l := results, After(imports, filePath, d);
      DepthPrefix(imports, filePath, d + 1, depth);
      var full;
      results, seen, frontier, full := ExpandFrontier(frontier, imports, maxFiles, results, seen);
      assert |before| == maxFiles ==> results == before;
      if full {
        return;
      }
      d := d + 1;
      if |results| < maxFiles {
        NextAppends(imports, l);
        assert After(imports, filePath, d) == Level(results, frontier);
      }
      if |frontier| == 0 {
        if |results| < maxFiles {
          ClosureIsStable(imports, filePath, d, depth);
        }
        break;
      }
    }
  }

  /** What the caller gets: distinct files, at most `maxFiles`, and all in range if fewer. */
  lemma ResultMeaning(imports: Imports, start: string, d: nat, max: nat, x: string)
    ensures var r := FirstN(Found(imports, start, d), max);
      && Distinct(r) && |r| <= max
      && (x in r ==> exists n: nat :: 1 <= n <= d && Chain(imports, start, x, n))
      && (|r| < max ==> (x in r <==> exists n: nat :: 1 <= n <= d && Chain(imports, start, x, n)))
  {
    FoundNoDuplicates(imports, start, d);
    FoundIsReachable(imports, start, d, x);
  }
}
