/**
 Key spelling in YAML and in memory (file-format.ts). How toLowerCase maps characters outside ASCII is a
 parameter.
 */
module ConfigKeys {
  predicate IsUpper(c: char) { 'A' <= c <= 'Z' }

  predicate IsLower(c: char) { 'a' <= c <= 'z' }

  predicate IsDigit(c: char) { '0' <= c <= '9' }

  predicate LowerOrDigit(c: char) { IsLower(c) || IsDigit(c) }

  predicate Alphanumeric(c: char) { IsUpper(c) || LowerOrDigit(c) }

  function ToUpper(c: char): char {
    if IsLower(c) then (c as int - 32) as char else c
  }

  const CAPITALS := "ABCDEFGHIJKLMNOPQRSTUVWXYZ"
  const SMALLS := "abcdefghijklmnopqrstuvwxyz"
  const DIGITS := "0123456789"

  /** Upper and lower case are the letters at the same place. */
  lemma SameLetter(k: nat)
    requires k < 26
    ensures ToUpper(SMALLS[k]) == CAPITALS[k] && LowerAscii(CAPITALS[k]) == SMALLS[k]
  {
  }

  lemma Classes(c: char)
    ensures IsUpper(c) <==> c in CAPITALS
    ensures IsLower(c) <==> c in SMALLS
    ensures IsDigit(c) <==> c in DIGITS
    ensures Alphanumeric(c) <==> c in CAPITALS || c in SMALLS || c in DIGITS
    ensures LowerOrDigit(c) <==> c in SMALLS || c in DIGITS
    ensures IsAscii(0x7f as char) && !IsAscii(0x80 as char) && (IsAscii(c) <==> c <= 0x7f as char)
  {
  }

  predicate IsAscii(c: char) { c as int < 128 }

  /** What toLowerCase makes of one character outside ASCII. */
  type Lowering = char -> string

  /** Outside ASCII a character keeps its spelling or starts differently in lower case, without underscores. */
  predicate Sane(lower: Lowering, c: char) {
    !IsAscii(c) ==> lower(c) != "" && '_' !in lower(c) && (lower(c) == [c] || lower(c)[0] != c)
  }

  /** A character that lower-casing leaves alone, as far as it is outside ASCII. */
  predicate Fixed(lower: Lowering, c: char) {
    IsAscii(c) || lower(c) == [c]
  }

  ghost predicate Lowers(lower: Lowering) {
    forall c :: Sane(lower, c)
  }

  function LowerAscii(c: char): char {
    if IsUpper(c) then (c as int + 32) as char else c
  }

  function ToLower(c: char, lower: Lowering): string {
    if IsAscii(c) then [LowerAscii(c)] else lower(c)
  }

  /** key.replace(/_([a-zA-Z0-9])/g, upper-cased group) */
  function SnakeToCamel(key: string): string {
    if key == "" then ""
    else if key[0] == '_' && |key| > 1 && Alphanumeric(key[1]) then [ToUpper(key[1])] + SnakeToCamel(key[2..])
    else [key[0]] + SnakeToCamel(key[1..])
  }

  /** key.replace(/([a-z0-9])([A-Z])/g, '$1_$2') */
  function Split(key: string): string {
    if key == "" then ""
    else if |key| > 1 && LowerOrDigit(key[0]) && IsUpper(key[1]) then [key[0], '_', key[1]] + Split(key[2..])
    else [key[0]] + Split(key[1..])
  }

  /** key.toLowerCase() */
  function Lowered(key: string, lower: Lowering): string {
    if key == "" then "" else ToLower(key[0], lower) + Lowered(key[1..], lower)
  }

  predicate HasUpper(key: string) {
    exists c :: c in key && IsUpper(c)
  }

  function CamelToSnake(key: string, lower: Lowering): string {
    if !HasUpper(key) then key else Lowered(Split(key), lower)
  }

  /** The lower-casing of a script without cases. */
  const CASELESS: Lowering := c => [c]

  lemma {:induction false} NoUpperUnchanged(key: string)
    requires !HasUpper(key)
    ensures Lowered(Split(key), CASELESS) == key
  {
    if key == "" {
    } else {
      assert key[0] in key && key == [key[0]] + key[1..];
      forall c | c in key[1..] ensures !IsUpper(c) {
        assert c in key;
      }
      if |key| > 1 {
        assert key[1] in key;
      }
      NoUpperUnchanged(key[1..]);
    }
  }

  predicate KeyOk(key: string, lower: Lowering, i: nat)
    requires i < |key|
  {
    && (IsUpper(key[i]) ==> i > 0 && LowerOrDigit(key[i - 1]))
    && (key[i] == '_' ==> i + 1 == |key| || !Alphanumeric(key[i + 1]))
    && Fixed(lower, key[i])
  }

  predicate AllOk(key: string, lower: Lowering) {
    forall i: nat | i < |key| :: KeyOk(key, lower, i)
  }

  /**
   Keys that survive the round trip: every ASCII capital directly follows an ASCII lower-case letter
   or a digit, no underscore is directly followed by an ASCII letter or digit, and if there is an
   ASCII capital at all, every character outside ASCII is its own lower case.
   */
  predicate WellFormedKey(key: string, lower: Lowering) {
    && (forall i | 0 <= i < |key| :: IsUpper(key[i]) ==> i > 0 && LowerOrDigit(key[i - 1]))
    && (forall i | 0 <= i < |key| - 1 :: key[i] == '_' ==> !Alphanumeric(key[i + 1]))
    && (HasUpper(key) ==> forall c | c in key :: Fixed(lower, c))
  }

  lemma WellFormedIsAllOk(key: string, lower: Lowering)
    ensures WellFormedKey(key, lower) <==> AllOk(key, if HasUpper(key) then lower else CASELESS)
  {
    var l := if HasUpper(key) then lower else CASELESS;
    if AllOk(key, l) {
      forall c | c in key ensures Fixed(l, c) {
        var i: nat :| i < |key| && key[i] == c;
        assert KeyOk(key, l, i);
      }
      forall i: nat | i < |key| ensures IsUpper(key[i]) ==> i > 0 && LowerOrDigit(key[i - 1]) {
        assert KeyOk(key, l, i);
      }
      forall i: nat | i < |key| - 1 ensures key[i] == '_' ==> !Alphanumeric(key[i + 1]) {
        assert KeyOk(key, l, i);
      }
    }
    if WellFormedKey(key, lower) {
      forall i: nat | i < |key| ensures KeyOk(key, l, i) {
        assert key[i] in key;
        assert i < |key| - 1 && key[i] == '_' ==> !Alphanumeric(key[i + 1]);
      }
    }
  }

  /** Dropping the first `n` characters, when what they decide is known. */
  lemma AllOkDrop(key: string, lower: Lowering, n: nat)
    requires 0 < n <= |key| && forall i: nat | i < n :: KeyOk(key, lower, i)
    requires n < |key| && IsUpper(key[n]) ==> !LowerOrDigit(key[n - 1])
    ensures AllOk(key, lower) <==> AllOk(key[n..], lower)
  {
    if AllOk(key, lower) {
      forall i: nat | i < |key[n..]| ensures KeyOk(key[n..], lower, i) {
        assert KeyOk(key, lower, i + n);
      }
    }
    if AllOk(key[n..], lower) {
      forall i: nat | i < |key| ensures KeyOk(key, lower, i) {
        if i >= n {
          assert KeyOk(key[n..], lower, i - n);
        }
      }
    }
  }

  lemma LoweredCons(c: char, rest: string, lower: Lowering)
    ensures Lowered([c] + rest, lower) == ToLower(c, lower) + Lowered(rest, lower)
  {
    assert ([c] + rest)[1..] == rest;
  }

  lemma SplitCons(key: string)
    requires key != "" && !(|key| > 1 && LowerOrDigit(key[0]) && IsUpper(key[1]))
    ensures Split(key) == [key[0]] + Split(key[1..])
  {
  }

  lemma CamelCons(c: char, rest: string)
    requires !(c == '_' && rest != "" && Alphanumeric(rest[0]))
    ensures SnakeToCamel([c] + rest) == [c] + SnakeToCamel(rest)
  {
    assert ([c] + rest)[1..] == rest;
  }

  lemma SameCons(a: char, s: string, b: char, t: string)
    ensures [a] + s == [b] + t <==> a == b && s == t
  {
    if [a] + s == [b] + t {
      assert ([a] + s)[0] == a && ([b] + t)[0] == b;
      assert ([a] + s)[1..] == s && ([b] + t)[1..] == t;
    }
  }

  lemma SplitHead(key: string, lower: Lowering)
    requires key != "" && Sane(lower, key[0])
    ensures Lowered(Split(key), lower) != "" && Lowered(Split(key), lower)[0] == ToLower(key[0], lower)[0]
  {
  }

  /** Text without underscores passes unchanged in front of anything. */
  lemma {:induction false} PlainPrefix(a: string, b: string)
    requires '_' !in a
    ensures SnakeToCamel(a + b) == a + SnakeToCamel(b)
  {
    if a == "" {
      assert a + b == b;
    } else {
      assert (a + b)[1..] == a[1..] + b;
      PlainPrefix(a[1..], b);
    }
  }

  lemma PairBack(a: char, b: char, rest: string)
    requires LowerOrDigit(a) && IsLower(b)
    ensures SnakeToCamel([a] + (['_'] + ([b] + rest))) == [a] + ([ToUpper(b)] + SnakeToCamel(rest))
  {
    var s := ['_'] + ([b] + rest);
    CamelCons(a, s);
    assert s[1] == b && s[2..] == rest;
  }

  lemma SplitPair(key: string)
    requires |key| > 1 && LowerOrDigit(key[0]) && IsUpper(key[1])
    ensures Split(key) == [key[0]] + (['_'] + ([key[1]] + Split(key[2..])))
  {
    var rest := Split(key[2..]);
    assert [key[0], '_', key[1]] + rest == [key[0]] + (['_'] + ([key[1]] + rest));
  }

  lemma LowerPair(a: char, b: char, rest: string, lower: Lowering)
    requires LowerOrDigit(a) && IsUpper(b)
    ensures Lowered([a] + (['_'] + ([b] + rest)), lower) == [a] + (['_'] + ([LowerAscii(b)] + Lowered(rest, lower)))
  {
    LoweredCons(a, ['_'] + ([b] + rest), lower);
    LoweredCons('_', [b] + rest, lower);
    LoweredCons(b, rest, lower);
  }

  lemma UpperOfLower(c: char)
    requires IsUpper(c)
    ensures IsLower(LowerAscii(c)) && ToUpper(LowerAscii(c)) == c
  {
  }

  /** There and back, a capital right behind a lower-case letter or digit is what it was. */
  lemma PairReturns(key: string, lower: Lowering)
    requires |key| > 1 && LowerOrDigit(key[0]) && IsUpper(key[1])
    ensures SnakeToCamel(Lowered(Split(key), lower))
            == [key[0]] + ([key[1]] + SnakeToCamel(Lowered(Split(key[2..]), lower)))
  {
    var tail, b := Lowered(Split(key[2..]), lower), LowerAscii(key[1]);
    assert Lowered(Split(key), lower) == [key[0]] + (['_'] + ([b] + tail)) by {
      SplitPair(key);
      LowerPair(key[0], key[1], Split(key[2..]), lower);
    }
    UpperOfLower(key[1]);
    PairBack(key[0], b, tail);
  }

  lemma {:induction false} RoundTripPair(key: string, lower: Lowering)
    requires |key| > 1 && LowerOrDigit(key[0]) && IsUpper(key[1])
    requires SnakeToCamel(Lowered(Split(key[2..]), lower)) == key[2..] <==> AllOk(key[2..], lower)
    ensures SnakeToCamel(Lowered(Split(key), lower)) == key <==> AllOk(key, lower)
  {
    var rest, back := key[2..], SnakeToCamel(Lowered(Split(key[2..]), lower));
    PairReturns(key, lower);
    assert KeyOk(key, lower, 0) && KeyOk(key, lower, 1);
    AllOkDrop(key, lower, 2);
    SameCons(key[1], back, key[1], rest);
    SameCons(key[0], [key[1]] + back, key[0], [key[1]] + rest);
    assert key == [key[0]] + ([key[1]] + rest);
  }

  /** There and back, a first character outside ASCII is its lower case. */
  lemma OtherReturns(key: string, lower: Lowering)
    requires key != "" && !IsAscii(key[0]) && Sane(lower, key[0])
    ensures SnakeToCamel(Lowered(Split(key), lower))
            == lower(key[0]) + SnakeToCamel(Lowered(Split(key[1..]), lower))
  {
    SplitCons(key);
    LoweredCons(key[0], Split(key[1..]), lower);
    PlainPrefix(lower(key[0]), Lowered(Split(key[1..]), lower));
  }

  /** A first character outside ASCII. */
  lemma {:induction false} RoundTripOther(key: string, lower: Lowering)
    requires key != "" && !IsAscii(key[0]) && Sane(lower, key[0])
    requires SnakeToCamel(Lowered(Split(key[1..]), lower)) == key[1..] <==> AllOk(key[1..], lower)
    ensures SnakeToCamel(Lowered(Split(key), lower)) == key <==> AllOk(key, lower)
  {
    var rest, first := key[1..], lower(key[0]);
    var back := SnakeToCamel(Lowered(Split(rest), lower));
    OtherReturns(key, lower);
    assert key == [key[0]] + rest;
    if Fixed(lower, key[0]) {
      assert KeyOk(key, lower, 0);
      AllOkDrop(key, lower, 1);
      SameCons(key[0], back, key[0], rest);
    } else {
      assert !KeyOk(key, lower, 0);
      assert (first + back)[0] == first[0];
    }
  }

  /** An underscore that swallows what comes after it. */
  lemma {:induction false} RoundTripSwallowed(key: string, lower: Lowering)
    requires key != "" && key[0] == '_' && (|key| > 1 ==> Sane(lower, key[1]))
    requires var tail := Lowered(Split(key[1..]), lower); tail != "" && Alphanumeric(tail[0])
    ensures SnakeToCamel(Lowered(Split(key), lower)) != key && !AllOk(key, lower)
  {
    var rest := key[1..];
    var tail := Lowered(Split(rest), lower);
    SplitCons(key);
    LoweredCons('_', Split(rest), lower);
    var out := ['_'] + tail;
    assert out[1] == tail[0] && SnakeToCamel(out)[0] == ToUpper(tail[0]) != '_';
    SplitHead(rest, lower);
    assert !KeyOk(key, lower, 0) || !KeyOk(key, lower, 1);
  }

  /** Any other first character. */
  lemma {:induction false} RoundTripPlain(key: string, lower: Lowering)
    requires key != "" && IsAscii(key[0]) && !(|key| > 1 && LowerOrDigit(key[0]) && IsUpper(key[1]))
    requires |key| > 1 ==> Sane(lower, key[1])
    requires var tail := Lowered(Split(key[1..]), lower); !(key[0] == '_' && tail != "" && Alphanumeric(tail[0]))
    requires SnakeToCamel(Lowered(Split(key[1..]), lower)) == key[1..] <==> AllOk(key[1..], lower)
    ensures SnakeToCamel(Lowered(Split(key), lower)) == key <==> AllOk(key, lower)
  {
    var rest, low := key[1..], LowerAscii(key[0]);
    var tail := Lowered(Split(rest), lower);
    SplitCons(key);
    LoweredCons(key[0], Split(rest), lower);
    CamelCons(low, tail);
    SameCons(low, SnakeToCamel(tail), key[0], rest);
    assert key == [key[0]] + rest;
    if |key| > 1 && !Fixed(lower, key[1]) {
      assert !KeyOk(key, lower, 1) && !KeyOk(key[1..], lower, 0);
    } else {
      if |key| > 1 {
        SplitHead(key[1..], lower);
      }
      if KeyOk(key, lower, 0) {
        AllOkDrop(key, lower, 1);
      }
    }
  }

  lemma {:induction false} RoundTripSplit(key: string, lower: Lowering)
    requires Lowers(lower)
    ensures SnakeToCamel(Lowered(Split(key), lower)) == key <==> AllOk(key, lower)
  {
    if key == "" {
    } else {
      assert Sane(lower, key[0]) && (|key| > 1 ==> Sane(lower, key[1]));
      if |key| > 1 && LowerOrDigit(key[0]) && IsUpper(key[1]) {
        RoundTripSplit(key[2..], lower);
        RoundTripPair(key, lower);
      } else {
        RoundTripSplit(key[1..], lower);
        var tail := Lowered(Split(key[1..]), lower);
        if !IsAscii(key[0]) {
          RoundTripOther(key, lower);
        } else if key[0] == '_' && tail != "" && Alphanumeric(tail[0]) {
          RoundTripSwallowed(key, lower);
        } else {
          RoundTripPlain(key, lower);
        }
      }
    }
  }

  /** A key survives memory to YAML and back exactly if it is well formed. */
  lemma KeyRoundTrip(key: string, lower: Lowering)
    requires Lowers(lower)
    ensures SnakeToCamel(CamelToSnake(key, lower)) == key <==> WellFormedKey(key, lower)
  {
    WellFormedIsAllOk(key, lower);
    if HasUpper(key) {
      RoundTripSplit(key, lower);
    } else {
      NoUpperUnchanged(key);
      assert Lowers(CASELESS);
      RoundTripSplit(key, CASELESS);
    }
  }

  // ---------------------------------------------------------------- spelling

  /** A word of lower-case ASCII letters and digits. */
  predicate Word(w: string) {
    w != "" && forall c | c in w :: LowerOrDigit(c)
  }

  /** More words of a name: each starts with a letter, and all but the last have two characters or more. */
  predicate MoreWords(ws: seq<string>) {
    forall i | 0 <= i < |ws| :: Word(ws[i]) && IsLower(ws[i][0]) && (i < |ws| - 1 ==> |ws[i]| > 1)
  }

  /** The words with a capital first: LikeThis. */
  function Capitalised(ws: seq<string>): string
    requires MoreWords(ws)
  {
    if ws == [] then "" else [ToUpper(ws[0][0])] + (ws[0][1..] + Capitalised(ws[1..]))
  }

  /** The words with an underscore first: _like_this. */
  function Underscored(ws: seq<string>): string {
    if ws == [] then "" else "_" + (ws[0] + Underscored(ws[1..]))
  }

  lemma RunGoesOn(c: char, rest: string, lower: Lowering)
    requires LowerOrDigit(c) && (rest != "" ==> !IsUpper(rest[0]))
    ensures Lowered(Split([c] + rest), lower) == [c] + Lowered(Split(rest), lower)
  {
    var key := [c] + rest;
    assert key[1..] == rest;
    SplitCons(key);
    LoweredCons(c, Split(rest), lower);
  }

  lemma RunEnds(c: char, d: char, rest: string, lower: Lowering)
    requires LowerOrDigit(c) && IsUpper(d)
    ensures Lowered(Split([c] + ([d] + rest)), lower)
            == [c] + (['_'] + ([LowerAscii(d)] + Lowered(Split(rest), lower)))
  {
    var key := [c] + ([d] + rest);
    assert key[2..] == rest;
    SplitPair(key);
    LowerPair(c, d, Split(rest), lower);
  }

  lemma FirstApart(w: string, rest: string)
    requires w != ""
    ensures w + rest == [w[0]] + (w[1..] + rest)
  {
  }

  /** A run of lower-case letters and digits in front of a capital is set off by an underscore. */
  lemma {:induction false} SplitRun(w: string, d: char, rest: string, lower: Lowering)
    requires Word(w) && IsUpper(d)
    ensures Lowered(Split(w + ([d] + rest)), lower)
            == w + (['_'] + ([LowerAscii(d)] + Lowered(Split(rest), lower)))
  {
    var more, done := [d] + rest, ['_'] + ([LowerAscii(d)] + Lowered(Split(rest), lower));
    FirstApart(w, more);
    FirstApart(w, done);
    assert w[0] in w;
    if |w| > 1 {
      assert w[1] in w;
      SplitRun(w[1..], d, rest, lower);
      RunGoesOn(w[0], w[1..] + more, lower);
    } else {
      assert w[1..] == "" && "" + more == more && "" + done == done;
      RunEnds(w[0], d, rest, lower);
    }
  }

  lemma {:induction false} WordAlone(w: string, lower: Lowering)
    requires forall c | c in w :: LowerOrDigit(c)
    ensures Lowered(Split(w), lower) == w
  {
    if w == "" {
    } else {
      assert w == [w[0]] + w[1..] && w[0] in w;
      assert |w| > 1 ==> w[1] in w;
      WordAlone(w[1..], lower);
      RunGoesOn(w[0], w[1..], lower);
    }
  }

  lemma WordApart(word: string, rest: string)
    requires word != "" && IsLower(word[0])
    ensures LowerAscii(ToUpper(word[0])) == word[0] && [word[0]] + (word[1..] + rest) == word + rest
  {
  }

  lemma {:induction false} WordsSplit(w: string, ws: seq<string>, lower: Lowering)
    requires Word(w) && MoreWords(ws)
    ensures Lowered(Split(w + Capitalised(ws)), lower) == w + Underscored(ws)
    decreases |ws|
  {
    if ws == [] {
      assert w + "" == w;
      WordAlone(w, lower);
    } else {
      var tail, more := ws[0][1..], ws[1..];
      SplitRun(w, ToUpper(ws[0][0]), tail + Capitalised(more), lower);
      WordApart(ws[0], Underscored(more));
      if tail == "" {
        assert more == [] && tail + Capitalised(more) == "";
      } else {
        WordsSplit(tail, more, lower);
      }
    }
  }

  lemma {:induction false} WordsJoin(w: string, ws: seq<string>)
    requires (forall c | c in w :: LowerOrDigit(c)) && MoreWords(ws)
    ensures SnakeToCamel(w + Underscored(ws)) == w + Capitalised(ws)
    decreases |ws|
  {
    PlainPrefix(w, Underscored(ws));
    if ws != [] {
      var s, tail, more := Underscored(ws), ws[0][1..], ws[1..];
      assert s[0] == '_' && s[1] == ws[0][0] && s[2..] == tail + Underscored(more);
      WordsJoin(tail, more);
    }
  }

  /** Names made of words are written like_this and read likeThis. */
  lemma WordsTranslate(w: string, ws: seq<string>, lower: Lowering)
    requires Word(w) && MoreWords(ws)
    ensures CamelToSnake(w + Capitalised(ws), lower) == w + Underscored(ws)
    ensures SnakeToCamel(w + Underscored(ws)) == w + Capitalised(ws)
  {
    WordsJoin(w, ws);
    WordsSplit(w, ws, lower);
    var key := w + Capitalised(ws);
    if ws == [] {
      assert !HasUpper(key);
    } else {
      assert key[|w|] in key && IsUpper(key[|w|]);
    }
  }

  /** Keys that start lower-case and hold ASCII letters and digits with no two adjacent capitals are well formed. */
  lemma CamelCaseIsWellFormed(key: string, lower: Lowering)
    requires forall c | c in key :: Alphanumeric(c)
    requires key != "" ==> !IsUpper(key[0])
    requires forall i | 0 < i < |key| :: !(IsUpper(key[i - 1]) && IsUpper(key[i]))
    ensures WellFormedKey(key, lower)
  {
    forall i: nat | i < |key| ensures (IsUpper(key[i]) ==> i > 0 && LowerOrDigit(key[i - 1])) && key[i] != '_' {
      assert key[i] in key;
      if i > 0 {
        assert key[i - 1] in key;
      }
    }
  }

  /** Two adjacent capitals are lost. */
  lemma AdjacentCapitalsAreLost(lower: Lowering)
    requires Lowers(lower)
    ensures SnakeToCamel(CamelToSnake("aBC", lower)) != "aBC"
  {
    assert "aBC"[2] == 'C';
    KeyRoundTrip("aBC", lower);
  }

  /** So is a capital outside ASCII, if an ASCII capital makes the whole key be lowered. */
  lemma OtherCapitalsAreLost(lower: Lowering, c: char)
    requires Lowers(lower) && !Fixed(lower, c)
    ensures SnakeToCamel(CamelToSnake([c, 'a', 'B'], lower)) != [c, 'a', 'B']
    ensures SnakeToCamel(CamelToSnake([c, 'a', 'b'], lower)) == [c, 'a', 'b']
  {
    var key := [c, 'a', 'B'];
    assert key[0] in key && key[2] in key;
    KeyRoundTrip(key, lower);
    KeyRoundTrip([c, 'a', 'b'], lower);
  }
}
