/**
 * The Python string built-ins the annotation converter relies on: `str.isspace`,
 * `str.strip`, `str.split()` without a separator, `str.endswith`, `str.replace`,
 * `str.split(sep)[0]`, `int(str)`, `float(str)` and `str(int)`.
 * Strings are sequences of code points, as in Python 3.
 */
module PyText {
  import opened Wrappers

  // ---------------------------------------------------------------------------
  // Whitespace, strip and split
  // ---------------------------------------------------------------------------

  /** Python's `str.isspace` for one code point. */
  predicate IsSpace(c: char) {
    var n := c as int;
    (9 <= n <= 13) || (28 <= n <= 32) || n == 0x85 || n == 0xA0 || n == 0x1680
    || (0x2000 <= n <= 0x200A) || n == 0x2028 || n == 0x2029 || n == 0x202F
    || n == 0x205F || n == 0x3000
  }

  predicate NoSpace(s: string) {
    forall i :: 0 <= i < |s| ==> !IsSpace(s[i])
  }

  predicate AllSpace(s: string) {
    forall i :: 0 <= i < |s| ==> IsSpace(s[i])
  }

  /** `s.lstrip()`: what is left after dropping leading whitespace. */
  function LStrip(s: string): (r: string)
    ensures |r| <= |s|
    ensures r == [] || !IsSpace(r[0])
  {
    if s != [] && IsSpace(s[0]) then LStrip(s[1..]) else s
  }

  /** `lstrip` drops a prefix made of whitespace only. */
  lemma {:induction false} LStripDropsSpace(s: string)
    ensures LStrip(s) == s[|s| - |LStrip(s)|..]
    ensures AllSpace(s[..|s| - |LStrip(s)|])
  {
    if s != [] && IsSpace(s[0]) {
      LStripDropsSpace(s[1..]);
      var r := LStrip(s[1..]);
      assert s[1..][..|s| - 1 - |r|] == s[1..|s| - |r|];
    }
  }

  /** `s.rstrip()`: what is left after dropping trailing whitespace. */
  function RStrip(s: string): (r: string)
    ensures |r| <= |s|
    ensures r == [] || !IsSpace(r[|r| - 1])
  {
    if s != [] && IsSpace(s[|s| - 1]) then RStrip(s[..|s| - 1]) else s
  }

  /** `rstrip` drops a suffix made of whitespace only. */
  lemma {:induction false} RStripDropsSpace(s: string)
    ensures RStrip(s) == s[..|RStrip(s)|]
    ensures AllSpace(s[|RStrip(s)|..])
  {
    if s != [] && IsSpace(s[|s| - 1]) {
      var init := s[..|s| - 1];
      RStripDropsSpace(init);
      var r := RStrip(init);
      assert RStrip(s) == r;
      assert init[..|r|] == s[..|r|];
      assert init[|r|..] == s[|r|..|s| - 1];
      forall i | |r| <= i < |s|
        ensures IsSpace(s[i])
      {
        if i < |s| - 1 {
          assert s[i] == init[|r|..][i - |r|];
        }
      }
    } else {
      assert s[..|s|] == s && s[|s|..] == [];
    }
  }

  /** `s.strip()`: neither end of the result is whitespace. */
  function Strip(s: string): (r: string)
    ensures |r| <= |s|
    ensures r == [] || (!IsSpace(r[0]) && !IsSpace(r[|r| - 1]))
  {
    var l := LStrip(s);
    RStripDropsSpace(l);
    RStrip(l)
  }

  /** What `strip` removes is whitespace only: the result is a slice between two runs of whitespace. */
  lemma StripIsSlice(s: string)
    ensures exists a, b :: 0 <= a <= b <= |s| && Strip(s) == s[a..b] && AllSpace(s[..a]) && AllSpace(s[b..])
  {
    var l := LStrip(s);
    var r := RStrip(l);
    var a := |s| - |l|;
    LStripDropsSpace(s);
    RStripDropsSpace(l);
    assert r == s[a..a + |r|];
    assert s[a + |r|..] == l[|r|..];
  }

  /** The longest prefix of `s` without whitespace. */
  function Word(s: string): (w: string)
    ensures |w| <= |s| && NoSpace(w)
    ensures s != [] && !IsSpace(s[0]) ==> w != []
  {
    if s == [] || IsSpace(s[0]) then [] else [s[0]] + Word(s[1..])
  }

  /** `s.split()`: the maximal runs of non-whitespace, in order. */
  function Split(s: string): (words: seq<string>)
    ensures forall i :: 0 <= i < |words| ==> words[i] != [] && NoSpace(words[i])
    decreases |s|
  {
    var t := LStrip(s);
    if t == [] then []
    else
      var w := Word(t);
      var rest := Split(t[|w|..]);
      assert forall i :: 1 <= i < |[w] + rest| ==> ([w] + rest)[i] == rest[i - 1];
      [w] + rest
  }

  /** `' '.join(words)`. */
  function JoinWithSpace(words: seq<string>): string {
    if words == [] then ""
    else if |words| == 1 then words[0]
    else words[0] + " " + JoinWithSpace(words[1..])
  }

  lemma {:induction false} LStripAllSpace(s: string)
    requires AllSpace(s)
    ensures LStrip(s) == []
  {
    if s != [] {
      LStripAllSpace(s[1..]);
    }
  }

  lemma {:induction false} WordOfWordThenSpace(w: string, rest: string)
    requires NoSpace(w) && (rest == [] || IsSpace(rest[0]))
    ensures Word(w + rest) == w
  {
    if w == [] {
      assert w + rest == rest;
    } else {
      assert (w + rest)[0] == w[0];
      assert (w + rest)[1..] == w[1..] + rest;
      WordOfWordThenSpace(w[1..], rest);
      assert w == [w[0]] + w[1..];
    }
  }

  lemma SplitWordFirst(w: string, rest: string)
    requires w != [] && NoSpace(w) && (rest == [] || IsSpace(rest[0]))
    ensures Split(w + rest) == [w] + Split(rest)
  {
    assert (w + rest)[0] == w[0];
    assert LStrip(w + rest) == w + rest;
    WordOfWordThenSpace(w, rest);
    assert (w + rest)[|w|..] == rest;
  }

  lemma SplitSpaceFirst(c: char, u: string)
    requires IsSpace(c)
    ensures Split([c] + u) == Split(u)
  {
    assert ([c] + u)[1..] == u;
    assert LStrip([c] + u) == LStrip(u);
  }

  /** `' '.join(words).split()` gives the words back, whatever whitespace follows. */
  lemma {:induction false} SplitJoin(words: seq<string>, tail: string)
    requires forall i :: 0 <= i < |words| ==> words[i] != [] && NoSpace(words[i])
    requires AllSpace(tail)
    ensures Split(JoinWithSpace(words) + tail) == words
  {
    if words == [] {
      assert JoinWithSpace(words) + tail == tail;
      LStripAllSpace(tail);
    } else if |words| == 1 {
      assert JoinWithSpace(words) + tail == words[0] + tail;
      SplitWordFirst(words[0], tail);
      LStripAllSpace(tail);
    } else {
      SplitJoin(words[1..], tail);
      SplitJoinStep(words, tail);
    }
  }

  lemma SplitJoinStep(words: seq<string>, tail: string)
    requires |words| >= 2 && words[0] != [] && NoSpace(words[0])
    requires Split(JoinWithSpace(words[1..]) + tail) == words[1..]
    ensures Split(JoinWithSpace(words) + tail) == words
  {
    var inner := JoinWithSpace(words[1..]) + tail;
    assert JoinWithSpace(words) + tail == words[0] + ([' '] + inner);
    SplitWordFirst(words[0], [' '] + inner);
    SplitSpaceFirst(' ', inner);
    assert words == [words[0]] + words[1..];
  }

  /** Leading whitespace does not change `split()`. */
  lemma {:induction false} SplitSpacePrefix(lead: string, u: string)
    requires AllSpace(lead)
    ensures Split(lead + u) == Split(u)
  {
    if lead != [] {
      assert lead + u == [lead[0]] + (lead[1..] + u);
      SplitSpaceFirst(lead[0], lead[1..] + u);
      SplitSpacePrefix(lead[1..], u);
    } else {
      assert lead + u == u;
    }
  }

  /** Each word followed by its own separator: `words[0] + seps[0] + words[1] + seps[1] + ...`. */
  function Interleave(words: seq<string>, seps: seq<string>): string
    requires |seps| == |words|
  {
    if words == [] then "" else words[0] + seps[0] + Interleave(words[1..], seps[1..])
  }

  /**
   * `split()` gives back the maximal runs of non-whitespace: words separated by
   * any non-empty whitespace, with any whitespace before the first and after
   * the last, split into exactly those words.
   */
  lemma {:induction false} SplitRuns(lead: string, words: seq<string>, seps: seq<string>)
    requires AllSpace(lead) && |seps| == |words|
    requires forall i :: 0 <= i < |words| ==> words[i] != [] && NoSpace(words[i]) && AllSpace(seps[i])
    requires forall i :: 0 <= i < |words| - 1 ==> seps[i] != []
    ensures Split(lead + Interleave(words, seps)) == words
    decreases |words|
  {
    SplitSpacePrefix(lead, Interleave(words, seps));
    if words == [] {
      LStripAllSpace([]);
    } else {
      var rest := seps[0] + Interleave(words[1..], seps[1..]);
      assert Interleave(words, seps) == words[0] + rest;
      if |words| > 1 {
        assert rest[0] == seps[0][0];
      } else {
        assert Interleave(words[1..], seps[1..]) == [];
        assert rest == seps[0];
      }
      SplitWordFirst(words[0], rest);
      assert forall i :: 0 <= i < |words| - 1 ==> words[1..][i] == words[i + 1] && seps[1..][i] == seps[i + 1];
      SplitRuns(seps[0], words[1..], seps[1..]);
      assert words == [words[0]] + words[1..];
    }
  }

  // ---------------------------------------------------------------------------
  // Suffixes, replacement, first field
  // ---------------------------------------------------------------------------

  /** `s.endswith(suffix)`. */
  predicate EndsWith(s: string, suffix: string) {
    |suffix| <= |s| && s[|s| - |suffix|..] == suffix
  }

  predicate OccursAt(s: string, pattern: string, i: nat) {
    i + |pattern| <= |s| && s[i..i + |pattern|] == pattern
  }

  /**
   * `s.replace(pattern, replacement)`: every occurrence of a non-empty pattern,
   * scanning left to right and never overlapping, is replaced.
   */
  function ReplaceAll(s: string, pattern: string, replacement: string): (r: string)
    requires pattern != []
    ensures |pattern| == |replacement| ==> |r| == |s|
    decreases |s|
  {
    if |s| < |pattern| then s
    else if s[..|pattern|] == pattern then replacement + ReplaceAll(s[|pattern|..], pattern, replacement)
    else [s[0]] + ReplaceAll(s[1..], pattern, replacement)
  }

  /** An occurrence in the tail of `s` is an occurrence in `s`, one place later. */
  lemma OccursAtTail(s: string, pattern: string, i: nat)
    requires s != []
    ensures OccursAt(s[1..], pattern, i) <==> OccursAt(s, pattern, i + 1)
  {
    if i + 1 + |pattern| <= |s| {
      assert s[1..][i..i + |pattern|] == s[i + 1..i + 1 + |pattern|];
    }
  }

  /** Where the pattern does not occur, `replace` changes nothing. */
  lemma {:induction false} ReplaceAllAbsent(s: string, pattern: string, replacement: string)
    requires pattern != []
    requires forall i :: 0 <= i < |s| ==> !OccursAt(s, pattern, i)
    ensures ReplaceAll(s, pattern, replacement) == s
    decreases |s|
  {
    if |s| >= |pattern| {
      assert !OccursAt(s, pattern, 0);
      forall i | 0 <= i < |s[1..]|
        ensures !OccursAt(s[1..], pattern, i)
      {
        OccursAtTail(s, pattern, i);
      }
      ReplaceAllAbsent(s[1..], pattern, replacement);
      assert s == [s[0]] + s[1..];
    }
  }

  /**
   * `replace` scans left to right: everything before the first occurrence of
   * the pattern is kept, that occurrence becomes the replacement, and the
   * rest after it is replaced in the same way.
   */
  lemma {:induction false} ReplaceAllFirst(stem: string, pattern: string, replacement: string, rest: string)
    requires pattern != []
    requires forall i :: 0 <= i < |stem| ==> !OccursAt(stem + pattern + rest, pattern, i)
    ensures ReplaceAll(stem + pattern + rest, pattern, replacement) == stem + replacement + ReplaceAll(rest, pattern, replacement)
    decreases |stem|
  {
    var s := stem + pattern + rest;
    if stem == [] {
      assert s == pattern + rest && s[..|pattern|] == pattern && s[|pattern|..] == rest;
    } else {
      assert !OccursAt(s, pattern, 0);
      assert s[1..] == stem[1..] + pattern + rest;
      forall i | 0 <= i < |stem[1..]|
        ensures !OccursAt(stem[1..] + pattern + rest, pattern, i)
      {
        OccursAtTail(s, pattern, i);
      }
      ReplaceAllFirst(stem[1..], pattern, replacement, rest);
      assert ReplaceAll(s, pattern, replacement) == [stem[0]] + ReplaceAll(s[1..], pattern, replacement);
      assert stem == [stem[0]] + stem[1..];
    }
  }

  /** No proper suffix of the pattern is also a prefix of it, so two occurrences never overlap. */
  predicate NoSelfOverlap(pattern: string) {
    forall k :: 0 < k < |pattern| ==> pattern[k..] != pattern[..|pattern| - k]
  }

  /** Two overlapping copies of the pattern at the two ends of `s` make an overlap of the pattern with itself. */
  lemma OverlapBorder(s: string, pattern: string)
    requires |pattern| < |s| < 2 * |pattern|
    requires s[..|pattern|] == pattern && EndsWith(s, pattern)
    ensures pattern[|s| - |pattern|..] == pattern[..2 * |pattern| - |s|]
  {
    var n := |pattern|;
    var k := |s| - n;
    assert pattern[k..] == s[k..n];
    assert s[k..n] == s[|s| - n..][..n - k];
  }

  /** A text longer than the pattern that starts and ends with it holds two separate copies. */
  lemma OccurrencesApart(s: string, pattern: string)
    requires NoSelfOverlap(pattern) && |s| > |pattern|
    requires s[..|pattern|] == pattern && EndsWith(s, pattern)
    ensures |s| >= 2 * |pattern|
  {
    if |s| < 2 * |pattern| {
      OverlapBorder(s, pattern);
      assert false;
    }
  }

  lemma EndsWithDrop(s: string, suffix: string, m: nat)
    requires EndsWith(s, suffix) && m + |suffix| <= |s|
    ensures EndsWith(s[m..], suffix)
  {
    assert s[m..][|s| - m - |suffix|..] == s[|s| - |suffix|..];
  }

  lemma EndsWithPrepend(a: string, s: string, suffix: string)
    requires EndsWith(s, suffix)
    ensures EndsWith(a + s, suffix)
  {
    assert (a + s)[|a + s| - |suffix|..] == s[|s| - |suffix|..];
  }

  /**
   * For a pattern that cannot overlap itself, a text ending in the pattern is
   * replaced into one ending in the replacement.
   */
  lemma {:induction false} ReplaceAllSuffix(s: string, pattern: string, replacement: string)
    requires pattern != [] && NoSelfOverlap(pattern) && |replacement| == |pattern| && EndsWith(s, pattern)
    ensures EndsWith(ReplaceAll(s, pattern, replacement), replacement)
    decreases |s|
  {
    var n := |pattern|;
    if |s| == n {
      assert s[..n] == pattern && s[n..] == [];
      assert ReplaceAll(s, pattern, replacement) == replacement + [];
    } else if s[..n] == pattern {
      OccurrencesApart(s, pattern);
      EndsWithDrop(s, pattern, n);
      ReplaceAllSuffix(s[n..], pattern, replacement);
      EndsWithPrepend(replacement, ReplaceAll(s[n..], pattern, replacement), replacement);
    } else {
      EndsWithDrop(s, pattern, 1);
      ReplaceAllSuffix(s[1..], pattern, replacement);
      EndsWithPrepend([s[0]], ReplaceAll(s[1..], pattern, replacement), replacement);
    }
  }

  /** `s.split(sep)[0]`: everything before the first `sep`, or all of `s`. */
  function FirstField(s: string, sep: char): (r: string)
    ensures |r| <= |s| && r == s[..|r|] && sep !in r
    ensures |r| == |s| || s[|r|] == sep
  {
    if s == [] || s[0] == sep then [] else [s[0]] + FirstField(s[1..], sep)
  }

  // ---------------------------------------------------------------------------
  // Decimal digits
  // ---------------------------------------------------------------------------

  predicate IsDigit(c: char) {
    '0' <= c <= '9'
  }

  predicate AllDigits(s: string) {
    forall j :: 0 <= j < |s| ==> IsDigit(s[j])
  }

  function DigitValue(c: char): (d: nat)
    requires IsDigit(c)
    ensures d < 10
  {
    c as int - '0' as int
  }

  function DigitChar(d: nat): (c: char)
    requires d < 10
    ensures IsDigit(c) && DigitValue(c) == d
  {
    ('0' as int + d) as char
  }

  /**
   * Python's `digitpart` in `int()` and `float()`: decimal digits, where single
   * underscores may separate two digits.
   */
  predicate IsDigitPart(s: string) {
    && |s| > 0
    && IsDigit(s[|s| - 1])
    && (|| |s| == 1
        || IsDigitPart(s[..|s| - 1])
        || (|s| >= 3 && s[|s| - 2] == '_' && IsDigitPart(s[..|s| - 2])))
  }

  lemma {:induction false} AllDigitsIsDigitPart(s: string)
    requires |s| > 0 && AllDigits(s)
    ensures IsDigitPart(s)
  {
    if |s| > 1 {
      AllDigitsIsDigitPart(s[..|s| - 1]);
    }
  }

  /** The value of a digit part; underscores are ignored. */
  function DigitsValue(s: string): nat {
    if s == [] then 0
    else if IsDigit(s[|s| - 1]) then 10 * DigitsValue(s[..|s| - 1]) + DigitValue(s[|s| - 1])
    else DigitsValue(s[..|s| - 1])
  }

  /** The number of digits of a digit part; underscores are not counted. */
  function DigitCount(s: string): nat {
    if s == [] then 0
    else if IsDigit(s[|s| - 1]) then DigitCount(s[..|s| - 1]) + 1
    else DigitCount(s[..|s| - 1])
  }

  /** `str(n)` for a natural number: its decimal digits, without leading zeros. */
  function Decimal(n: nat): (s: string)
    ensures |s| > 0 && AllDigits(s)
    ensures s[0] == '0' ==> n == 0
    decreases n
  {
    if n < 10 then [DigitChar(n)] else Decimal(n / 10) + [DigitChar(n % 10)]
  }

  // ---------------------------------------------------------------------------
  // int() and float()
  // ---------------------------------------------------------------------------

  predicate IsSign(c: char) {
    c == '+' || c == '-'
  }

  /**
   * The whitespace `int()` and `float()` skip around a literal: the ASCII
   * whitespace and the non-ASCII spaces of `str.isspace`, but not the
   * separators U+001C to U+001F, which `str.isspace` counts and these reject.
   */
  predicate IsNumberSpace(c: char) {
    IsSpace(c) && !(28 <= c as int <= 31)
  }

  /** The literal `int()` and `float()` read: `s` without surrounding number whitespace. */
  function NumberStrip(s: string): (r: string)
    ensures |r| <= |s|
    ensures r == [] || (!IsNumberSpace(r[0]) && !IsNumberSpace(r[|r| - 1]))
    ensures (s == [] || (!IsNumberSpace(s[0]) && !IsNumberSpace(s[|s| - 1]))) ==> r == s
    decreases |s|
  {
    if s != [] && IsNumberSpace(s[0]) then NumberStrip(s[1..])
    else if s != [] && IsNumberSpace(s[|s| - 1]) then NumberStrip(s[..|s| - 1])
    else s
  }

  /**
   * `int(s)`: surrounding number whitespace, an optional sign, then a digit part.
   * `None` stands for the `ValueError` Python raises on anything else.
   */
  function ParseInt(s: string): (r: Option<int>)
    ensures r.Some? ==> NumberStrip(s) != []
    ensures r.Some? && r.value < 0 ==> NumberStrip(s)[0] == '-'
    ensures r.Some? && NumberStrip(s)[0] == '-' ==> r.value <= 0
  {
    var t := NumberStrip(s);
    if t != [] && IsSign(t[0]) then
      if IsDigitPart(t[1..]) then
        var v := DigitsValue(t[1..]) as int;
        Some(if t[0] == '-' then -v else v)
      else None
    else if IsDigitPart(t) then Some(DigitsValue(t))
    else None
  }

  /** The index of the first `c` in `s`, or `|s|` when there is none. */
  function IndexOf(s: string, c: char): (i: nat)
    ensures i <= |s| && (i < |s| ==> s[i] == c)
    ensures forall j :: 0 <= j < i ==> s[j] != c
  {
    if s == [] then 0 else if s[0] == c then 0 else 1 + IndexOf(s[1..], c)
  }

  lemma {:induction false} IndexOfAbsent(s: string, c: char)
    requires forall j :: 0 <= j < |s| ==> s[j] != c
    ensures IndexOf(s, c) == |s|
  {
    if s != [] {
      IndexOfAbsent(s[1..], c);
    }
  }

  lemma {:induction false} IndexOfPrefix(w: string, rest: string, c: char)
    requires IndexOf(w, c) == |w|
    ensures IndexOf(w + rest, c) == |w| + IndexOf(rest, c)
  {
    if w != [] {
      assert (w + rest)[1..] == w[1..] + rest;
      IndexOfPrefix(w[1..], rest, c);
    } else {
      assert w + rest == rest;
    }
  }

  predicate IsExponentMarker(c: char) {
    c == 'e' || c == 'E'
  }

  /** The index of the first `e` or `E` in `s`, or `|s|` when there is none. */
  function IndexOfExponent(s: string): (i: nat)
    ensures i <= |s| && (i < |s| ==> IsExponentMarker(s[i]))
    ensures forall j :: 0 <= j < i ==> !IsExponentMarker(s[j])
  {
    if s == [] then 0 else if IsExponentMarker(s[0]) then 0 else 1 + IndexOfExponent(s[1..])
  }

  lemma {:induction false} IndexOfExponentAbsent(s: string)
    requires forall j :: 0 <= j < |s| ==> !IsExponentMarker(s[j])
    ensures IndexOfExponent(s) == |s|
  {
    if s != [] {
      IndexOfExponentAbsent(s[1..]);
    }
  }

  /** `m` times ten to the power `e`, one decimal place at a time. */
  function Scale(m: real, e: int): (r: real)
    ensures m >= 0.0 ==> r >= 0.0
    decreases if e >= 0 then e else -e
  {
    if e == 0 then m
    else if e > 0 then Scale(m * 10.0, e - 1)
    else Scale(m / 10.0, e + 1)
  }

  /** The mantissa of a float literal: `digits`, `digits.`, `.digits` or `digits.digits`. */
  function ParseMantissa(t: string): (r: Option<real>)
    ensures r.Some? ==> r.value >= 0.0
  {
    var d := IndexOf(t, '.');
    if d == |t| then
      if IsDigitPart(t) then Some(DigitsValue(t) as real) else None
    else ParsePointed(t[..d], t[d + 1..])
  }

  /**
   * The mantissa `whole.fraction`, where either side, but not both, may be empty:
   * all its digits read as one integer, shifted right by the number of fraction digits.
   */
  function ParsePointed(whole: string, fraction: string): (r: Option<real>)
    ensures r.Some? ==> r.value >= 0.0
  {
    if whole == [] && fraction == [] then None
    else if whole != [] && !IsDigitPart(whole) then None
    else if fraction != [] && !IsDigitPart(fraction) then None
    else Some(Scale(DigitsValue(whole + fraction) as real, -(DigitCount(fraction) as int)))
  }

  /** The exponent after `e` or `E`: an optional sign and a digit part. */
  function ParseExponent(t: string): Option<int> {
    if t != [] && IsSign(t[0]) then
      if IsDigitPart(t[1..]) then
        var v := DigitsValue(t[1..]) as int;
        Some(if t[0] == '-' then -v else v)
      else None
    else if IsDigitPart(t) then Some(DigitsValue(t))
    else None
  }

  function ParseUnsignedFloat(t: string): (r: Option<real>)
    ensures r.Some? ==> r.value >= 0.0
  {
    var e := IndexOfExponent(t);
    match ParseMantissa(t[..e])
    case None => None
    case Some(m) =>
      if e == |t| then Some(m)
      else
        match ParseExponent(t[e + 1..])
        case None => None
        case Some(x) => Some(Scale(m, x))
  }

  /**
   * `float(s)` for finite decimal literals: surrounding number whitespace, an optional
   * sign, a mantissa and an optional exponent. `None` stands for `ValueError`.
   */
  function ParseFloat(s: string): (r: Option<real>)
    ensures r.Some? ==> NumberStrip(s) != []
    ensures r.Some? && r.value < 0.0 ==> NumberStrip(s)[0] == '-'
    ensures r.Some? && NumberStrip(s)[0] == '-' ==> r.value <= 0.0
  {
    var t := NumberStrip(s);
    var signed := t != [] && IsSign(t[0]);
    match ParseUnsignedFloat(if signed then t[1..] else t)
    case None => None
    case Some(v) => Some(if signed && t[0] == '-' then -v else v)
  }

  /** `int(x)` for a float `x`: truncation toward zero. */
  function Truncate(x: real): (i: int)
    ensures x >= 0.0 ==> 0 <= i && i as real <= x < i as real + 1.0
    ensures x < 0.0 ==> i <= 0 && i as real - 1.0 < x <= i as real
  {
    if x >= 0.0 then x.Floor else -((-x).Floor)
  }

  // ---------------------------------------------------------------------------
  // Round trips between str(n), int() and float()
  // ---------------------------------------------------------------------------

  lemma {:induction false} DecimalValue(n: nat)
    ensures IsDigitPart(Decimal(n))
    ensures DigitsValue(Decimal(n)) == n
    ensures DigitCount(Decimal(n)) == |Decimal(n)|
    decreases n
  {
    var s := Decimal(n);
    if n >= 10 {
      DecimalValue(n / 10);
      assert s[..|s| - 1] == Decimal(n / 10);
    }
  }

  /** `int` of a plain run of digits is the integer it denotes. */
  lemma ParseIntDigits(s: string)
    requires s != [] && AllDigits(s)
    ensures ParseInt(s) == Some(DigitsValue(s))
  {
    assert IsDigit(s[0]) && IsDigit(s[|s| - 1]);
    AllDigitsIsDigitPart(s);
  }

  /** `int(str(n)) == n`. */
  lemma ParseIntDecimal(n: nat)
    ensures ParseInt(Decimal(n)) == Some(n)
  {
    DecimalValue(n);
    ParseIntDigits(Decimal(n));
  }

  /** `int` of a minus sign followed by digits is the negated value. */
  lemma ParseIntNegativeDigits(s: string)
    requires s != [] && AllDigits(s)
    ensures ParseInt("-" + s) == Some(-(DigitsValue(s) as int))
  {
    var t := "-" + s;
    assert t[|t| - 1] == s[|s| - 1] && IsDigit(s[|s| - 1]);
    assert t[1..] == s;
    AllDigitsIsDigitPart(s);
  }

  /** `int('-' + str(n)) == -n`. */
  lemma ParseIntNegative(n: nat)
    ensures ParseInt("-" + Decimal(n)) == Some(-(n as int))
  {
    DecimalValue(n);
    ParseIntNegativeDigits(Decimal(n));
  }

  /**
   * `int` skips ASCII whitespace around the digits but rejects a leading
   * information separator, which `strip` would have removed.
   */
  lemma ParseIntSpaces()
    ensures ParseInt(" 7\n") == Some(7)
    ensures ParseInt([28 as char] + "7") == None
    ensures Strip([28 as char] + "7") == "7"
  {
    assert NumberStrip(" 7\n") == "7" by {
      assert NumberStrip(" 7\n") == NumberStrip("7\n") == NumberStrip("7");
    }
    assert IsDigitPart("7") && DigitsValue("7") == 7;
    var t := [28 as char] + "7";
    assert NumberStrip(t) == t && !IsSign(t[0]);
    assert t[..1] == [28 as char] && !IsDigitPart(t[..1]);
    assert !IsDigitPart(t);
    assert LStrip(t) == "7" && RStrip("7") == "7";
  }

  function Zeros(k: nat): (z: string)
    ensures |z| == k && forall i :: 0 <= i < k ==> z[i] == '0'
  {
    if k == 0 then "" else Zeros(k - 1) + "0"
  }

  lemma {:induction false} ZerosValue(k: nat, s: string)
    ensures DigitsValue(Zeros(k) + s) == DigitsValue(s)
    decreases |s|, k
  {
    var t := Zeros(k) + s;
    if s == [] {
      assert t == Zeros(k);
      if k > 0 {
        assert t[..|t| - 1] == Zeros(k - 1);
        ZerosValue(k - 1, "");
        assert Zeros(k - 1) + "" == Zeros(k - 1);
      }
    } else {
      assert t[..|t| - 1] == Zeros(k) + s[..|s| - 1];
      ZerosValue(k, s[..|s| - 1]);
    }
  }

  /** Leading zeros do not change `int()`: `int('007') == 7`. */
  lemma ParseIntLeadingZeros(k: nat, n: nat)
    ensures ParseInt(Zeros(k) + Decimal(n)) == Some(n)
  {
    var d := Decimal(n);
    var s := Zeros(k) + d;
    assert AllDigits(s) by {
      forall i | 0 <= i < |s| ensures IsDigit(s[i]) {
        if i >= k { assert s[i] == d[i - k]; }
      }
    }
    ParseIntDigits(s);
    DecimalValue(n);
    ZerosValue(k, d);
  }

  /** An unsigned literal without surrounding whitespace is parsed as it stands. */
  lemma FloatUnsigned(t: string)
    requires t != [] && !IsSpace(t[0]) && !IsSpace(t[|t| - 1]) && !IsSign(t[0])
    ensures ParseFloat(t) == ParseUnsignedFloat(t)
  {
  }

  /** Without an exponent marker, a float literal is just its mantissa. */
  lemma UnsignedFloatWithoutExponent(t: string)
    requires forall j :: 0 <= j < |t| ==> !IsExponentMarker(t[j])
    ensures ParseUnsignedFloat(t) == ParseMantissa(t)
  {
    IndexOfExponentAbsent(t);
    assert t[..|t|] == t;
  }

  /** A plain run of digits as a mantissa is the integer it denotes. */
  lemma MantissaOfDigits(t: string)
    requires IsDigitPart(t) && IndexOf(t, '.') == |t|
    ensures ParseMantissa(t) == Some(DigitsValue(t) as real)
  {
  }

  /** `float` of a plain run of digits is the integer it denotes. */
  lemma ParseFloatDigits(s: string)
    requires s != [] && AllDigits(s)
    ensures ParseFloat(s) == Some(DigitsValue(s) as real)
  {
    assert forall j :: 0 <= j < |s| ==> !IsExponentMarker(s[j]) && s[j] != '.' by {
      forall j | 0 <= j < |s| ensures IsDigit(s[j]) { }
    }
    FloatUnsigned(s);
    UnsignedFloatWithoutExponent(s);
    IndexOfAbsent(s, '.');
    AllDigitsIsDigitPart(s);
    MantissaOfDigits(s);
  }

  /** `float(str(n)) == n`. */
  lemma ParseFloatDecimal(n: nat)
    ensures ParseFloat(Decimal(n)) == Some(n as real)
  {
    DecimalValue(n);
    ParseFloatDigits(Decimal(n));
  }

  /** The number of digits of a plain run of digits is its length. */
  lemma {:induction false} DigitCountOfDigits(s: string)
    requires AllDigits(s)
    ensures DigitCount(s) == |s|
  {
    if s != [] {
      DigitCountOfDigits(s[..|s| - 1]);
    }
  }

  function Pow10(k: nat): (p: real)
    ensures p >= 1.0
  {
    if k == 0 then 1.0 else 10.0 * Pow10(k - 1)
  }

  lemma DivideTwice(m: real, c: real, p: real)
    requires c > 0.0 && p > 0.0
    ensures (m / c) / p == m / (c * p)
  {
    var q := m / c;
    var r := q / p;
    assert q * c == m;
    assert r * p == q;
    assert r * (c * p) == (r * p) * c;
  }

  /** Shifting right by `k` decimal places divides by ten to the `k`. */
  lemma {:induction false} ScaleDown(m: real, k: nat)
    ensures Scale(m, -(k as int)) == m / Pow10(k)
    decreases k
  {
    if k > 0 {
      assert Scale(m, -(k as int)) == Scale(m / 10.0, -((k - 1) as int));
      ScaleDown(m / 10.0, k - 1);
      DivideTwice(m, 10.0, Pow10(k - 1));
    }
  }

  /** The text `w.f` of two digit runs: where its point is, and what lies on each side. */
  lemma PointedLiteral(w: string, f: string)
    requires AllDigits(w) && AllDigits(f)
    ensures var s := w + "." + f;
      && |s| == |w| + 1 + |f| && s[..|w|] == w && s[|w| + 1..] == f
      && IndexOf(s, '.') == |w|
      && forall j :: 0 <= j < |s| ==> IsDigit(s[j]) || s[j] == '.'
  {
    var s := w + "." + f;
    forall j | 0 <= j < |s| ensures IsDigit(s[j]) || s[j] == '.' {
      if j < |w| { assert s[j] == w[j]; }
      else if j > |w| { assert s[j] == f[j - |w| - 1]; }
    }
    IndexOfAbsent(w, '.');
    IndexOfPrefix(w, "." + f, '.');
    assert s == w + ("." + f);
  }

  /** Two digit runs around the point read as all their digits over ten to the fraction's length. */
  lemma PointedDigits(w: string, f: string)
    requires AllDigits(w) && AllDigits(f) && (w != [] || f != [])
    ensures ParsePointed(w, f) == Some(DigitsValue(w + f) as real / Pow10(|f|))
  {
    if w != [] { AllDigitsIsDigitPart(w); }
    if f != [] { AllDigitsIsDigitPart(f); }
    DigitCountOfDigits(f);
    ScaleDown(DigitsValue(w + f) as real, |f|);
  }

  /** The mantissa `w.f` is all its digits shifted right by the fraction's length. */
  lemma MantissaFraction(w: string, f: string)
    requires AllDigits(w) && AllDigits(f) && (w != [] || f != [])
    ensures ParseMantissa(w + "." + f) == Some(DigitsValue(w + f) as real / Pow10(|f|))
  {
    PointedLiteral(w, f);
    PointedDigits(w, f);
  }

  /**
   * `float` of a literal with a decimal point, such as the coordinates of a
   * label line: all its digits read as one integer, divided by ten to the
   * number of fraction digits (`float('12.5') == 125 / 10`).
   */
  lemma ParseFloatFraction(w: string, f: string)
    requires AllDigits(w) && AllDigits(f) && (w != [] || f != [])
    ensures ParseFloat(w + "." + f) == Some(DigitsValue(w + f) as real / Pow10(|f|))
  {
    var s := w + "." + f;
    PointedLiteral(w, f);
    assert !IsSign(s[0]) && !IsSpace(s[0]) && !IsSpace(s[|s| - 1]);
    FloatUnsigned(s);
    assert forall j :: 0 <= j < |s| ==> !IsExponentMarker(s[j]);
    UnsignedFloatWithoutExponent(s);
    MantissaFraction(w, f);
  }

  // ---------------------------------------------------------------------------
  // What int() and float() read and what they reject
  // ---------------------------------------------------------------------------

  predicate AllNumberSpace(s: string) {
    forall j :: 0 <= j < |s| ==> IsNumberSpace(s[j])
  }

  /** A slice of `s[1..]` between number whitespace, seen in `s` after a leading number space. */
  lemma SliceAfterHead(s: string, a: nat, b: nat)
    requires s != [] && IsNumberSpace(s[0]) && a <= b <= |s| - 1
    requires AllNumberSpace(s[1..][..a]) && AllNumberSpace(s[1..][b..])
    ensures s[1..][a..b] == s[a + 1..b + 1] && AllNumberSpace(s[..a + 1]) && AllNumberSpace(s[b + 1..])
  {
    assert s[..a + 1] == [s[0]] + s[1..][..a];
    assert s[b + 1..] == s[1..][b..];
  }

  /** A slice of `s` without its last character between number whitespace, seen in `s` before a final number space. */
  lemma SliceBeforeLast(s: string, a: nat, b: nat)
    requires s != [] && IsNumberSpace(s[|s| - 1]) && a <= b <= |s| - 1
    requires AllNumberSpace(s[..|s| - 1][..a]) && AllNumberSpace(s[..|s| - 1][b..])
    ensures s[..|s| - 1][a..b] == s[a..b] && AllNumberSpace(s[..a]) && AllNumberSpace(s[b..])
  {
    assert s[..a] == s[..|s| - 1][..a];
    assert s[b..] == s[..|s| - 1][b..] + [s[|s| - 1]];
  }

  /** Where the literal `int()` and `float()` read begins and ends in `s`. */
  lemma {:induction false} NumberStripBounds(s: string) returns (a: nat, b: nat)
    ensures a <= b <= |s| && NumberStrip(s) == s[a..b] && AllNumberSpace(s[..a]) && AllNumberSpace(s[b..])
    decreases |s|
  {
    if s != [] && IsNumberSpace(s[0]) {
      var a', b' := NumberStripBounds(s[1..]);
      SliceAfterHead(s, a', b');
      a, b := a' + 1, b' + 1;
    } else if s != [] && IsNumberSpace(s[|s| - 1]) {
      a, b := NumberStripBounds(s[..|s| - 1]);
      SliceBeforeLast(s, a, b);
    } else {
      a, b := 0, |s|;
      assert s[..0] == [] && s[|s|..] == [];
    }
  }

  /**
   * What `int()` and `float()` remove is number whitespace only: the literal
   * they read is a slice of `s` between two runs of it.
   */
  lemma NumberStripIsSlice(s: string)
    ensures exists a, b :: 0 <= a <= b <= |s| && NumberStrip(s) == s[a..b] && AllNumberSpace(s[..a]) && AllNumberSpace(s[b..])
  {
    var a, b := NumberStripBounds(s);
  }

  predicate IsDigitPartChar(c: char) {
    IsDigit(c) || c == '_'
  }

  /** A character that may appear in a finite float literal: a digit, `_`, `.`, `e`, `E` or a sign. */
  predicate IsFloatChar(c: char) {
    IsDigitPartChar(c) || c == '.' || IsExponentMarker(c) || IsSign(c)
  }

  /** A digit part holds digits and underscores only. */
  lemma {:induction false} DigitPartChars(s: string)
    requires IsDigitPart(s)
    ensures forall j :: 0 <= j < |s| ==> IsDigitPartChar(s[j])
    decreases |s|
  {
    var n := |s|;
    if n > 1 {
      if IsDigitPart(s[..n - 1]) {
        DigitPartChars(s[..n - 1]);
        assert forall j :: 0 <= j < n - 1 ==> s[..n - 1][j] == s[j];
      } else {
        DigitPartChars(s[..n - 2]);
        assert forall j :: 0 <= j < n - 2 ==> s[..n - 2][j] == s[j];
      }
    }
  }

  /**
   * `int()` accepts a literal of digits and underscores, with at most a sign
   * in front: any other character, such as a letter, raises.
   */
  lemma ParseIntAlphabet(s: string)
    ensures ParseInt(s).Some? ==> forall j :: 0 <= j < |NumberStrip(s)| ==>
      IsDigitPartChar(NumberStrip(s)[j]) || (j == 0 && IsSign(NumberStrip(s)[j]))
  {
    var t := NumberStrip(s);
    if ParseInt(s).Some? {
      if IsSign(t[0]) {
        DigitPartChars(t[1..]);
        assert forall j :: 1 <= j < |t| ==> t[j] == t[1..][j - 1];
      } else {
        DigitPartChars(t);
      }
    }
  }

  /** A mantissa holds digits, underscores and its point. */
  lemma MantissaChars(t: string)
    ensures ParseMantissa(t).Some? ==> forall j :: 0 <= j < |t| ==> IsDigitPartChar(t[j]) || t[j] == '.'
  {
    if ParseMantissa(t).Some? {
      var d := IndexOf(t, '.');
      if d == |t| {
        DigitPartChars(t);
      } else {
        var w, f := t[..d], t[d + 1..];
        if w != [] { DigitPartChars(w); }
        if f != [] { DigitPartChars(f); }
        forall j | 0 <= j < |t| ensures IsDigitPartChar(t[j]) || t[j] == '.' {
          if j < d { assert t[j] == w[j]; }
          else if j > d { assert t[j] == f[j - d - 1]; }
        }
      }
    }
  }

  /** An exponent holds digits and underscores, with at most a sign in front. */
  lemma ExponentChars(t: string)
    ensures ParseExponent(t).Some? ==> forall j :: 0 <= j < |t| ==> IsDigitPartChar(t[j]) || (j == 0 && IsSign(t[j]))
  {
    if ParseExponent(t).Some? {
      if IsSign(t[0]) {
        DigitPartChars(t[1..]);
        assert forall j :: 1 <= j < |t| ==> t[j] == t[1..][j - 1];
      } else {
        DigitPartChars(t);
      }
    }
  }

  lemma UnsignedFloatChars(t: string)
    ensures ParseUnsignedFloat(t).Some? ==> forall j :: 0 <= j < |t| ==> IsFloatChar(t[j])
  {
    if ParseUnsignedFloat(t).Some? {
      var e := IndexOfExponent(t);
      var m := t[..e];
      MantissaChars(m);
      assert forall j :: 0 <= j < e ==> t[j] == m[j];
      if e < |t| {
        var x := t[e + 1..];
        ExponentChars(x);
        assert forall j :: e < j < |t| ==> t[j] == x[j - e - 1];
      }
    }
  }

  /**
   * `float()` accepts a literal of digits, underscores, points, exponent
   * markers and signs only: any other character, such as a letter, raises.
   */
  lemma ParseFloatAlphabet(s: string)
    ensures ParseFloat(s).Some? ==> forall j :: 0 <= j < |NumberStrip(s)| ==> IsFloatChar(NumberStrip(s)[j])
  {
    var t := NumberStrip(s);
    if ParseFloat(s).Some? {
      if t != [] && IsSign(t[0]) {
        UnsignedFloatChars(t[1..]);
        assert forall j :: 1 <= j < |t| ==> t[j] == t[1..][j - 1];
      } else {
        UnsignedFloatChars(t);
      }
    }
  }

  /** `int('img1')` raises. */
  lemma ParseIntRejectsWord()
    ensures ParseInt("img1") == None
  {
    var t := "img1";
    assert !IsNumberSpace(t[0]) && !IsNumberSpace(t[|t| - 1]);
    ParseIntAlphabet(t);
    assert !IsDigitPartChar(t[0]) && !IsSign(t[0]);
  }

  /** `float('abc')` raises. */
  lemma ParseFloatRejectsWord()
    ensures ParseFloat("abc") == None
  {
    var t := "abc";
    assert !IsNumberSpace(t[0]) && !IsNumberSpace(t[|t| - 1]);
    ParseFloatAlphabet(t);
    assert !IsFloatChar(t[0]);
  }
}
