/** The string operations the Python and JavaScript code relies on: strip/trim,
    split on one character, upper-casing, slicing, substring tests, and the
    error Python raises when a split does not unpack into two names. */
module Text {
  import opened Wrappers
  import opened Sorting

  /** ASCII whitespace: what `str.strip`, `\s` and `String.prototype.trim` remove. */
  predicate IsSpace(c: char) {
    c == ' ' || c == '\t' || c == '\n' || c == '\r' || c == '\U{0B}' || c == '\U{0C}'
  }

  predicate IsDigit(c: char) {
    '0' <= c <= '9'
  }

  /** A non-empty run of decimal digits (`\d+`). */
  predicate IsDigits(s: string) {
    |s| > 0 && forall i :: 0 <= i < |s| ==> IsDigit(s[i])
  }

  predicate AllSpace(s: string) {
    forall i :: 0 <= i < |s| ==> IsSpace(s[i])
  }

  /** `r` is a slice of `s` with nothing but whitespace before and after it. */
  predicate Enquadrada(r: string, s: string) {
    exists i :: 0 <= i <= |s| - |r| && r == s[i..i + |r|] && AllSpace(s[..i]) && AllSpace(s[i + |r|..])
  }

  function TrimStart(s: string): (r: string)
    ensures |r| <= |s| && r == s[|s| - |r|..]
    ensures r == [] || !IsSpace(r[0])
    ensures AllSpace(s[..|s| - |r|])
  {
    if |s| > 0 && IsSpace(s[0]) then
      var r := TrimStart(s[1..]);
      assert s[1..][..|s| - 1 - |r|] == s[1..|s| - |r|];
      r
    else s
  }

  function TrimEnd(s: string): (r: string)
    ensures |r| <= |s| && r == s[..|r|]
    ensures r == [] || !IsSpace(r[|r| - 1])
    ensures AllSpace(s[|r|..])
  {
    if |s| > 0 && IsSpace(s[|s| - 1]) then
      var r := TrimEnd(s[..|s| - 1]);
      assert s[..|s| - 1][|r|..] + [s[|s| - 1]] == s[|r|..];
      r
    else s
  }

  /** Python's `str.strip()` / JavaScript's `trim()`: the longest slice of `s` that neither
      starts nor ends with whitespace, obtained by removing whitespace only. */
  function Strip(s: string): (r: string)
    ensures |r| <= |s|
    ensures r == [] || (!IsSpace(r[0]) && !IsSpace(r[|r| - 1]))
    ensures r == [] <==> AllSpace(s)
    ensures Enquadrada(r, s)
  {
    var t := TrimStart(s);
    var r := TrimEnd(t);
    BetweenSpaces(s, t, r);
    r
  }

  /** Cutting whitespace from the front of `s` and then from the back leaves a slice of `s`
      framed by whitespace, empty exactly when `s` is all whitespace. */
  lemma BetweenSpaces(s: string, t: string, r: string)
    requires |t| <= |s| && t == s[|s| - |t|..] && AllSpace(s[..|s| - |t|])
    requires t == [] || !IsSpace(t[0])
    requires |r| <= |t| && r == t[..|r|] && AllSpace(t[|r|..])
    ensures r == [] <==> AllSpace(s)
    ensures Enquadrada(r, s)
  {
    var i := |s| - |t|;
    if r == [] {
      assert s == s[..i] + t[|r|..];
    } else {
      assert r[0] == t[0];
    }
    assert r == s[i..i + |r|] && s[i + |r|..] == t[|r|..];
  }

  /** A text that neither starts nor ends with whitespace is its own strip. */
  lemma StripUnchanged(s: string)
    requires s != [] && !IsSpace(s[0]) && !IsSpace(s[|s| - 1])
    ensures Strip(s) == s
  {
    assert TrimStart(s) == s;
  }

  /** Position of the first occurrence of `c`. */
  function IndexOf(s: string, c: char): (i: nat)
    requires c in s
    ensures i < |s| && s[i] == c && c !in s[..i]
  {
    if s[0] == c then 0 else 1 + IndexOf(s[1..], c)
  }

  /** Number of occurrences of `c` in `s`. */
  function Count(s: string, c: char): nat {
    if s == [] then 0 else (if s[0] == c then 1 else 0) + Count(s[1..], c)
  }

  lemma {:induction false} CountAppend(a: string, b: string, c: char)
    ensures Count(a + b, c) == Count(a, c) + Count(b, c)
  {
    if a != [] {
      assert (a + b)[0] == a[0] && (a + b)[1..] == a[1..] + b;
      CountAppend(a[1..], b, c);
    } else {
      assert a + b == b;
    }
  }

  lemma {:induction false} CountAbsent(s: string, c: char)
    requires c !in s
    ensures Count(s, c) == 0
  {
    if s != [] {
      CountAbsent(s[1..], c);
    }
  }

  /** The pieces joined back with the separator. */
  function Join(parts: seq<string>, sep: char): string {
    if |parts| == 0 then ""
    else if |parts| == 1 then parts[0]
    else parts[0] + [sep] + Join(parts[1..], sep)
  }

  /** Python's `s.split(sep)` for a one-character separator: one more piece than there are
      separators, and no piece contains the separator. */
  function Split(s: string, sep: char): (parts: seq<string>)
    ensures |parts| > 0
    ensures forall i :: 0 <= i < |parts| ==> sep !in parts[i]
    decreases |s|
  {
    if sep !in s then
      [s]
    else
      var i := IndexOf(s, sep);
      var rest := Split(s[i + 1..], sep);
      assert ([s[..i]] + rest)[1..] == rest;
      [s[..i]] + rest
  }

  /** A split has one more piece than the text has separators. */
  lemma {:induction false} SplitCount(s: string, sep: char)
    ensures |Split(s, sep)| == Count(s, sep) + 1
    decreases |s|
  {
    if sep !in s {
      CountAbsent(s, sep);
    } else {
      var i := IndexOf(s, sep);
      SplitCount(s[i + 1..], sep);
      assert s == s[..i] + ([sep] + s[i + 1..]);
      CountAbsent(s[..i], sep);
      CountAppend(s[..i], [sep] + s[i + 1..], sep);
      assert ([sep] + s[i + 1..])[1..] == s[i + 1..];
    }
  }

  /** The first piece of a split is the text before the first separator. */
  lemma SplitFirst(s: string, sep: char)
    requires sep in s
    ensures Split(s, sep) == [s[..IndexOf(s, sep)]] + Split(s[IndexOf(s, sep) + 1..], sep)
  {
  }

  /** Joining the pieces of a split with the separator gives the text back. */
  lemma {:induction false} JoinSplit(s: string, sep: char)
    ensures Join(Split(s, sep), sep) == s
    decreases |s|
  {
    if sep in s {
      var i := IndexOf(s, sep);
      var rest := Split(s[i + 1..], sep);
      SplitFirst(s, sep);
      JoinSplit(s[i + 1..], sep);
      var parts := [s[..i]] + rest;
      assert parts[0] == s[..i] && parts[1..] == rest && |parts| >= 2;
      assert Join(parts, sep) == s[..i] + [sep] + Join(rest, sep);
      assert s == s[..i] + [sep] + s[i + 1..];
    } else {
      assert Split(s, sep) == [s];
    }
  }

  lemma {:induction false} IndexOfAfterPrefix(a: string, c: char, b: string)
    requires c !in a
    ensures c in a + [c] + b && IndexOf(a + [c] + b, c) == |a|
    decreases |a|
  {
    var s := a + [c] + b;
    assert s[|a|] == c;
    if a != [] {
      assert s[1..] == a[1..] + [c] + b;
      IndexOfAfterPrefix(a[1..], c, b);
    }
  }

  /** Splitting undoes joining, provided no piece contains the separator: together with
      `JoinSplit` the two are inverse. */
  lemma {:induction false} SplitJoin(parts: seq<string>, sep: char)
    requires |parts| >= 1
    requires forall i :: 0 <= i < |parts| ==> sep !in parts[i]
    ensures Split(Join(parts, sep), sep) == parts
    decreases |parts|
  {
    if |parts| > 1 {
      var rest := Join(parts[1..], sep);
      assert Join(parts, sep) == parts[0] + [sep] + rest;
      SplitAfterPrefix(parts[0], sep, rest);
      SplitJoin(parts[1..], sep);
      assert parts == [parts[0]] + parts[1..];
    }
  }

  /** A first piece without the separator is split off as it is. */
  lemma SplitAfterPrefix(a: string, c: char, b: string)
    requires c !in a
    ensures Split(a + [c] + b, c) == [a] + Split(b, c)
  {
    var s := a + [c] + b;
    IndexOfAfterPrefix(a, c, b);
    SplitFirst(s, c);
    assert s[..|a|] == a;
    assert s[|a| + 1..] == b;
  }

  /** The two-piece case of `SplitJoin`. */
  lemma SplitTwo(a: string, b: string, sep: char)
    requires sep !in a && sep !in b
    ensures Split(a + [sep] + b, sep) == [a, b]
  {
    var parts := [a, b];
    assert parts[1..] == [b];
    assert Join(parts, sep) == a + [sep] + b;
    SplitJoin(parts, sep);
  }

  /** The three-piece case of `SplitJoin`. */
  lemma SplitThree(a: string, b: string, c: string, sep: char)
    requires sep !in a && sep !in b && sep !in c
    ensures Split(a + [sep] + b + [sep] + c, sep) == [a, b, c]
  {
    var parts := [a, b, c];
    assert parts[1..] == [b, c] && parts[1..][1..] == [c];
    assert Join(parts[1..], sep) == b + [sep] + c;
    assert Join(parts, sep) == a + [sep] + (b + [sep] + c);
    assert a + [sep] + (b + [sep] + c) == a + [sep] + b + [sep] + c;
    SplitJoin(parts, sep);
  }

  /** The text after the last occurrence of `sep` (all of `s` when there is none), read
      from the end of the text. */
  function LastSegment(s: string, sep: char): (r: string)
    ensures |r| <= |s|
  {
    if s == [] || s[|s| - 1] == sep then [] else LastSegment(s[..|s| - 1], sep) + [s[|s| - 1]]
  }

  /** The last segment holds no separator. */
  lemma {:induction false} LastSegmentNoSeparator(s: string, sep: char)
    ensures sep !in LastSegment(s, sep)
  {
    if s != [] && s[|s| - 1] != sep {
      LastSegmentNoSeparator(s[..|s| - 1], sep);
    }
  }

  /** The last segment is a suffix of the text, preceded by a separator unless it is the
      whole text. */
  lemma {:induction false} LastSegmentSuffix(s: string, sep: char)
    ensures var r := LastSegment(s, sep);
      && r == s[|s| - |r|..]
      && (|r| < |s| ==> s[|s| - |r| - 1] == sep)
  {
    if s != [] && s[|s| - 1] != sep {
      var p := s[..|s| - 1];
      LastSegmentSuffix(p, sep);
      SuffixSnoc(s, LastSegment(p, sep));
    }
  }

  /** A suffix `q` of all but the last character of `s`, followed by that character, is a
      suffix of `s`. */
  lemma SuffixSnoc(s: string, q: string)
    requires s != [] && |q| < |s| && q == s[..|s| - 1][|s| - 1 - |q|..]
    ensures s[|s| - |q| - 1..] == q + [s[|s| - 1]]
    ensures |q| < |s| - 1 ==> s[|s| - |q| - 2] == s[..|s| - 1][|s| - |q| - 2]
  {
    assert s[|s| - |q| - 1..] == s[|s| - 1 - |q|..|s| - 1] + [s[|s| - 1]];
  }

  /** Without a separator the last segment is the whole text. */
  lemma {:induction false} LastSegmentWhole(s: string, sep: char)
    requires sep !in s
    ensures LastSegment(s, sep) == s
  {
    if s != [] {
      LastSegmentWhole(s[..|s| - 1], sep);
      assert s[..|s| - 1] + [s[|s| - 1]] == s;
    }
  }

  /** What precedes a separator does not change the last segment. */
  lemma {:induction false} LastSegmentAfter(s: string, i: nat, sep: char)
    requires i < |s| && s[i] == sep
    ensures LastSegment(s, sep) == LastSegment(s[i + 1..], sep)
  {
    var n := |s|;
    if n > i + 1 && s[n - 1] != sep {
      var p := s[..n - 1];
      LastSegmentAfter(p, i, sep);
      assert s[i + 1..][..n - i - 2] == p[i + 1..];
    }
  }

  /** `s.split(sep)[-1]` is the text after the last separator. */
  lemma {:induction false} SplitLastIsLastSegment(s: string, sep: char)
    ensures Split(s, sep)[|Split(s, sep)| - 1] == LastSegment(s, sep)
    decreases |s|
  {
    if sep in s {
      var i := IndexOf(s, sep);
      SplitFirst(s, sep);
      SplitLastIsLastSegment(s[i + 1..], sep);
      LastSegmentAfter(s, i, sep);
      LastOfCons(Split(s, sep), s[..i], Split(s[i + 1..], sep), LastSegment(s, sep));
    } else {
      SplitLastWhole(s, sep);
    }
  }

  /** Without a separator, the last piece of the split is the whole text. */
  lemma SplitLastWhole(s: string, sep: char)
    requires sep !in s
    ensures Split(s, sep)[|Split(s, sep)| - 1] == LastSegment(s, sep) == s
  {
    assert Split(s, sep) == [s];
    LastSegmentWhole(s, sep);
  }

  lemma LastOfCons<T>(ys: seq<T>, x: T, xs: seq<T>, z: T)
    requires xs != [] && ys == [x] + xs && xs[|xs| - 1] == z
    ensures ys[|ys| - 1] == z
  {
  }

  /** Python's `a, b = parts`: fine for exactly two pieces, otherwise the ValueError
      Python raises, with its message. */
  function Unpack2(parts: seq<string>): (r: Result<(string, string)>)
    ensures r.Ok? <==> |parts| == 2
    ensures r.Ok? ==> r.value == (parts[0], parts[1])
  {
    if |parts| == 2 then Ok((parts[0], parts[1]))
    else if |parts| < 2 then Err("not enough values to unpack (expected 2, got " + NatToString(|parts|) + ")")
    else Err("too many values to unpack (expected 2)")
  }

  /** `a, b = s.split(sep)` succeeds exactly when `sep` occurs once in `s`, and then the two
      names hold the text before and after it. */
  lemma SplitUnpacksIffOneSeparator(s: string, sep: char)
    ensures Unpack2(Split(s, sep)).Ok? <==> Count(s, sep) == 1
    ensures Unpack2(Split(s, sep)).Ok? ==>
      var (a, b) := Unpack2(Split(s, sep)).value;
      s == a + [sep] + b && sep !in a && sep !in b
  {
    var parts := Split(s, sep);
    SplitCount(s, sep);
    if |parts| == 2 {
      JoinSplit(s, sep);
      assert Join(parts, sep) == parts[0] + [sep] + Join(parts[1..], sep);
      assert Join(parts[1..], sep) == parts[1];
    }
  }

  function DigitChar(d: nat): (c: char)
    requires d < 10
    ensures IsDigit(c) && c as int - '0' as int == d
  {
    ('0' as int + d) as char
  }

  /** Decimal rendering of a natural number, as `str(n)` prints it. */
  function NatToString(n: nat): (r: string)
    ensures IsDigits(r)
    ensures r[0] == '0' ==> n == 0
  {
    if n < 10 then [DigitChar(n)] else NatToString(n / 10) + [DigitChar(n % 10)]
  }

  /** Value of a run of decimal digits. */
  function DigitsValue(s: string): nat
    requires forall i :: 0 <= i < |s| ==> IsDigit(s[i])
  {
    if s == [] then 0
    else
      assert IsDigit(s[|s| - 1]);
      DigitsValue(s[..|s| - 1]) * 10 + (s[|s| - 1] as int - '0' as int)
  }

  function UpperChar(c: char): char {
    if 'a' <= c <= 'z' then (c as int - 'a' as int + 'A' as int) as char else c
  }

  /** Reading back a rendered number gives the number. */
  lemma {:induction false} DigitsValueOfNatToString(n: nat)
    ensures DigitsValue(NatToString(n)) == n
  {
    if n >= 10 {
      var s := NatToString(n);
      assert s[..|s| - 1] == NatToString(n / 10);
      DigitsValueOfNatToString(n / 10);
    }
  }

  /** Leading zeros do not change the value of a digit string. */
  lemma {:induction false} DigitsValueLeadingZeros(z: string, s: string)
    requires forall i :: 0 <= i < |z| ==> z[i] == '0'
    requires forall i :: 0 <= i < |s| ==> IsDigit(s[i])
    ensures DigitsValue(z + s) == DigitsValue(s)
    decreases |s|, |z|
  {
    if s != [] {
      assert (z + s)[..|z + s| - 1] == z + s[..|s| - 1];
      DigitsValueLeadingZeros(z, s[..|s| - 1]);
    } else if z != [] {
      assert z + s == z;
      assert z[..|z| - 1] + [] == z[..|z| - 1];
      DigitsValueLeadingZeros(z[..|z| - 1], []);
    }
  }

  function Pow10(w: nat): nat {
    if w == 0 then 1 else 10 * Pow10(w - 1)
  }

  /** A number below 10^w has at most w digits. */
  lemma {:induction false} NatToStringLength(n: nat, w: nat)
    requires 1 <= w && n < Pow10(w)
    ensures |NatToString(n)| <= w
  {
    if n >= 10 {
      NatToStringLength(n / 10, w - 1);
    }
  }

  predicate IsLower(c: char) {
    'a' <= c <= 'z'
  }

  /** `str.upper()` on ASCII letters: no lower-case letter is left, every character that is
      not one is kept, and each lower-case letter becomes its capital. */
  function Upper(s: string): (r: string)
    ensures |r| == |s|
    ensures forall i :: 0 <= i < |r| ==> !IsLower(r[i])
    ensures forall i :: 0 <= i < |s| && !IsLower(s[i]) ==> r[i] == s[i]
    ensures forall i :: 0 <= i < |s| ==> r[i] == UpperChar(s[i])
  {
    seq(|s|, i requires 0 <= i < |s| => UpperChar(s[i]))
  }

  /** Upper-casing twice is upper-casing once. */
  lemma UpperIdempotent(s: string)
    ensures Upper(Upper(s)) == Upper(s)
  {
    var r := Upper(s);
    assert forall i :: 0 <= i < |r| ==> Upper(r)[i] == r[i];
  }

  /** The longest prefix of `s` whose characters all satisfy `p`: what a greedy `\d+` or
      `\s*` consumes. */
  function Run(s: string, p: char -> bool): (r: string)
    ensures r <= s
    ensures forall k :: 0 <= k < |r| ==> p(r[k])
    ensures |r| < |s| ==> !p(s[|r|])
  {
    if s != [] && p(s[0]) then [s[0]] + Run(s[1..], p) else []
  }

  /** A prefix made of `p`-characters and followed by a character that is not is exactly
      the run. */
  lemma {:induction false} RunIs(u: string, v: string, p: char -> bool)
    requires forall k :: 0 <= k < |u| ==> p(u[k])
    requires v == [] || !p(v[0])
    ensures Run(u + v, p) == u
    decreases |u|
  {
    if u == [] {
      assert u + v == v;
    } else {
      assert (u + v)[1..] == u[1..] + v;
      RunIs(u[1..], v, p);
    }
  }

  /** A prefix made of `p`-characters is part of the run. */
  lemma {:induction false} RunCovers(u: string, v: string, p: char -> bool)
    requires forall k :: 0 <= k < |u| ==> p(u[k])
    ensures u <= Run(u + v, p)
    decreases |u|
  {
    if u != [] {
      assert (u + v)[1..] == u[1..] + v;
      RunCovers(u[1..], v, p);
    }
  }

  /** Python's `sub in s`. */
  predicate Contains(s: string, sub: string) {
    sub <= s || (|s| > 0 && Contains(s[1..], sub))
  }

  lemma {:induction false} ContainsMiddle(a: string, b: string, c: string)
    ensures Contains(a + b + c, b)
    decreases |a|
  {
    if a != [] {
      assert (a + b + c)[1..] == a[1..] + b + c;
      ContainsMiddle(a[1..], b, c);
    } else {
      assert a + b + c == b + c;
    }
  }

  /** Stated once so that proofs about long literal texts need not re-derive it. */
  lemma ConcatAssoc(a: string, b: string, c: string)
    ensures (a + b) + c == a + (b + c)
  {
  }

  lemma SeqAssoc<T>(a: seq<T>, b: seq<T>, c: seq<T>)
    ensures (a + b) + c == a + (b + c)
  {
  }

  lemma {:induction false} ContainsAppendLeft(a: string, b: string, sub: string)
    requires Contains(b, sub)
    ensures Contains(a + b, sub)
    decreases |a|
  {
    if a != [] {
      assert (a + b)[1..] == a[1..] + b;
      ContainsAppendLeft(a[1..], b, sub);
    } else {
      assert a + b == b;
    }
  }

  lemma {:induction false} ContainsAppendRight(a: string, b: string, sub: string)
    requires Contains(a, sub)
    ensures Contains(a + b, sub)
    decreases |a|
  {
    if sub <= a {
      assert sub <= a + b;
    } else {
      assert (a + b)[1..] == a[1..] + b;
      ContainsAppendRight(a[1..], b, sub);
    }
  }

  /** `sep.join(parts)` for a separator of any length. */
  function JoinWith(parts: seq<string>, sep: string): string {
    if |parts| == 0 then ""
    else if |parts| == 1 then parts[0]
    else parts[0] + sep + JoinWith(parts[1..], sep)
  }

  /** The code points of `s`, the sequence Python compares strings by. */
  function CodePoints(s: string): (r: seq<int>)
    ensures |r| == |s|
    ensures forall i :: 0 <= i < |s| ==> r[i] == s[i] as int
  {
    seq(|s|, i requires 0 <= i < |s| => s[i] as int)
  }

  /** Python's `a <= b` on `str`: `a` is a prefix of `b`, or at the first position where
      they differ `a` has the smaller code point. */
  predicate StrLe(a: string, b: string) {
    a <= b || exists k :: 0 <= k < |a| && k < |b| && a[..k] == b[..k] && a[k] < b[k]
  }

  /** Distinct strings have distinct code point sequences. */
  lemma CodePointsInjective(a: string, b: string)
    requires CodePoints(a) == CodePoints(b)
    ensures a == b
  {
    assert forall i :: 0 <= i < |a| ==> a[i] as int == CodePoints(b)[i];
  }

  /** Comparing code point sequences lexicographically is Python's string order. */
  lemma {:induction false} CodePointsOrder(a: string, b: string)
    ensures KeyLe(CodePoints(a), CodePoints(b)) <==> StrLe(a, b)
    decreases |a|
  {
    if a == [] {
      assert a <= b;
    } else if b != [] {
      assert CodePoints(a)[1..] == CodePoints(a[1..]);
      assert CodePoints(b)[1..] == CodePoints(b[1..]);
      CodePointsOrder(a[1..], b[1..]);
      StrLeCons(a, b);
    }
  }

  /** `StrLe` decided by the first characters, then by the rest. */
  lemma StrLeCons(a: string, b: string)
    requires a != [] && b != []
    ensures StrLe(a, b) <==> a[0] < b[0] || (a[0] == b[0] && StrLe(a[1..], b[1..]))
  {
    if a[0] < b[0] {
      assert a[..0] == b[..0];
    } else if a[0] == b[0] {
      if StrLe(a[1..], b[1..]) {
        if !(a[1..] <= b[1..]) {
          var k :| 0 <= k < |a[1..]| && k < |b[1..]| && a[1..][..k] == b[1..][..k] && a[1..][k] < b[1..][k];
          assert a[..k + 1] == [a[0]] + a[1..][..k];
          assert b[..k + 1] == [b[0]] + b[1..][..k];
        }
      }
      if StrLe(a, b) {
        if !(a <= b) {
          var k :| 0 <= k < |a| && k < |b| && a[..k] == b[..k] && a[k] < b[k];
          assert k > 0;
          assert a[1..][..k - 1] == a[..k][1..];
          assert b[1..][..k - 1] == b[..k][1..];
        }
      }
    } else {
      if exists k :: 0 <= k < |a| && k < |b| && a[..k] == b[..k] && a[k] < b[k] {
        var k :| 0 <= k < |a| && k < |b| && a[..k] == b[..k] && a[k] < b[k];
        if k > 0 {
          assert a[0] == a[..k][0];
        }
      }
    }
  }

  /** `s` with every occurrence of the character `c` replaced by the text `rep`. */
  function ReplaceChar(s: string, c: char, rep: string): (r: string)
    ensures c !in rep ==> c !in r
  {
    if s == [] then "" else (if s[0] == c then rep else [s[0]]) + ReplaceChar(s[1..], c, rep)
  }

  /** The replacement works piece by piece: it distributes over concatenation. */
  lemma {:induction false} ReplaceCharAppend(a: string, b: string, c: char, rep: string)
    ensures ReplaceChar(a + b, c, rep) == ReplaceChar(a, c, rep) + ReplaceChar(b, c, rep)
    decreases |a|
  {
    if a == [] {
      assert a + b == b;
    } else {
      assert (a + b)[0] == a[0] && (a + b)[1..] == a[1..] + b;
      ReplaceCharAppend(a[1..], b, c, rep);
    }
  }

  /** On one character: the replaced character becomes `rep`, any other stays. Together with
      `ReplaceCharAppend` this fixes the result on every text. */
  lemma ReplaceCharOne(x: char, c: char, rep: string)
    ensures ReplaceChar([x], c, rep) == if x == c then rep else [x]
  {
    assert [x][1..] == [];
  }
}
