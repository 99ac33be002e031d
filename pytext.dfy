/**
  The few Python string operations the console relies on: `str.strip()`,
  `str.lower()` (ASCII letters only), `startswith`/`endswith`, the `in`
  substring test, `split` on one character, `join`, slicing with a
  possibly negative stop, `int()` parsing and decimal formatting.
 */
module PyText {
  import opened Wrappers

  /** The characters for which Python's `str.isspace()` holds (and that `strip()` removes). */
  predicate IsSpace(c: char) {
    || c == ' ' || ('\t' <= c <= '\r') || ('\U{1C}' <= c <= '\U{1F}')
    || c == '\U{85}' || c == '\U{A0}' || c == '\U{1680}'
    || ('\U{2000}' <= c <= '\U{200A}') || c == '\U{2028}' || c == '\U{2029}'
    || c == '\U{202F}' || c == '\U{205F}' || c == '\U{3000}'
  }

  predicate AllSpace(s: string) {
    forall i :: 0 <= i < |s| ==> IsSpace(s[i])
  }

  function LStrip(s: string): (r: string)
    ensures |r| <= |s| && r == s[|s| - |r|..]
    ensures r == [] || !IsSpace(r[0])
    ensures AllSpace(s[..|s| - |r|])
  {
    if |s| > 0 && IsSpace(s[0]) then LStrip(s[1..]) else s
  }

  function RStrip(s: string): (r: string)
    ensures |r| <= |s| && r == s[..|r|]
    ensures r == [] || !IsSpace(r[|r| - 1])
    ensures AllSpace(s[|r|..])
  {
    if |s| > 0 && IsSpace(s[|s| - 1]) then
      var t := s[..|s| - 1];
      var r := RStrip(t);
      assert t[..|r|] == s[..|r|];
      assert s[|r|..] == t[|r|..] + [s[|s| - 1]];
      assert AllSpace(s[|r|..]) by {
        forall k | 0 <= k < |s| - |r|
          ensures IsSpace(s[|r|..][k])
        {
          if k < |t| - |r| {
            assert s[|r|..][k] == t[|r|..][k];
          } else {
            assert s[|r|..][k] == s[|s| - 1];
          }
        }
      }
      r
    else s
  }

  /** Python's `s.strip()`. */
  function Strip(s: string): (r: string)
    ensures |r| <= |s|
    ensures r == [] || (!IsSpace(r[0]) && !IsSpace(r[|r| - 1]))
    ensures r == [] <==> AllSpace(s)
  {
    var l := LStrip(s);
    assert l == [] ==> AllSpace(s) by {
      if l == [] {
        assert s[..|s|] == s;
      }
    }
    RStrip(l)
  }

  /** A string with no whitespace at either end is its own strip. */
  lemma StripOfTrimmed(s: string)
    requires s == [] || (!IsSpace(s[0]) && !IsSpace(s[|s| - 1]))
    ensures Strip(s) == s
  {
  }

  lemma {:induction false} StripIdempotent(s: string)
    ensures Strip(Strip(s)) == Strip(s)
  {
    StripOfTrimmed(Strip(s));
  }

  function LowerChar(c: char): char {
    if 'A' <= c <= 'Z' then (c as int + 32) as char else c
  }

  /** Python's `s.lower()` restricted to ASCII letters. */
  function Lower(s: string): (r: string)
    ensures |r| == |s|
    ensures forall i :: 0 <= i < |s| ==> r[i] == LowerChar(s[i])
  {
    if s == [] then [] else [LowerChar(s[0])] + Lower(s[1..])
  }

  function UpperChar(c: char): char {
    if 'a' <= c <= 'z' then (c as int - 32) as char else c
  }

  /** Python's `s.upper()` restricted to ASCII letters. */
  function Upper(s: string): (r: string)
    ensures |r| == |s|
    ensures forall i :: 0 <= i < |s| ==> r[i] == UpperChar(s[i])
  {
    if s == [] then [] else [UpperChar(s[0])] + Upper(s[1..])
  }

  predicate StartsWith(s: string, prefix: string) {
    |prefix| <= |s| && s[..|prefix|] == prefix
  }

  predicate EndsWith(s: string, suffix: string) {
    |suffix| <= |s| && s[|s| - |suffix|..] == suffix
  }

  predicate OccursAt(s: string, p: string, i: nat) {
    i + |p| <= |s| && s[i..i + |p|] == p
  }

  /** The first position at or after `from` where `p` occurs in `s`. */
  function FindFrom(s: string, p: string, from: nat): (r: Option<nat>)
    ensures r.Some? ==> from <= r.value && OccursAt(s, p, r.value)
    ensures r.Some? ==> forall j :: from <= j < r.value ==> !OccursAt(s, p, j)
    ensures r.None? ==> forall j :: from <= j ==> !OccursAt(s, p, j)
    decreases |s| - from
  {
    if from + |p| > |s| then None
    else if s[from..from + |p|] == p then Some(from)
    else FindFrom(s, p, from + 1)
  }

  /** Python's `p in s` for strings. */
  predicate Contains(s: string, p: string) {
    FindFrom(s, p, 0).Some?
  }

  lemma ContainsAt(s: string, p: string, i: nat)
    requires OccursAt(s, p, i)
    ensures Contains(s, p)
  {
  }

  /** A string containing `p` keeps containing it with text added on either side. */
  lemma {:induction false} ContainsInside(a: string, b: string, c: string, p: string)
    requires Contains(b, p)
    ensures Contains(a + b + c, p)
  {
    var i := FindFrom(b, p, 0).value;
    assert (a + b + c)[|a| + i..|a| + i + |p|] == b[i..i + |p|];
    ContainsAt(a + b + c, p, |a| + i);
  }

  /** Containment is transitive. */
  lemma {:induction false} ContainsTrans(s: string, q: string, p: string)
    requires Contains(s, q) && Contains(q, p)
    ensures Contains(s, p)
  {
    var i := FindFrom(s, q, 0).value;
    var j := FindFrom(q, p, 0).value;
    assert i + |q| <= |s| && s[i..i + |q|] == q;
    assert j + |p| <= |q| && q[j..j + |p|] == p;
    forall k | 0 <= k < |p|
      ensures s[i + j + k] == p[k]
    {
      assert p[k] == q[j..j + |p|][k] == q[j + k];
      assert q[j + k] == s[i..i + |q|][j + k] == s[i + j + k];
    }
    assert s[i + j..i + j + |p|] == p;
    ContainsAt(s, p, i + j);
  }

  /** Stripping keeps every occurrence that neither starts nor ends with whitespace. */
  lemma {:induction false} StripKeepsInner(s: string, p: string)
    requires Contains(s, p) && p != [] && !IsSpace(p[0]) && !IsSpace(p[|p| - 1])
    ensures Contains(Strip(s), p)
  {
    LStripKeeps(s, p);
    RStripKeeps(LStrip(s), p);
  }

  lemma {:induction false} LStripKeeps(s: string, p: string)
    requires Contains(s, p) && p != [] && !IsSpace(p[0])
    ensures Contains(LStrip(s), p)
  {
    var i := FindFrom(s, p, 0).value;
    var l := LStrip(s);
    var a := |s| - |l|;
    assert s[i] == p[0];
    assert i >= a;
    assert l == s[a..];
    assert l[i - a..i - a + |p|] == s[i..i + |p|];
    ContainsAt(l, p, i - a);
  }

  lemma {:induction false} RStripKeeps(l: string, p: string)
    requires Contains(l, p) && p != [] && !IsSpace(p[|p| - 1])
    ensures Contains(RStrip(l), p)
  {
    var i := FindFrom(l, p, 0).value;
    var r := RStrip(l);
    var e := i + |p| - 1;
    assert l[e] == p[|p| - 1];
    assert e < |r|;
    assert r[i..i + |p|] == l[i..i + |p|];
    ContainsAt(r, p, i);
  }

  /** Leading whitespace is stripped from the front part only, when the back part starts with a non-space. */
  lemma {:induction false} LStripAppend(p: string, q: string)
    requires q != [] && !IsSpace(q[0])
    ensures LStrip(p + q) == LStrip(p) + q
    decreases |p|
  {
    if p == [] {
      assert p + q == q;
    } else {
      assert (p + q)[0] == p[0];
      if IsSpace(p[0]) {
        assert (p + q)[1..] == p[1..] + q;
        LStripAppend(p[1..], q);
      }
    }
  }

  /** Trailing whitespace is stripped from the back part only, when it is not all whitespace. */
  lemma {:induction false} RStripAppend(c: string, d: string)
    requires !AllSpace(d)
    ensures RStrip(c + d) == c + RStrip(d)
    decreases |d|
  {
    assert d != [];
    assert (c + d)[|c + d| - 1] == d[|d| - 1];
    if IsSpace(d[|d| - 1]) {
      var d' := d[..|d| - 1];
      assert !AllSpace(d') by {
        var i :| 0 <= i < |d| && !IsSpace(d[i]);
        assert d'[i] == d[i];
      }
      assert (c + d)[..|c + d| - 1] == c + d';
      RStripAppend(c, d');
    }
  }

  /**
    Stripping a text whose middle starts with a non-space and whose end is
    not all whitespace strips only the front and the end.
   */
  lemma {:induction false} StripMiddle(p: string, q: string, d: string)
    requires q != [] && !IsSpace(q[0]) && !AllSpace(d)
    ensures Strip(p + q + d) == LStrip(p) + q + RStrip(d)
  {
    var y := q + d;
    assert p + q + d == p + y;
    assert y[0] == q[0];
    LStripAppend(p, y);
    assert LStrip(p) + y == (LStrip(p) + q) + d;
    StripParts(p + y, LStrip(p) + q, d);
  }

  /** Stripping a text whose left-stripped form ends in a part that is not all whitespace. */
  lemma {:induction false} StripParts(x: string, m: string, d: string)
    requires LStrip(x) == m + d && !AllSpace(d)
    ensures Strip(x) == m + RStrip(d)
  {
    RStripAppend(m, d);
    StripUnfold(x);
  }

  lemma StripUnfold(x: string)
    ensures Strip(x) == RStrip(LStrip(x))
  {
  }

  /** A text starting with a non-space keeps that first character when its end is stripped. */
  lemma {:induction false} RStripHead(d: string, x: char, c: string) returns (c': string)
    requires d == [x] + c && !IsSpace(x)
    ensures !AllSpace(d) && RStrip(d) == [x] + c'
  {
    var rd := RStrip(d);
    assert d[0] == x;
    assert rd == d[..|rd|];
    c' := rd[1..];
  }

  /** Every string containing `p` contains each prefix of `p`. */
  lemma {:induction false} ContainsPrefix(s: string, p: string, q: string)
    requires Contains(s, p) && StartsWith(p, q)
    ensures Contains(s, q)
  {
    var i := FindFrom(s, p, 0).value;
    assert s[i..i + |q|] == s[i..i + |p|][..|q|];
    ContainsAt(s, q, i);
  }

  /** Python's `" " * n`: empty when `n` is not positive. */
  function Spaces(n: int): (r: string)
    ensures |r| == if n > 0 then n else 0
    ensures forall i :: 0 <= i < |r| ==> r[i] == ' '
    decreases if n > 0 then n else 0
  {
    if n <= 0 then "" else " " + Spaces(n - 1)
  }

  /** Python's `s[:stop]`, where a negative `stop` counts from the end. */
  function PyPrefix<T>(s: seq<T>, stop: int): (r: seq<T>)
    ensures stop >= 0 ==> |r| == if stop < |s| then stop else |s|
    ensures stop < 0 ==> |r| == if |s| + stop > 0 then |s| + stop else 0
    ensures r == s[..|r|]
  {
    if stop >= 0 then (if stop < |s| then s[..stop] else s)
    else if |s| + stop > 0 then s[..|s| + stop] else []
  }

  /** Python's `s[i]`, where a negative index counts from the end; `None` for IndexError. */
  function PyIndex<T>(s: seq<T>, i: int): (r: Option<T>)
    ensures r.Some? <==> -|s| <= i < |s|
    ensures 0 <= i < |s| ==> r == Some(s[i])
    ensures -|s| <= i < 0 ==> r == Some(s[|s| + i])
  {
    if 0 <= i < |s| then Some(s[i])
    else if -|s| <= i < 0 then Some(s[|s| + i])
    else None
  }

  /** Python's `s.split(sep)` for a one-character separator. */
  function Split(s: string, sep: char): (r: seq<string>)
    ensures |r| >= 1
    ensures forall k :: 0 <= k < |r| ==> sep !in r[k]
    decreases |s|
  {
    if |s| == 0 then [""]
    else if s[0] == sep then [""] + Split(s[1..], sep)
    else
      var rest := Split(s[1..], sep);
      [[s[0]] + rest[0]] + rest[1..]
  }

  /** Python's `sep.join(parts)`. */
  function Join(sep: string, parts: seq<string>): string
    decreases |parts|
  {
    if |parts| == 0 then ""
    else if |parts| == 1 then parts[0]
    else parts[0] + sep + Join(sep, parts[1..])
  }

  /** Splitting on a character and joining with it gives back the string. */
  lemma {:induction false} JoinSplit(s: string, sep: char)
    ensures Join([sep], Split(s, sep)) == s
    decreases |s|
  {
    if |s| == 0 {
    } else if s[0] == sep {
      JoinSplit(s[1..], sep);
      var rest := Split(s[1..], sep);
      assert Split(s, sep) == [""] + rest;
      assert ([""] + rest)[1..] == rest;
    } else {
      JoinSplit(s[1..], sep);
      var rest := Split(s[1..], sep);
      var parts := [[s[0]] + rest[0]] + rest[1..];
      assert Split(s, sep) == parts;
      if |rest| == 1 {
        assert Join([sep], parts) == [s[0]] + rest[0];
      } else {
        assert parts[1..] == rest[1..];
        assert Join([sep], rest) == rest[0] + [sep] + Join([sep], rest[1..]);
      }
    }
  }

  predicate IsDigit(c: char) {
    '0' <= c <= '9'
  }

  function DigitChar(d: nat): char
    requires d < 10
  {
    ('0' as int + d) as char
  }

  function NatToString(n: nat): (r: string)
    ensures |r| > 0
    ensures forall i :: 0 <= i < |r| ==> IsDigit(r[i])
    decreases n
  {
    if n < 10 then [DigitChar(n)] else NatToString(n / 10) + [DigitChar(n % 10)]
  }

  /** Python's `str(n)` for an `int`. */
  function IntToString(n: int): string {
    if n < 0 then "-" + NatToString(-n) else NatToString(n)
  }

  /** The digits `int()` accepts: at least one, with single underscores allowed between digits. */
  predicate WellFormedDigits(t: string) {
    && |t| > 0 && IsDigit(t[0])
    && forall i :: 0 <= i < |t| ==> IsDigit(t[i]) || (t[i] == '_' && i + 1 < |t| && IsDigit(t[i + 1]))
  }

  function DigitsValue(t: string): nat
    decreases |t|
  {
    if |t| == 0 then 0
    else if IsDigit(t[|t| - 1]) then 10 * DigitsValue(t[..|t| - 1]) + (t[|t| - 1] as int - '0' as int)
    else DigitsValue(t[..|t| - 1])
  }

  /** Python's `int(s)` on a string: `None` where Python raises ValueError (ASCII digits only). */
  function ParseInt(s: string): Option<int> {
    ParseStripped(Strip(s))
  }

  /** `int()` on a string already stripped: an optional sign, then the digits. */
  function ParseStripped(t: string): Option<int> {
    if |t| > 0 && (t[0] == '+' || t[0] == '-') then
      if WellFormedDigits(t[1..]) then
        var v: int := DigitsValue(t[1..]);
        Some(if t[0] == '-' then -v else v)
      else None
    else if WellFormedDigits(t) then Some(DigitsValue(t))
    else None
  }

  lemma {:induction false} NatToStringValue(n: nat)
    ensures DigitsValue(NatToString(n)) == n
    decreases n
  {
    if n >= 10 {
      NatToStringValue(n / 10);
      var r := NatToString(n);
      assert r[..|r| - 1] == NatToString(n / 10);
    }
  }

  lemma AllDigitsWellFormed(d: string)
    requires |d| > 0 && forall i :: 0 <= i < |d| ==> IsDigit(d[i])
    ensures WellFormedDigits(d)
  {
  }

  lemma {:induction false} ParseNatString(n: int)
    requires n >= 0
    ensures ParseInt(IntToString(n)) == Some(n)
  {
    var s := NatToString(n);
    assert IntToString(n) == s;
    NatToStringValue(n);
    AllDigitsWellFormed(s);
    assert !IsSpace(s[0]) && !IsSpace(s[|s| - 1]);
    StripOfTrimmed(s);
    assert !(s[0] == '+' || s[0] == '-');
    assert ParseStripped(s) == Some(n);
  }

  lemma {:induction false} ParseNegString(n: int)
    requires n < 0
    ensures ParseInt(IntToString(n)) == Some(n)
  {
    var d := NatToString(-n);
    var s := "-" + d;
    assert IntToString(n) == s;
    assert DigitsValue(d) == -n by {
      NatToStringValue(-n);
    }
    assert ParseInt(s) == Some(n) by {
      AllDigitsWellFormed(d);
      ParseNegative(d);
    }
  }

  /** `int("-" + d)` for well-formed digits `d`. */
  lemma {:induction false} ParseNegative(d: string)
    requires WellFormedDigits(d) && IsDigit(d[|d| - 1])
    ensures ParseInt("-" + d) == Some(-(DigitsValue(d) as int))
  {
    var s := "-" + d;
    assert s[0] == '-' && s[1..] == d;
    assert s[|s| - 1] == d[|d| - 1];
    StripOfTrimmed(s);
  }

  /** `int(str(n)) == n`: formatting and parsing an integer are inverse. */
  lemma {:induction false} ParseIntToString(n: int)
    ensures ParseInt(IntToString(n)) == Some(n)
  {
    if n < 0 {
      ParseNegString(n);
    } else {
      ParseNatString(n);
    }
  }

  /** A prefix one element longer: what a loop appending `s[i]` builds. */
  lemma {:induction false} TakeOneMore<T>(s: seq<T>, i: nat)
    requires i < |s|
    ensures s[..i + 1] == s[..i] + [s[i]]
  {
  }
}
