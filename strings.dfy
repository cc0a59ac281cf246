/**
 * The handful of Python string built-ins the bot relies on: `str.isspace`,
 * `str.strip`, `str.split(sep)`, `str(int)`, `int(str)` and `str.lower`.
 * Strings are sequences of Unicode scalar values, as Python's `str` is a
 * sequence of code points.
 */
module Strings {
  import opened Wrappers

  /** Python's `str.isspace()` for one code point. */
  predicate IsSpace(c: char)
  {
    || c == ' '
    || ('\t' <= c <= '\r')
    || ('\U{1C}' <= c <= '\U{1F}')
    || c == '\U{85}' || c == '\U{A0}' || c == '\U{1680}'
    || ('\U{2000}' <= c <= '\U{200A}')
    || c == '\U{2028}' || c == '\U{2029}' || c == '\U{202F}' || c == '\U{205F}'
    || c == '\U{3000}'
  }

  predicate IsDigit(c: char)
  {
    '0' <= c <= '9'
  }

  /** Number of whitespace code points at the start of `s`. */
  function LeadSpaces(s: string): (n: nat)
    ensures n <= |s|
    ensures forall k :: 0 <= k < n ==> IsSpace(s[k])
    ensures n < |s| ==> !IsSpace(s[n])
  {
    if |s| > 0 && IsSpace(s[0]) then 1 + LeadSpaces(s[1..]) else 0
  }

  /** Number of whitespace code points at the end of `s`. */
  function TrailSpaces(s: string): (n: nat)
    ensures n <= |s|
    ensures forall k :: |s| - n <= k < |s| ==> IsSpace(s[k])
    ensures n < |s| ==> !IsSpace(s[|s| - 1 - n])
  {
    if |s| > 0 && IsSpace(s[|s| - 1]) then 1 + TrailSpaces(s[..|s| - 1]) else 0
  }

  /** Python's `str.strip()` with no argument. */
  function Strip(s: string): (r: string)
    // what is left starts and ends with a non-space code point
    ensures r == [] || (!IsSpace(r[0]) && !IsSpace(r[|r| - 1]))
    // it is the part of `s` after the leading whitespace ...
    ensures LeadSpaces(s) + |r| <= |s|
    ensures r == s[LeadSpaces(s)..LeadSpaces(s) + |r|]
    // ... and everything cut from the end was whitespace
    ensures forall k :: LeadSpaces(s) + |r| <= k < |s| ==> IsSpace(s[k])
  {
    var t := s[LeadSpaces(s)..];
    t[..|t| - TrailSpaces(t)]
  }

  /** A string that neither starts nor ends with whitespace is its own strip. */
  lemma StripFixed(s: string)
    requires s == [] || (!IsSpace(s[0]) && !IsSpace(s[|s| - 1]))
    ensures Strip(s) == s
  {
    assert LeadSpaces(s) == 0;
  }

  /** Leading whitespace followed by a non-space (or nothing) is counted exactly. */
  lemma {:induction false} LeadSpacesPrefix(a: string, rest: string)
    requires forall k :: 0 <= k < |a| ==> IsSpace(a[k])
    requires rest == [] || !IsSpace(rest[0])
    ensures LeadSpaces(a + rest) == |a|
  {
    if a != [] {
      assert (a + rest)[1..] == a[1..] + rest;
      LeadSpacesPrefix(a[1..], rest);
    }
  }

  /** `strip` removes surrounding whitespace and nothing else. */
  lemma StripSurround(a: string, t: string, c: string)
    requires forall k :: 0 <= k < |a| ==> IsSpace(a[k])
    requires forall k :: 0 <= k < |c| ==> IsSpace(c[k])
    requires |t| > 0 && !IsSpace(t[0]) && !IsSpace(t[|t| - 1])
    ensures Strip(a + t + c) == t
  {
    var s := a + t + c;
    assert s == a + (t + c);
    LeadSpacesPrefix(a, t + c);
    var r := Strip(s);
    var last := |a| + |t| - 1;
    assert s[last] == t[|t| - 1];
    assert |r| >= |t|;
    assert r == s[|a|..|a| + |t|];
  }

  /** Python's `s.startswith(p)`. */
  predicate HasPrefix(s: string, p: string)
  {
    |p| <= |s| && s[..|p|] == p
  }

  /** Number of occurrences of `c` in `s`. */
  function Count(s: string, c: char): nat
  {
    if s == [] then 0 else (if s[0] == c then 1 else 0) + Count(s[1..], c)
  }

  /** Python's `s.split(c)` for a one-character separator. */
  function Split(s: string, c: char): (parts: seq<string>)
    ensures |parts| == Count(s, c) + 1
    ensures forall i :: 0 <= i < |parts| ==> c !in parts[i]
  {
    if s == [] then [[]]
    else
      var rest := Split(s[1..], c);
      if s[0] == c then [[]] + rest
      else [[s[0]] + rest[0]] + rest[1..]
  }

  /** Python's `c.join(parts)`. */
  function Join(parts: seq<string>, c: char): string
    requires |parts| >= 1
  {
    if |parts| == 1 then parts[0] else parts[0] + [c] + Join(parts[1..], c)
  }

  lemma {:induction false} SplitNoSeparator(a: string, c: char)
    requires c !in a
    ensures Split(a, c) == [a]
  {
    if a != [] {
      assert c !in a[1..] by { assert forall k :: 0 <= k < |a[1..]| ==> a[1..][k] == a[k + 1]; }
      SplitNoSeparator(a[1..], c);
      assert a[0] != c;
      assert [a[0]] + a[1..] == a;
    }
  }

  lemma {:induction false} SplitAfterField(a: string, c: char, b: string)
    requires c !in a
    ensures Split(a + [c] + b, c) == [a] + Split(b, c)
  {
    if a == [] {
      assert a + [c] + b == [c] + b;
      assert ([c] + b)[1..] == b;
    } else {
      assert (a + [c] + b)[1..] == a[1..] + [c] + b;
      assert c !in a[1..] by { assert forall k :: 0 <= k < |a[1..]| ==> a[1..][k] == a[k + 1]; }
      SplitAfterField(a[1..], c, b);
      assert (a + [c] + b)[0] == a[0] != c;
      assert [a[0]] + a[1..] == a;
    }
  }

  /** Splitting what was joined gives back the fields, when none holds the separator. */
  lemma {:induction false} SplitJoin(parts: seq<string>, c: char)
    requires |parts| >= 1
    requires forall i :: 0 <= i < |parts| ==> c !in parts[i]
    ensures Split(Join(parts, c), c) == parts
  {
    if |parts| == 1 {
      SplitNoSeparator(parts[0], c);
    } else {
      SplitJoin(parts[1..], c);
      SplitAfterField(parts[0], c, Join(parts[1..], c));
      assert [parts[0]] + parts[1..] == parts;
    }
  }

  /** Joining what was split gives back the string. */
  lemma {:induction false} JoinSplit(s: string, c: char)
    ensures Join(Split(s, c), c) == s
  {
    if s != [] {
      JoinSplit(s[1..], c);
      var rest := Split(s[1..], c);
      if s[0] == c {
        assert ([[]] + rest)[1..] == rest;
      } else {
        var parts := [[s[0]] + rest[0]] + rest[1..];
        if |rest| == 1 {
          assert Join(parts, c) == [s[0]] + rest[0];
        } else {
          assert parts[1..] == rest[1..];
          assert Join(rest, c) == rest[0] + [c] + Join(rest[1..], c);
        }
      }
    }
  }

  /** The Python f-string rendering of a field: `f"{a}{c}{b}"` split on `c` gives `a` and `b`. */
  lemma SplitTwoFields(a: string, c: char, b: string)
    requires c !in a && c !in b
    ensures Split(a + [c] + b, c) == [a, b]
  {
    SplitAfterField(a, c, b);
    SplitNoSeparator(b, c);
  }

  lemma SplitThreeFields(a: string, c: char, b: string, d: string)
    requires c !in a && c !in b && c !in d
    ensures Split(a + [c] + b + [c] + d, c) == [a, b, d]
  {
    assert a + [c] + b + [c] + d == a + [c] + (b + [c] + d);
    SplitAfterField(a, c, b + [c] + d);
    SplitTwoFields(b, c, d);
  }

  function DigitChar(d: nat): (c: char)
    requires d < 10
    ensures IsDigit(c)
  {
    ('0' as int + d) as char
  }

  function DigitValue(c: char): nat
    requires IsDigit(c)
  {
    c as int - '0' as int
  }

  /** Decimal digits of a natural number, most significant first. */
  function NatToString(n: nat): (s: string)
    ensures |s| >= 1
    ensures forall i :: 0 <= i < |s| ==> IsDigit(s[i])
  {
    if n < 10 then [DigitChar(n)] else NatToString(n / 10) + [DigitChar(n % 10)]
  }

  /** Python's `str(n)` for an `int`. */
  function IntToString(n: int): (s: string)
    ensures |s| >= 1
    ensures forall i :: 0 <= i < |s| ==> IsDigit(s[i]) || (i == 0 && s[i] == '-')
  {
    if n < 0 then "-" + NatToString(-n) else NatToString(n)
  }

  /** Value of a string of decimal digits. */
  function DigitsValue(s: string): nat
    requires forall i :: 0 <= i < |s| ==> IsDigit(s[i])
  {
    if s == [] then 0 else DigitsValue(s[..|s| - 1]) * 10 + DigitValue(s[|s| - 1])
  }

  lemma {:induction false} NatToStringValue(n: nat)
    ensures DigitsValue(NatToString(n)) == n
  {
    if n >= 10 {
      NatToStringValue(n / 10);
      var s := NatToString(n);
      assert s[..|s| - 1] == NatToString(n / 10);
    }
  }

  /**
   * The digit groups accepted by Python's `int()`: a digit, then digits, each
   * optionally preceded by a single underscore.
   */
  predicate DigitGroups(body: string)
    decreases |body|
  {
    && |body| > 0
    && IsDigit(body[0])
    && (|body| == 1 || if body[1] == '_' then DigitGroups(body[2..]) else DigitGroups(body[1..]))
  }

  lemma {:induction false} DigitGroupsChars(body: string)
    requires DigitGroups(body)
    ensures forall i :: 0 <= i < |body| ==> IsDigit(body[i]) || body[i] == '_'
    decreases |body|
  {
    if |body| > 1 {
      var k := if body[1] == '_' then 2 else 1;
      DigitGroupsChars(body[k..]);
      forall i | 0 <= i < |body| ensures IsDigit(body[i]) || body[i] == '_' {
        if i >= k { assert body[i] == body[k..][i - k]; }
      }
    }
  }

  /** The digits of a digit-group string, underscores dropped. */
  function DropUnderscores(s: string): (r: string)
    requires forall i :: 0 <= i < |s| ==> IsDigit(s[i]) || s[i] == '_'
    ensures forall i :: 0 <= i < |r| ==> IsDigit(r[i])
    ensures (forall i :: 0 <= i < |s| ==> IsDigit(s[i])) ==> r == s
  {
    if s == [] then [] else (if s[0] == '_' then [] else [s[0]]) + DropUnderscores(s[1..])
  }

  /**
   * Python's `int(s)` for a `str` in base 10, as an Option (`None` where Python
   * raises `ValueError`): surrounding whitespace, one optional sign, and digit
   * groups separated by single underscores.
   */
  function ParseInt(s: string): (r: Option<int>)
    ensures r.Some? ==> Strip(s) != []
  {
    var t := Strip(s);
    if t == [] then None
    else
      var body := if t[0] == '-' || t[0] == '+' then t[1..] else t;
      if !DigitGroups(body) then None
      else
        DigitGroupsChars(body);
        var v: int := DigitsValue(DropUnderscores(body));
        Some(if t[0] == '-' then -v else v)
  }

  /** A non-empty run of digits is one digit group with nothing to drop. */
  lemma {:induction false} DigitsAreGroups(d: string)
    requires |d| >= 1 && forall i :: 0 <= i < |d| ==> IsDigit(d[i])
    ensures DigitGroups(d)
    decreases |d|
  {
    if |d| > 1 {
      assert forall i :: 0 <= i < |d[1..]| ==> d[1..][i] == d[i + 1];
      DigitsAreGroups(d[1..]);
    }
  }

  /** `int(s)` of a stripped string whose body after the sign is bare digits. */
  lemma ParseDigits(s: string, body: string)
    requires s != [] && Strip(s) == s
    requires body == if s[0] == '-' || s[0] == '+' then s[1..] else s
    requires |body| >= 1 && forall i :: 0 <= i < |body| ==> IsDigit(body[i])
    ensures ParseInt(s) == Some(if s[0] == '-' then -(DigitsValue(body) as int) else DigitsValue(body) as int)
  {
    DigitsAreGroups(body);
  }

  /** `int(str(n)) == n`: the rendering of an integer parses back to it. */
  lemma IntToStringParses(n: int)
    ensures ParseInt(IntToString(n)) == Some(n)
  {
    var m: nat := if n < 0 then -n else n;
    var d := NatToString(m);
    var s := IntToString(n);
    assert Strip(s) == s by {
      assert IsDigit(s[|s| - 1]);
      assert IsDigit(s[0]) || s[0] == '-';
      StripFixed(s);
    }
    assert s[0] == '-' <==> n < 0;
    assert d == if s[0] == '-' || s[0] == '+' then s[1..] else s;
    ParseDigits(s, d);
    NatToStringValue(m);
  }

  /** Python's `str.lower()` on the letters this model covers: ASCII and the basic Cyrillic block. */
  function LowerChar(c: char): char
  {
    if 'A' <= c <= 'Z' then (c as int + 32) as char
    else if '\U{410}' <= c <= '\U{42F}' then (c as int + 32) as char
    else if '\U{400}' <= c <= '\U{40F}' then (c as int + 80) as char
    else c
  }

  function Lower(s: string): (r: string)
    ensures |r| == |s|
    // exactly the capitals of the Latin and basic Cyrillic alphabets change ...
    ensures forall i :: 0 <= i < |s| ==> (r[i] != s[i] <==> 'A' <= s[i] <= 'Z' || '\U{400}' <= s[i] <= '\U{42F}')
    // ... and lowering twice is lowering once
    ensures forall i :: 0 <= i < |s| ==> LowerChar(r[i]) == r[i]
  {
    seq(|s|, i requires 0 <= i < |s| => LowerChar(s[i]))
  }
}
