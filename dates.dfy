/**
 * Calendar dates as the survey handlers use them: `strptime(val, "%d.%m.%Y")`
 * for the `birth_date` answer (src/bot/handlers/survey.py:268-270, 427) and
 * `strftime("%Y-%m-%d")` for the once-a-day horoscope key
 * (src/bot/handlers/survey.py:149, 423).
 */
module Dates {
  import opened Wrappers
  import opened Strings

  datatype Date = Date(year: int, month: int, day: int)

  predicate IsLeap(y: int)
  {
    y % 4 == 0 && (y % 100 != 0 || y % 400 == 0)
  }

  function DaysInMonth(y: int, m: int): (n: int)
    requires 1 <= m <= 12
    ensures 28 <= n <= 31
  {
    if m == 2 then (if IsLeap(y) then 29 else 28)
    else if m == 4 || m == 6 || m == 9 || m == 11 then 30
    else 31
  }

  /** What `datetime.date(year, month, day)` accepts (years 1 to 9999). */
  predicate ValidDate(d: Date)
  {
    && 1 <= d.year <= 9999
    && 1 <= d.month <= 12
    && 1 <= d.day <= DaysInMonth(d.year, d.month)
  }

  predicate NonZeroDigit(c: char)
  {
    '1' <= c <= '9'
  }

  /**
   * The `%d` field at the start of `s`: the value and the number of characters
   * it takes. The pattern is `3[01]|[12]\d|0[1-9]|[1-9]| [1-9]`, tried in that
   * order. A literal `.` follows the field, so a shorter alternative, which
   * would leave a digit in front of that `.`, never completes a match the
   * first one missed: taking the first alternative that matches is exact.
   */
  function DayField(s: string): (r: Option<(int, nat)>)
    ensures r.Some? ==> 1 <= r.value.0 <= 31 && 1 <= r.value.1 <= 2 && r.value.1 <= |s|
  {
    if |s| >= 2 && s[0] == '3' && (s[1] == '0' || s[1] == '1') then Some((30 + DigitValue(s[1]), 2))
    else if |s| >= 2 && (s[0] == '1' || s[0] == '2') && IsDigit(s[1]) then Some((10 * DigitValue(s[0]) + DigitValue(s[1]), 2))
    else if |s| >= 2 && s[0] == '0' && NonZeroDigit(s[1]) then Some((DigitValue(s[1]), 2))
    else if |s| >= 1 && NonZeroDigit(s[0]) then Some((DigitValue(s[0]), 1))
    else if |s| >= 2 && s[0] == ' ' && NonZeroDigit(s[1]) then Some((DigitValue(s[1]), 2))
    else None
  }

  /** The `%m` field: `1[0-2]|0[1-9]|[1-9]`, in that order (exact for the same reason). */
  function MonthField(s: string): (r: Option<(int, nat)>)
    ensures r.Some? ==> 1 <= r.value.0 <= 12 && 1 <= r.value.1 <= 2 && r.value.1 <= |s|
  {
    if |s| >= 2 && s[0] == '1' && '0' <= s[1] <= '2' then Some((10 + DigitValue(s[1]), 2))
    else if |s| >= 2 && s[0] == '0' && NonZeroDigit(s[1]) then Some((DigitValue(s[1]), 2))
    else if |s| >= 1 && NonZeroDigit(s[0]) then Some((DigitValue(s[0]), 1))
    else None
  }

  predicate AllDigits(s: string)
  {
    forall i :: 0 <= i < |s| ==> IsDigit(s[i])
  }

  /**
   * `datetime.strptime(s, "%d.%m.%Y").date()`, with `None` where it raises
   * `ValueError`: the day and month fields, the two dots, a year of exactly four
   * digits with nothing after it, and then a date `datetime.date` accepts.
   */
  function ParseDmy(s: string): (r: Option<Date>)
    ensures r.Some? ==> ValidDate(r.value)
  {
    match DayField(s)
    case None => None
    case Some((d, k)) =>
      if k >= |s| || s[k] != '.' then None
      else
        var rest := s[k + 1..];
        match MonthField(rest)
        case None => None
        case Some((m, j)) =>
          if j >= |rest| || rest[j] != '.' then None
          else
            var year := rest[j + 1..];
            if |year| != 4 || !AllDigits(year) then None
            else
              var date := Date(DigitsValue(year), m, d);
              if ValidDate(date) then Some(date) else None
  }

  /** Two decimal digits with a leading zero, as `%d` and `%m` print. */
  function Pad2(n: int): (s: string)
    requires 0 <= n < 100
    ensures |s| == 2 && AllDigits(s)
  {
    [DigitChar(n / 10), DigitChar(n % 10)]
  }

  /** Four decimal digits with leading zeros. */
  function Pad4(n: int): (s: string)
    requires 0 <= n < 10000
    ensures |s| == 4 && AllDigits(s)
  {
    Pad2(n / 100) + Pad2(n % 100)
  }

  lemma Pad2Value(n: int)
    requires 0 <= n < 100
    ensures DigitsValue(Pad2(n)) == n
  {
    var s := Pad2(n);
    var hi := [DigitChar(n / 10)];
    assert s[..1] == hi;
    assert hi[..0] == [];
    assert DigitsValue(hi) == n / 10;
    assert DigitsValue(s) == DigitsValue(hi) * 10 + DigitValue(s[1]);
  }

  lemma Pad4Value(n: int)
    requires 0 <= n < 10000
    ensures DigitsValue(Pad4(n)) == n
  {
    var s := Pad4(n);
    var hi, lo := Pad2(n / 100), Pad2(n % 100);
    assert s[..3] == hi + [lo[0]];
    assert s[..2] == hi;
    Pad2Value(n / 100);
    Pad2Value(n % 100);
    assert DigitsValue(lo) == DigitValue(lo[0]) * 10 + DigitValue(lo[1]) by {
      assert lo[..1] == [lo[0]];
      assert lo[..1][..0] == [];
    }
  }

  /** The way people are asked to type a birth date (ДД.ММ.ГГГГ). */
  function FormatDmy(d: Date): (s: string)
    requires ValidDate(d)
    ensures |s| == 10
  {
    Pad2(d.day) + "." + Pad2(d.month) + "." + Pad4(d.year)
  }

  lemma DayFieldPadded(d: int, rest: string)
    requires 1 <= d <= 31
    ensures DayField(Pad2(d) + rest) == Some((d, 2))
  {
    var s := Pad2(d) + rest;
    assert s[0] == DigitChar(d / 10) && s[1] == DigitChar(d % 10);
  }

  lemma MonthFieldPadded(m: int, rest: string)
    requires 1 <= m <= 12
    ensures MonthField(Pad2(m) + rest) == Some((m, 2))
  {
    var s := Pad2(m) + rest;
    assert s[0] == DigitChar(m / 10) && s[1] == DigitChar(m % 10);
  }

  /** A date typed as ДД.ММ.ГГГГ passes the check and parses back to itself. */
  lemma ParseFormatDmy(d: Date)
    requires ValidDate(d)
    ensures ParseDmy(FormatDmy(d)) == Some(d)
  {
    var dd, mm, yy := Pad2(d.day), Pad2(d.month), Pad4(d.year);
    var s := FormatDmy(d);
    var rest := mm + "." + yy;
    assert s == dd + ("." + rest);
    DayFieldPadded(d.day, "." + rest);
    assert s[2] == '.' && s[3..] == rest;
    MonthFieldPadded(d.month, "." + yy);
    assert rest == mm + ("." + yy);
    assert rest[2] == '.' && rest[3..] == yy;
    Pad4Value(d.year);
  }

  /** Single-digit fields are accepted too. */
  lemma ParseDmyShortFields()
    ensures ParseDmy("5.3.1990") == Some(Date(1990, 3, 5))
  {
    var s := "5.3.1990";
    assert DayField(s) == Some((5, 1));
    assert s[2..] == "3.1990";
    assert MonthField("3.1990") == Some((3, 1));
    assert "3.1990"[2..] == "1990";
    assert DigitsValue("1990") == 1990 by { assert "1990"[..3] == "199"; assert "199"[..2] == "19"; assert "19"[..1] == "1"; }
  }

  /** A day the month does not have is refused. */
  lemma ParseDmyNoLeapDay()
    ensures ParseDmy("29.02.2023").None?
  {
    var s := "29.02.2023";
    assert DayField(s) == Some((29, 2));
    assert s[3..] == "02.2023";
    assert MonthField("02.2023") == Some((2, 2));
    assert "02.2023"[3..] == "2023";
    assert DigitsValue("2023") == 2023 by { assert "2023"[..3] == "202"; assert "202"[..2] == "20"; assert "20"[..1] == "2"; }
  }

  /** A two-digit year is refused. */
  lemma ParseDmyShortYear()
    ensures ParseDmy("1.1.90").None?
  {
    var s := "1.1.90";
    assert DayField(s) == Some((1, 1));
    assert s[2..] == "1.90";
    assert MonthField("1.90") == Some((1, 1));
    assert "1.90"[2..] == "90";
  }

  /** `date.strftime("%Y-%m-%d")`; the year is printed without padding, as glibc's `%Y` does. */
  function FormatIso(d: Date): (s: string)
    requires ValidDate(d)
    ensures |s| >= 7
    ensures s[|s| - 6..] == "-" + Pad2(d.month) + "-" + Pad2(d.day)
    ensures s[..|s| - 6] == NatToString(d.year)
  {
    NatToString(d.year) + "-" + Pad2(d.month) + "-" + Pad2(d.day)
  }

  /** Distinct days give distinct strings, so a key built on the date is a per-day key. */
  lemma FormatIsoInjective(a: Date, b: Date)
    requires ValidDate(a) && ValidDate(b)
    requires FormatIso(a) == FormatIso(b)
    ensures a == b
  {
    var s := FormatIso(a);
    var tail := s[|s| - 6..];
    assert tail[1..3] == Pad2(a.month) && tail[1..3] == Pad2(b.month);
    assert tail[4..] == Pad2(a.day) && tail[4..] == Pad2(b.day);
    Pad2Value(a.month); Pad2Value(b.month);
    Pad2Value(a.day); Pad2Value(b.day);
    NatToStringValue(a.year); NatToStringValue(b.year);
  }
}
