/** Calendar dates as Python's `datetime.date` holds them, the ISO text form `YYYY-MM-DD`
    that `date.isoformat()` writes, and a parser for that form standing in for
    `datetime.fromisoformat(s).date()`. */
module Dates {
  import opened Wrappers

  datatype Date = Date(year: int, month: int, day: int)

  predicate IsLeapYear(y: int)
  {
    y % 4 == 0 && (y % 100 != 0 || y % 400 == 0)
  }

  function DaysInMonth(y: int, m: int): (n: int)
    requires 1 <= m <= 12
    ensures 28 <= n <= 31
    ensures n == 29 <==> m == 2 && IsLeapYear(y)
  {
    if m == 2 then (if IsLeapYear(y) then 29 else 28)
    else if m == 4 || m == 6 || m == 9 || m == 11 then 30
    else 31
  }

  /** The dates `datetime.date` can represent: years 1 to 9999, real days of real months. */
  predicate IsValid(d: Date): (r: bool)
    ensures r ==> 1 <= d.day <= 31
    ensures r && d.month == 2 ==> d.day <= 29
    ensures r && d.month == 2 && d.day == 29 ==> IsLeapYear(d.year)
  {
    1 <= d.year <= 9999 && 1 <= d.month <= 12 && 1 <= d.day <= DaysInMonth(d.year, d.month)
  }

  /** The position of a valid date in a count that gives every month 31 days. */
  function Rang(d: Date): int
  {
    (d.year * 12 + d.month - 1) * 31 + d.day - 1
  }

  /** `a < b` on dates: year first, then month, then day. On valid dates it is the
      order of their positions in the calendar. */
  predicate Before(a: Date, b: Date): (r: bool)
    ensures IsValid(a) && IsValid(b) ==> (r <==> Rang(a) < Rang(b))
  {
    a.year < b.year
    || (a.year == b.year && a.month < b.month)
    || (a.year == b.year && a.month == b.month && a.day < b.day)
  }

  predicate IsDigit(c: char)
  {
    '0' <= c <= '9'
  }

  function DigitChar(k: int): (c: char)
    requires 0 <= k <= 9
    ensures IsDigit(c)
  {
    ('0' as int + k) as char
  }

  function DigitValue(c: char): int
    requires IsDigit(c)
  {
    c as int - '0' as int
  }

  /** The number written by a string of decimal digits. */
  function Number(s: string): (n: nat)
    requires forall k :: 0 <= k < |s| ==> IsDigit(s[k])
  {
    if s == [] then 0 else 10 * Number(s[..|s| - 1]) + DigitValue(s[|s| - 1])
  }

  /** `n` written with exactly `width` digits, zero-padded on the left (`%0*d`). */
  function Padded(n: nat, width: nat): (s: string)
    ensures |s| == width
    ensures forall k :: 0 <= k < width ==> IsDigit(s[k])
  {
    if width == 0 then [] else Padded(n / 10, width - 1) + [DigitChar(n % 10)]
  }

  /** Writing a number that fits with `width` digits and reading it back gives the number. */
  lemma {:induction false} NumberOfPadded(n: nat, width: nat)
    requires n < Power10(width)
    ensures Number(Padded(n, width)) == n
  {
    if width > 0 {
      var s := Padded(n, width);
      assert s[..width - 1] == Padded(n / 10, width - 1);
      NumberOfPadded(n / 10, width - 1);
    }
  }

  /** Reading a string of digits and writing the number back with as many digits gives the string. */
  lemma {:induction false} PaddedOfNumber(s: string)
    requires forall k :: 0 <= k < |s| ==> IsDigit(s[k])
    ensures Number(s) < Power10(|s|)
    ensures Padded(Number(s), |s|) == s
  {
    if s != [] {
      var p := s[..|s| - 1];
      PaddedOfNumber(p);
      var n := Number(s);
      assert n / 10 == Number(p) && n % 10 == DigitValue(s[|s| - 1]);
      assert s == p + [s[|s| - 1]];
    }
  }

  function Power10(k: nat): (p: nat)
    ensures p >= 1
  {
    if k == 0 then 1 else 10 * Power10(k - 1)
  }

  /** `d.isoformat()`: `YYYY-MM-DD`. */
  function Format(d: Date): (s: string)
    requires IsValid(d)
    ensures |s| == 10 && HasIsoShape(s)
  {
    Padded(d.year, 4) + "-" + Padded(d.month, 2) + "-" + Padded(d.day, 2)
  }

  /** The shape `YYYY-MM-DD`, digits and dashes only. */
  predicate HasIsoShape(s: string)
  {
    |s| == 10 && s[4] == '-' && s[7] == '-'
    && (forall k :: 0 <= k < 10 && k != 4 && k != 7 ==> IsDigit(s[k]))
  }

  /** `datetime.fromisoformat(s).date()` for the date-only form: `None` where Python raises
      `ValueError`. A parsed date is valid and its ISO text is the parsed string itself. */
  function Parse(s: string): (r: Option<Date>)
    ensures r.Some? ==> IsValid(r.value) && Format(r.value) == s
    ensures r.None? ==> forall d :: IsValid(d) ==> Format(d) != s
  {
    if HasIsoShape(s) then
      var d := Date(Number(s[0..4]), Number(s[5..7]), Number(s[8..10]));
      if IsValid(d) then
        PaddedOfNumber(s[0..4]);
        PaddedOfNumber(s[5..7]);
        PaddedOfNumber(s[8..10]);
        assert s == s[0..4] + "-" + s[5..7] + "-" + s[8..10];
        Some(d)
      else
        NoValidDateFormatsTo(s, d);
        None
    else
      None
  }

  /** A string of the right shape whose fields do not make a valid date is not the ISO text
      of any valid date. */
  lemma NoValidDateFormatsTo(s: string, d: Date)
    requires HasIsoShape(s)
    requires d == Date(Number(s[0..4]), Number(s[5..7]), Number(s[8..10]))
    requires !IsValid(d)
    ensures forall e :: IsValid(e) ==> Format(e) != s
  {
    forall e | IsValid(e) && Format(e) == s ensures false {
      var f := Format(e);
      assert f[0..4] == Padded(e.year, 4);
      assert f[5..7] == Padded(e.month, 2);
      assert f[8..10] == Padded(e.day, 2);
      NumberOfPadded(e.year, 4);
      NumberOfPadded(e.month, 2);
      NumberOfPadded(e.day, 2);
    }
  }

  /** Every valid date survives `isoformat` followed by `fromisoformat`. */
  lemma ParseFormat(d: Date)
    requires IsValid(d)
    ensures Parse(Format(d)) == Some(d)
  {
    var s := Format(d);
    assert s[0..4] == Padded(d.year, 4);
    assert s[5..7] == Padded(d.month, 2);
    assert s[8..10] == Padded(d.day, 2);
    NumberOfPadded(d.year, 4);
    NumberOfPadded(d.month, 2);
    NumberOfPadded(d.day, 2);
    assert HasIsoShape(s);
  }
}
