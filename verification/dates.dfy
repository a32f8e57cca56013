/** The date decoder `parse_date` (main.py). The flexible year-first parser it
    calls (dateutil's `parser.parse(s, yearfirst=True).date()`) is not modelled:
    it is a parameter, a partial function from text to a calendar date that
    yields None where the library raises. What is modelled is the shape around
    it: formatting as DD/MM/YYYY on success, the raw input on failure. */
module Dates {
  import opened Ascii
  import opened Wrappers

  datatype CalendarDate = CalendarDate(year: int, month: int, day: int)

  predicate IsLeapYear(y: int) {
    y % 4 == 0 && (y % 100 != 0 || y % 400 == 0)
  }

  function DaysInMonth(y: int, m: int): int {
    if m == 2 then (if IsLeapYear(y) then 29 else 28)
    else if m == 4 || m == 6 || m == 9 || m == 11 then 30
    else 31
  }

  /** The dates Python's `datetime.date` can hold: years 1 to 9999 of the
      proleptic Gregorian calendar. */
  predicate IsValidDate(d: CalendarDate) {
    1 <= d.year <= 9999 && 1 <= d.month <= 12 && 1 <= d.day <= DaysInMonth(d.year, d.month)
  }

  type Date = d: CalendarDate | IsValidDate(d) witness CalendarDate(2000, 1, 1)

  /** The date library's parser: a date, or None where it would raise. */
  type DateParser = string -> Option<Date>

  function DigitChar(n: int): (c: char)
    requires 0 <= n <= 9
    ensures IsDigit(c)
  {
    ('0' as int + n) as char
  }

  function DigitValue(c: char): (n: int)
    requires IsDigit(c)
    ensures 0 <= n <= 9
  {
    c as int - '0' as int
  }

  /** `n` written in decimal with exactly `width` digits, zero-padded on the left. */
  function Decimal(n: nat, width: nat): (r: string)
    requires n < Pow10(width)
    ensures |r| == width
    ensures forall i :: 0 <= i < |r| ==> IsDigit(r[i])
  {
    if width == 0 then [] else Decimal(n / 10, width - 1) + [DigitChar(n % 10)]
  }

  function Pow10(k: nat): (p: nat)
    ensures p >= 1
  {
    if k == 0 then 1 else 10 * Pow10(k - 1)
  }

  /** The value of a string of decimal digits. */
  function DecimalValue(s: string): (n: nat)
    requires forall i :: 0 <= i < |s| ==> IsDigit(s[i])
    ensures n < Pow10(|s|)
  {
    if s == [] then 0 else 10 * DecimalValue(s[..|s| - 1]) + DigitValue(s[|s| - 1])
  }

  /** Reading back a zero-padded decimal gives the number that was written. */
  lemma {:induction false} DecimalRoundTrip(n: nat, width: nat)
    requires n < Pow10(width)
    ensures DecimalValue(Decimal(n, width)) == n
  {
    if width > 0 {
      var s := Decimal(n, width);
      assert s[..|s| - 1] == Decimal(n / 10, width - 1);
      DecimalRoundTrip(n / 10, width - 1);
    }
  }

  /** Writing the value of a digit string with the same width gives the string back. */
  lemma {:induction false} DecimalValueRoundTrip(s: string)
    requires forall i :: 0 <= i < |s| ==> IsDigit(s[i])
    ensures Decimal(DecimalValue(s), |s|) == s
  {
    if s != [] {
      var p := s[..|s| - 1];
      DecimalValueRoundTrip(p);
      var n := DecimalValue(s);
      assert n / 10 == DecimalValue(p);
      assert n % 10 == DigitValue(s[|s| - 1]);
      assert s == p + [s[|s| - 1]];
    }
  }

  /** `date.strftime('%d/%m/%Y')` */
  function FormatDate(d: Date): (r: string)
    ensures |r| == 10 && r[2] == '/' && r[5] == '/'
    ensures forall i :: 0 <= i < 10 && i != 2 && i != 5 ==> IsDigit(r[i])
  {
    Decimal(d.day, 2) + "/" + Decimal(d.month, 2) + "/" + Decimal(d.year, 4)
  }

  /** Text in the exact DD/MM/YYYY shape FormatDate produces. */
  predicate IsFormattedShape(s: string) {
    |s| == 10 && s[2] == '/' && s[5] == '/' &&
    forall i :: 0 <= i < 10 && i != 2 && i != 5 ==> IsDigit(s[i])
  }

  /** The inverse of FormatDate: the date a DD/MM/YYYY string denotes, if any. */
  function ReadDate(s: string): (r: Option<Date>)
  {
    if !IsFormattedShape(s) then None
    else
      var d := CalendarDate(DecimalValue(s[6..10]), DecimalValue(s[3..5]), DecimalValue(s[0..2]));
      if IsValidDate(d) then Some(d) else None
  }

  /** FormatDate and ReadDate are inverse bijections between dates and the
      DD/MM/YYYY strings of valid dates: no two dates print alike, and every
      such string is printed by exactly the date it denotes. */
  lemma FormatReadInverse(d: Date, s: string)
    ensures ReadDate(FormatDate(d)) == Some(d)
    ensures ReadDate(s).Some? ==> FormatDate(ReadDate(s).value) == s
  {
    var f := FormatDate(d);
    assert f[0..2] == Decimal(d.day, 2);
    assert f[3..5] == Decimal(d.month, 2);
    assert f[6..10] == Decimal(d.year, 4);
    DecimalRoundTrip(d.day, 2);
    DecimalRoundTrip(d.month, 2);
    DecimalRoundTrip(d.year, 4);
    if ReadDate(s).Some? {
      DecimalValueRoundTrip(s[0..2]);
      DecimalValueRoundTrip(s[3..5]);
      DecimalValueRoundTrip(s[6..10]);
      assert s == s[0..2] + "/" + s[3..5] + "/" + s[6..10];
    }
  }

  /** `parse_date`: the parsed date as DD/MM/YYYY, or the input unchanged when
      the parser fails. */
  function ParseDate(parse: DateParser, s: string): (r: string)
    ensures parse(s).None? ==> r == s
    ensures parse(s).Some? ==> IsFormattedShape(r) && ReadDate(r) == parse(s)
  {
    match parse(s)
    case Some(d) =>
      FormatReadInverse(d, []);
      FormatDate(d)
    case None => s
  }

  /** For an input without a slash (every cleaned field), the caller can tell a
      parsed date from a fallback: the result equals the input exactly when
      the parser failed. */
  lemma FallbackDetectable(parse: DateParser, s: string)
    requires forall i :: 0 <= i < |s| ==> s[i] != '/'
    ensures ParseDate(parse, s) == s <==> parse(s).None?
  {
  }
}
