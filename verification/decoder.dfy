/** The MRZ decoder: the text-processing half of `get_passport_data`
    (main.py), from the OCR'd lines to the passport record. Lines are
    upper-cased and padded to 44 characters, fields are cut at the fixed TD3
    offsets of ICAO Doc 9303 Part 4, section 4.2.2, and each field is cleaned
    and interpreted. */
module Decoder {
  import opened Wrappers
  import opened Cleaning
  import opened Padding
  import opened Names
  import opened Sex
  import opened Countries
  import opened Dates

  /** A half-open column range `[start, end)` of a line. */
  datatype Span = Span(start: nat, end: nat)

  // Line A (document line).
  const DocumentCode: Span := Span(0, 2)
  const IssuingState: Span := Span(2, 5)
  const NameZone: Span := Span(5, 44)

  // Line B (personal-data line); columns 9, 19, 27, 42 and 43 hold check
  // digits, which the decoder never reads.
  const DocumentNumber: Span := Span(0, 9)
  const NationalityCode: Span := Span(10, 13)
  const BirthDate: Span := Span(13, 19)
  const SexCode: Span := Span(20, 21)
  const ExpiryDate: Span := Span(21, 27)
  const PersonalNumber: Span := Span(28, 42)

  /** The text of a line in a column range. */
  function Field(line: string, sp: Span): (r: string)
    requires sp.start <= sp.end <= |line|
    ensures |r| == sp.end - sp.start
  {
    line[sp.start..sp.end]
  }

  /** The decoded passport (the dictionary `get_passport_data` returns). */
  datatype Passport = Passport(
    surname: string,
    name: string,
    sex: string,
    dateOfBirth: string,
    nationality: string,
    passportType: string,
    issuingCountry: string,
    passportNumber: string,
    expirationDate: string,
    personalNumber: string)

  /** The only hard failure: the OCR engine returned fewer than two lines. */
  datatype DecodeError = TooFewLines

  /** A cleaned field of at most `n` characters. */
  predicate IsCleanField(s: string, n: nat) {
    IsCleanText(s) && |s| <= n
  }

  /** A date field: a DD/MM/YYYY rendering of a valid date, or (on parser
      failure) the cleaned six-column text. */
  predicate IsDateField(s: string) {
    ReadDate(s).Some? || IsCleanField(s, 6)
  }

  /** A country field: the display name of a table entry, or (on a miss) the
      cleaned three-column code. */
  predicate IsCountryField(s: string, table: seq<Country>) {
    IsCleanField(s, 3) || exists i :: 0 <= i < |table| && s == DisplayName(table[i])
  }

  /** The shape every decoded record has, whatever the OCR text. */
  predicate IsWellFormed(p: Passport, table: seq<Country>) {
    && NoFiller(p.surname) && IsTrimmed(p.surname)
    && NoFiller(p.name) && IsTrimmed(p.name)
    && (p.sex == "M" || p.sex == "F")
    && IsDateField(p.dateOfBirth)
    && IsDateField(p.expirationDate)
    && IsCountryField(p.nationality, table)
    && IsCountryField(p.issuingCountry, table)
    && IsCleanField(p.passportType, 2)
    && IsCleanField(p.passportNumber, 9)
    && IsCleanField(p.personalNumber, 14)
  }

  /** Cleaning a column range, then resolving it against the table. */
  function CountryField(line: string, sp: Span, table: seq<Country>): (r: string)
    requires sp.start <= sp.end <= |line| && sp.end - sp.start == 3
    ensures IsCountryField(r, table)
  {
    var code := Clean(Field(line, sp));
    CountryNameCases(table, code);
    CountryName(table, code)
  }

  /** Cleaning a column range, then parsing it as a date. */
  function DateField(line: string, sp: Span, parse: DateParser): (r: string)
    requires sp.start <= sp.end <= |line| && sp.end - sp.start == 6
    ensures IsDateField(r)
  {
    ParseDate(parse, Clean(Field(line, sp)))
  }

  /** Lines A and B after normalisation, to the record. Every slice is in
      bounds because normalisation makes both lines at least 44 long. */
  function DecodeLines(lineA: string, lineB: string, table: seq<Country>, parse: DateParser): (p: Passport)
    ensures IsWellFormed(p, table)
  {
    var a := NormalizeLine(lineA);
    var b := NormalizeLine(lineB);
    var n := SplitName(Field(a, NameZone));
    Passport(
      surname := n.surname,
      name := n.given,
      sex := GetSex(Clean(Field(b, SexCode))),
      dateOfBirth := DateField(b, BirthDate, parse),
      nationality := CountryField(b, NationalityCode, table),
      passportType := Clean(Field(a, DocumentCode)),
      issuingCountry := CountryField(a, IssuingState, table),
      passportNumber := Clean(Field(b, DocumentNumber)),
      expirationDate := DateField(b, ExpiryDate, parse),
      personalNumber := Clean(Field(b, PersonalNumber)))
  }

  /** The decoder on the OCR output: fails exactly when there are fewer than
      two lines; otherwise decodes the first two (any further lines are
      ignored) into a well-formed record. */
  function Decode(ocr: seq<string>, table: seq<Country>, parse: DateParser): (r: Result<Passport, DecodeError>)
    ensures r.Failure? <==> |ocr| < 2
    ensures r.Failure? ==> r.error == TooFewLines
    ensures r.Success? ==> IsWellFormed(r.value, table)
  {
    if |ocr| < 2 then Failure(TooFewLines)
    else Success(DecodeLines(ocr[0], ocr[1], table, parse))
  }

  /** Columns of line B that hold check digits. */
  predicate IsCheckDigitColumn(i: int) {
    i == 9 || i == 19 || i == 27 || i == 42 || i == 43
  }

  /** The record depends only on the first 44 columns of line A and on the
      non-check-digit columns among the first 44 of line B (after
      normalisation): check digits are never read, nor is anything an
      over-long OCR line carries past column 44. */
  lemma OnlyFieldColumnsMatter(a1: string, a2: string, b1: string, b2: string,
                               table: seq<Country>, parse: DateParser)
    requires forall i :: 0 <= i < LineWidth ==> NormalizeLine(a1)[i] == NormalizeLine(a2)[i]
    requires forall i :: 0 <= i < LineWidth && !IsCheckDigitColumn(i) ==>
      NormalizeLine(b1)[i] == NormalizeLine(b2)[i]
    ensures DecodeLines(a1, b1, table, parse) == DecodeLines(a2, b2, table, parse)
  {
    var x1, x2 := NormalizeLine(a1), NormalizeLine(a2);
    var y1, y2 := NormalizeLine(b1), NormalizeLine(b2);
    assert Field(x1, NameZone) == Field(x2, NameZone);
    assert Field(x1, DocumentCode) == Field(x2, DocumentCode);
    assert Field(x1, IssuingState) == Field(x2, IssuingState);
    assert Field(y1, DocumentNumber) == Field(y2, DocumentNumber);
    assert Field(y1, NationalityCode) == Field(y2, NationalityCode);
    assert Field(y1, BirthDate) == Field(y2, BirthDate);
    assert Field(y1, SexCode) == Field(y2, SexCode);
    assert Field(y1, ExpiryDate) == Field(y2, ExpiryDate);
    assert Field(y1, PersonalNumber) == Field(y2, PersonalNumber);
  }

  /** Over-long OCR lines decode as their first 44 characters. */
  lemma ExtraColumnsIgnored(lineA: string, lineB: string, table: seq<Country>, parse: DateParser)
    requires |lineA| >= LineWidth && |lineB| >= LineWidth
    ensures DecodeLines(lineA, lineB, table, parse)
         == DecodeLines(lineA[..LineWidth], lineB[..LineWidth], table, parse)
  {
    NormalizeShape(lineA);
    NormalizeShape(lineB);
    NormalizeShape(lineA[..LineWidth]);
    NormalizeShape(lineB[..LineWidth]);
    OnlyFieldColumnsMatter(lineA, lineA[..LineWidth], lineB, lineB[..LineWidth], table, parse);
  }

  /** Overwriting a check digit of line B never changes the record. */
  lemma CheckDigitIgnored(lineA: string, lineB: string, i: nat, c: char,
                          table: seq<Country>, parse: DateParser)
    requires i < |lineB| && IsCheckDigitColumn(i)
    ensures DecodeLines(lineA, lineB[i := c], table, parse) == DecodeLines(lineA, lineB, table, parse)
  {
    NormalizeShape(lineB);
    NormalizeShape(lineB[i := c]);
    OnlyFieldColumnsMatter(lineA, lineA, lineB[i := c], lineB, table, parse);
  }
}
