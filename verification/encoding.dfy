/** A reference writer for TD3 machine-readable zones (ICAO Doc 9303 Part 4,
    section 4.2.2), the inverse direction of the decoder: it lays the fields of
    a passport out on two 44-character lines. It exists to state what the
    decoder recovers from a correctly written zone. Check digits are not
    computed: they are carried as given, and the decoder never reads them. */
module Encoding {
  import opened Ascii
  import opened Cleaning
  import opened Padding
  import opened Names
  import opened Sex
  import opened Countries
  import opened Dates
  import opened Decoder

  /** The printed fields of a TD3 passport. */
  datatype MrzData = MrzData(
    documentCode: string,
    issuingState: string,
    surname: string,
    givenNames: string,
    documentNumber: string,
    nationality: string,
    birthDate: string,
    sex: char,
    expiryDate: string,
    personalNumber: string,
    checkDigits: string)

  /** Name text: capital letters and spaces between words. */
  predicate IsNameText(s: string) {
    forall i :: 0 <= i < |s| ==> IsUpperLetter(s[i]) || s[i] == ' '
  }

  /** No two spaces in a row (a double filler would end the surname early). */
  predicate IsSingleSpaced(s: string) {
    forall i :: 0 <= i < |s| - 1 ==> s[i] != ' ' || s[i + 1] != ' '
  }

  /** Fields that fit their columns and use the MRZ character set. */
  predicate IsValid(m: MrzData) {
    && IsCleanField(m.documentCode, 2)
    && IsCleanField(m.issuingState, 3)
    && IsNameText(m.surname) && IsTrimmed(m.surname) && IsSingleSpaced(m.surname)
    && IsNameText(m.givenNames) && IsTrimmed(m.givenNames)
    && |m.surname| + 2 + |m.givenNames| <= 39
    && IsCleanField(m.documentNumber, 9)
    && IsCleanField(m.nationality, 3)
    && IsCleanField(m.birthDate, 6)
    && (m.sex == 'M' || m.sex == 'F' || m.sex == Filler)
    && IsCleanField(m.expiryDate, 6)
    && IsCleanField(m.personalNumber, 14)
    && |m.checkDigits| == 5 && IsCleanText(m.checkDigits)
  }

  /** A field written into `width` columns, padded with filler. */
  function Column(s: string, width: nat): (r: string)
    requires |s| <= width
    ensures |r| == width
  {
    LeftJustify(s, width, Filler)
  }

  /** Name text as written in the zone: spaces become fillers. */
  function Fill(s: string): (r: string)
    ensures |r| == |s|
    ensures forall i :: 0 <= i < |s| ==> r[i] == if s[i] == ' ' then Filler else s[i]
  {
    seq(|s|, i requires 0 <= i < |s| => if s[i] == ' ' then Filler else s[i])
  }

  function LineA(m: MrzData): (r: string)
    requires IsValid(m)
    ensures |r| == LineWidth
  {
    Column(m.documentCode, 2) + Column(m.issuingState, 3)
      + Column(Fill(m.surname) + Separator + Fill(m.givenNames), 39)
  }

  function LineB(m: MrzData): (r: string)
    requires IsValid(m)
    ensures |r| == LineWidth
  {
    Column(m.documentNumber, 9) + [m.checkDigits[0]] + Column(m.nationality, 3)
      + Column(m.birthDate, 6) + [m.checkDigits[1]] + [m.sex]
      + Column(m.expiryDate, 6) + [m.checkDigits[2]]
      + Column(m.personalNumber, 14) + [m.checkDigits[3], m.checkDigits[4]]
  }

  /** Characters of a written zone. */
  predicate IsMrzText(s: string) {
    forall i :: 0 <= i < |s| ==> IsUpperLetter(s[i]) || IsDigit(s[i]) || s[i] == Filler
  }

  /** A full-width zone line is left as it is by normalisation. */
  lemma NormalizeWritten(s: string)
    requires IsMrzText(s) && |s| == LineWidth
    ensures NormalizeLine(s) == s
  {
  }

  /** Text with no alphanumeric character cleans to nothing. */
  lemma {:induction false} CleanNoAlnum(s: string)
    requires forall i :: 0 <= i < |s| ==> !IsAlnum(s[i])
    ensures Clean(s) == []
  {
    if s != [] {
      CleanNoAlnum(s[1..]);
    }
  }

  /** Cleaning a padded column gives back the field that was written. */
  lemma CleanColumn(s: string, width: nat)
    requires IsCleanText(s) && |s| <= width
    ensures Clean(Column(s, width)) == s
  {
    var pad := seq(width - |s|, _ => Filler);
    assert Column(s, width) == s + pad;
    CleanAppend(s, pad);
    CleanNoAlnum(pad);
    CleanFixedPoint(s);
  }

  /** A written single-spaced, trimmed surname neither contains the separator
      nor runs into it by ending in a filler. */
  lemma FilledSurnameEndsAtSeparator(surname: string)
    requires IsNameText(surname) && IsTrimmed(surname) && IsSingleSpaced(surname)
    ensures !HasSeparator(Fill(surname) + [Filler])
  {
  }

  /** The written name zone, decoded, gives the two names back. */
  lemma NameZoneRoundTrip(surname: string, given: string)
    requires IsNameText(surname) && IsTrimmed(surname) && IsSingleSpaced(surname)
    requires IsNameText(given) && IsTrimmed(given)
    requires |surname| + 2 + |given| <= 39
    ensures SplitName(Column(Fill(surname) + Separator + Fill(given), 39)) == PersonName(surname, given)
  {
    var s, g := Fill(surname), Fill(given);
    var k := 39 - (|s| + 2 + |g|);
    assert Column(s + Separator + g, 39) == s + Separator + g + seq(k, _ => Filler);
    assert Defill(s) == surname;
    assert Defill(g) == given;
    FilledSurnameEndsAtSeparator(surname);
    StandardZone(s, g, k);
  }

  lemma LineAIsMrzText(m: MrzData)
    requires IsValid(m)
    ensures IsMrzText(LineA(m))
  {
  }

  lemma LineBIsMrzText(m: MrzData)
    requires IsValid(m)
    ensures IsMrzText(LineB(m))
  {
  }

  /** The columns of line A hold the written fields. */
  lemma LineAColumns(m: MrzData)
    requires IsValid(m)
    ensures Field(LineA(m), DocumentCode) == Column(m.documentCode, 2)
    ensures Field(LineA(m), IssuingState) == Column(m.issuingState, 3)
    ensures Field(LineA(m), NameZone) == Column(Fill(m.surname) + Separator + Fill(m.givenNames), 39)
  {
  }

  /** The columns of line B hold the written fields. */
  lemma LineBColumns(m: MrzData)
    requires IsValid(m)
    ensures Field(LineB(m), DocumentNumber) == Column(m.documentNumber, 9)
    ensures Field(LineB(m), NationalityCode) == Column(m.nationality, 3)
    ensures Field(LineB(m), BirthDate) == Column(m.birthDate, 6)
    ensures Field(LineB(m), SexCode) == [m.sex]
    ensures Field(LineB(m), ExpiryDate) == Column(m.expiryDate, 6)
    ensures Field(LineB(m), PersonalNumber) == Column(m.personalNumber, 14)
  {
  }

  /** Decoding a correctly written zone recovers every printed field: the
      names, document code, document number and personal number exactly, the
      sex as `M` or (for `F` and the unspecified `<`) `F`, the two country
      codes as resolved by the table and the two dates as parsed; whatever the
      check digits are. */
  lemma DecodeWritten(m: MrzData, table: seq<Country>, parse: DateParser)
    requires IsValid(m)
    ensures DecodeLines(LineA(m), LineB(m), table, parse) == Passport(
      surname := m.surname,
      name := m.givenNames,
      sex := if m.sex == 'M' then "M" else "F",
      dateOfBirth := ParseDate(parse, m.birthDate),
      nationality := CountryName(table, m.nationality),
      passportType := m.documentCode,
      issuingCountry := CountryName(table, m.issuingState),
      passportNumber := m.documentNumber,
      expirationDate := ParseDate(parse, m.expiryDate),
      personalNumber := m.personalNumber)
  {
    LineAIsMrzText(m);
    LineBIsMrzText(m);
    NormalizeWritten(LineA(m));
    NormalizeWritten(LineB(m));
    LineAColumns(m);
    LineBColumns(m);
    NameZoneRoundTrip(m.surname, m.givenNames);
    SexOfColumn(m.sex);
    CleanColumn(m.documentCode, 2);
    CleanColumn(m.issuingState, 3);
    CleanColumn(m.documentNumber, 9);
    CleanColumn(m.nationality, 3);
    CleanColumn(m.birthDate, 6);
    CleanColumn(m.expiryDate, 6);
    CleanColumn(m.personalNumber, 14);
  }
}
