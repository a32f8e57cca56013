/** Worked decodings: a well-formed TD3 passport, and an OCR result whose two
    lines came back empty. */
module Scenarios {
  import opened Wrappers
  import opened Ascii
  import opened Padding
  import opened Cleaning
  import opened Names
  import opened Sex
  import opened Countries
  import opened Dates
  import opened Decoder
  import opened Encoding

  /** A passport of TEMGOUA, ANDRE, issued by the United States; check digits
      as printed. */
  const Sample: MrzData := MrzData(
    documentCode := "P",
    issuingState := "USA",
    surname := "TEMGOUA",
    givenNames := "ANDRE",
    documentNumber := "123456789",
    nationality := "USA",
    birthDate := "900115",
    sex := 'M',
    expiryDate := "300101",
    personalNumber := "",
    checkDigits := "75904")

  const SampleTable: seq<Country> := [Country(Some("USA"), Some("United States"))]

  /** A parser that knows the two dates of the sample and nothing else. */
  function SampleParser(s: string): Option<Date> {
    if s == "900115" then Some(CalendarDate(1990, 1, 15))
    else if s == "300101" then Some(CalendarDate(2030, 1, 1))
    else None
  }

  lemma SampleIsValid()
    ensures IsValid(Sample)
  {
  }

  /** The sample's two printed OCR lines decode to the expected record. */
  lemma SampleDecodes()
    ensures Decode(["P<USATEMGOUA<<ANDRE<<<<<<<<<<<<<<<<<<<<<<<<<",
                    "1234567897USA9001155M3001019<<<<<<<<<<<<<<04"],
                   SampleTable, SampleParser) == Success(Passport(
      surname := "TEMGOUA",
      name := "ANDRE",
      sex := "M",
      dateOfBirth := "15/01/1990",
      nationality := "UNITED STATES",
      passportType := "P",
      issuingCountry := "UNITED STATES",
      passportNumber := "123456789",
      expirationDate := "01/01/2030",
      personalNumber := ""))
  {
    SampleLineA();
    SampleLineB();
    SampleIsValid();
    DecodeWritten(Sample, SampleTable, SampleParser);
    SampleCountry();
    SampleDates();
  }

  lemma SampleCountry()
    ensures CountryName(SampleTable, "USA") == "UNITED STATES"
  {
  }

  lemma SampleDates()
    ensures ParseDate(SampleParser, "900115") == "15/01/1990"
    ensures ParseDate(SampleParser, "300101") == "01/01/2030"
  {
    assert SampleParser("900115") == Some(CalendarDate(1990, 1, 15));
    BirthDateText();
    assert SampleParser("300101") == Some(CalendarDate(2030, 1, 1));
    ExpiryDateText();
  }

  lemma BirthDateText()
    ensures FormatDate(CalendarDate(1990, 1, 15)) == "15/01/1990"
  {
    DayMonthDigits();
    YearDigits();
  }

  lemma ExpiryDateText()
    ensures FormatDate(CalendarDate(2030, 1, 1)) == "01/01/2030"
  {
    DayMonthDigits();
    YearDigits();
  }

  lemma DayMonthDigits()
    ensures Decimal(15, 2) == "15" && Decimal(1, 2) == "01"
  {
  }

  lemma YearDigits()
    ensures Decimal(1990, 4) == "1990" && Decimal(2030, 4) == "2030"
  {
  }

  /** The sample's lines are the familiar printed ones. */
  lemma SampleLineA()
    ensures LineA(Sample) == "P<USATEMGOUA<<ANDRE<<<<<<<<<<<<<<<<<<<<<<<<<"
  {
    SampleIsValid();
    var names := Fill("TEMGOUA") + Separator + Fill("ANDRE");
    assert LineA(Sample) == Column("P", 2) + Column("USA", 3) + Column(names, 39);
    SampleColumnsA();
    JoinA(Column("P", 2), Column("USA", 3), Column(names, 39));
  }

  lemma SampleColumnsA()
    ensures Column("P", 2) == "P<"
    ensures Column("USA", 3) == "USA"
    ensures Column(Fill("TEMGOUA") + Separator + Fill("ANDRE"), 39)
         == "TEMGOUA<<ANDRE<<<<<<<<<<<<<<<<<<<<<<<<<"
  {
    assert Fill("TEMGOUA") + Separator + Fill("ANDRE") == "TEMGOUA<<ANDRE" by {
      assert Fill("TEMGOUA") == "TEMGOUA";
      assert Fill("ANDRE") == "ANDRE";
    }
  }

  lemma JoinA(x: string, y: string, z: string)
    requires x == "P<" && y == "USA" && z == "TEMGOUA<<ANDRE<<<<<<<<<<<<<<<<<<<<<<<<<"
    ensures x + y + z == "P<USATEMGOUA<<ANDRE<<<<<<<<<<<<<<<<<<<<<<<<<"
  {
  }

  lemma SampleLineB()
    ensures LineB(Sample) == "1234567897USA9001155M3001019<<<<<<<<<<<<<<04"
  {
  }

  /** Two empty OCR lines still decode (they are padded to all-filler lines):
      every field comes out empty or, for sex, `F`; the dates and countries
      are whatever the parser and the table make of the empty string. */
  lemma EmptyLinesDecode(table: seq<Country>, parse: DateParser)
    ensures Decode(["", ""], table, parse) == Success(Passport(
      surname := "",
      name := "",
      sex := "F",
      dateOfBirth := ParseDate(parse, ""),
      nationality := CountryName(table, ""),
      passportType := "",
      issuingCountry := CountryName(table, ""),
      passportNumber := "",
      expirationDate := ParseDate(parse, ""),
      personalNumber := ""))
  {
    var blank := seq(LineWidth, _ => Filler);
    assert NormalizeLine("") == blank by {
      assert Upper("") == "";
    }
    forall sp: Span | sp.start <= sp.end <= LineWidth
      ensures Clean(Field(blank, sp)) == []
    {
      CleanNoAlnum(Field(blank, sp));
    }
    var zone := Field(blank, NameZone);
    var rest := seq(37, _ => Filler);
    assert zone == [] + Separator + rest;
    SplitNameAt(zone, [], rest);
    assert AllSpace(Defill(rest));
    SexOfColumn(Filler);
  }
}
