/** The country resolver `get_country_name` (main.py): a linear search of the
    country-code table, which the program loads once from `country_codes.json`
    and which is passed in here as an immutable sequence. */
module Countries {
  import opened Ascii
  import opened Wrappers

  /** One table entry, a JSON object whose `alpha-3` and `name` keys may be
      missing (`dict.get` then yields None). */
  datatype Country = Country(alpha3: Option<string>, name: Option<string>)

  /** `country.get('name', '').upper()`: the entry's name, upper-cased
      character by character, or the empty string when the name is missing. */
  function DisplayName(c: Country): (r: string)
    ensures c.name.None? ==> r == ""
    ensures c.name.Some? ==> |r| == |c.name.value|
    ensures c.name.Some? ==> forall i :: 0 <= i < |r| ==> r[i] == ToUpper(c.name.value[i])
    ensures IsUpperCase(r)
  {
    Upper(c.name.GetOr(""))
  }

  /** Entry `i` is the first one whose alpha-3 code equals `code`. */
  predicate FirstMatch(table: seq<Country>, code: string, i: int) {
    0 <= i < |table| && table[i].alpha3 == Some(code) &&
    forall j :: 0 <= j < i ==> table[j].alpha3 != Some(code)
  }

  /** `get_country_name`: the upper-cased name of the first entry with this
      alpha-3 code; the code itself when no entry has it. */
  function CountryName(table: seq<Country>, code: string): (r: string)
    ensures forall i :: FirstMatch(table, code, i) ==> r == DisplayName(table[i])
    ensures (forall i :: 0 <= i < |table| ==> table[i].alpha3 != Some(code)) ==> r == code
  {
    if table == [] then code
    else if table[0].alpha3 == Some(code) then DisplayName(table[0])
    else
      var r := CountryName(table[1..], code);
      assert forall i :: FirstMatch(table, code, i) ==> FirstMatch(table[1..], code, i - 1);
      r
  }

  /** A resolved country is either the code passed through or the display name
      of some entry carrying that code; either way it is upper-case whenever
      the code is. */
  lemma {:induction false} CountryNameCases(table: seq<Country>, code: string)
    ensures CountryName(table, code) == code ||
      exists i :: 0 <= i < |table| && table[i].alpha3 == Some(code) &&
        CountryName(table, code) == DisplayName(table[i])
    ensures IsUpperCase(code) ==> IsUpperCase(CountryName(table, code))
  {
    if table != [] && table[0].alpha3 != Some(code) {
      CountryNameCases(table[1..], code);
      if CountryName(table, code) != code {
        var i :| 0 <= i < |table[1..]| && table[1..][i].alpha3 == Some(code) &&
          CountryName(table[1..], code) == DisplayName(table[1..][i]);
        assert table[i + 1] == table[1..][i];
      }
    }
    if table != [] {
      UpperProperties(table[0].name.GetOr(""));
    }
  }
}
