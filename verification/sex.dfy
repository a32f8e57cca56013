/** The sex decoder `get_sex` (main.py). */
module Sex {
  import opened Ascii
  import opened Cleaning

  /** `get_sex`: upper-case the code; `M` and `F` pass through, the digit `0`
      (a common OCR misreading) counts as `M`, and everything else, including
      the unspecified codes `X` and `<` and the empty string, falls back to `F`. */
  function GetSex(code: string): (r: string)
    ensures r == "M" || r == "F"
    ensures r == "M" <==> Upper(code) == "M" || Upper(code) == "0"
  {
    var c := Upper(code);
    if c == "M" || c == "F" then c
    else if c == "0" then "M"
    else "F"
  }

  /** The sex field as the decoder computes it from the character at column 20
      of line B: `M` exactly for `M`, `m` and `0`, otherwise `F`; in particular
      the filler `<` (cleaned to the empty string) and `X` give `F`. */
  lemma SexOfColumn(c: char)
    ensures GetSex(Clean([c])) == if c == 'M' || c == 'm' || c == '0' then "M" else "F"
    ensures GetSex(Clean(['<'])) == "F" && GetSex(Clean(['X'])) == "F"
  {
  }
}
