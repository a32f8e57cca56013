/** Line normalisation before slicing: `line.upper().ljust(44, '<')` (main.py). */
module Padding {
  import opened Ascii

  /** The MRZ filler character. */
  const Filler: char := '<'

  /** Width of a TD3 MRZ line (ICAO Doc 9303 Part 4, section 4.2.2). */
  const LineWidth: nat := 44

  /** Python's `s.ljust(width, fill)`. */
  function LeftJustify(s: string, width: nat, fill: char): (r: string)
    ensures |r| == if |s| < width then width else |s|
    ensures r[..|s|] == s
    ensures forall i :: |s| <= i < |r| ==> r[i] == fill
  {
    if |s| < width then s + seq(width - |s|, _ => fill) else s
  }

  /** One OCR line made ready for slicing: upper-cased, then padded with filler. */
  function NormalizeLine(line: string): (r: string)
    ensures |r| >= LineWidth
  {
    LeftJustify(Upper(line), LineWidth, Filler)
  }

  /** Normalisation never truncates: the line keeps its upper-cased original as
      a prefix, grows to exactly 44 characters when shorter, only by filler,
      and is upper-case throughout. */
  lemma NormalizeShape(line: string)
    ensures |NormalizeLine(line)| == if |line| < LineWidth then LineWidth else |line|
    ensures NormalizeLine(line)[..|line|] == Upper(line)
    ensures forall i :: |line| <= i < |NormalizeLine(line)| ==> NormalizeLine(line)[i] == Filler
    ensures IsUpperCase(NormalizeLine(line))
  {
  }

  /** Normalising a normalised line changes nothing. */
  lemma NormalizeIdempotent(line: string)
    ensures NormalizeLine(NormalizeLine(line)) == NormalizeLine(line)
  {
  }
}
