/** The character classes and case mapping the decoder relies on (Python's
    `str.isalnum`, `str.isspace` and `str.upper`), restricted to ASCII, which is
    all the OCR engine is allowed to emit. */
module Ascii {

  predicate IsDigit(c: char) { '0' <= c <= '9' }

  predicate IsUpperLetter(c: char) { 'A' <= c <= 'Z' }

  predicate IsLowerLetter(c: char) { 'a' <= c <= 'z' }

  /** `c.isalnum()` for an ASCII character. */
  predicate IsAlnum(c: char) { IsDigit(c) || IsUpperLetter(c) || IsLowerLetter(c) }

  /** `c.isspace()` for an ASCII character: the space, the controls
      TAB, LF, VT, FF, CR (9..13) and the separators FS, GS, RS, US (28..31). */
  predicate IsSpace(c: char) {
    c == ' ' || 9 <= c as int <= 13 || 28 <= c as int <= 31
  }

  /** `c.upper()` for an ASCII character. */
  function ToUpper(c: char): (u: char)
    ensures IsLowerLetter(c) ==> IsUpperLetter(u) && u as int == c as int - 32
    ensures !IsLowerLetter(c) ==> u == c
  {
    if IsLowerLetter(c) then (c as int - 32) as char else c
  }

  /** `s.upper()`: every character mapped through ToUpper, nothing added or removed. */
  function Upper(s: string): (r: string)
    ensures |r| == |s|
    ensures forall i :: 0 <= i < |s| ==> r[i] == ToUpper(s[i])
  {
    seq(|s|, i requires 0 <= i < |s| => ToUpper(s[i]))
  }

  /** A string that `upper()` leaves alone. */
  predicate IsUpperCase(s: string) {
    forall i :: 0 <= i < |s| ==> !IsLowerLetter(s[i])
  }

  /** Upper-casing yields an upper-case string, so it is idempotent; and it
      never changes whether a character is alphanumeric or whitespace. */
  lemma UpperProperties(s: string)
    ensures IsUpperCase(Upper(s))
    ensures Upper(Upper(s)) == Upper(s)
    ensures IsUpperCase(s) <==> Upper(s) == s
    ensures forall i :: 0 <= i < |s| ==> (IsAlnum(Upper(s)[i]) <==> IsAlnum(s[i]))
    ensures forall i :: 0 <= i < |s| ==> (IsSpace(Upper(s)[i]) <==> IsSpace(s[i]))
  {
  }

}
