/** The name splitter of the decoder (main.py): the 39-character name zone of
    line A is split on its first double filler `<<` into the primary identifier
    (surname) and the secondary identifier (given names); inside each part every
    filler becomes one space and surrounding whitespace is stripped (ICAO Doc
    9303 Part 3, section 4.6, uses the filler as the word delimiter). */
module Names {
  import opened Ascii
  import opened Padding
  import opened Wrappers

  /** The two-character name separator `<<`. */
  const Separator: string := [Filler, Filler]

  /** `s` holds the separator at index `i`. */
  predicate SeparatorAt(s: string, i: int) {
    0 <= i && i + 1 < |s| && s[i] == Filler && s[i + 1] == Filler
  }

  predicate HasSeparator(s: string) {
    exists i :: 0 <= i < |s| && SeparatorAt(s, i)
  }

  /** No filler character anywhere in `s`. */
  predicate NoFiller(s: string) {
    forall i :: 0 <= i < |s| ==> s[i] != Filler
  }

  /** Only whitespace in `s`. */
  predicate AllSpace(s: string) {
    forall i :: 0 <= i < |s| ==> IsSpace(s[i])
  }

  /** Neither a leading nor a trailing whitespace character. */
  predicate IsTrimmed(s: string) {
    s == [] || (!IsSpace(s[0]) && !IsSpace(s[|s| - 1]))
  }

  /** Only filler and whitespace in `s`: a name part that strips to nothing. */
  predicate IsBlankZone(s: string) {
    forall i :: 0 <= i < |s| ==> s[i] == Filler || IsSpace(s[i])
  }

  /** The first separator at or after index `k`, scanning left to right as
      `str.split` does. */
  function FindSeparatorFrom(s: string, k: nat): (r: Option<nat>)
    requires k <= |s|
    ensures r.Some? ==> k <= r.value && SeparatorAt(s, r.value)
    ensures r.Some? ==> forall j :: k <= j < r.value ==> !SeparatorAt(s, j)
    ensures r.None? <==> forall j :: k <= j ==> !SeparatorAt(s, j)
    decreases |s| - k
  {
    if k + 1 >= |s| then None
    else if SeparatorAt(s, k) then Some(k)
    else FindSeparatorFrom(s, k + 1)
  }

  function FindSeparator(s: string): (r: Option<nat>)
    ensures r.None? <==> !HasSeparator(s)
    ensures r.Some? ==> SeparatorAt(s, r.value)
    ensures r.Some? ==> forall j :: 0 <= j < r.value ==> !SeparatorAt(s, j)
  {
    FindSeparatorFrom(s, 0)
  }

  /** `s.split('<<', 1)`: the whole string when it holds no separator, else the
      text before the first separator and the text after it. */
  function SplitOnce(s: string): (parts: seq<string>)
    ensures |parts| == 1 || |parts| == 2
    ensures |parts| == 1 <==> !HasSeparator(s)
  {
    match FindSeparator(s)
    case None => [s]
    case Some(i) => [s[..i], s[i + 2..]]
  }

  /** Splitting loses nothing: joining the parts back with the separator gives
      the input; the first part is cut at the FIRST separator (it holds none, and
      it does not end in a filler that would make an earlier one); and these
      facts determine the split uniquely. */
  lemma SplitOnceInverse(s: string)
    ensures |SplitOnce(s)| == 1 ==> SplitOnce(s)[0] == s
    ensures |SplitOnce(s)| == 2 ==> SplitOnce(s)[0] + Separator + SplitOnce(s)[1] == s
    ensures |SplitOnce(s)| == 2 ==> !HasSeparator(SplitOnce(s)[0] + [Filler])
  {
    var parts := SplitOnce(s);
    if |parts| == 2 {
      var i := FindSeparator(s).value;
      assert s[..i] + Separator + s[i + 2..] == s;
      var a := s[..i] + [Filler];
      forall j | 0 <= j < |a| && SeparatorAt(a, j) ensures SeparatorAt(s, j) {
      }
    }
  }

  /** The split is the only decomposition `a + "<<" + b` whose first part does
      not contain (or end into) a separator. */
  lemma {:induction false} SplitOnceUnique(s: string, a: string, b: string)
    requires s == a + Separator + b
    requires !HasSeparator(a + [Filler])
    ensures SplitOnce(s) == [a, b]
  {
    assert SeparatorAt(s, |a|);
    var i := FindSeparator(s).value;
    if i < |a| {
      assert SeparatorAt(a + [Filler], i) by {
        assert (a + [Filler])[i] == s[i];
        assert (a + [Filler])[i + 1] == s[i + 1];
      }
    }
    assert i == |a|;
    assert s[..i] == a;
    assert s[i + 2..] == b;
  }

  /** `s.replace('<', ' ')`: each filler becomes exactly one space; runs of
      fillers are not collapsed. */
  function Defill(s: string): (r: string)
    ensures |r| == |s|
    ensures forall i :: 0 <= i < |s| ==> r[i] == if s[i] == Filler then ' ' else s[i]
    ensures NoFiller(r)
  {
    seq(|s|, i requires 0 <= i < |s| => if s[i] == Filler then ' ' else s[i])
  }

  /** Number of whitespace characters at the start of `s`. */
  function LeadingSpaces(s: string): (n: nat)
    ensures n <= |s| && AllSpace(s[..n])
    ensures n < |s| ==> !IsSpace(s[n])
  {
    if s == [] || !IsSpace(s[0]) then 0 else 1 + LeadingSpaces(s[1..])
  }

  /** Number of whitespace characters at the end of `s`. */
  function TrailingSpaces(s: string): (n: nat)
    ensures n <= |s| && AllSpace(s[|s| - n..])
    ensures n < |s| ==> !IsSpace(s[|s| - n - 1])
  {
    if s == [] || !IsSpace(s[|s| - 1]) then 0 else 1 + TrailingSpaces(s[..|s| - 1])
  }

  /** `s.strip()`: the text between the leading and the trailing whitespace. */
  function Strip(s: string): (r: string)
    ensures IsTrimmed(r)
    ensures |r| <= |s|
    ensures forall c :: c in r ==> c in s
    ensures r == [] <==> AllSpace(s)
  {
    var lo := LeadingSpaces(s);
    var t := s[lo..];
    var r := t[..|t| - TrailingSpaces(t)];
    assert r == [] ==> AllSpace(s) by {
      if r == [] {
        forall i | 0 <= i < |s| ensures IsSpace(s[i]) {
          if i < lo { assert s[i] == s[..lo][i]; }
        }
      }
    }
    r
  }

  /** Strip is characterised by its result alone: whenever `s` is a trimmed
      middle part surrounded by whitespace only, Strip returns that middle. */
  lemma StripUnique(s: string, a: string, m: string, b: string)
    requires s == a + m + b
    requires AllSpace(a) && AllSpace(b) && IsTrimmed(m)
    ensures Strip(s) == m
  {
    var lo := LeadingSpaces(s);
    if m == [] {
      assert AllSpace(s) by {
        forall i | 0 <= i < |s| ensures IsSpace(s[i]) {
          if i < |a| { assert s[i] == a[i]; } else { assert s[i] == b[i - |a|]; }
        }
      }
    } else {
      assert s[|a|] == m[0];
      assert lo == |a|;
      var t := s[lo..];
      assert t == m + b;
      var n := TrailingSpaces(t);
      assert t[|t| - |b| - 1] == m[|m| - 1];
      assert n == |b|;
      assert t[..|t| - n] == m;
    }
  }

  /** Stripping twice is stripping once. */
  lemma StripIdempotent(s: string)
    ensures Strip(Strip(s)) == Strip(s)
  {
  }

  /** The decoded (surname, given names) pair of a name zone. */
  datatype PersonName = PersonName(surname: string, given: string)

  /** `split('<<', 1)`, then `replace('<', ' ').strip()` on each part; the given
      names are empty when there is no second part. */
  function SplitName(zone: string): (n: PersonName)
    ensures NoFiller(n.surname) && NoFiller(n.given)
    ensures IsTrimmed(n.surname) && IsTrimmed(n.given)
    ensures !HasSeparator(zone) ==> n.given == []
  {
    var parts := SplitOnce(zone);
    var surname := Strip(Defill(parts[0]));
    var given := if |parts| > 1 then Strip(Defill(parts[1])) else [];
    assert NoFiller(surname) by {
      forall i | 0 <= i < |surname| ensures surname[i] != Filler {
        assert surname[i] in surname;
      }
    }
    assert NoFiller(given) by {
      forall i | 0 <= i < |given| ensures given[i] != Filler {
        assert given[i] in given;
      }
    }
    PersonName(surname, given)
  }

  /** A zone with a separator: the surname comes from the text before the first
      separator and the given names from all the text after it, each with every
      filler turned into one space and the surrounding whitespace removed. */
  lemma SplitNameAt(zone: string, a: string, b: string)
    requires zone == a + Separator + b
    requires !HasSeparator(a + [Filler])
    ensures SplitName(zone) == PersonName(Strip(Defill(a)), Strip(Defill(b)))
  {
    SplitOnceUnique(zone, a, b);
  }

  /** A zone without a separator is all surname. */
  lemma SplitNameWhole(zone: string)
    requires !HasSeparator(zone)
    ensures SplitName(zone) == PersonName(Strip(Defill(zone)), [])
  {
  }

  /** The given names come out empty exactly when the zone has no separator or
      everything after its first separator is filler or whitespace. */
  lemma GivenEmptyIff(zone: string)
    ensures SplitName(zone).given == [] <==>
      (FindSeparator(zone).None? || IsBlankZone(zone[FindSeparator(zone).value + 2..]))
  {
  }

  /** Stripping a string that has nothing to strip leaves it unchanged, and
      trailing whitespace is all that goes. */
  lemma StripTrailing(m: string, k: nat)
    requires IsTrimmed(m)
    ensures Strip(m + seq(k, _ => ' ')) == m
  {
    var spaces := seq(k, _ => ' ');
    assert m + spaces == [] + m + spaces;
    StripUnique(m + spaces, [], m, spaces);
  }

  /** Filler padding turns into the same number of spaces. */
  lemma DefillPadded(s: string, k: nat)
    ensures Defill(s + seq(k, _ => Filler)) == Defill(s) + seq(k, _ => ' ')
  {
  }

  /** The usual shape of a name zone, `SURNAME<<GIVEN<NAMES<<<...`, where the
      surname part has single fillers between its words: the surname and the
      given names come back with each filler turned into one space, whatever
      number of trailing fillers pads the zone. */
  lemma StandardZone(surname: string, given: string, k: nat)
    requires !HasSeparator(surname + [Filler])
    requires IsTrimmed(Defill(surname)) && IsTrimmed(Defill(given))
    ensures SplitName(surname + Separator + given + seq(k, _ => Filler))
         == PersonName(Defill(surname), Defill(given))
  {
    var b := given + seq(k, _ => Filler);
    assert surname + Separator + given + seq(k, _ => Filler) == surname + Separator + b;
    SplitNameAt(surname + Separator + b, surname, b);
    StripTrailing(Defill(surname), 0);
    assert Defill(surname) + seq(0, _ => ' ') == Defill(surname);
    DefillPadded(given, k);
    StripTrailing(Defill(given), k);
  }
}
