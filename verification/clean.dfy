/** The field cleaner `clean` (main.py): keep the alphanumeric characters of a
    field, in order, and upper-case them. */
module Cleaning {
  import opened Ascii

  /** A cleaned field: only `A`-`Z` and `0`-`9`. */
  predicate IsCleanText(s: string) {
    forall i :: 0 <= i < |s| ==> IsDigit(s[i]) || IsUpperLetter(s[i])
  }

  /** `''.join(i for i in text if i.isalnum()).upper()` */
  function Clean(text: string): (r: string)
    ensures IsCleanText(r)
    ensures |r| <= |text|
    ensures |r| == |text| <==> (forall i :: 0 <= i < |text| ==> IsAlnum(text[i]))
  {
    if text == [] then []
    else (if IsAlnum(text[0]) then [ToUpper(text[0])] else []) + Clean(text[1..])
  }

  /** Cleaning distributes over concatenation: each character is kept or
      dropped on its own, and the kept ones stay in their original order. */
  lemma {:induction false} CleanAppend(a: string, b: string)
    ensures Clean(a + b) == Clean(a) + Clean(b)
  {
    if a == [] {
      assert a + b == b;
    } else {
      assert (a + b)[1..] == a[1..] + b;
      CleanAppend(a[1..], b);
    }
  }

  /** What cleaning does to a single character: an alphanumeric one is kept
      and upper-cased, anything else (filler, space, punctuation) is dropped.
      Together with CleanAppend this determines Clean completely. */
  lemma CleanChar(c: char)
    ensures IsAlnum(c) ==> Clean([c]) == [ToUpper(c)]
    ensures !IsAlnum(c) ==> Clean([c]) == []
  {
  }

  /** The strings cleaning leaves unchanged are exactly the clean ones. */
  lemma {:induction false} CleanFixedPoint(s: string)
    ensures Clean(s) == s <==> IsCleanText(s)
  {
    if IsCleanText(s) && s != [] {
      assert IsCleanText(s[1..]) by {
        forall i | 0 <= i < |s[1..]| ensures IsDigit(s[1..][i]) || IsUpperLetter(s[1..][i]) {
          assert s[1..][i] == s[i + 1];
        }
      }
      CleanFixedPoint(s[1..]);
      assert s == [s[0]] + s[1..];
    }
  }

  /** Cleaning twice is cleaning once. */
  lemma CleanIdempotent(s: string)
    ensures Clean(Clean(s)) == Clean(s)
  {
    CleanFixedPoint(Clean(s));
  }

  /** Cleaning an already upper-cased line gives the same field as cleaning the
      raw text: the decoder upper-cases each line before slicing, which cannot
      change a cleaned field. */
  lemma {:induction false} CleanIgnoresCase(s: string)
    ensures Clean(Upper(s)) == Clean(s)
  {
    if s != [] {
      assert Upper(s)[1..] == Upper(s[1..]);
      CleanIgnoresCase(s[1..]);
    }
  }
}
