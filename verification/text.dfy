/**
 String helpers the registration flow relies on: the lower-casing applied to
 case-insensitive fields and the "blank" test used by presence validation.
 */
module Text {

  predicate IsUpper(c: char) {
    'A' <= c <= 'Z'
  }

  /** Whitespace as recognised by the blank test: the Unicode White_Space characters */
  predicate IsSpace(c: char) {
    || '\t' <= c <= '\r'
    || c == ' ' || c == '\U{0085}' || c == '\U{00A0}' || c == '\U{1680}'
    || '\U{2000}' <= c <= '\U{200A}'
    || c == '\U{2028}' || c == '\U{2029}' || c == '\U{202F}' || c == '\U{205F}' || c == '\U{3000}'
  }

  /** A string is blank when it is empty or holds only whitespace */
  function Blank(s: string): (b: bool)
    ensures s == [] ==> b
    ensures b <==> forall c :: c in s ==> IsSpace(c)
  {
    forall i :: 0 <= i < |s| ==> IsSpace(s[i])
  }

  /** Two characters are equal, or the same letter in upper and lower case */
  predicate SameUpToCase(x: char, y: char) {
    || x == y
    || (IsUpper(x) && y as int == x as int + 32)
    || (IsUpper(y) && x as int == y as int + 32)
  }

  /** Lower-cases one ASCII letter; every other character is left alone */
  function LowerChar(c: char): (d: char)
    ensures !IsUpper(d)
    ensures IsUpper(c) ==> d as int == c as int + 32
    ensures !IsUpper(c) ==> d == c
  {
    if IsUpper(c) then (c as int + 32) as char else c
  }

  /** Lower-cases a whole string, character by character */
  function Downcase(s: string): (r: string)
    ensures |r| == |s|
    ensures forall i :: 0 <= i < |s| ==> r[i] == LowerChar(s[i])
  {
    seq(|s|, i requires 0 <= i < |s| => LowerChar(s[i]))
  }

  /** Lower-casing twice is lower-casing once */
  lemma DowncaseIdempotent(s: string)
    ensures Downcase(Downcase(s)) == Downcase(s)
  {
  }

  /** A string with no upper-case letter is its own lower-case form */
  lemma DowncaseOfLowerIsIdentity(s: string)
    requires forall i :: 0 <= i < |s| ==> !IsUpper(s[i])
    ensures Downcase(s) == s
  {
  }

  /** Two strings that differ only in letter case have the same lower-case form */
  lemma DowncaseIgnoresCase(a: string, b: string)
    requires |a| == |b|
    requires forall i :: 0 <= i < |a| ==> SameUpToCase(a[i], b[i])
    ensures Downcase(a) == Downcase(b)
  {
  }

  /** Lower-casing neither creates nor removes blankness */
  lemma DowncasePreservesBlank(s: string)
    ensures Blank(Downcase(s)) <==> Blank(s)
  {
  }

  /** The mixed-case address of the case-insensitivity scenario */
  lemma MixedCaseEmailExample()
    ensures Downcase("miaWallace@wallaceinc.com") == "miawallace@wallaceinc.com"
  {
  }
}
