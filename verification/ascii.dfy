/** The two `str` methods the registry lookup relies on, restricted to ASCII
    case folding: `lower()` and `find()`. */
module Ascii {

  predicate IsUpper(ch: char) {
    'A' <= ch <= 'Z'
  }

  /** `ch.lower()` for ASCII: upper-case letters map to lower case, every
      other character is unchanged. */
  function FoldChar(ch: char): (r: char)
    ensures !IsUpper(r)
    ensures IsUpper(ch) ==> r as int == ch as int + 32
    ensures !IsUpper(ch) ==> r == ch
  {
    if IsUpper(ch) then (ch as int + 32) as char else ch
  }

  /** `s.lower()`. */
  function Lower(s: string): (t: string)
    ensures |t| == |s|
    ensures forall i :: 0 <= i < |s| ==> t[i] == FoldChar(s[i])
  {
    seq(|s|, i requires 0 <= i < |s| => FoldChar(s[i]))
  }

  /** No character of `s` is an ASCII upper-case letter. */
  predicate IsFolded(s: string) {
    forall i :: 0 <= i < |s| ==> !IsUpper(s[i])
  }

  /** Two strings that differ at most in the case of their letters. */
  predicate SameIgnoringCase(a: string, b: string) {
    |a| == |b| && forall i :: 0 <= i < |a| ==> FoldChar(a[i]) == FoldChar(b[i])
  }

  /** Lowering is the identity exactly on strings with no upper-case letter;
      in particular it is idempotent. */
  lemma LowerFixesFolded(s: string)
    ensures Lower(s) == s <==> IsFolded(s)
    ensures Lower(Lower(s)) == Lower(s)
  {
    if IsFolded(s) {
      assert forall i :: 0 <= i < |s| ==> Lower(s)[i] == s[i];
    }
    assert IsFolded(Lower(s));
    assert forall i :: 0 <= i < |s| ==> Lower(Lower(s))[i] == Lower(s)[i];
  }

  /** A string without upper-case letters is its own lower-case form. */
  lemma LowerOfFolded(s: string)
    requires IsFolded(s)
    ensures Lower(s) == s
  {
    LowerFixesFolded(s);
  }

  /** Strings equal up to letter case have the same lower-case form, and
      conversely. */
  lemma LowerEqualIffSameIgnoringCase(a: string, b: string)
    ensures Lower(a) == Lower(b) <==> SameIgnoringCase(a, b)
  {
    if SameIgnoringCase(a, b) {
      assert forall i :: 0 <= i < |a| ==> Lower(a)[i] == Lower(b)[i];
    }
    if Lower(a) == Lower(b) {
      assert forall i :: 0 <= i < |a| ==> FoldChar(a[i]) == Lower(a)[i];
    }
  }

  /** `needle` occurs in `hay` starting at position `i`. */
  predicate OccursAt(hay: string, needle: string, i: int) {
    0 <= i && i + |needle| <= |hay| && hay[i..i + |needle|] == needle
  }

  /** `hay.find(needle, start)` for `0 <= start <= len(hay)`: the least
      position at or after `start` where `needle` occurs, or -1 when there
      is none. Negative starts and starts past the end, which Python also
      accepts, are not modelled; the lookup only searches from 0. */
  function FindFrom(hay: string, needle: string, start: nat): (r: int)
    requires start <= |hay|
    decreases |hay| - start
    ensures r == -1 || (start <= r && OccursAt(hay, needle, r))
    ensures r == -1 ==> forall i :: start <= i ==> !OccursAt(hay, needle, i)
    ensures r != -1 ==> forall i :: start <= i < r ==> !OccursAt(hay, needle, i)
  {
    if start + |needle| > |hay| then -1
    else if hay[start..start + |needle|] == needle then start
    else FindFrom(hay, needle, start + 1)
  }

  /** `hay.find(needle)`: the first position where `needle` occurs, -1 when
      it occurs nowhere. An empty `needle` occurs at position 0. */
  function Find(hay: string, needle: string): (r: int)
    ensures r == -1 <==> forall i :: !OccursAt(hay, needle, i)
    ensures r != -1 ==> OccursAt(hay, needle, r)
    ensures forall i :: 0 <= i < r ==> !OccursAt(hay, needle, i)
  {
    FindFrom(hay, needle, 0)
  }

  /** Every string contains the empty string at position 0, and a needle
      longer than the haystack is never found. */
  lemma FindBounds(hay: string, needle: string)
    ensures needle == [] ==> Find(hay, needle) == 0
    ensures |needle| > |hay| ==> Find(hay, needle) == -1
  {
    if needle == [] {
      assert OccursAt(hay, needle, 0);
    }
  }

  /** A string is found in itself at position 0. */
  lemma FindSelf(s: string)
    ensures Find(s, s) == 0
  {
    assert OccursAt(s, s, 0);
  }

  /** A needle holding a character the haystack lacks is not found. */
  lemma FindAbsentChar(hay: string, needle: string, k: nat)
    requires k < |needle| && needle[k] !in hay
    ensures Find(hay, needle) == -1
  {
  }
}
