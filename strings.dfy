/**
 * Go's `strings.TrimSpace`, used on the `token` query value before it is
 * resolved. Strings are sequences of Unicode code points.
 */
module Strings {

  /** Go's `unicode.IsSpace`: the ASCII spaces plus the Unicode White_Space characters. */
  predicate IsSpace(c: char)
  {
    || c == ' ' || c == '\t' || c == '\n' || c == '\r'
    || c == '\U{0B}' || c == '\U{0C}' || c == '\U{85}' || c == '\U{A0}'
    || c == '\U{1680}' || ('\U{2000}' <= c <= '\U{200A}')
    || c == '\U{2028}' || c == '\U{2029}' || c == '\U{202F}' || c == '\U{205F}'
    || c == '\U{3000}'
  }

  predicate AllSpace(s: string)
  {
    forall k :: 0 <= k < |s| ==> IsSpace(s[k])
  }

  /** s[i..j] is what is left of s once white space, and only white space, is cut from both ends. */
  ghost predicate SpaceFramed(s: string, i: int, j: int)
  {
    && 0 <= i <= j <= |s|
    && (forall k :: 0 <= k < i ==> IsSpace(s[k]))
    && (forall k :: j <= k < |s| ==> IsSpace(s[k]))
    && (i < j ==> !IsSpace(s[i]) && !IsSpace(s[j - 1]))
  }

  /** The start of the trimmed part: the first non-space at or after `i`, or |s|. */
  function FirstNonSpace(s: string, i: nat): (start: nat)
    requires i <= |s|
    ensures i <= start <= |s|
    ensures forall k :: i <= k < start ==> IsSpace(s[k])
    ensures start < |s| ==> !IsSpace(s[start])
    decreases |s| - i
  {
    if i < |s| && IsSpace(s[i]) then FirstNonSpace(s, i + 1) else i
  }

  /** The end of the trimmed part: one past the last non-space in s[i..j], or i. */
  function EndOfNonSpace(s: string, i: nat, j: nat): (stop: nat)
    requires i <= j <= |s|
    ensures i <= stop <= j
    ensures forall k :: stop <= k < j ==> IsSpace(s[k])
    ensures stop > i ==> !IsSpace(s[stop - 1])
    decreases j
  {
    if j > i && IsSpace(s[j - 1]) then EndOfNonSpace(s, i, j - 1) else j
  }

  /** Go's `strings.TrimSpace`: the infix of `s` left after removing white space at both ends. */
  function TrimSpace(s: string): (r: string)
    ensures exists i, j :: SpaceFramed(s, i, j) && r == s[i..j]
    ensures r == [] <==> AllSpace(s)
    ensures r != [] ==> !IsSpace(r[0]) && !IsSpace(r[|r| - 1])
  {
    var i := FirstNonSpace(s, 0);
    var j := EndOfNonSpace(s, i, |s|);
    assert SpaceFramed(s, i, j);
    s[i..j]
  }

  /** Trimming twice is the same as trimming once. */
  lemma TrimSpaceIdempotent(s: string)
    ensures TrimSpace(TrimSpace(s)) == TrimSpace(s)
  {
    var t := TrimSpace(s);
    if t != [] {
      assert FirstNonSpace(t, 0) == 0;
      assert EndOfNonSpace(t, 0, |t|) == |t|;
      assert t[0..|t|] == t;
    }
  }
}
