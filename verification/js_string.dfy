/**
 The slice of JavaScript string semantics the chat controller depends on:
 `String.prototype.trim`, which removes ECMAScript WhiteSpace and
 LineTerminator code points from both ends of a string.
 */
module JsString {

  /** The code points `trim` strips: the WhiteSpace production (TAB, VT, FF,
      ZWNBSP and every Unicode "Space_Separator") and the LineTerminator
      production (LF, CR, LINE SEPARATOR, PARAGRAPH SEPARATOR). */
  predicate IsTrimmable(c: char) {
    c as int in TrimmableCodes
  }

  const TrimmableCodes: set<int> := {
    0x09, 0x0A, 0x0B, 0x0C, 0x0D, 0x20, 0xA0, 0x1680,
    0x2000, 0x2001, 0x2002, 0x2003, 0x2004, 0x2005, 0x2006, 0x2007,
    0x2008, 0x2009, 0x200A, 0x2028, 0x2029, 0x202F, 0x205F, 0x3000, 0xFEFF
  }

  /** Every character of `s` from index `lo` up to (not including) `hi` is
      one that `trim` removes. */
  predicate TrimmableIn(s: string, lo: nat, hi: nat)
    requires lo <= hi <= |s|
  {
    forall k :: lo <= k < hi ==> IsTrimmable(s[k])
  }

  /** Every character of `s` is one that `trim` removes. */
  predicate AllTrimmable(s: string) {
    TrimmableIn(s, 0, |s|)
  }

  /** Scanning forward from `i`, the index of the first character that
      `trim` keeps (or `|s|` if there is none): everything skipped is
      trimmable and the character found is not. */
  function LeadingEnd(s: string, i: nat): (j: nat)
    requires i <= |s|
    ensures i <= j <= |s|
    ensures TrimmableIn(s, i, j)
    ensures j == |s| || !IsTrimmable(s[j])
    decreases |s| - i
  {
    if i < |s| && IsTrimmable(s[i]) then LeadingEnd(s, i + 1) else i
  }

  /** Scanning backward from `j` but not below `lo`, the index just past the
      last character that `trim` keeps (or `lo` if there is none):
      everything skipped is trimmable and the character before the result
      is not. */
  function TrailingStart(s: string, lo: nat, j: nat): (k: nat)
    requires lo <= j <= |s|
    ensures lo <= k <= j
    ensures TrimmableIn(s, k, j)
    ensures k == lo || !IsTrimmable(s[k - 1])
    decreases j
  {
    if lo < j && IsTrimmable(s[j - 1]) then TrailingStart(s, lo, j - 1) else j
  }

  /** `s.trim()`: the slice of `s` between its leading and its trailing run
      of trimmable characters. The result has only trimmable characters
      before and after it in `s`, it neither starts nor ends with a
      trimmable character, and it is empty exactly when every character of
      `s` is trimmable. */
  function Trim(s: string): (r: string)
    ensures var i := LeadingEnd(s, 0);
      && i + |r| <= |s|
      && r == s[i..i + |r|]
      && TrimmableIn(s, 0, i) && TrimmableIn(s, i + |r|, |s|)
    ensures r == [] || (!IsTrimmable(r[0]) && !IsTrimmable(r[|r| - 1]))
    ensures r == [] <==> AllTrimmable(s)
  {
    var i := LeadingEnd(s, 0);
    var j := TrailingStart(s, i, |s|);
    assert i < j ==> s[i..j][0] == s[i] && s[i..j][j - i - 1] == s[j - 1];
    s[i..j]
  }
}
