/**
  Character classes and trimming as the page's script relies on them: the
  regular-expression class `\s` and `String.prototype.trim` both use
  ECMAScript's WhiteSpace and LineTerminator code points.
 */
module Text {

  /** The code points of `\s` and of `trim`: TAB, LF, VT, FF, CR, the Unicode
      space separators (category Zs), LINE SEPARATOR, PARAGRAPH SEPARATOR and
      the byte-order mark ZWNBSP. */
  predicate IsWhitespace(c: char) {
    || c == '\t' || c == '\n' || c == '\U{000B}' || c == '\U{000C}' || c == '\r'
    || c == ' ' || c == '\U{00A0}' || c == '\U{1680}'
    || ('\U{2000}' <= c <= '\U{200A}')
    || c == '\U{2028}' || c == '\U{2029}' || c == '\U{202F}' || c == '\U{205F}'
    || c == '\U{3000}' || c == '\U{FEFF}'
  }

  /** Every character of `s` from index `lo` up to, not including, `hi` is
      whitespace. */
  predicate BlankBetween(s: string, lo: int, hi: int) {
    forall k :: lo <= k < hi && 0 <= k < |s| ==> IsWhitespace(s[k])
  }

  /** Every character of `s` is whitespace (the empty string included). */
  predicate IsBlank(s: string) {
    BlankBetween(s, 0, |s|)
  }

  /** The index of the first character at or after `i` that is not
      whitespace, or `|s|` when there is none: where `trim` starts keeping. */
  function FirstKept(s: string, i: nat): (a: nat)
    requires i <= |s|
    ensures i <= a <= |s|
    ensures BlankBetween(s, i, a)
    ensures a < |s| ==> !IsWhitespace(s[a])
    decreases |s| - i
  {
    if i == |s| || !IsWhitespace(s[i]) then i else FirstKept(s, i + 1)
  }

  /** The end of what `trim` keeps in `s[lo..hi]`: the index just after the
      last character below `hi` that is not whitespace, `lo` when there is
      none. */
  function KeptEnd(s: string, lo: nat, hi: nat): (b: nat)
    requires lo <= hi <= |s|
    ensures lo <= b <= hi
    ensures BlankBetween(s, b, hi)
    ensures b > lo ==> !IsWhitespace(s[b - 1])
    decreases hi
  {
    if hi == lo || !IsWhitespace(s[hi - 1]) then hi else KeptEnd(s, lo, hi - 1)
  }

  /** `String.prototype.trim`: whitespace removed from both ends. The result is
      a contiguous piece of `s`, everything outside it is whitespace, and it
      neither starts nor ends with whitespace. */
  function Trim(s: string): (r: string)
    ensures exists a :: 0 <= a <= |s| - |r| && r == s[a..a + |r|]
                        && BlankBetween(s, 0, a) && BlankBetween(s, a + |r|, |s|)
    ensures r == [] || (!IsWhitespace(r[0]) && !IsWhitespace(r[|r| - 1]))
  {
    var a := FirstKept(s, 0);
    var b := KeptEnd(s, a, |s|);
    assert s[a..b] == s[a..a + |s[a..b]|];
    s[a..b]
  }

  /** `s.trim() === ''` holds exactly when every character of `s` is
      whitespace. */
  lemma TrimEmptyIffBlank(s: string)
    ensures Trim(s) == [] <==> IsBlank(s)
  {
    var a := FirstKept(s, 0);
    var b := KeptEnd(s, a, |s|);
    if b == a {
      assert BlankBetween(s, 0, a) && BlankBetween(s, a, |s|);
    } else {
      assert !IsWhitespace(s[a]);
    }
  }
}
