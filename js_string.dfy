/**
 * ECMAScript's `String.prototype.trim`: remove the white space and line
 * terminators at both ends of a string.
 */
module JsString {

  /**
   * ECMAScript WhiteSpace (tab, vertical tab, form feed, space, no-break
   * space, zero width no-break space and the Unicode space separators)
   * and LineTerminator (line feed, carriage return, line and paragraph
   * separators).
   */
  const Whitespace: set<char> := {
    '\t', '\U{B}', '\U{C}', ' ', '\U{A0}', '\U{FEFF}',
    '\U{1680}', '\U{2000}', '\U{2001}', '\U{2002}', '\U{2003}', '\U{2004}', '\U{2005}',
    '\U{2006}', '\U{2007}', '\U{2008}', '\U{2009}', '\U{200A}', '\U{202F}', '\U{205F}', '\U{3000}',
    '\n', '\r', '\U{2028}', '\U{2029}'
  }

  predicate IsWhitespace(c: char) {
    c in Whitespace
  }

  predicate AllWhitespace(s: string) {
    forall k :: 0 <= k < |s| ==> IsWhitespace(s[k])
  }

  /** Neither end of `s` is white space. */
  predicate IsTrimmed(s: string) {
    s == [] || (!IsWhitespace(s[0]) && !IsWhitespace(s[|s| - 1]))
  }

  /** `r` is the part of `s` at offset `i`, and everything around it is white space. */
  predicate IsInnerPartAt(r: string, s: string, i: int) {
    && 0 <= i <= |s| - |r|
    && s[i..i + |r|] == r
    && AllWhitespace(s[..i])
    && AllWhitespace(s[i + |r|..])
  }

  /** `r` is `s` with some white space removed from its start and from its end. */
  predicate IsInnerPart(r: string, s: string) {
    exists i | 0 <= i <= |s| - |r| :: IsInnerPartAt(r, s, i)
  }

  /** The first position at or after `i` that is not white space, or `|s|`. */
  function SkipForward(s: string, i: nat): (j: nat)
    requires i <= |s|
    ensures i <= j <= |s|
    ensures forall k :: i <= k < j ==> IsWhitespace(s[k])
    ensures j < |s| ==> !IsWhitespace(s[j])
    decreases |s| - i
  {
    if i == |s| || !IsWhitespace(s[i]) then i else SkipForward(s, i + 1)
  }

  /** The position just after the last non-white-space character before `j`, or 0. */
  function SkipBackward(s: string, j: nat): (i: nat)
    requires j <= |s|
    ensures i <= j
    ensures forall k :: i <= k < j ==> IsWhitespace(s[k])
    ensures 0 < i ==> !IsWhitespace(s[i - 1])
  {
    if j == 0 || !IsWhitespace(s[j - 1]) then j else SkipBackward(s, j - 1)
  }

  /** `s.trim()`. */
  function Trim(s: string): (r: string)
    ensures IsTrimmed(r)
    ensures IsInnerPart(r, s)
    ensures r == [] <==> AllWhitespace(s)
  {
    var start := SkipForward(s, 0);
    var end := SkipBackward(s, |s|);
    if end <= start then
      assert IsInnerPartAt([], s, 0) by {
        assert s[0..] == s;
      }
      []
    else
      var r := s[start..end];
      assert IsInnerPartAt(r, s, start);
      assert !AllWhitespace(s) by {
        assert !IsWhitespace(s[start]);
      }
      r
  }

  /** Trimming an already trimmed string changes nothing. */
  lemma TrimIdempotent(s: string)
    ensures Trim(Trim(s)) == Trim(s)
  {
  }
}
