/**
 * JavaScript's `String.prototype.trim`, which the search handler applies to
 * the raw input. The characters it strips are the ECMAScript WhiteSpace and
 * LineTerminator code points.
 */
module Text {

  /** ECMAScript WhiteSpace (TAB, VT, FF, SP, NBSP, ZWNBSP, the Zs category)
      and LineTerminator (LF, CR, LS, PS). */
  predicate IsWhitespace(c: char)
  {
    c in WhitespaceChars
  }

  const WhitespaceChars: set<char> := {
    '\t', '\U{B}', '\U{C}', ' ', '\U{A0}', '\U{FEFF}', '\U{1680}',
    '\U{2000}', '\U{2001}', '\U{2002}', '\U{2003}', '\U{2004}', '\U{2005}',
    '\U{2006}', '\U{2007}', '\U{2008}', '\U{2009}', '\U{200A}',
    '\U{202F}', '\U{205F}', '\U{3000}',
    '\n', '\r', '\U{2028}', '\U{2029}'
  }

  /** Every character of `s` is whitespace (the empty string included). */
  predicate IsBlank(s: string)
  {
    forall i :: 0 <= i < |s| ==> IsWhitespace(s[i])
  }

  /** `s` neither starts nor ends with whitespace. */
  predicate IsTrimmed(s: string)
  {
    s == [] || (!IsWhitespace(s[0]) && !IsWhitespace(s[|s| - 1]))
  }

  /** Index of the first non-whitespace character of `s`, or `|s|` when
      there is none: the number of leading characters `trim` drops. */
  function ContentStart(s: string): (k: nat)
    ensures k <= |s|
    ensures forall i :: 0 <= i < k ==> IsWhitespace(s[i])
    ensures k < |s| ==> !IsWhitespace(s[k])
  {
    if s == [] || !IsWhitespace(s[0]) then 0 else 1 + ContentStart(s[1..])
  }

  /** The end of `s`'s content, looking no further left than `lo`: the
      position just past the last non-whitespace character at or after `lo`,
      or `lo` when there is none. */
  function ContentEnd(s: string, lo: nat): (k: nat)
    requires lo <= |s|
    ensures lo <= k <= |s|
    ensures forall i :: k <= i < |s| ==> IsWhitespace(s[i])
    ensures lo < k ==> !IsWhitespace(s[k - 1])
  {
    if |s| == lo || !IsWhitespace(s[|s| - 1]) then |s| else ContentEnd(s[..|s| - 1], lo)
  }

  /** `s.trim()`: `s` without its leading and trailing whitespace. The result
      is trimmed, it is empty exactly when `s` is blank, and it is a
      contiguous slice of `s` with only whitespace cut away on either side. */
  function Trim(s: string): (r: string)
    ensures IsTrimmed(r)
    ensures r == [] <==> IsBlank(s)
    ensures exists lo, hi ::
      (0 <= lo <= hi <= |s| && r == s[lo..hi] && IsBlank(s[..lo]) && IsBlank(s[hi..]))
  {
    var lo := ContentStart(s);
    var hi := ContentEnd(s, lo);
    assert IsBlank(s[..lo]) && IsBlank(s[hi..]);
    assert lo == hi ==> forall i :: 0 <= i < |s| ==> IsWhitespace(s[i]);
    assert lo < hi ==> s[lo..hi][0] == s[lo];
    s[lo..hi]
  }

  /** `Trim` is the only slice of `s` that is trimmed and has only
      whitespace outside it: it cuts away all of the surrounding whitespace
      and nothing else. */
  lemma TrimIsUnique(s: string, lo: nat, hi: nat)
    requires lo <= hi <= |s|
    requires IsBlank(s[..lo]) && IsBlank(s[hi..]) && IsTrimmed(s[lo..hi])
    ensures Trim(s) == s[lo..hi]
  {
  }

  /** Trimming leaves an already trimmed string as it is; in particular
      `Trim` is idempotent. */
  lemma TrimmedIsFixed(s: string)
    requires IsTrimmed(s)
    ensures Trim(s) == s
  {
  }

  lemma TrimIdempotent(s: string)
    ensures Trim(Trim(s)) == Trim(s)
  {
    TrimmedIsFixed(Trim(s));
  }
}
