/**
 * JavaScript's `String.prototype.trim`, which the doubt path uses to decide
 * whether the question is blank.
 */
module JsText {

  /** ECMAScript WhiteSpace and LineTerminator code points: the characters
      `trim` removes. Zs is taken as of Unicode 15. */
  predicate IsWhitespace(c: char) {
    || c == '\t' || c == '\n' || c == '\U{000B}' || c == '\U{000C}' || c == '\r'
    || c == ' ' || c == '\U{00A0}' || c == '\U{1680}'
    || ('\U{2000}' <= c <= '\U{200A}')
    || c == '\U{2028}' || c == '\U{2029}' || c == '\U{202F}' || c == '\U{205F}'
    || c == '\U{3000}' || c == '\U{FEFF}'
  }

  /** Nothing but whitespace (the empty string included). */
  ghost predicate IsBlank(s: string) {
    forall i :: 0 <= i < |s| ==> IsWhitespace(s[i])
  }

  /** The index of the first non-whitespace character of s at or after i,
      or |s| when there is none. */
  function SkipLeading(s: string, i: nat): (k: nat)
    requires i <= |s|
    ensures i <= k <= |s|
    ensures k == |s| || !IsWhitespace(s[k])
    ensures forall j :: i <= j < k ==> IsWhitespace(s[j])
    decreases |s| - i
  {
    if i == |s| || !IsWhitespace(s[i]) then i else SkipLeading(s, i + 1)
  }

  /** The index just after the last non-whitespace character of s[k..e], or
      k when there is none. */
  function SkipTrailing(s: string, k: nat, e: nat): (m: nat)
    requires k <= e <= |s|
    ensures k <= m <= e
    ensures m == k || !IsWhitespace(s[m - 1])
    ensures forall j :: m <= j < e ==> IsWhitespace(s[j])
    decreases e
  {
    if e == k || !IsWhitespace(s[e - 1]) then e else SkipTrailing(s, k, e - 1)
  }

  /** r is the slice of s that starts at k, neither starts nor ends with
      whitespace, and has only whitespace before and after it in s. */
  ghost predicate TrimmedFrom(s: string, k: int, r: string) {
    && 0 <= k && k + |r| <= |s|
    && (r == [] || (!IsWhitespace(r[0]) && !IsWhitespace(r[|r| - 1])))
    && (forall i :: 0 <= i < |r| ==> r[i] == s[k + i])
    && (forall i :: 0 <= i < k ==> IsWhitespace(s[i]))
    && (forall i :: k + |r| <= i < |s| ==> IsWhitespace(s[i]))
  }

  /** `s.trim()`: the part of s between its leading and its trailing
      whitespace. */
  function Trim(s: string): (r: string)
    ensures TrimmedFrom(s, SkipLeading(s, 0), r)
  {
    var k := SkipLeading(s, 0);
    s[k..SkipTrailing(s, k, |s|)]
  }

  /** At most one string is trimmed out of s, whatever its start: the
      contract of `Trim` determines its result. */
  lemma {:induction false} TrimmedUnique(s: string, k: int, r: string, k': int, r': string)
    requires TrimmedFrom(s, k, r) && TrimmedFrom(s, k', r')
    ensures r == r'
  {
  }

  /** `!s.trim()` holds exactly for the blank strings. */
  lemma TrimEmptyIffBlank(s: string)
    ensures Trim(s) == [] <==> IsBlank(s)
  {
  }
}
