/**
 * `String.prototype.trim` as the to-do operations use it: strip the code points
 * that ECMA-262 classifies as WhiteSpace (section 12.2) or LineTerminator
 * (section 12.3) from both ends of a string.
 */
module JsString {

  /** WhiteSpace and LineTerminator code points (the Zs category as of Unicode 6.3 and later). */
  predicate IsTrimmable(c: char)
  {
    || c == '\t' || c == '\n' || c == '\U{000B}' || c == '\U{000C}' || c == '\r'
    || c == ' ' || c == '\U{00A0}' || c == '\U{1680}'
    || ('\U{2000}' <= c <= '\U{200A}')
    || c == '\U{2028}' || c == '\U{2029}' || c == '\U{202F}' || c == '\U{205F}'
    || c == '\U{3000}' || c == '\U{FEFF}'
  }

  /** The number of trimmable code points at the start of `s`. */
  function Leading(s: string): (n: nat)
    ensures n <= |s|
    ensures forall k :: 0 <= k < n ==> IsTrimmable(s[k])
    ensures n < |s| ==> !IsTrimmable(s[n])
  {
    if s != [] && IsTrimmable(s[0]) then 1 + Leading(s[1..]) else 0
  }

  /** The number of trimmable code points at the end of `s`. */
  function Trailing(s: string): (n: nat)
    ensures n <= |s|
    ensures forall k :: |s| - n <= k < |s| ==> IsTrimmable(s[k])
    ensures n < |s| ==> !IsTrimmable(s[|s| - 1 - n])
  {
    if s != [] && IsTrimmable(s[|s| - 1]) then 1 + Trailing(s[..|s| - 1]) else 0
  }

  /**
   * `s.trim()`: the slice of `s` between its leading and its trailing run of
   * trimmable code points. Nothing trimmable is left at either end, everything
   * cut off was trimmable, and the result is empty exactly when `s` is all
   * whitespace.
   */
  function Trim(s: string): (r: string)
    ensures var lead := Leading(s);
      && lead + |r| <= |s|
      && r == s[lead..lead + |r|]
      && (forall k :: lead + |r| <= k < |s| ==> IsTrimmable(s[k]))
    ensures r != [] ==> !IsTrimmable(r[0]) && !IsTrimmable(r[|r| - 1])
    ensures r == [] <==> forall k :: 0 <= k < |s| ==> IsTrimmable(s[k])
  {
    var lead := Leading(s);
    if lead == |s| then []
    else
      var trail := Trailing(s);
      assert !IsTrimmable(s[lead]);
      s[lead..|s| - trail]
  }

  /** The test `!text.trim()` of the to-do operations: the trimmed text is the empty string. */
  predicate IsBlank(s: string)
  {
    Trim(s) == []
  }

  /** Trimming a trimmed string changes nothing. */
  lemma TrimIdempotent(s: string)
    ensures Trim(Trim(s)) == Trim(s)
  {
  }
}
