/** The fragments of PHP's string semantics that the request handlers rely on:
    `empty()` applied to a string, and `trim()` with its default character list. */
module Php {

  /** PHP's `empty()` on a string: true of "" and of "0", false of every other string. */
  predicate IsEmpty(s: string) {
    s == "" || s == "0"
  }

  /** The characters `trim()` strips when no character list is given:
      space, tab, line feed, carriage return, NUL and vertical tab. */
  predicate IsTrimChar(c: char) {
    c == ' ' || c == '\t' || c == '\n' || c == '\r' || c == '\U{0}' || c == '\U{B}'
  }

  /** True when `trim()` would strip every character of `s`. */
  predicate AllTrimChars(s: string) {
    forall k :: 0 <= k < |s| ==> IsTrimChar(s[k])
  }

  /** The number of leading characters `trim()` strips from `s`. */
  function LeadingTrim(s: string): (n: nat)
    ensures n <= |s|
    ensures AllTrimChars(s[..n])
    ensures n < |s| ==> !IsTrimChar(s[n])
  {
    if |s| > 0 && IsTrimChar(s[0]) then
      var m := LeadingTrim(s[1..]);
      assert s[..1 + m] == [s[0]] + s[1..][..m];
      1 + m
    else 0
  }

  /** The length of `s` once `trim()` has stripped its trailing characters. */
  function TrailingTrimEnd(s: string): (e: nat)
    ensures e <= |s|
    ensures AllTrimChars(s[e..])
    ensures 0 < e ==> !IsTrimChar(s[e - 1])
  {
    if |s| > 0 && IsTrimChar(s[|s| - 1]) then
      var e := TrailingTrimEnd(s[..|s| - 1]);
      assert s[e..] == s[..|s| - 1][e..] + [s[|s| - 1]];
      e
    else |s|
  }

  /** PHP's `trim()`: `s` without its leading and trailing trim characters.
      The result is empty exactly when `s` consists of trim characters only; otherwise it
      neither starts nor ends with one, and `s` is the result padded on both sides with
      trim characters. */
  function Trim(s: string): (t: string)
    ensures t == "" <==> AllTrimChars(s)
    ensures t != "" ==> !IsTrimChar(t[0]) && !IsTrimChar(t[|t| - 1])
    ensures exists i :: 0 <= i <= |s| - |t| && AllTrimChars(s[..i]) && s[i..i + |t|] == t && AllTrimChars(s[i + |t|..])
  {
    var b := LeadingTrim(s);
    if b == |s| then
      assert s[..b] == s;
      assert AllTrimChars(s[..0]) && s[0..0] == "" && s[0..] == s;
      ""
    else
      var e := TrailingTrimEnd(s);
      assert b < e;
      assert !AllTrimChars(s) by {
        assert !IsTrimChar(s[b]);
      }
      assert s[b..e][0] == s[b] && s[b..e][e - b - 1] == s[e - 1];
      assert s[b..][..e - b] == s[b..e];
      s[b..e]
  }
}
