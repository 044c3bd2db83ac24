/** Character classes of the C locale, as `<ctype.h>` defines them for
  * ASCII, and lowercasing. */
module Chars {
  /** `tolower`. */
  function Lower(c: char): (r: char)
    ensures !('A' <= r <= 'Z')
    ensures !('A' <= c <= 'Z') ==> r == c
  {
    if 'A' <= c <= 'Z' then (c as int + 32) as char else c
  }

  /** `isalpha`. */
  predicate IsAlpha(c: char) {
    'A' <= c <= 'Z' || 'a' <= c <= 'z'
  }

  /** `isspace`: space, tab, newline, vertical tab, form feed, return. */
  predicate IsSpace(c: char) {
    c == ' ' || c == '\t' || c == '\n' || c == '\U{B}' || c == '\U{C}' || c == '\r'
  }

  /** `isprint`: the ASCII range from space to tilde. */
  predicate IsPrint(c: char) {
    ' ' <= c <= '~'
  }

  /** `isdigit`. */
  predicate IsDigit(c: char) {
    '0' <= c <= '9'
  }

  function LowerAll(s: string): (r: string)
    ensures |r| == |s| && forall i :: 0 <= i < |s| ==> r[i] == Lower(s[i])
  {
    seq(|s|, i requires 0 <= i < |s| => Lower(s[i]))
  }

  /** No upper-case letter. */
  predicate IsLowered(s: string) {
    forall i :: 0 <= i < |s| ==> !('A' <= s[i] <= 'Z')
  }
}
