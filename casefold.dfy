/**
 * Case-insensitive comparison of strings, as used by the launcher for
 * `StringComparison.OrdinalIgnoreCase` and by Windows file-name matching.
 * Only ASCII letters are folded; this stands in for the full Unicode
 * upper-casing table.
 */
module CaseFold {

  predicate IsAsciiLetter(c: char) {
    'a' <= c <= 'z' || 'A' <= c <= 'Z'
  }

  /** Folds one character: a lower-case ASCII letter becomes its upper-case letter. */
  function FoldChar(c: char): (u: char)
    ensures 'a' <= c <= 'z' ==> u as int == c as int - 32
    ensures !('a' <= u <= 'z')
    ensures u != c ==> 'a' <= c <= 'z' && 'A' <= u <= 'Z'
    ensures ('a' <= c <= 'z' || 'A' <= c <= 'Z') <==> 'A' <= u <= 'Z'
  {
    if 'a' <= c <= 'z' then (c as int - 32) as char else c
  }

  /** Equal length, and equal character by character after folding. */
  predicate EqualsIgnoreCase(a: string, b: string) {
    |a| == |b| && forall i :: 0 <= i < |a| ==> FoldChar(a[i]) == FoldChar(b[i])
  }

  /**
   * Two characters fold alike exactly when they are equal, or are the upper-
   * and lower-case forms of one ASCII letter.
   */
  lemma FoldCharEqual(c: char, d: char)
    ensures FoldChar(c) == FoldChar(d) <==>
      c == d || (IsAsciiLetter(c) && IsAsciiLetter(d) && (c as int - d as int == 32 || d as int - c as int == 32))
  {
  }

  /** `s.StartsWith(prefix, StringComparison.OrdinalIgnoreCase)`. */
  predicate StartsWithIgnoreCase(s: string, prefix: string)
    ensures StartsWithIgnoreCase(s, prefix) ==> |prefix| <= |s|
    ensures prefix <= s ==> StartsWithIgnoreCase(s, prefix)
  {
    |prefix| <= |s| && EqualsIgnoreCase(s[..|prefix|], prefix)
  }

  /** A string that begins with a case-insensitive copy `p` of `prefix` starts with `prefix`, and what follows `p` is `x`. */
  lemma StartsWithAppend(p: string, x: string, prefix: string)
    requires EqualsIgnoreCase(p, prefix)
    ensures StartsWithIgnoreCase(p + x, prefix)
    ensures (p + x)[|prefix|..] == x
  {
    assert (p + x)[..|prefix|] == p;
  }

  /** An example: upper- and lower-case spellings of the terminal's name compare equal. */
  lemma FoldIgnoresCase()
    ensures EqualsIgnoreCase("WT.EXE", "wt.exe")
    ensures !EqualsIgnoreCase("wt.exe", "wt.ex_")
  {
    assert FoldChar("wt.exe"[5]) != FoldChar("wt.ex_"[5]);
  }
}
