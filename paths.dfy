/**
 * `System.IO.Path.Combine` for two path parts on Windows, the only path
 * operation the launcher applies: an empty part yields the other one, a
 * rooted second part replaces the first, and otherwise a backslash is put
 * between them unless the first part already ends with a separator.
 */
module Paths {
  import CaseFold

  predicate IsSeparator(c: char) {
    c == '\\' || c == '/'
  }

  /** Starts with a separator, or with a drive such as `C:`. */
  predicate IsRooted(p: string) {
    (|p| >= 1 && IsSeparator(p[0])) || (|p| >= 2 && CaseFold.IsAsciiLetter(p[0]) && p[1] == ':')
  }

  function Combine(a: string, b: string): (r: string)
    ensures a == [] ==> r == b
    ensures b == [] ==> r == a
    ensures a != [] && b != [] && IsRooted(b) ==> r == b
    ensures a != [] && b != [] && !IsRooted(b) ==>
      |r| == |a| + |b| + (if IsSeparator(a[|a| - 1]) then 0 else 1) &&
      r[..|a|] == a && r[|r| - |b|..] == b && IsSeparator(r[|r| - |b| - 1])
    ensures a != [] && b != [] && !IsRooted(b) && !IsSeparator(a[|a| - 1]) ==> r[|a|] == '\\'
  {
    if a == [] then b
    else if b == [] then a
    else if IsRooted(b) then b
    else if IsSeparator(a[|a| - 1]) then a + b
    else a + "\\" + b
  }
}
