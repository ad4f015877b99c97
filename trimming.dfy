/**
 * `Program.TrimStart`: removes a case-insensitive prefix from an optional
 * string, at most once.
 */
module Trimming {
  import opened Wrappers
  import opened CaseFold

  /**
   * A null string stays null. Otherwise, if `s` starts with `t` (ignoring
   * case) the first `|t|` characters are dropped, and if not `s` is kept.
   */
  function TrimStart(s: Option<string>, t: string): (r: Option<string>)
    ensures r.Some? <==> s.Some?
    ensures r.Some? ==> |r.value| <= |s.value| && r.value == s.value[|s.value| - |r.value|..]
    ensures r.Some? && r != s ==> StartsWithIgnoreCase(s.value, t) && |r.value| == |s.value| - |t|
  {
    match s
    case None => None
    case Some(v) => if StartsWithIgnoreCase(v, t) then Some(v[|t|..]) else Some(v)
  }

  /** Whatever `p` spells `t` in, `p` is removed and exactly what followed it remains. */
  lemma TrimStartRemovesMatchingPrefix(p: string, x: string, t: string)
    requires EqualsIgnoreCase(p, t)
    ensures TrimStart(Some(p + x), t) == Some(x)
    ensures |TrimStart(Some(p + x), t).value| == |p + x| - |t|
  {
    StartsWithAppend(p, x, t);
  }

  /** The string comes back unchanged exactly when it does not start with `t`, or `t` is empty. */
  lemma TrimStartIdentity(s: string, t: string)
    ensures TrimStart(Some(s), t) == Some(s) <==> !StartsWithIgnoreCase(s, t) || t == []
  {
    if StartsWithIgnoreCase(s, t) && t != [] {
      assert |TrimStart(Some(s), t).value| < |s|;
    }
  }

  /**
   * The prefix is removed once, not repeatedly: after removing the first of
   * two copies of `t`, the result still starts with `t`.
   */
  lemma TrimStartRemovesAtMostOnce(p: string, q: string, x: string, t: string)
    requires EqualsIgnoreCase(p, t) && EqualsIgnoreCase(q, t)
    ensures TrimStart(Some(p + q + x), t) == Some(q + x)
    ensures StartsWithIgnoreCase(q + x, t)
  {
    assert p + q + x == p + (q + x);
    TrimStartRemovesMatchingPrefix(p, q + x, t);
    StartsWithAppend(q, x, t);
  }

  /** The same with `t` itself repeated: `t + t + x` becomes `t + x`, not `x`. */
  lemma TrimStartOfRepeatedPrefix(t: string, x: string)
    ensures TrimStart(Some(t + t + x), t) == Some(t + x)
  {
    TrimStartRemovesAtMostOnce(t, t, x, t);
  }

  /**
   * Either nothing is removed, or what is removed is a case-insensitive
   * copy of `t` and putting it back in front of the result gives `s`.
   */
  lemma TrimStartSplits(s: string, t: string)
    ensures var r := TrimStart(Some(s), t).value;
      r == s || (|t| <= |s| && EqualsIgnoreCase(s[..|t|], t) && s == s[..|t|] + r)
  {
  }
}
