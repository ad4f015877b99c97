/** `Program.SmartQuote`: quote a path only when it contains a space. */
module Quoting {

  /**
   * Wraps `path` in double quotes if and only if it contains a literal
   * space. Nothing else triggers quoting and quotes inside are not escaped.
   */
  function SmartQuote(path: string): (q: string)
    ensures q == path <==> ' ' !in path
    ensures q != path ==> |q| == |path| + 2 && q[0] == '"' && q[|q| - 1] == '"' && q[1..|q| - 1] == path
    ensures ' ' in q <==> ' ' in path
  {
    if ' ' in path then "\"" + path + "\"" else path
  }

  /** Reverses SmartQuote: strips one pair of outer quotes around text that contains a space. */
  function Unquote(q: string): (path: string)
    ensures path == q || (|q| >= 2 && q[0] == '"' && q[|q| - 1] == '"' && path == q[1..|q| - 1])
  {
    if |q| >= 2 && q[0] == '"' && q[|q| - 1] == '"' && ' ' in q[1..|q| - 1] then q[1..|q| - 1] else q
  }

  /** Quoting loses nothing: every path, quotes and all, is recovered from its quoted form. */
  lemma SmartQuoteRoundTrip(path: string)
    ensures Unquote(SmartQuote(path)) == path
  {
  }

  /** Inner quotes are kept verbatim, and a quote character alone does not cause quoting. */
  lemma SmartQuoteDoesNotEscape()
    ensures SmartQuote("a \"b\"") == "\"a \"b\"\""
    ensures SmartQuote("\"ab\"") == "\"ab\""
  {
  }
}
