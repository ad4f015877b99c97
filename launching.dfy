/**
 * The strings `Program.Execute` hands to the process it starts and prints:
 * the explorer executable, its argument string, and the "Running:" line.
 */
module Launching {
  import opened Wrappers
  import opened Quoting
  import Paths

  /** The fields of `ProcessStartInfo` that `Execute` sets. */
  datatype StartInfo = StartInfo(fileName: string, arguments: string, useShellExecute: bool)

  /** What `Execute` does: start the process described by `startInfo` after printing `banner`. */
  datatype Launch = Launch(startInfo: StartInfo, banner: string)

  const ExplorerExe: string := "explorer.exe"
  const BannerLead: string := "Running: "

  /**
   * The argument string: the quoted-if-needed target, exactly one space, and
   * the forwarded arguments verbatim (nothing for null).
   */
  function ArgumentString(pth: string, args: Option<string>): (a: string)
    ensures |a| == |SmartQuote(pth)| + 1 + |args.GetOr("")|
    ensures a[..|SmartQuote(pth)|] == SmartQuote(pth)
    ensures a[|SmartQuote(pth)|] == ' '
    ensures a[|SmartQuote(pth)| + 1..] == args.GetOr("")
  {
    SmartQuote(pth) + " " + args.GetOr("")
  }

  /** `Execute(Pth, Args)` with the Windows folder taken as a parameter. */
  function Execute(windowsFolder: string, pth: string, args: Option<string>): (l: Launch)
    ensures l.startInfo.fileName == Paths.Combine(windowsFolder, ExplorerExe)
    ensures !l.startInfo.useShellExecute
    ensures l.startInfo.arguments == ArgumentString(pth, args)
    ensures l.banner == BannerLead + SmartQuote(l.startInfo.fileName) + " " + l.startInfo.arguments
  {
    var fileName := Paths.Combine(windowsFolder, ExplorerExe);
    Launch(StartInfo(fileName, ArgumentString(pth, args), false),
           BannerLead + SmartQuote(fileName) + " " + ArgumentString(pth, args))
  }

  /** The printed line shows the explorer path, the target and the arguments, in that order, separated by single spaces. */
  lemma BannerShowsCommand(windowsFolder: string, pth: string, args: Option<string>)
    ensures Execute(windowsFolder, pth, args).banner ==
      "Running: " + SmartQuote(Paths.Combine(windowsFolder, "explorer.exe")) + " " + SmartQuote(pth) + " " + args.GetOr("")
  {
  }

  lemma DropLead(lead: string, rest: string)
    ensures (lead + rest)[..|lead|] == lead && (lead + rest)[|lead|..] == rest
  {
  }

  /** A `Running:` line built from a quote-free path and an argument string splits back into the two. */
  lemma ReadBackLine(f: string, a: string)
    requires '"' !in f
    ensures var line := BannerLead + SmartQuote(f) + " " + a;
      line[..|BannerLead|] == BannerLead && SplitArguments(line[|BannerLead|..]) == Some((f, a))
  {
    var tail := SmartQuote(f) + " " + a;
    assert BannerLead + SmartQuote(f) + " " + a == BannerLead + tail;
    DropLead(BannerLead, tail);
    assert tail == ArgumentString(f, Some(a));
    ArgumentStringRoundTrip(f, Some(a));
  }

  /**
   * The printed line can be read back: after `Running: ` it splits into the
   * explorer path and the argument string explorer receives, and that in turn
   * splits into the target and the forwarded arguments.
   */
  lemma BannerReadBack(windowsFolder: string, pth: string, args: Option<string>)
    requires '"' !in Paths.Combine(windowsFolder, ExplorerExe) && '"' !in pth
    ensures var l := Execute(windowsFolder, pth, args);
      && l.banner[..|BannerLead|] == BannerLead
      && SplitArguments(l.banner[|BannerLead|..]) == Some((l.startInfo.fileName, l.startInfo.arguments))
      && SplitArguments(l.startInfo.arguments) == Some((pth, args.GetOr("")))
  {
    var l := Execute(windowsFolder, pth, args);
    ReadBackLine(l.startInfo.fileName, l.startInfo.arguments);
    ArgumentStringRoundTrip(pth, args);
  }

  /** With null or empty arguments the argument string still ends in the separating space. */
  lemma EmptyArgumentsKeepSeparator(pth: string, args: Option<string>)
    requires args.GetOr("") == ""
    ensures ArgumentString(pth, args) == SmartQuote(pth) + " "
    ensures ArgumentString(pth, None) == ArgumentString(pth, Some(""))
  {
  }

  /** Index of the first `c` in `s`, or `|s|` when there is none. */
  function IndexOf(s: string, c: char): (k: nat)
    ensures k <= |s|
    ensures forall i :: 0 <= i < k ==> s[i] != c
    ensures k < |s| ==> s[k] == c
  {
    if s == [] then 0
    else if s[0] == c then 0
    else 1 + IndexOf(s[1..], c)
  }

  /**
   * How a reader of the argument string finds the target again: a quoted
   * first word runs to the next quote, an unquoted one to the first space;
   * one space must follow, and the rest are the forwarded arguments.
   */
  function SplitArguments(a: string): (r: Option<(string, string)>)
    ensures r.Some? ==> |r.value.0| + |r.value.1| < |a|
  {
    if |a| > 0 && a[0] == '"' then
      var k := 1 + IndexOf(a[1..], '"');
      if k + 1 < |a| && a[k + 1] == ' ' then Some((a[1..k], a[k + 2..])) else None
    else
      var k := IndexOf(a, ' ');
      if k < |a| then Some((a[..k], a[k + 1..])) else None
  }

  lemma IndexOfAfter(u: string, v: string, c: char)
    requires c !in u && |v| > 0 && v[0] == c
    ensures IndexOf(u + v, c) == |u|
  {
    assert (u + v)[|u|] == c;
  }

  /** Reading back a quoted target: the first word runs to the closing quote. */
  lemma SplitQuoted(pth: string, rest: string)
    requires '"' !in pth
    ensures SplitArguments("\"" + pth + "\"" + " " + rest) == Some((pth, rest))
  {
    var a := "\"" + pth + "\"" + " " + rest;
    assert a[1..] == pth + ("\" " + rest);
    IndexOfAfter(pth, "\" " + rest, '"');
    var k := 1 + |pth|;
    assert a[k] == '"' && a[k + 1] == ' ';
    assert a[1..k] == pth;
    assert a[k + 2..] == rest;
  }

  /** Reading back an unquoted target: the first word runs to the first space. */
  lemma SplitUnquoted(pth: string, rest: string)
    requires '"' !in pth && ' ' !in pth
    ensures SplitArguments(pth + " " + rest) == Some((pth, rest))
  {
    var a := pth + " " + rest;
    assert a == pth + (" " + rest);
    IndexOfAfter(pth, " " + rest, ' ');
    if |pth| > 0 {
      assert a[0] == pth[0];
    }
    assert a[..|pth|] == pth;
    assert a[|pth| + 1..] == rest;
  }

  /**
   * The concatenation is unambiguous as long as the target contains no
   * double quote: the target and the arguments are read back unchanged.
   */
  lemma ArgumentStringRoundTrip(pth: string, args: Option<string>)
    requires '"' !in pth
    ensures SplitArguments(ArgumentString(pth, args)) == Some((pth, args.GetOr("")))
  {
    if ' ' in pth {
      SplitQuoted(pth, args.GetOr(""));
    } else {
      SplitUnquoted(pth, args.GetOr(""));
    }
  }

  /**
   * No escaping is done, so a target containing a double quote can produce
   * the same argument string as a different target and arguments.
   */
  lemma ArgumentStringAmbiguous()
    ensures ArgumentString("\"a", Some("b\" c")) == ArgumentString("a b", Some("c"))
  {
  }
}
