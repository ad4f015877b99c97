/**
 * `Program.Main`: compute the forwarded arguments from the raw command line,
 * find the terminal (at its fixed path, or by the drive search), and launch
 * it through explorer; in search mode a missing terminal ends the program
 * with exit code 2 instead. The two build-time strategies are two members.
 */
module Startup {
  import opened Wrappers
  import opened CaseFold
  import opened Trimming
  import opened Quoting
  import opened Launching
  import opened WinAppSearch
  import Paths

  /**
   * What `Main` reads from its surroundings: the raw command line, the
   * application's base directory and friendly name, the Windows folder and
   * the mounted drives.
   */
  datatype Host = Host(
    commandLine: string,
    baseDirectory: string,
    friendlyName: string,
    windowsFolder: string,
    drives: seq<Drive>)

  /** How a run ends: explorer is started as described, or the program exits early with a message. */
  datatype Outcome = Spawned(launch: Launch) | Exited(code: int, message: string)

  const StaticTarget: string := "E:\\Programs\\Windows Terminal\\wt.exe"
  const TargetFileName: string := "wt.exe"
  const NotFoundMessage: string := "wt.exe could not be found."
  const NotFoundExitCode: int := 2

  /** The process exit status: 0 after a launch, the explicit code otherwise. */
  function ExitCode(o: Outcome): (code: int)
    ensures o.Exited? ==> code == o.code
    ensures o.Spawned? ==> code == 0
  {
    match o
    case Spawned(_) => 0
    case Exited(c, _) => c
  }

  /** The quoted path of the running program (`.dll` in a debug build, `.exe` otherwise). */
  function SelfPrefix(baseDirectory: string, friendlyName: string, debug: bool): (p: string)
    ensures |p| >= 6 && p[0] == '"' && p[|p| - 1] == '"'
    ensures p[1..|p| - 5] == baseDirectory + friendlyName
    ensures p[|p| - 5..|p| - 1] == if debug then ".dll" else ".exe"
  {
    "\"" + baseDirectory + friendlyName + (if debug then ".dll" else ".exe") + "\""
  }

  /**
   * `Args`: the command line with the program's own quoted path removed from
   * its front (ignoring case), once; the whole command line when it does not
   * start with it.
   */
  function ForwardedArguments(host: Host, debug: bool): (args: Option<string>)
    ensures args.Some?
    ensures var p := SelfPrefix(host.baseDirectory, host.friendlyName, debug);
      args.value == host.commandLine ||
      (StartsWithIgnoreCase(host.commandLine, p) && host.commandLine == host.commandLine[..|p|] + args.value)
  {
    var p := SelfPrefix(host.baseDirectory, host.friendlyName, debug);
    TrimStartSplits(host.commandLine, p);
    TrimStart(Some(host.commandLine), p)
  }

  /** A command line that begins with the program's own path, in any case, forwards exactly what follows it. */
  lemma ForwardedArgumentsAfterSelf(host: Host, debug: bool, self: string, rest: string)
    requires EqualsIgnoreCase(self, SelfPrefix(host.baseDirectory, host.friendlyName, debug))
    requires host.commandLine == self + rest
    ensures ForwardedArguments(host, debug) == Some(rest)
  {
    TrimStartRemovesMatchingPrefix(self, rest, SelfPrefix(host.baseDirectory, host.friendlyName, debug));
  }

  /** A command line made of the program's own path, exactly as built, and a rest forwards that rest. */
  lemma ForwardedArgumentsAfterOwnPath(host: Host, debug: bool, rest: string)
    requires host.commandLine == SelfPrefix(host.baseDirectory, host.friendlyName, debug) + rest
    ensures ForwardedArguments(host, debug) == Some(rest)
  {
    ForwardedArgumentsAfterSelf(host, debug, SelfPrefix(host.baseDirectory, host.friendlyName, debug), rest);
  }

  /** The hard-coded path contains a space, so it is launched in quotes. */
  lemma StaticTargetIsQuoted()
    ensures SmartQuote(StaticTarget) == "\"" + StaticTarget + "\""
  {
    assert StaticTarget[19] == ' ';
  }

  /** The argument string of the static build: the quoted hard-coded path, a space, the arguments. */
  lemma StaticArguments(rest: string)
    ensures ArgumentString(StaticTarget, Some(rest)) == "\"" + StaticTarget + "\" " + rest
  {
    StaticTargetIsQuoted();
  }

  /** The build without the search: launch the hard-coded terminal path, which has a space and so is quoted. */
  function RunWithStaticPath(host: Host, debug: bool): (o: Outcome)
    ensures o.Spawned? && ExitCode(o) == 0
    ensures o == Spawned(Execute(host.windowsFolder, StaticTarget, ForwardedArguments(host, debug)))
    ensures o.launch.startInfo.fileName == Paths.Combine(host.windowsFolder, ExplorerExe)
    ensures o.launch.startInfo.arguments == "\"" + StaticTarget + "\" " + ForwardedArguments(host, debug).value
  {
    var args := ForwardedArguments(host, debug);
    StaticArguments(args.value);
    Spawned(Execute(host.windowsFolder, StaticTarget, args))
  }

  /**
   * The build with the search: look for `wt.exe` on every drive; when it is
   * not found exit with code 2, otherwise launch the full name of the file found.
   */
  method RunWithSearch(host: Host, debug: bool) returns (o: Outcome)
    ensures SearchDrives(host.drives, TargetFileName).None? ==> o == Exited(NotFoundExitCode, NotFoundMessage)
    ensures SearchDrives(host.drives, TargetFileName).Some? ==>
      o == Spawned(Execute(host.windowsFolder, SearchDrives(host.drives, TargetFileName).value.FullName(),
                           ForwardedArguments(host, debug)))
  {
    var args := ForwardedArguments(host, debug);
    var app := FindWinApp(host.drives, TargetFileName);
    if app.None? {
      return Exited(NotFoundExitCode, NotFoundMessage);
    }
    o := Spawned(Execute(host.windowsFolder, app.value.FullName(), args));
  }

  /**
   * The search build never reaches explorer exactly when no WindowsApps child
   * directory on any drive holds a file named `wt.exe` (in any case).
   */
  lemma SearchExitsExactlyWhenAbsent(drives: seq<Drive>)
    ensures SearchDrives(drives, TargetFileName).None? <==>
      forall i :: 0 <= i < |drives| && drives[i].windowsApps.Present? ==>
        forall j :: 0 <= j < |drives[i].windowsApps.subdirectories| ==>
          !HasMatch(drives[i].windowsApps.subdirectories[j], TargetFileName)
  {
    SearchDrivesNone(drives, TargetFileName);
  }

  /** One drive holding `Program Files\WindowsApps\AppX\wt.exe`: that file is what the search finds. */
  lemma SearchFindsSingleInstall()
    ensures var drives := [Drive("C:\\", Present([Folder("C:\\Program Files\\WindowsApps\\AppX", ["wt.exe"])]))];
      SearchDrives(drives, TargetFileName) == Some(FileInfo("C:\\Program Files\\WindowsApps\\AppX", "wt.exe")) &&
      SearchDrives(drives, TargetFileName).value.FullName() == "C:\\Program Files\\WindowsApps\\AppX\\wt.exe"
  {
    var folder := Folder("C:\\Program Files\\WindowsApps\\AppX", ["wt.exe"]);
    assert NameMatches("wt.exe", TargetFileName);
    assert GetFiles(folder, TargetFileName) == [FileInfo(folder.path, "wt.exe")];
    var drives := [Drive("C:\\", Present([folder]))];
    assert Candidates(drives) == [folder] by {
      assert drives[1..] == [];
    }
    assert [folder][1..] == [];
  }

  /** The two target paths of the end-to-end examples: one without a space, one with. */
  lemma ExampleTargetsQuoting()
    ensures SmartQuote("C:\\Apps\\term.exe") == "C:\\Apps\\term.exe"
    ensures SmartQuote("C:\\My Apps\\term.exe") == "\"" + "C:\\My Apps\\term.exe" + "\""
  {
    var plain, spaced := "C:\\Apps\\term.exe", "C:\\My Apps\\term.exe";
    assert forall i :: 0 <= i < |plain| ==> plain[i] != ' ';
    assert spaced[5] == ' ';
  }

  /** The forwarded text follows the quoted path after exactly one added space. */
  lemma SpaceBeforeArguments(pth: string, rest: string)
    ensures ArgumentString(pth, Some(rest)) == SmartQuote(pth) + (" " + rest)
  {
    assert SmartQuote(pth) + " " + rest == SmartQuote(pth) + (" " + rest);
  }

  /**
   * The raw command line keeps the space that separates the program's own
   * path from its arguments, and `Execute` adds another: invoked as
   * `"<self>" <rest>`, any target is followed by two spaces before `<rest>`
   * (for `"<self>" --foo bar`, `C:\Apps\term.exe  --foo bar`).
   */
  lemma SeparatorIsForwarded(host: Host, debug: bool, pth: string, rest: string)
    requires host.commandLine == SelfPrefix(host.baseDirectory, host.friendlyName, debug) + " " + rest
    ensures ForwardedArguments(host, debug) == Some(" " + rest)
    ensures ArgumentString(pth, ForwardedArguments(host, debug)) == SmartQuote(pth) + "  " + rest
  {
    var p := SelfPrefix(host.baseDirectory, host.friendlyName, debug);
    var forwarded := " " + rest;
    assert p + " " + rest == p + forwarded;
    ForwardedArgumentsAfterOwnPath(host, debug, forwarded);
    SpaceBeforeArguments(pth, forwarded);
    var q := SmartQuote(pth);
    assert " " + forwarded == "  " + rest;
    assert q + ("  " + rest) == q + "  " + rest;
  }
}
