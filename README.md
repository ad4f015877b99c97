# CmdWt launcher, modelled in Dafny

CmdWt is a small Windows launcher shim. It takes the raw command line it was
started with, strips its own quoted path from the front, finds Windows
Terminal (`wt.exe`), and starts it indirectly through `explorer.exe`,
forwarding the remaining arguments. It finds the terminal either at a
hard-coded path or, in a build with `MUST_SEARCH`, by searching every drive's
`Program Files\WindowsApps\` child directories. If the search finds nothing,
the program exits with code 2.

The model covers the logic of `Program.cs`:

- `trimming.dfy` (`Trimming`): `TrimStart`. It removes a case-insensitive prefix at most once, and a null input gives a null result.
- `quoting.dfy` (`Quoting`): `SmartQuote`. A path is quoted exactly when it contains a space. `Unquote` is its inverse.
- `launching.dfy` (`Launching`): the strings `Execute` builds. These are the explorer file name, the argument string and the printed `Running:` line. `SplitArguments` reads an argument string back.
- `winappsearch.dfy` (`WinAppSearch`): `GetDir`, `FindFile` and `FindWinApp` over a filesystem given as a value. `FindFile` and `FindWinApp` are loop methods. Each is proved equal to a reference function (`FirstFile`, the head of the recursive `MatchingFiles`, and the recursive `SearchDrives`), and the properties of the search are lemmas about those references.
- `startup.dfy` (`Startup`): `Main`. The two build strategies are two members: `RunWithStaticPath` and `RunWithSearch`. The search variant exits with code 2 when nothing is found.
- `casefold.dfy`, `paths.dfy`, `wrappers.dfy`: these are helpers. They give ASCII case folding as a stand-in for `OrdinalIgnoreCase`, `Path.Combine` for Windows paths, and `Option` for C# nullable references.

Ambient inputs are parameters of `Startup.Host`:

- `Environment.CommandLine`
- the application domain's base directory and friendly name
- the Windows folder
- the drive list

The `DEBUG` switch is a `debug` parameter. It selects the `.dll` or `.exe` self path.

One might expect a single space between the target and the forwarded arguments; the code produces two. `TrimStart` removes only the quoted self path. The space that separates that path from the arguments on the command line is therefore kept in `Args`. `Execute` then adds its own separating space. So `"<self>" --foo bar` starts the terminal with `C:\Apps\term.exe  --foo bar`, with two spaces, not one; `Startup.SeparatorIsForwarded` proves this for every target and every rest of the command line.

Matching of file names is case-insensitive, through the same ASCII fold. This follows `Directory.GetFiles(FN)` on Windows, where file names are compared without regard to case.

## Model

| member | source | states |
|---|---|---|
| CaseFold.FoldChar | Program.cs:140 | a lower-case ASCII letter becomes its own upper-case letter (code point minus 32); every other character is unchanged; no lower-case letter survives folding |
| CaseFold.FoldCharEqual | Program.cs:140 | two characters fold alike if and only if they are equal or are the upper- and lower-case forms of one ASCII letter |
| CaseFold.StartsWithIgnoreCase | Program.cs:140 | a match needs the prefix to be no longer than the string, and an exact prefix always matches |
| CaseFold.StartsWithAppend | Program.cs:140 | a string beginning with any case variant of the prefix starts with the prefix, and what follows it is the rest of the string |
| CaseFold.FoldIgnoresCase | Program.cs:140 | example: `WT.EXE` and `wt.exe` compare equal, and a different character does not |
| Paths.Combine | Program.cs:58 | an empty part yields the other part; a rooted second part wins; otherwise the result is the first part, then one backslash (none when the first part already ends in a separator), then the second part |
| Trimming.TrimStart | Program.cs:139-140 | null stays null and non-null stays non-null; the result is a suffix of the input; a changed result means the input started with the prefix and exactly the prefix's length was removed |
| Trimming.TrimStartRemovesMatchingPrefix | Program.cs:140 | for any case variant `p` of the prefix, trimming `p + x` gives exactly `x`, so the length is `|s| - |t|` |
| Trimming.TrimStartIdentity | Program.cs:140 | the string is returned unchanged if and only if it does not start with the prefix, or the prefix is empty |
| Trimming.TrimStartRemovesAtMostOnce | Program.cs:135-140 | given two case variants of the prefix in a row, only the first is removed, and the result still starts with the prefix |
| Trimming.TrimStartOfRepeatedPrefix | Program.cs:135-140 | trimming `t + t + x` gives `t + x`, not `x` |
| Trimming.TrimStartSplits | Program.cs:140 | either nothing is removed, or the removed part is a case variant of the prefix and putting it back gives the input |
| Quoting.SmartQuote | Program.cs:71-76 | the result differs from the path if and only if the path has a space; if so, the result is the path wrapped in one pair of quotes, with nothing escaped |
| Quoting.Unquote | Program.cs:76 | the result is the input, or the input minus one pair of outer quotes |
| Quoting.SmartQuoteRoundTrip | Program.cs:76 | every path is recovered from its quoted form |
| Quoting.SmartQuoteDoesNotEscape | Program.cs:71-76 | inner quotes are kept verbatim, and a quote character alone does not trigger quoting |
| Launching.ArgumentString | Program.cs:56-62 | the argument string is the quoted-if-needed target, then exactly one space, then the forwarded arguments verbatim (null gives nothing) |
| Launching.Execute | Program.cs:57-66 | the start information: explorer from the Windows folder, the argument string, no shell execution; and the line printed before the start |
| Launching.BannerShowsCommand | Program.cs:62-66 | the printed line is `Running: `, then the quoted-if-needed explorer path, the quoted-if-needed target and the forwarded arguments, in that order and separated by single spaces |
| Launching.BannerReadBack | Program.cs:57-66 | when neither path holds a double quote, the printed line after `Running: ` reads back as exactly the explorer file name and the argument string explorer receives, and that argument string reads back as the target and the forwarded arguments |
| Launching.EmptyArgumentsKeepSeparator | Program.cs:56-62 | with null or empty arguments, the argument string is the target followed by one trailing space, and null and empty give the same string |
| Launching.SplitArguments | Program.cs:62 | the reader that ArgumentStringRoundTrip and BannerReadBack prove inverts the argument string; on its own its contract only bounds the lengths of the two parts |
| Launching.ArgumentStringRoundTrip | Program.cs:62 | when the target has no double quote, splitting the argument string gives back exactly the target and the forwarded arguments |
| Launching.ArgumentStringAmbiguous | Program.cs:62 | without escaping, a target with a quote produces the same argument string as a different target and arguments |
| WinAppSearch.GetDir | Program.cs:119-128 | null exactly for a null path, a path that throws, or a missing directory that must exist; otherwise the directory at that path, with its children when it exists |
| WinAppSearch.WindowsAppsDir | Program.cs:88-89 | a drive's WindowsApps directory is obtained exactly when it exists and is accessible |
| WinAppSearch.Subdirectories | Program.cs:88-91 | a drive without an accessible WindowsApps directory gives no folders to search; otherwise its child directories in order |
| WinAppSearch.MatchingFiles | Program.cs:107 | every file listed lies in the directory, is one of its names and matches the searched name |
| WinAppSearch.GetFiles | Program.cs:107 | `Dir.GetFiles(FN)` lists no more files than the directory has, and is empty if and only if no file name matches |
| WinAppSearch.FileInfo.FullName | Program.cs:43 | the full name is the folder path, then a backslash unless the path already ends with a separator, then the file name |
| WinAppSearch.MatchingFilesEmpty | Program.cs:107 | the list of matching files is empty if and only if no file name matches |
| WinAppSearch.MatchingFilesFirst | Program.cs:107-108 | the first matching file is the earliest name in the directory that matches |
| WinAppSearch.FirstFileSpec | Program.cs:106-111 | the first file of `GetFiles` lies in the directory, has a matching name, and no earlier name matches; there is none if and only if no file matches |
| WinAppSearch.FindFile | Program.cs:106-111 | returns the first element of the directory's matching files, or null exactly when no file matches |
| WinAppSearch.SearchDrives | Program.cs:85-98 | the reference search: a hit has a matching name and is the first file of some folder that the drive-then-child walk visits |
| WinAppSearch.SearchFoldersAppend | Program.cs:91-95 | searching two runs of folders in a row gives the first run's hit, or else the second run's result |
| WinAppSearch.SearchFoldersNone | Program.cs:91-97 | the search over folders finds nothing if and only if no folder holds a matching file |
| WinAppSearch.SearchFoldersFirst | Program.cs:91-95 | a hit is the first file of some folder, and no earlier folder holds a matching file |
| WinAppSearch.SearchDrivesUnfold | Program.cs:87-97 | the first drive decides whenever its folders give a hit; otherwise the remaining drives are searched |
| WinAppSearch.SearchDrivesSkipsInaccessible | Program.cs:88-89 | a drive whose WindowsApps directory is missing or faulted does not change the search result |
| WinAppSearch.SearchDrivesFirstDrive | Program.cs:87-97 | a hit comes from a drive with an accessible WindowsApps directory, and every earlier drive gives no hit |
| WinAppSearch.SearchDrivesNone | Program.cs:87-97 | the result is null if and only if no child directory of any accessible drive holds a matching file |
| WinAppSearch.SearchDrivesFindsMatchingFile | Program.cs:85-98 | a hit has a matching name and lies directly inside a child directory of some drive's WindowsApps directory |
| WinAppSearch.FindWinApp | Program.cs:85-98 | the drive loop with early return yields exactly the reference search: drives in order, then child directories in order, first match wins |
| Startup.ExitCode | Program.cs:39-49 | an early exit reports its own code (2 when the terminal is not found); a launch reports 0 |
| Startup.SelfPrefix | Program.cs:31-35 | the self path is the base directory and friendly name with `.dll` (debug) or `.exe`, in double quotes |
| Startup.ForwardedArguments | Program.cs:30-35 | the arguments are never null; they are the whole command line, or what follows a case variant of the self path at its front |
| Startup.ForwardedArgumentsAfterSelf | Program.cs:32-34 | a command line that starts with the self path, in any case, forwards exactly what follows it |
| Startup.ForwardedArgumentsAfterOwnPath | Program.cs:32-34 | a command line that starts with the self path exactly as built forwards exactly what follows it |
| Startup.StaticTargetIsQuoted | Program.cs:45-46 | the hard-coded terminal path contains a space and is launched in quotes |
| Startup.StaticArguments | Program.cs:45-46 | the static build's argument string is the quoted hard-coded path, a space, and the forwarded arguments |
| Startup.RunWithStaticPath | Program.cs:44-46 | the static build always runs `Execute` on the hard-coded path and the forwarded arguments, so explorer starts without shell execution, with the quoted path, a space and the arguments, after printing the `Running:` line; its exit status is 0, provided the final `Console.ReadKey` returns |
| Startup.RunWithSearch | Program.cs:36-43 | when the search finds nothing, the run exits with code 2 and the not-found message; otherwise it launches the full name of the file found, with the forwarded arguments |
| Startup.SearchExitsExactlyWhenAbsent | Program.cs:37-40 | the search build ends with exit code 2 if and only if no accessible WindowsApps child directory on any drive holds `wt.exe` |
| Startup.SearchFindsSingleInstall | Program.cs:37 | with one drive holding `Program Files\WindowsApps\AppX\wt.exe`, the search finds that file and its full name |
| Startup.ExampleTargetsQuoting | Program.cs:76 | `C:\Apps\term.exe` is launched unquoted and `C:\My Apps\term.exe` in quotes |
| Startup.SeparatorIsForwarded | Program.cs:34 | for a command line `"<self>" <rest>`, the forwarded arguments keep their leading space, so any target, quoted or not, is followed by two spaces and then `<rest>` |

## Left out

- Process creation and `Start`, `Console.WriteLine` and `Console.ReadKey`, and `Environment.Exit` are OS side effects. The model returns the start information, the printed line and the exit code they would receive.
- `Environment.CommandLine`, `AppDomain.CurrentDomain` (base directory and friendly name), `Environment.GetFolderPath` and `DriveInfo.GetDrives` are ambient inputs. They are parameters (`Startup.Host`).
- The `Program` constructor, which only tunes the runtime (`ProfileOptimization`), has no logic to model.
- The `DEBUG` and `MUST_SEARCH` compile-time switches are not a configuration mechanism in the model. `DEBUG` is a parameter, and the two strategies are two members.
- CaseFold.FoldChar: folds ASCII letters only. It stands in for the full Unicode case mapping of `OrdinalIgnoreCase`.
- WinAppSearch.FindFile: matches the name by case-insensitive equality. The wildcard characters `*` and `?` of a `GetFiles` search pattern, and matching against 8.3 short names, are not modelled. The searched name `wt.exe` uses neither.
- The enumeration order of drives, child directories and files is the order of the model's sequences. The real order is whatever the OS returns.
- Exceptions from `GetDirectories()` and `GetFiles()` are not modelled. The source does not catch them: only `GetDir`'s own resolution is inside `try`. The model treats enumeration as always succeeding.
- `FileInfo.FullName` and `DirectoryInfo` path normalisation are not modelled. A full name is the folder path combined with the file name.
- WinAppSearch.Folder: a child directory's `path` is taken as given. The model does not require it to lie under `Combine(drive.name, "Program Files\WindowsApps\")`. "Inside a child directory of a drive's WindowsApps directory" (SearchDrivesFindsMatchingFile) therefore means membership in that drive's list of child directories. It does not mean a path prefix.
- When the launch fails at the OS level, the source does not handle it. It is outside the model.
- After starting explorer, `Execute` waits for a key (`Console.ReadKey`). That call blocks, and it throws when input is redirected. Nothing catches the exception. The modelled exit status 0 of a launch assumes that `ReadKey` returns.
