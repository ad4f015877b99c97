/**
 * The optional drive search (`FindWinApp`, `FindFile`, `GetDir`): look on
 * every drive under `Program Files\WindowsApps\`, in every immediate child
 * directory, for a file with the given name, and take the first one found.
 *
 * The filesystem is a value: the drives in enumeration order, for each the
 * state of its WindowsApps directory, and for each child directory the names
 * of its files in enumeration order.
 */
module WinAppSearch {
  import opened Wrappers
  import opened CaseFold
  import Paths

  /** A child directory of WindowsApps: its full path and its file names. */
  datatype Folder = Folder(path: string, files: seq<string>)

  /**
   * What the filesystem holds at a directory path: the path is one that
   * `DirectoryInfo` refuses (it throws), nothing exists there, or a
   * directory with these child directories.
   */
  datatype DirState = Faulted | Missing | Present(subdirectories: seq<Folder>)

  /** A mounted drive: its root name (`C:\`) and the state of its WindowsApps directory. */
  datatype Drive = Drive(name: string, windowsApps: DirState)

  /** The `DirectoryInfo` that `GetDir` hands back. */
  datatype DirectoryInfo = DirectoryInfo(path: string, present: bool, subdirectories: seq<Folder>)

  /** A found file: the directory it is in and its own name. */
  datatype FileInfo = FileInfo(directory: string, name: string) {
    /** The folder path and the file name joined by one separator. */
    function FullName(): (r: string)
      ensures directory != [] && name != [] && !Paths.IsRooted(name) ==>
        |directory| + |name| <= |r| <= |directory| + |name| + 1 &&
        r[..|directory|] == directory && r[|r| - |name|..] == name
      ensures directory != [] && name != [] && !Paths.IsRooted(name) ==>
        r == directory + (if Paths.IsSeparator(directory[|directory| - 1]) then "" else "\\") + name
    {
      Paths.Combine(directory, name)
    }
  }

  const WindowsAppsSubpath: string := "Program Files\\WindowsApps\\"

  /**
   * `GetDir(Path, MustExist)`: null for a null path, for a path that cannot
   * be turned into a directory (the swallowed exception), and for a missing
   * directory when it must exist; otherwise the directory.
   */
  function GetDir(path: Option<string>, mustExist: bool, state: DirState): (r: Option<DirectoryInfo>)
    ensures r.None? <==> path.None? || state.Faulted? || (mustExist && state.Missing?)
    ensures r.Some? ==> r.value.path == path.value && (r.value.present <==> state.Present?)
    ensures r.Some? && state.Present? ==> r.value.subdirectories == state.subdirectories
  {
    match path
    case None => None
    case Some(p) =>
      match state
      case Faulted => None
      case Missing => if mustExist then None else Some(DirectoryInfo(p, false, []))
      case Present(subs) => Some(DirectoryInfo(p, true, subs))
  }

  /** The WindowsApps directory of a drive, as `FindWinApp` resolves it. */
  function WindowsAppsDir(drive: Drive): (r: Option<DirectoryInfo>)
    ensures r.Some? <==> drive.windowsApps.Present?
  {
    GetDir(Some(Paths.Combine(drive.name, WindowsAppsSubpath)), true, drive.windowsApps)
  }

  /** The child directories the search visits on one drive: none when WindowsApps is absent or faulted. */
  function Subdirectories(drive: Drive): (folders: seq<Folder>)
    ensures !drive.windowsApps.Present? ==> folders == []
    ensures drive.windowsApps.Present? ==> folders == drive.windowsApps.subdirectories
  {
    match WindowsAppsDir(drive)
    case None => []
    case Some(dir) => dir.subdirectories
  }

  /** Whether a file name matches the searched name (Windows compares names without regard to case). */
  predicate NameMatches(name: string, pattern: string) {
    EqualsIgnoreCase(name, pattern)
  }

  /** The files of `names` that match, in order. */
  function MatchingFiles(directory: string, names: seq<string>, pattern: string): (r: seq<FileInfo>)
    ensures |r| <= |names|
    ensures forall f :: f in r ==> f.directory == directory && f.name in names && NameMatches(f.name, pattern)
    decreases |names|
  {
    if names == [] then []
    else
      (if NameMatches(names[0], pattern) then [FileInfo(directory, names[0])] else [])
      + MatchingFiles(directory, names[1..], pattern)
  }

  /** `Dir.GetFiles(FN)`: the files of the directory whose name matches. */
  function GetFiles(dir: Folder, pattern: string): (r: seq<FileInfo>)
    ensures |r| <= |dir.files|
    ensures r == [] <==> !HasMatch(dir, pattern)
  {
    MatchingFilesEmpty(dir.path, dir.files, pattern);
    MatchingFiles(dir.path, dir.files, pattern)
  }

  /** Some file of the directory matches. */
  predicate HasMatch(dir: Folder, pattern: string) {
    exists k :: 0 <= k < |dir.files| && NameMatches(dir.files[k], pattern)
  }

  /** The result `FindFile` must return: the first element of `GetFiles`, or null. */
  function FirstFile(dir: Folder, pattern: string): Option<FileInfo> {
    if GetFiles(dir, pattern) == [] then None else Some(GetFiles(dir, pattern)[0])
  }

  /** The matching files are empty exactly when no name matches. */
  lemma {:induction false} MatchingFilesEmpty(directory: string, names: seq<string>, pattern: string)
    ensures MatchingFiles(directory, names, pattern) == [] <==>
      forall k :: 0 <= k < |names| ==> !NameMatches(names[k], pattern)
    decreases |names|
  {
    if names != [] {
      var tail := names[1..];
      MatchingFilesEmpty(directory, tail, pattern);
      assert forall k :: 1 <= k < |names| ==> names[k] == tail[k - 1];
    }
  }

  /** When some name matches, the first matching file is the earliest matching name. */
  lemma {:induction false} MatchingFilesFirst(directory: string, names: seq<string>, pattern: string)
    requires MatchingFiles(directory, names, pattern) != []
    ensures exists k ::
      && 0 <= k < |names|
      && MatchingFiles(directory, names, pattern)[0] == FileInfo(directory, names[k])
      && NameMatches(names[k], pattern)
      && forall i :: 0 <= i < k ==> !NameMatches(names[i], pattern)
    decreases |names|
  {
    var tail := names[1..];
    if NameMatches(names[0], pattern) {
      assert MatchingFiles(directory, names, pattern)[0] == FileInfo(directory, names[0]);
    } else {
      assert MatchingFiles(directory, names, pattern) == MatchingFiles(directory, tail, pattern);
      MatchingFilesFirst(directory, tail, pattern);
      var k :| 0 <= k < |tail| && MatchingFiles(directory, tail, pattern)[0] == FileInfo(directory, tail[k])
        && NameMatches(tail[k], pattern)
        && forall i :: 0 <= i < k ==> !NameMatches(tail[i], pattern);
      assert names[k + 1] == tail[k];
      assert forall i :: 1 <= i < k + 1 ==> names[i] == tail[i - 1];
    }
  }

  /**
   * What `FindFile` promises: a found file lies in the directory, has a
   * matching name and is the first such file; null exactly when no file
   * of the directory matches.
   */
  lemma FirstFileSpec(dir: Folder, pattern: string)
    ensures FirstFile(dir, pattern).None? <==> !HasMatch(dir, pattern)
    ensures FirstFile(dir, pattern).Some? ==>
      var f := FirstFile(dir, pattern).value;
      f.directory == dir.path && NameMatches(f.name, pattern) &&
      exists k :: 0 <= k < |dir.files| && dir.files[k] == f.name
        && forall i :: 0 <= i < k ==> !NameMatches(dir.files[i], pattern)
  {
    MatchingFilesEmpty(dir.path, dir.files, pattern);
    if GetFiles(dir, pattern) != [] {
      MatchingFilesFirst(dir.path, dir.files, pattern);
    }
  }

  /** One step of the file loop: the files left from `i` on are file `i`'s match, then the rest. */
  lemma MatchingFilesFrom(directory: string, names: seq<string>, i: nat, pattern: string)
    requires i < |names|
    ensures MatchingFiles(directory, names[i..], pattern) ==
      (if NameMatches(names[i], pattern) then [FileInfo(directory, names[i])] else [])
      + MatchingFiles(directory, names[i + 1..], pattern)
  {
    assert names[i..][1..] == names[i + 1..];
  }

  /**
   * `FindFile(Dir, FN)`: goes through the directory's files in order and
   * returns the first whose name matches, or null.
   */
  method FindFile(dir: Folder, pattern: string) returns (r: Option<FileInfo>)
    ensures r == FirstFile(dir, pattern)
    ensures r.None? <==> !HasMatch(dir, pattern)
    ensures r.Some? ==> r.value.directory == dir.path && r.value.name in dir.files && NameMatches(r.value.name, pattern)
  {
    FirstFileSpec(dir, pattern);
    var i := 0;
    while i < |dir.files|
      invariant 0 <= i <= |dir.files|
      invariant MatchingFiles(dir.path, dir.files[i..], pattern) == GetFiles(dir, pattern)
    {
      MatchingFilesFrom(dir.path, dir.files, i, pattern);
      if NameMatches(dir.files[i], pattern) {
        return Some(FileInfo(dir.path, dir.files[i]));
      }
      i := i + 1;
    }
    assert dir.files[i..] == [];
    return None;
  }

  /** The first hit over a sequence of folders, in order. */
  function SearchFolders(folders: seq<Folder>, pattern: string): (r: Option<FileInfo>)
    decreases |folders|
  {
    if folders == [] then None
    else if FirstFile(folders[0], pattern).Some? then FirstFile(folders[0], pattern)
    else SearchFolders(folders[1..], pattern)
  }

  /** Every folder the search visits: drives in order, and on each drive its child directories in order. */
  function Candidates(drives: seq<Drive>): seq<Folder>
    decreases |drives|
  {
    if drives == [] then [] else Subdirectories(drives[0]) + Candidates(drives[1..])
  }

  /** The reference result of `FindWinApp(FN)`: the first hit over all candidate folders. */
  function SearchDrives(drives: seq<Drive>, pattern: string): (r: Option<FileInfo>)
    ensures r.Some? ==> exists g :: g in Candidates(drives) && FirstFile(g, pattern) == r
  {
    SearchFoldersFirst(Candidates(drives), pattern);
    SearchFolders(Candidates(drives), pattern)
  }

  /** Searching two runs of folders one after the other is searching the second only when the first finds nothing. */
  lemma {:induction false} SearchFoldersAppend(a: seq<Folder>, b: seq<Folder>, pattern: string)
    ensures SearchFolders(a + b, pattern) ==
      if SearchFolders(a, pattern).Some? then SearchFolders(a, pattern) else SearchFolders(b, pattern)
    decreases |a|
  {
    if a == [] {
      assert a + b == b;
    } else {
      assert (a + b)[0] == a[0];
      assert (a + b)[1..] == a[1..] + b;
      SearchFoldersAppend(a[1..], b, pattern);
    }
  }

  /** The folder search finds nothing exactly when no folder has a matching file. */
  lemma {:induction false} SearchFoldersNone(folders: seq<Folder>, pattern: string)
    ensures SearchFolders(folders, pattern).None? <==>
      forall j :: 0 <= j < |folders| ==> !HasMatch(folders[j], pattern)
    decreases |folders|
  {
    if folders != [] {
      FirstFileSpec(folders[0], pattern);
      SearchFoldersNone(folders[1..], pattern);
      assert forall j :: 1 <= j < |folders| ==> folders[j] == folders[1..][j - 1];
    }
  }

  /** A hit is the first file of some folder, and no earlier folder has a matching file. */
  lemma {:induction false} SearchFoldersFirst(folders: seq<Folder>, pattern: string)
    ensures SearchFolders(folders, pattern).Some? ==>
      exists j :: 0 <= j < |folders| && FirstFile(folders[j], pattern) == SearchFolders(folders, pattern)
        && forall i :: 0 <= i < j ==> !HasMatch(folders[i], pattern)
    decreases |folders|
  {
    if folders != [] {
      FirstFileSpec(folders[0], pattern);
      if FirstFile(folders[0], pattern).None? {
        var tail := folders[1..];
        SearchFoldersFirst(tail, pattern);
        if SearchFolders(tail, pattern).Some? {
          var j :| 0 <= j < |tail| && FirstFile(tail[j], pattern) == SearchFolders(tail, pattern)
            && forall i :: 0 <= i < j ==> !HasMatch(tail[i], pattern);
          assert folders[j + 1] == tail[j];
          assert forall i :: 1 <= i < j + 1 ==> folders[i] == tail[i - 1];
        }
      }
    }
  }

  /** The drive search, drive by drive: the first drive with a hit decides. */
  lemma SearchDrivesUnfold(drives: seq<Drive>, pattern: string)
    requires drives != []
    ensures SearchDrives(drives, pattern) ==
      if SearchFolders(Subdirectories(drives[0]), pattern).Some? then SearchFolders(Subdirectories(drives[0]), pattern)
      else SearchDrives(drives[1..], pattern)
  {
    SearchFoldersAppend(Subdirectories(drives[0]), Candidates(drives[1..]), pattern);
  }

  /** A drive whose WindowsApps directory is missing or faulted is skipped. */
  lemma SearchDrivesSkipsInaccessible(drive: Drive, rest: seq<Drive>, pattern: string)
    requires !drive.windowsApps.Present?
    ensures SearchDrives([drive] + rest, pattern) == SearchDrives(rest, pattern)
  {
    assert ([drive] + rest)[1..] == rest;
    SearchDrivesUnfold([drive] + rest, pattern);
  }

  /**
   * A hit comes from the first drive that yields one: that drive's
   * WindowsApps directory exists, and every earlier drive yields nothing.
   */
  lemma {:induction false} SearchDrivesFirstDrive(drives: seq<Drive>, pattern: string)
    ensures SearchDrives(drives, pattern).Some? ==>
      exists i :: 0 <= i < |drives| && drives[i].windowsApps.Present?
        && SearchFolders(drives[i].windowsApps.subdirectories, pattern) == SearchDrives(drives, pattern)
        && forall h :: 0 <= h < i ==> SearchFolders(Subdirectories(drives[h]), pattern).None?
    decreases |drives|
  {
    if drives != [] {
      SearchDrivesUnfold(drives, pattern);
      var tail := drives[1..];
      if SearchFolders(Subdirectories(drives[0]), pattern).Some? {
        assert Subdirectories(drives[0]) != [];
        assert drives[0].windowsApps.Present?;
      } else {
        SearchDrivesFirstDrive(tail, pattern);
        if SearchDrives(tail, pattern).Some? {
          var i :| 0 <= i < |tail| && tail[i].windowsApps.Present?
            && SearchFolders(tail[i].windowsApps.subdirectories, pattern) == SearchDrives(tail, pattern)
            && forall h :: 0 <= h < i ==> SearchFolders(Subdirectories(tail[h]), pattern).None?;
          assert drives[i + 1] == tail[i];
          forall h | 0 <= h < i + 1
            ensures SearchFolders(Subdirectories(drives[h]), pattern).None?
          {
            if h > 0 {
              assert drives[h] == tail[h - 1];
            }
          }
        }
      }
    }
  }

  /**
   * The search finds nothing exactly when no child directory of any drive
   * with a WindowsApps directory holds a matching file.
   */
  lemma {:induction false} SearchDrivesNone(drives: seq<Drive>, pattern: string)
    ensures SearchDrives(drives, pattern).None? <==>
      forall i :: 0 <= i < |drives| && drives[i].windowsApps.Present? ==>
        forall j :: 0 <= j < |drives[i].windowsApps.subdirectories| ==>
          !HasMatch(drives[i].windowsApps.subdirectories[j], pattern)
    decreases |drives|
  {
    if drives != [] {
      SearchDrivesUnfold(drives, pattern);
      SearchFoldersNone(Subdirectories(drives[0]), pattern);
      SearchDrivesNone(drives[1..], pattern);
      assert forall i :: 1 <= i < |drives| ==> drives[i] == drives[1..][i - 1];
    }
  }

  /**
   * A hit is a file named like the searched name, directly inside a child
   * directory of the WindowsApps directory of some drive.
   */
  lemma SearchDrivesFindsMatchingFile(drives: seq<Drive>, pattern: string)
    requires SearchDrives(drives, pattern).Some?
    ensures var f := SearchDrives(drives, pattern).value;
      NameMatches(f.name, pattern) &&
      exists i, j :: 0 <= i < |drives| && drives[i].windowsApps.Present?
        && 0 <= j < |drives[i].windowsApps.subdirectories|
        && drives[i].windowsApps.subdirectories[j].path == f.directory
        && f.name in drives[i].windowsApps.subdirectories[j].files
  {
    SearchDrivesFirstDrive(drives, pattern);
    var i :| 0 <= i < |drives| && drives[i].windowsApps.Present?
      && SearchFolders(drives[i].windowsApps.subdirectories, pattern) == SearchDrives(drives, pattern);
    var subs := drives[i].windowsApps.subdirectories;
    SearchFoldersFirst(subs, pattern);
    var j :| 0 <= j < |subs| && FirstFile(subs[j], pattern) == SearchFolders(subs, pattern);
    FirstFileSpec(subs[j], pattern);
  }

  /** One step of the drive loop: the folders left from drive `i` on are drive `i`'s, then the rest. */
  lemma CandidatesFrom(drives: seq<Drive>, i: nat, pattern: string)
    requires i < |drives|
    ensures SearchFolders(Candidates(drives[i..]), pattern) ==
      if SearchFolders(Subdirectories(drives[i]), pattern).Some? then SearchFolders(Subdirectories(drives[i]), pattern)
      else SearchFolders(Candidates(drives[i + 1..]), pattern)
  {
    assert drives[i..][1..] == drives[i + 1..];
    SearchFoldersAppend(Subdirectories(drives[i]), Candidates(drives[i + 1..]), pattern);
  }

  /** One step of the child-directory loop. */
  lemma SearchFoldersFrom(folders: seq<Folder>, j: nat, pattern: string)
    requires j < |folders|
    ensures SearchFolders(folders[j..], pattern) ==
      if FirstFile(folders[j], pattern).Some? then FirstFile(folders[j], pattern)
      else SearchFolders(folders[j + 1..], pattern)
  {
    assert folders[j..][1..] == folders[j + 1..];
  }

  /** A hit in child directory `j` of drive `i` is the hit of the whole search from drive `i` on. */
  lemma HitInDrive(drives: seq<Drive>, i: nat, dirs: seq<Folder>, j: nat, pattern: string)
    requires i < |drives| && dirs == Subdirectories(drives[i]) && j < |dirs|
    requires SearchFolders(dirs[j..], pattern) == SearchFolders(dirs, pattern)
    requires FirstFile(dirs[j], pattern).Some?
    ensures FirstFile(dirs[j], pattern) == SearchFolders(Candidates(drives[i..]), pattern)
  {
    SearchFoldersFrom(dirs, j, pattern);
    CandidatesFrom(drives, i, pattern);
  }

  /** A drive whose child directories yield nothing hands the search on to the next drive. */
  lemma MissInDrive(drives: seq<Drive>, i: nat, pattern: string)
    requires i < |drives| && SearchFolders(Subdirectories(drives[i]), pattern).None?
    ensures SearchFolders(Candidates(drives[i + 1..]), pattern) == SearchFolders(Candidates(drives[i..]), pattern)
  {
    CandidatesFrom(drives, i, pattern);
  }

  /**
   * `FindWinApp(FN)`: for each drive in order, skip it when its WindowsApps
   * directory cannot be had, otherwise try each child directory in order and
   * return the first file found; null when every drive is exhausted.
   */
  method FindWinApp(drives: seq<Drive>, fileName: string) returns (r: Option<FileInfo>)
    ensures r == SearchDrives(drives, fileName)
  {
    ghost var target := SearchDrives(drives, fileName);
    var i := 0;
    while i < |drives|
      invariant 0 <= i <= |drives|
      invariant SearchFolders(Candidates(drives[i..]), fileName) == target
    {
      var winAppDir := GetDir(Some(Paths.Combine(drives[i].name, WindowsAppsSubpath)), true, drives[i].windowsApps);
      assert winAppDir == WindowsAppsDir(drives[i]);
      if winAppDir.None? {
        MissInDrive(drives, i, fileName);
        i := i + 1;
        continue;
      }
      var dirs := winAppDir.value.subdirectories;
      assert dirs == Subdirectories(drives[i]);
      var j := 0;
      while j < |dirs|
        invariant 0 <= j <= |dirs|
        invariant SearchFolders(dirs[j..], fileName) == SearchFolders(dirs, fileName)
      {
        SearchFoldersFrom(dirs, j, fileName);
        var found := FindFile(dirs[j], fileName);
        if found.Some? {
          HitInDrive(drives, i, dirs, j, fileName);
          return found;
        }
        j := j + 1;
      }
      assert dirs[j..] == [];
      MissInDrive(drives, i, fileName);
      i := i + 1;
    }
    assert drives[i..] == [];
    return None;
  }
}
