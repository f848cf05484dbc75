/**
 * The version recovery script. A backup copies the listed project files and
 * directories into `backups/v<n>_<timestamp>/` and appends a record to the
 * manifest `backups/versions.json`; a restore looks a version up in the
 * manifest and, once confirmed, copies its files back over the project.
 *
 * A directory tree is a map from relative paths (sequences of names) to
 * file contents, together with the set of top-level directories it holds.
 */
module Backup {
  import opened Wrappers
  import opened Text

  type Path = seq<string>

  datatype Tree = Tree(files: map<Path, string>, dirs: set<string>)

  const EmptyTree := Tree(map[], {})

  const IncludeFiles: seq<string> := ["app.py", "database.py", "gst_automation.py", "requirements.txt"]
  const IncludeDirs: seq<string> := ["pages"]
  const Pycache := "__pycache__"

  /** One entry of the manifest. */
  datatype VersionRecord = VersionRecord(version: int, name: string, timestamp: string, files: seq<string>)

  /** `load_versions`: the manifest's records, or none when the file does not exist. */
  function LoadVersions(manifest: Option<seq<VersionRecord>>): (r: seq<VersionRecord>)
    ensures manifest.None? ==> r == []
    ensures manifest.Some? ==> r == manifest.value
  {
    if manifest.None? then [] else manifest.value
  }

  /** The directory name of version `n` taken at `timestamp`. */
  function BackupName(n: nat, timestamp: string): (name: string)
    ensures |name| == 2 + |NatToString(n)| + |timestamp|
    ensures name[0] == 'v' && name[1 + |NatToString(n)|] == '_'
    ensures name[1..1 + |NatToString(n)|] == NatToString(n) && name[2 + |NatToString(n)|..] == timestamp
  {
    "v" + NatToString(n) + "_" + timestamp
  }

  /** No digit of the version number is the separator. */
  lemma DigitNotSeparator(s: string, t: string, k: int)
    requires AllDigits(s) && 0 <= k < |s|
    ensures ("v" + s + "_" + t)[1 + k] != '_'
  {
    assert ("v" + s + "_" + t)[1 + k] == s[k];
  }

  /** Distinct versions never share a backup directory, whatever the timestamps. */
  lemma BackupNameInjective(n1: nat, t1: string, n2: nat, t2: string)
    requires BackupName(n1, t1) == BackupName(n2, t2)
    ensures n1 == n2 && t1 == t2
  {
    var s1, s2 := NatToString(n1), NatToString(n2);
    // The first '_' after the leading 'v' ends the version number, which has only digits.
    if |s1| < |s2| {
      DigitNotSeparator(s2, t2, |s1|);
      assert false;
    } else if |s2| < |s1| {
      DigitNotSeparator(s1, t1, |s2|);
      assert false;
    }
    assert s1 == BackupName(n1, t1)[1..1 + |s1|] == s2;
    NatToStringInjective(n1, n2);
  }

  /** The "[d + '/' for d in INCLUDE_DIRS]" part of the file list. */
  function DirEntries(dirs: seq<string>): (r: seq<string>)
    ensures |r| == |dirs| && forall i :: 0 <= i < |dirs| ==> r[i] == dirs[i] + "/"
  {
    seq(|dirs|, i requires 0 <= i < |dirs| => dirs[i] + "/")
  }

  /** The manifest's file list: the files, then each directory with a trailing "/". */
  function ManifestFiles(): (r: seq<string>)
    ensures |r| == |IncludeFiles| + |IncludeDirs|
    ensures r[..|IncludeFiles|] == IncludeFiles
    ensures forall i :: 0 <= i < |IncludeDirs| ==> r[|IncludeFiles| + i] == IncludeDirs[i] + "/"
  {
    IncludeFiles + DirEntries(IncludeDirs)
  }

  /** The record `create_backup` appends to `versions`. */
  function NextRecord(versions: seq<VersionRecord>, timestamp: string, isoTime: string): (v: VersionRecord)
    ensures v.version == |versions| + 1
    ensures v.name == BackupName(|versions| + 1, timestamp) && v.timestamp == isoTime
    ensures v.files == ManifestFiles()
  {
    VersionRecord(|versions| + 1, BackupName(|versions| + 1, timestamp), isoTime, ManifestFiles())
  }

  /** The records after one backup per (timestamp, ISO time) pair, in order. */
  function Replay(versions: seq<VersionRecord>, clocks: seq<(string, string)>): (r: seq<VersionRecord>)
    ensures |r| == |versions| + |clocks|
    ensures r[..|versions|] == versions
    decreases |clocks|
  {
    if clocks == [] then versions
    else Replay(versions + [NextRecord(versions, clocks[0].0, clocks[0].1)], clocks[1..])
  }

  /**
   * Replaying keeps the earlier records, and the record taken at clock `k`
   * is version `|versions| + k + 1`, named after that number and that clock.
   */
  lemma {:induction false} ReplayAt(versions: seq<VersionRecord>, clocks: seq<(string, string)>, i: int)
    requires 0 <= i < |versions| + |clocks|
    ensures |Replay(versions, clocks)| == |versions| + |clocks|
    ensures i < |versions| ==> Replay(versions, clocks)[i] == versions[i]
    ensures i >= |versions| ==> (Replay(versions, clocks)[i] ==
      VersionRecord(i + 1, BackupName(i + 1, clocks[i - |versions|].0), clocks[i - |versions|].1, ManifestFiles()))
    decreases |clocks|
  {
    if clocks != [] {
      var next := versions + [NextRecord(versions, clocks[0].0, clocks[0].1)];
      ReplayAt(next, clocks[1..], i);
      if i >= |next| {
        assert clocks[1..][i - |next|] == clocks[i - |versions|];
      }
    }
  }

  /** From no manifest at all, k backups are versions 1..k, with pairwise distinct numbers and directory names. */
  lemma VersionsFromEmpty(clocks: seq<(string, string)>, i: int, j: int)
    requires 0 <= i < j < |clocks|
    ensures var r := Replay(LoadVersions(None), clocks);
      |r| == |clocks| && r[i].version == i + 1 && r[j].version == j + 1 && r[i].name != r[j].name
  {
    ReplayAt([], clocks, i);
    ReplayAt([], clocks, j);
    var r := Replay([], clocks);
    if r[i].name == r[j].name {
      BackupNameInjective(i + 1, clocks[i].0, j + 1, clocks[j].0);
    }
  }

  // ---------------------------------------------------------------------------
  // Copying trees

  predicate Under(p: Path, d: string)
  {
    |p| >= 2 && p[0] == d
  }

  /** `ignore_patterns("__pycache__")`: some directory or file below the copied one has that name. */
  predicate Ignored(p: Path)
  {
    exists i :: 1 <= i < |p| && p[i] == Pycache
  }

  /** The files of `src` that the "Copy individual files" loop picks up. */
  function TopFiles(files: map<Path, string>, names: seq<string>): (r: map<Path, string>)
    ensures forall p :: p in r <==> p in files && |p| == 1 && p[0] in names
    ensures forall p :: p in r ==> r[p] == files[p]
  {
    map p | p in files && |p| == 1 && p[0] in names :: files[p]
  }

  /** `copytree(src/d, ...)`: the files below `d`, without the ignored ones when `ignore` is set. */
  function Subtree(files: map<Path, string>, d: string, ignore: bool): (r: map<Path, string>)
    ensures forall p :: p in r <==> p in files && Under(p, d) && !(ignore && Ignored(p))
    ensures forall p :: p in r ==> r[p] == files[p]
  {
    map p | p in files && Under(p, d) && !(ignore && Ignored(p)) :: files[p]
  }

  /** `rmtree(dst/d)`: everything except the files below `d`. */
  function WithoutSubtree(files: map<Path, string>, d: string): (r: map<Path, string>)
    ensures forall p :: p in r <==> p in files && !Under(p, d)
    ensures forall p :: p in r ==> r[p] == files[p]
  {
    map p | p in files && !Under(p, d) :: files[p]
  }

  /** One more name in the list picks up at most that one file. */
  lemma TopFilesSnoc(files: map<Path, string>, names: seq<string>, f: string)
    ensures TopFiles(files, names + [f]) ==
      if [f] in files then TopFiles(files, names)[[f] := files[[f]]] else TopFiles(files, names)
  {
    var l, r := TopFiles(files, names + [f]), TopFiles(files, names);
    forall p
      ensures p in l <==> p in r || (p == [f] && [f] in files)
    {
      if |p| == 1 {
        assert (p[0] in names + [f]) == (p[0] in names || p[0] == f);
        if p[0] == f {
          assert p == [f];
        }
      }
    }
  }

  /** Copying one more file over `dst` updates that one path. */
  lemma CopyStep(src: map<Path, string>, dst: map<Path, string>, names: seq<string>, f: string)
    ensures dst + TopFiles(src, names + [f]) ==
      if [f] in src then (dst + TopFiles(src, names))[[f] := src[[f]]] else dst + TopFiles(src, names)
  {
    TopFilesSnoc(src, names, f);
    if [f] in src {
      var m := TopFiles(src, names);
      assert dst + m[[f] := src[[f]]] == (dst + m)[[f] := src[[f]]];
    }
  }

  /** The "Copy individual files" loop: each listed file of `src` that exists is copied over `dst`. */
  method CopyFiles(src: map<Path, string>, dst: map<Path, string>, names: seq<string>) returns (r: map<Path, string>)
    ensures r == dst + TopFiles(src, names)
  {
    r := dst;
    for k := 0 to |names|
      invariant r == dst + TopFiles(src, names[..k])
    {
      var f := names[k];
      ghost var done := names[..k];
      assert names[..k + 1] == done + [f];
      CopyStep(src, dst, done, f);
      if [f] in src {
        r := r[[f] := src[[f]]];
      }
    }
    assert names[..|names|] == names;
  }

  /** The snapshot a backup writes over `base`, the directory's earlier content (none for a new name). */
  function Snapshot(project: Tree, base: Tree): (s: Tree)
    ensures forall p :: p in s.files && !(p in base.files) ==>
      p in project.files && ((|p| == 1 && p[0] in IncludeFiles) || (Under(p, "pages") && !Ignored(p)))
    ensures "pages" in project.dirs ==> "pages" in s.dirs
  {
    var withFiles := base.files + TopFiles(project.files, IncludeFiles);
    if "pages" in project.dirs then Tree(withFiles + Subtree(project.files, "pages", true), base.dirs + {"pages"})
    else Tree(withFiles, base.dirs)
  }

  /** The project after copying a snapshot back: files overwritten, each saved directory replaced. */
  function Restored(project: Tree, snap: Tree): (r: Tree)
    ensures forall p :: !(|p| == 1 && p[0] in IncludeFiles) && !Under(p, "pages") ==>
      (p in r.files <==> p in project.files) && (p in r.files ==> r.files[p] == project.files[p])
  {
    var withFiles := project.files + TopFiles(snap.files, IncludeFiles);
    if "pages" in snap.dirs then Tree(WithoutSubtree(withFiles, "pages") + Subtree(snap.files, "pages", false), project.dirs + {"pages"})
    else Tree(withFiles, project.dirs)
  }

  /**
   * A restore of a fresh backup brings back every backed-up file, whatever
   * the project looked like meanwhile: the listed files that existed get
   * their content back, and the `pages` tree becomes its saved copy, without
   * the `__pycache__` entries.
   */
  lemma RestoreAfterBackup(original: Tree, later: Tree, p: Path)
    requires "pages" in original.dirs
    ensures var r := Restored(later, Snapshot(original, EmptyTree));
      ((|p| == 1 && p[0] in IncludeFiles && p in original.files) ==> p in r.files && r.files[p] == original.files[p]) &&
      (Under(p, "pages") ==> (p in r.files <==> p in original.files && !Ignored(p))) &&
      (Under(p, "pages") && p in r.files ==> r.files[p] == original.files[p])
  {
    var s := Snapshot(original, EmptyTree);
    assert "pages" in s.dirs;
    assert s.files == TopFiles(original.files, IncludeFiles) + Subtree(original.files, "pages", true);
    var r := Restored(later, s);
    var withFiles := later.files + TopFiles(s.files, IncludeFiles);
    assert r.files == WithoutSubtree(withFiles, "pages") + Subtree(s.files, "pages", false);
    if |p| == 1 && p[0] in IncludeFiles && p in original.files {
      assert !Under(p, "pages");
      assert p in s.files && s.files[p] == original.files[p];
      assert p in TopFiles(s.files, IncludeFiles);
    }
  }

  // ---------------------------------------------------------------------------
  // The script

  datatype RestoreOutcome = NotFound | DirectoryMissing | Cancelled | RestoredVersion

  /** The index of the first record of that version, as the lookup loop of `restore_backup` finds it. */
  function FirstMatch(versions: seq<VersionRecord>, versionNum: int): (r: Option<nat>)
    ensures r.None? <==> forall i :: 0 <= i < |versions| ==> versions[i].version != versionNum
    ensures r.Some? ==> (r.value < |versions| && versions[r.value].version == versionNum &&
      forall i :: 0 <= i < r.value ==> versions[i].version != versionNum)
    decreases |versions|
  {
    if |versions| == 0 then None
    else if versions[0].version == versionNum then Some(0)
    else
      match FirstMatch(versions[1..], versionNum)
      case None => None
      case Some(k) => Some(k + 1)
  }

  /**
   * What `restore_backup` does with the manifest's records, the project, the
   * backup directories and the typed answer: the outcome and the project
   * afterwards. A found version whose directory exists is restored exactly
   * when the answer lower-cases to "yes".
   */
  function RestoreResult(versions: seq<VersionRecord>, project: Tree, backups: map<string, Tree>,
                         versionNum: int, confirm: string): (r: (RestoreOutcome, Tree))
    ensures r.0 == NotFound <==> FirstMatch(versions, versionNum).None?
    ensures var m := FirstMatch(versions, versionNum);
      r.0 == DirectoryMissing <==> m.Some? && versions[m.value].name !in backups
    ensures var m := FirstMatch(versions, versionNum);
      r.0 == Cancelled <==> m.Some? && versions[m.value].name in backups && Lower(confirm) != "yes"
    ensures var m := FirstMatch(versions, versionNum);
      r.0 == RestoredVersion <==> m.Some? && versions[m.value].name in backups && Lower(confirm) == "yes"
    ensures var m := FirstMatch(versions, versionNum);
      r.0 == RestoredVersion ==> r.1 == Restored(project, backups[versions[m.value].name])
    ensures r.0 != RestoredVersion ==> r.1 == project
  {
    match FirstMatch(versions, versionNum)
    case None => (NotFound, project)
    case Some(i) =>
      if versions[i].name !in backups then (DirectoryMissing, project)
      else if Lower(confirm) != "yes" then (Cancelled, project)
      else (RestoredVersion, Restored(project, backups[versions[i].name]))
  }

  datatype Command = CreateCmd | ListCmd | RestoreCmd(version: int) | BadVersion | Usage

  /**
   * The dispatch on `sys.argv[1:]`: no argument creates a backup, "--list"
   * lists, "--restore N" restores when N parses as an integer and reports an
   * invalid number otherwise; anything else prints the usage text.
   */
  function Dispatch(args: seq<string>): (c: Command)
    ensures c == CreateCmd <==> |args| == 0
    ensures c == ListCmd <==> |args| >= 1 && args[0] == "--list"
    ensures c.RestoreCmd? <==> |args| == 2 && args[0] == "--restore" && ParseInt(args[1]).Some?
    ensures c.RestoreCmd? ==> c.version == ParseInt(args[1]).value
    ensures c == BadVersion <==> |args| == 2 && args[0] == "--restore" && ParseInt(args[1]).None?
  {
    if |args| == 0 then CreateCmd
    else if args[0] == "--list" then ListCmd
    else if args[0] == "--restore" && |args| == 2 then
      (match ParseInt(args[1]) case Some(n) => RestoreCmd(n) case None => BadVersion)
    else Usage
  }

  /** The files the script touches: its manifest, the project directory and the backup directories by name. */
  class BackupFiles {
    var manifest: Option<seq<VersionRecord>>
    var project: Tree
    var backups: map<string, Tree>

    constructor (manifest: Option<seq<VersionRecord>>, project: Tree, backups: map<string, Tree>)
      ensures this.manifest == manifest && this.project == project && this.backups == backups
    {
      this.manifest, this.project, this.backups := manifest, project, backups;
    }

    /**
     * `create_backup` at wall-clock time `timestamp` ("%Y%m%d_%H%M%S") and
     * `isoTime`: the snapshot goes under the next version's name, the manifest
     * gains its record, and the version number is returned.
     */
    method CreateBackup(timestamp: string, isoTime: string) returns (version: nat)
      modifies this
      ensures version == |LoadVersions(old(manifest))| + 1
      ensures manifest == Some(LoadVersions(old(manifest)) + [NextRecord(LoadVersions(old(manifest)), timestamp, isoTime)])
      ensures var name := BackupName(version, timestamp);
        backups == old(backups)[name := Snapshot(project, if name in old(backups) then old(backups)[name] else EmptyTree)]
      ensures project == old(project)
    {
      var versions := LoadVersions(manifest);
      version := |versions| + 1;
      var name := BackupName(version, timestamp);
      var snap := TakeSnapshot(project, if name in backups then backups[name] else EmptyTree);
      backups := backups[name := snap];
      manifest := Some(versions + [VersionRecord(version, name, isoTime, ManifestFiles())]);
    }

    /** The two copy loops of `create_backup`: the files, then the directories without `__pycache__`. */
    static method TakeSnapshot(project: Tree, base: Tree) returns (snap: Tree)
      ensures snap == Snapshot(project, base)
    {
      var files := CopyFiles(project.files, base.files, IncludeFiles);
      var dirs := base.dirs;
      // IncludeDirs is the single directory "pages", so this loop runs once:
      // the invariant describes the state before it (k == 0) and after it (k == 1).
      for k := 0 to |IncludeDirs|
        invariant k == 0 ==> files == base.files + TopFiles(project.files, IncludeFiles) && dirs == base.dirs
        invariant k == 1 ==> Tree(files, dirs) == Snapshot(project, base)
      {
        var d := IncludeDirs[k];
        if d in project.dirs {
          files := files + Subtree(project.files, d, true);
          dirs := dirs + {d};
        }
      }
      snap := Tree(files, dirs);
    }

    /** The two copy loops of `restore_backup`: the files, then each saved directory replacing the project's. */
    static method CopyBack(project: Tree, snap: Tree) returns (r: Tree)
      ensures r == Restored(project, snap)
    {
      var files := CopyFiles(snap.files, project.files, IncludeFiles);
      var dirs := project.dirs;
      // As in TakeSnapshot, the loop runs once, over "pages".
      for k := 0 to |IncludeDirs|
        invariant k == 0 ==> files == project.files + TopFiles(snap.files, IncludeFiles) && dirs == project.dirs
        invariant k == 1 ==> Tree(files, dirs) == Restored(project, snap)
      {
        var d := IncludeDirs[k];
        if d in snap.dirs {
          files := WithoutSubtree(files, d) + Subtree(snap.files, d, false);
          dirs := dirs + {d};
        }
      }
      r := Tree(files, dirs);
    }

    /** The lookup loop of `restore_backup`: the index of the first record of that version. */
    static method FindVersion(versions: seq<VersionRecord>, versionNum: int) returns (index: Option<nat>)
      ensures index.None? <==> forall i :: 0 <= i < |versions| ==> versions[i].version != versionNum
      ensures index.Some? ==> index.value < |versions| && versions[index.value].version == versionNum &&
                              forall i :: 0 <= i < index.value ==> versions[i].version != versionNum
      ensures index == FirstMatch(versions, versionNum)
    {
      index := None;
      var k := 0;
      while k < |versions|
        invariant 0 <= k <= |versions|
        invariant forall i :: 0 <= i < k ==> versions[i].version != versionNum
      {
        if versions[k].version == versionNum {
          index := Some(k);
          break;
        }
        k := k + 1;
      }
    }

    /**
     * `restore_backup(versionNum)` with the typed confirmation `confirm`:
     * NotFound without a record of that version, DirectoryMissing when the
     * first such record's directory is gone, Cancelled when the answer is not
     * "yes" in any case, and otherwise that record's snapshot is copied back.
     */
    method RestoreBackup(versionNum: int, confirm: string) returns (outcome: RestoreOutcome)
      modifies this
      ensures manifest == old(manifest) && backups == old(backups)
      ensures (outcome, project) == RestoreResult(LoadVersions(old(manifest)), old(project), old(backups), versionNum, confirm)
    {
      var versions := LoadVersions(manifest);
      var index := FindVersion(versions, versionNum);
      if index.None? {
        return NotFound;
      }
      var target := versions[index.value];
      if target.name !in backups {
        return DirectoryMissing;
      }
      if Lower(confirm) != "yes" {
        return Cancelled;
      }
      project := CopyBack(project, backups[target.name]);
      outcome := RestoredVersion;
    }

    /**
     * The script's entry point on `sys.argv[1:]`. A backup adds its record and
     * its snapshot; a restore has the effect `RestoreResult` gives and reports
     * its outcome; listing, a bad number and the usage text write nothing.
     */
    method Run(args: seq<string>, timestamp: string, isoTime: string, confirm: string)
      returns (c: Command, outcome: Option<RestoreOutcome>)
      modifies this
      ensures c == Dispatch(args)
      ensures outcome.Some? <==> c.RestoreCmd?
      ensures c == CreateCmd ==> manifest == Some(LoadVersions(old(manifest)) +
        [NextRecord(LoadVersions(old(manifest)), timestamp, isoTime)])
      ensures c == CreateCmd ==> (var name := BackupName(|LoadVersions(old(manifest))| + 1, timestamp);
        backups == old(backups)[name := Snapshot(project, if name in old(backups) then old(backups)[name] else EmptyTree)])
      ensures c.RestoreCmd? ==>
        (outcome.value, project) == RestoreResult(LoadVersions(old(manifest)), old(project), old(backups), c.version, confirm)
      ensures !c.CreateCmd? ==> manifest == old(manifest) && backups == old(backups)
      ensures !c.RestoreCmd? ==> project == old(project)
    {
      c := Dispatch(args);
      outcome := None;
      match c
      case CreateCmd =>
        var _ := CreateBackup(timestamp, isoTime);
      case RestoreCmd(n) =>
        var o := RestoreBackup(n, confirm);
        outcome := Some(o);
      case _ =>
    }
  }
}
