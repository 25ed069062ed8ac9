/** `golta uninstall <tool>@<version>`: removes an installed version, clearing the global
    default first when it names that version and warning when a project pins it. */
module Uninstall {
  import opened Wrappers
  import opened Strings
  import opened FileSystem
  import opened Layout

  const InvalidFormatError := "Invalid format. Use <tool>@<version>."

  /** `parse_tool_version`: the argument split at its first '@', both parts non-empty. */
  function ParseToolVersion(input: string): (r: Result<(string, string)>)
    ensures r.Ok? ==> input == r.value.0 + "@" + r.value.1 && '@' !in r.value.0
    ensures r.Ok? ==> r.value.0 != "" && r.value.1 != ""
    ensures r.Err? ==> r.error == Message(InvalidFormatError)
  {
    match SplitOnce(input, '@')
    case Some((tool, version)) =>
      if tool != "" && version != "" then Ok((tool, version)) else Err(Message(InvalidFormatError))
    case None => Err(Message(InvalidFormatError))
  }

  /** Every well-formed `tool@version` argument parses back into its parts. */
  lemma {:induction false} ParseToolVersionComplete(tool: string, version: string)
    requires tool != "" && version != "" && '@' !in tool
    ensures ParseToolVersion(tool + "@" + version) == Ok((tool, version))
  {
    var input := tool + "@" + version;
    assert forall k :: 0 <= k < |tool| ==> input[k] == tool[k] && input[k] != '@';
    assert input[|tool|] == '@';
    var (a, b) := SplitOnce(input, '@').value;
    assert input[|a|] == '@';
    assert |a| == |tool|;
    assert a == input[..|tool|] == tool;
    assert b == input[|tool| + 1..] == version;
  }

  /** The version directory `build_paths` gives: go versions sit directly under
      `versions`, other tools under `versions/<tool>`. */
  function VersionDirOf(home: Path, tool: string, version: string): Path {
    if tool == "go" then Join(VersionsDir(home), version)
    else Join(Join(VersionsDir(home), tool), version)
  }

  /** The default file `build_paths` gives: `state/default.txt` for go, `state/<tool>.default`
      for other tools. */
  function DefaultFileOf(home: Path, tool: string): Path {
    if tool == "go" then DefaultFile(home) else StateDir(home) + [tool + ".default"]
  }

  /** A tool's default file is never the Go default file, nor inside any version
      directory. */
  lemma {:induction false} DefaultFilesApart(home: Path, tool: string, other: string, version: string)
    requires tool != "" && other != "" && version != ""
    ensures tool != "go" ==> DefaultFileOf(home, tool) != DefaultFile(home)
    ensures !Under(DefaultFileOf(home, tool), VersionDirOf(home, other, version))
  {
    if tool != "go" {
      var name := tool + ".default";
      assert name[|name| - 2] == 'l' && "default.txt"[9] == 'x';
      assert DefaultFileOf(home, tool)[|home| + 2] == name;
    }
    var d := VersionDirOf(home, other, version);
    assert d[|home| + 1] == "versions";
    assert DefaultFileOf(home, tool)[|home| + 1] == "state";
  }

  /** The Go version directory of a name that is also a tool holds that tool's versions:
      uninstalling `go@air` takes every installed `air` with it. */
  lemma {:induction false} GoDirCoversToolDirs(home: Path, tool: string, version: string)
    requires tool != "" && tool != "go" && version != ""
    ensures Under(VersionDirOf(home, tool, version), VersionDirOf(home, "go", tool))
  {
  }

  function NotInstalledError(tool: string, version: string): string {
    tool + " " + version + " is not installed."
  }

  function DefaultWarning(tool: string, version: string): string {
    "Warning: uninstalling the default " + tool + " version (" + version + "). The global default will be cleared."
  }

  function PinnedWarning(version: string, pinFile: Path): string {
    "Warning: uninstalling version " + version + ", which is pinned in " + Display(pinFile)
  }

  function UninstalledMessage(tool: string, version: string): string {
    tool + " " + version + " has been uninstalled."
  }

  /** What an uninstall step or the whole command did: its result, the tree after it and
      the lines it wrote. */
  datatype UninstallRun = UninstallRun(status: Result<()>, tree: Tree, out: seq<string>)

  /** The default file names `version` when it can be read and its trimmed content is
      exactly the version. */
  predicate DefaultNames(t: Tree, defaultFile: Path, version: string) {
    ReadText(t, defaultFile).Ok? && Trim(ReadText(t, defaultFile).value) == version
  }

  /** `clear_default_if_matches`: removes a default file naming the version, after a
      warning; a missing, unreadable or different default is left alone. It never fails:
      a file that could be read can be removed. */
  function DefaultCleared(t: Tree, tool: string, version: string, defaultFile: Path): (r: UninstallRun)
    ensures r.status == Ok(())
    ensures r.tree == if DefaultNames(t, defaultFile, version) then t - {defaultFile} else t
    ensures r.out == if DefaultNames(t, defaultFile, version) then [DefaultWarning(tool, version)] else []
  {
    if Exists(t, defaultFile) && DefaultNames(t, defaultFile, version) then
      var removed := FileRemoved(t, defaultFile);
      UninstallRun(Status(removed), After(t, removed), [DefaultWarning(tool, version)])
    else UninstallRun(Ok(()), t, [])
  }

  /** `warn_if_pinned`: the pin lookup's error is passed on; a pin naming the version
      gives a warning that shows the pin file. */
  function PinCheck(version: string, pinned: Result<Option<(string, Path)>>): (r: Result<seq<string>>)
    ensures r.Err? <==> pinned.Err?
    ensures r.Err? ==> r.error == pinned.error
    ensures r.Ok? ==> (r.value != [] <==> pinned.value.Some? && pinned.value.value.0 == version)
    ensures r.Ok? && r.value != [] ==> r.value == [PinnedWarning(version, pinned.value.value.1)]
  {
    match pinned
    case Err(e) => Err(e)
    case Ok(None) => Ok([])
    case Ok(Some((v, file))) => if v == version then Ok([PinnedWarning(version, file)]) else Ok([])
  }

  /** `uninstall_tool`: parse, then the steps on the parsed tool and version. */
  function Uninstalled(t: Tree, toolArg: string, home: Path, pinned: Result<Option<(string, Path)>>): (r: UninstallRun)
    ensures ParseToolVersion(toolArg).Err? ==> r == UninstallRun(Err(ParseToolVersion(toolArg).error), t, [])
    ensures r.tree.Keys <= t.Keys && forall q :: q in r.tree ==> r.tree[q] == t[q]
  {
    match ParseToolVersion(toolArg)
    case Err(e) => UninstallRun(Err(e), t, [])
    case Ok((tool, version)) =>
      UninstallStepsEffect(t, tool, version, home, pinned);
      UninstallSteps(t, tool, version, home, pinned)
  }

  /** The steps of `uninstall_tool` once the argument is parsed: check the version
      directory exists, clear a matching default, for go consult the pin lookup (a
      parameter standing for `find_pinned_go_version`), and remove the version directory
      last. */
  function UninstallSteps(t: Tree, tool: string, version: string, home: Path,
                          pinned: Result<Option<(string, Path)>>): (r: UninstallRun)
    requires tool != "" && version != ""
    ensures !Exists(t, VersionDirOf(home, tool, version)) ==>
      r == UninstallRun(Err(Message(NotInstalledError(tool, version))), t, [])
  {
    var dir := VersionDirOf(home, tool, version);
    var defaultFile := DefaultFileOf(home, tool);
    if !Exists(t, dir) then UninstallRun(Err(Message(NotInstalledError(tool, version))), t, [])
    else
      var cleared := DefaultCleared(t, tool, version, defaultFile);
      var warned := if tool == "go" then PinCheck(version, pinned) else Ok([]);
      if warned.Err? then UninstallRun(Err(warned.error), cleared.tree, cleared.out)
      else
        var removed := DirRemoved(cleared.tree, dir);
        var out := cleared.out + warned.value;
        if removed.Err? then UninstallRun(Err(removed.error), cleared.tree, out)
        else UninstallRun(Ok(()), removed.value, out + [UninstalledMessage(tool, version)])
  }

  /** What the uninstall steps do: they succeed exactly for an installed version
      directory, when for go the pin lookup works; they only ever remove entries; on
      success the version directory and everything below it are gone, the default file
      is gone exactly when it named the version, every other entry, pin files included,
      is unchanged, and the output is the default warning, the pin warning and the
      confirmation, each when it applies. */
  lemma UninstallStepsEffect(t: Tree, tool: string, version: string, home: Path,
                             pinned: Result<Option<(string, Path)>>)
    requires tool != "" && version != ""
    ensures var r := UninstallSteps(t, tool, version, home, pinned);
      r.tree.Keys <= t.Keys && forall q :: q in r.tree ==> r.tree[q] == t[q]
    ensures var r := UninstallSteps(t, tool, version, home, pinned);
      r.status.Ok? <==>
      var dir := VersionDirOf(home, tool, version);
      dir in t && t[dir] == Dir && (tool == "go" ==> pinned.Ok?)
    ensures var r := UninstallSteps(t, tool, version, home, pinned);
      r.status.Ok? ==>
      var dir := VersionDirOf(home, tool, version);
      var defaultFile := DefaultFileOf(home, tool);
      (forall q :: q in r.tree ==> !Under(q, dir)) &&
      (defaultFile in r.tree <==> defaultFile in t && !DefaultNames(t, defaultFile, version)) &&
      (forall q :: q in t && !Under(q, dir) && q != defaultFile ==> q in r.tree)
    ensures var r := UninstallSteps(t, tool, version, home, pinned);
      r.status.Ok? ==>
      r.out == (if DefaultNames(t, DefaultFileOf(home, tool), version) then [DefaultWarning(tool, version)] else []) +
               (if tool == "go" then PinCheck(version, pinned).value else []) +
               [UninstalledMessage(tool, version)]
  {
    var dir := VersionDirOf(home, tool, version);
    var defaultFile := DefaultFileOf(home, tool);
    if Exists(t, dir) {
      var cleared := DefaultCleared(t, tool, version, defaultFile);
      DefaultFilesApart(home, tool, tool, version);
      assert dir != [] && defaultFile != dir;
      assert dir in cleared.tree <==> dir in t;
    }
  }


  /** `uninstall_tool` on the disk, one filesystem call at a time. */
  method UninstallTool(toolArg: string, home: Path, pinned: Result<Option<(string, Path)>>, disk: Disk)
    returns (r: Result<()>, out: seq<string>)
    modifies disk
    ensures UninstallRun(r, disk.tree, out) == Uninstalled(old(disk.tree), toolArg, home, pinned)
  {
    var parsed := ParseToolVersion(toolArg);
    if parsed.Err? {
      return Err(parsed.error), [];
    }
    var (tool, version) := parsed.value;
    r, out := UninstallVersion(tool, version, home, pinned, disk);
  }

  /** The steps of `uninstall_tool` on the disk once the argument is parsed. */
  method UninstallVersion(tool: string, version: string, home: Path, pinned: Result<Option<(string, Path)>>, disk: Disk)
    returns (r: Result<()>, out: seq<string>)
    requires tool != "" && version != ""
    modifies disk
    ensures UninstallRun(r, disk.tree, out) == UninstallSteps(old(disk.tree), tool, version, home, pinned)
  {
    var dir := VersionDirOf(home, tool, version);
    var defaultFile := DefaultFileOf(home, tool);
    if !Exists(disk.tree, dir) {
      return Err(Message(NotInstalledError(tool, version))), [];
    }
    out := ClearDefaultIfMatches(tool, version, defaultFile, disk);
    if tool == "go" {
      var warning := PinCheck(version, pinned);
      if warning.Err? {
        return Err(warning.error), out;
      }
      out := out + warning.value;
    }
    r := disk.RemoveDirAll(dir);
    if r.Ok? {
      out := out + [UninstalledMessage(tool, version)];
    }
  }

  /** `clear_default_if_matches` on the disk. */
  method ClearDefaultIfMatches(tool: string, version: string, defaultFile: Path, disk: Disk)
    returns (out: seq<string>)
    modifies disk
    ensures UninstallRun(Ok(()), disk.tree, out) == DefaultCleared(old(disk.tree), tool, version, defaultFile)
  {
    out := [];
    if Exists(disk.tree, defaultFile) {
      var content := ReadText(disk.tree, defaultFile);
      if content.Ok? && Trim(content.value) == version {
        out := [DefaultWarning(tool, version)];
        var removed := disk.RemoveFile(defaultFile);
      }
    }
  }

  /** A failing pin lookup stops a go uninstall before the version directory is touched,
      though a matching default has been cleared by then. */
  lemma {:induction false} PinErrorKeepsVersion(t: Tree, version: string, home: Path, e: Error)
    requires version != "" && Exists(t, VersionDirOf(home, "go", version))
    ensures var r := Uninstalled(t, "go@" + version, home, Err(e));
      var dir := VersionDirOf(home, "go", version);
      r.status == Err(e) && dir in r.tree && r.tree[dir] == t[dir] &&
      r.tree == (if DefaultNames(t, DefaultFile(home), version) then t - {DefaultFile(home)} else t)
  {
    ParseToolVersionComplete("go", version);
    assert "go@" + version == "go" + "@" + version;
    assert Uninstalled(t, "go@" + version, home, Err(e)) == UninstallSteps(t, "go", version, home, Err(e));
    var dir := VersionDirOf(home, "go", version);
    var cleared := DefaultCleared(t, "go", version, DefaultFile(home));
    DefaultFilesApart(home, "go", "go", version);
    assert dir != DefaultFile(home);
    assert UninstallSteps(t, "go", version, home, Err(e)) == UninstallRun(Err(e), cleared.tree, cleared.out);
  }

  /** Uninstalling twice: the second run reports the version as not installed and
      changes nothing. */
  lemma {:induction false} UninstallTwice(t: Tree, tool: string, version: string, home: Path,
                                          pinned: Result<Option<(string, Path)>>)
    requires tool != "" && version != "" && '@' !in tool
    requires Uninstalled(t, tool + "@" + version, home, pinned).status.Ok?
    ensures var t1 := Uninstalled(t, tool + "@" + version, home, pinned).tree;
      Uninstalled(t1, tool + "@" + version, home, pinned) ==
        UninstallRun(Err(Message(NotInstalledError(tool, version))), t1, [])
  {
    ParseToolVersionComplete(tool, version);
    var dir := VersionDirOf(home, tool, version);
    var t1 := Uninstalled(t, tool + "@" + version, home, pinned).tree;
    UninstallStepsEffect(t, tool, version, home, pinned);
    assert Under(dir, dir);
    assert dir != [] && dir !in t1;
  }
}
