/** `golta list`: the installed Go versions in version order, the active one starred and
    the default and pinned ones tagged. */
module List {
  import opened Wrappers
  import opened Strings
  import opened FileSystem
  import opened Layout
  import opened SemVer
  import opened PinnedVersion
  import opened ActiveVersion
  import opened LocalVersions

  /** The end of the run of ASCII digits that starts at `i`. */
  function DigitsEnd(s: string, i: nat): (e: nat)
    requires i <= |s|
    decreases |s| - i
    ensures i <= e <= |s|
    ensures forall k :: i <= k < e ==> IsDigit(s[k])
    ensures e < |s| ==> !IsDigit(s[e])
  {
    if i == |s| || !IsDigit(s[i]) then i else DigitsEnd(s, i + 1)
  }

  /** The run is determined by its digits and the non-digit (or the end) after them. */
  lemma {:induction false} DigitsEndIs(s: string, i: nat, e: nat)
    requires i <= e <= |s|
    requires forall k :: i <= k < e ==> IsDigit(s[k])
    requires e < |s| ==> !IsDigit(s[e])
    ensures DigitsEnd(s, i) == e
    decreases e - i
  {
    if i < e {
      DigitsEndIs(s, i + 1, e);
    }
  }

  /** `\d+\.\d+` matched against all of `a`. */
  predicate IsMajorMinor(a: string) {
    var k := DigitsEnd(a, 0);
    0 < k && k + 1 < |a| && a[k] == '.' && DigitsEnd(a, k + 1) == |a|
  }

  /** The captures of `^(\d+\.\d+)(rc|beta)(\d+)$` on `s`: the major.minor part, the
      pre-release kind and its number. */
  function GoPreRelease(s: string): (r: Option<(string, string, string)>)
    ensures r.Some? ==>
      var (mm, kind, num) := r.value;
      s == mm + kind + num && IsMajorMinor(mm) && (kind == "rc" || kind == "beta") && num != [] && AllDigits(num)
  {
    var i := DigitsEnd(s, 0);
    if i == 0 || i == |s| || s[i] != '.' then None
    else
      var j := DigitsEnd(s, i + 1);
      if j == i + 1 then None
      else
        var rest := s[j..];
        var kind := if StartsWith(rest, "rc") then "rc" else if StartsWith(rest, "beta") then "beta" else "";
        if kind == "" then None
        else
          var num := rest[|kind|..];
          if num == [] || !AllDigits(num) then None
          else
            var mm := s[..j];
            DigitsEndIs(mm, 0, i);
            DigitsEndIs(mm, i + 1, j);
            assert rest == kind + num;
            assert s == mm + kind + num;
            Some((mm, kind, num))
  }

  /** The regular expression matches at most one way, so `GoPreRelease` finds every
      match: a name it rejects does not match. */
  lemma GoPreReleaseComplete(mm: string, kind: string, num: string)
    requires IsMajorMinor(mm) && (kind == "rc" || kind == "beta") && num != [] && AllDigits(num)
    ensures GoPreRelease(mm + kind + num) == Some((mm, kind, num))
  {
    var s := mm + kind + num;
    var k := DigitsEnd(mm, 0);
    KindPrefix(kind, num);
    assert s[|mm|] == kind[0];
    DigitsEndIs(s, 0, k);
    DigitsEndIs(s, k + 1, |mm|);
    assert s[..|mm|] == mm;
    assert s[|mm|..] == kind + num;
  }

  /** The pre-release kind is recognised by its prefix and the number follows it. */
  lemma KindPrefix(kind: string, num: string)
    requires (kind == "rc" || kind == "beta") && num != [] && AllDigits(num)
    ensures StartsWith(kind + num, "rc") <==> kind == "rc"
    ensures kind == "beta" ==> StartsWith(kind + num, "beta")
    ensures (kind + num)[|kind|..] == num
  {
    assert (kind + num)[..|kind|] == kind;
    if kind == "beta" {
      assert (kind + num)[..2][0] == 'b';
    }
  }

  /** `normalize_go_version_for_semver`: "1.3rc1" becomes "1.3.0-rc1"; any other name is
      returned unchanged. */
  function NormalizeGoVersion(s: string): (r: string)
    ensures r == s <==> GoPreRelease(s).None?
    ensures GoPreRelease(s).Some? ==>
      var (mm, kind, num) := GoPreRelease(s).value;
      r == mm + ".0-" + kind + num
  {
    match GoPreRelease(s)
    case None => s
    case Some((mm, kind, num)) =>
      var r := mm + ".0-" + kind + num;
      assert |r| == |s| + 3;
      r
  }

  /** The version a directory name denotes, when it has one. */
  function VersionOf(name: string): Option<Version> {
    ParseVersion(NormalizeGoVersion(name))
  }

  /** One installed version: its parsed version and its directory name. */
  datatype VersionEntry = VersionEntry(version: Version, name: string)

  /** `filter_map` over the installed names: those that `parse` turns into a version, in
      listing order. `list` passes `VersionOf`. */
  function Parsed(names: seq<string>, parse: string -> Option<Version>): (r: seq<VersionEntry>)
    ensures forall e :: e in r ==> e.name in names && parse(e.name) == Some(e.version)
    ensures forall name :: name in names && parse(name).Some? ==> VersionEntry(parse(name).value, name) in r
  {
    if names == [] then []
    else
      var n := |names| - 1;
      var rest := Parsed(names[..n], parse);
      var v := parse(names[n]);
      assert names == names[..n] + [names[n]];
      if v.None? then rest else rest + [VersionEntry(v.value, names[n])]
  }

  /** Ascending by version. */
  predicate Sorted(s: seq<VersionEntry>) {
    forall i, j {:trigger Compare(s[i].version, s[j].version)} :: 0 <= i < j < |s| ==> Compare(s[i].version, s[j].version) <= 0
  }

  /** Where `x` goes in `s`, searching from the back: after the last entry whose version is
      not above its own, so equal versions keep their order. */
  function InsertPos(s: seq<VersionEntry>, x: VersionEntry): (p: nat)
    ensures p <= |s|
    ensures forall k {:trigger Compare(s[k].version, x.version)} :: p <= k < |s| ==> Compare(s[k].version, x.version) > 0
    ensures p > 0 ==> Compare(s[p - 1].version, x.version) <= 0
  {
    if s == [] then 0
    else if Compare(s[|s| - 1].version, x.version) <= 0 then |s|
    else InsertPos(s[..|s| - 1], x)
  }

  /** `x` placed at its position in `s`. */
  function Insert(s: seq<VersionEntry>, x: VersionEntry): (r: seq<VersionEntry>)
    ensures multiset(r) == multiset(s) + multiset{x}
  {
    var p := InsertPos(s, x);
    assert s == s[..p] + s[p..];
    s[..p] + [x] + s[p..]
  }

  /** Inserting into a sorted list keeps it sorted. */
  lemma InsertSorted(s: seq<VersionEntry>, x: VersionEntry)
    requires Sorted(s)
    ensures Sorted(Insert(s, x))
  {
    var p := InsertPos(s, x);
    var r := Insert(s, x);
    forall i, j | 0 <= i < j < |r| ensures Compare(r[i].version, r[j].version) <= 0 {
      if j < p {
        assert r[i] == s[i] && r[j] == s[j];
      } else if j == p {
        assert r[i] == s[i] && r[j] == x;
        if i < p - 1 {
          CompareTransitive(s[i].version, s[p - 1].version, x.version);
        }
      } else if i == p {
        assert r[i] == x && r[j] == s[j - 1];
        CompareFlip(s[j - 1].version, x.version);
      } else if i < p {
        assert r[i] == s[i] && r[j] == s[j - 1];
      } else {
        assert r[i] == s[i - 1] && r[j] == s[j - 1];
      }
    }
  }

  /** What the stable `sort_by` on versions makes of `s`: sorted, and the same entries. */
  function InsertionSorted(s: seq<VersionEntry>): (r: seq<VersionEntry>)
    ensures Sorted(r)
    ensures multiset(r) == multiset(s)
  {
    if s == [] then []
    else
      assert s == s[..|s| - 1] + [s[|s| - 1]];
      InsertSorted(InsertionSorted(s[..|s| - 1]), s[|s| - 1]);
      Insert(InsertionSorted(s[..|s| - 1]), s[|s| - 1])
  }

  const Header := "Installed Go versions:"
  const NothingInstalled := "  No Go versions installed"
  const NoHomeError := "Could not find home directory"

  /** `tags.join(", ")`. */
  function JoinComma(tags: seq<string>): (r: string)
    ensures |tags| == 1 ==> r == tags[0]
    ensures |tags| == 2 ==> r == tags[0] + ", " + tags[1]
  {
    if tags == [] then ""
    else if |tags| == 1 then tags[0]
    else tags[0] + ", " + JoinComma(tags[1..])
  }

  /** The tags after a name: "default" then "pinned", those that apply. */
  function TagSuffix(isDefault: bool, isPinned: bool): string {
    if isDefault && isPinned then " (default, pinned)"
    else if isDefault then " (default)"
    else if isPinned then " (pinned)"
    else ""
  }

  /** The tags the printing loop collects, joined as it prints them, are `TagSuffix`. */
  lemma TagsJoined(isDefault: bool, isPinned: bool)
    ensures var tags := (if isDefault then ["default"] else []) + (if isPinned then ["pinned"] else []);
      (if tags == [] then "" else " (" + JoinComma(tags) + ")") == TagSuffix(isDefault, isPinned)
  {
    if isDefault && isPinned {
      assert JoinComma(["default", "pinned"]) == "default" + ", " + "pinned";
    }
  }

  /** One version's line: starred when active, then the name and its tags. */
  function ListLine(name: string, active: Option<string>, default: Option<string>, pinned: Option<string>): (line: string)
    ensures |line| >= 2 + |name| && line[1] == ' ' && line[2..2 + |name|] == name
    ensures line[0] == '*' <==> active == Some(name)
    ensures line[0] != '*' ==> line[0] == ' '
    ensures line[2 + |name|..] == TagSuffix(default == Some(name), pinned == Some(name))
  {
    (if active == Some(name) then "*" else " ") + " " + name + TagSuffix(default == Some(name), pinned == Some(name))
  }

  /** The active version as `list` sees it: the pinned one, else the default. */
  function ActiveOf(pinned: Option<string>, default: Option<string>): Option<string> {
    if pinned.Some? then pinned else default
  }

  /** The default as `list` reads it: the trimmed file, or none when it cannot be read. */
  function ListedDefault(t: Tree, home: Path): (r: Option<string>)
    ensures r.Some? <==> ReadText(t, DefaultFile(home)).Ok?
    ensures r.Some? ==> r.value == Trim(ReadText(t, DefaultFile(home)).value)
  {
    match ReadText(t, DefaultFile(home))
    case Ok(text) => Some(Trim(text))
    case Err(_) => None
  }

  /** The lines of the sorted entries, one each, in order. */
  function EntryLines(entries: seq<VersionEntry>, default: Option<string>, pinned: Option<string>): (r: seq<string>)
    ensures |r| == |entries|
    ensures forall i :: 0 <= i < |entries| ==> r[i] == ListLine(entries[i].name, ActiveOf(pinned, default), default, pinned)
  {
    if entries == [] then []
    else
      var n := |entries| - 1;
      EntryLines(entries[..n], default, pinned) + [ListLine(entries[n].name, ActiveOf(pinned, default), default, pinned)]
  }

  /** One more entry adds its line at the end. */
  lemma EntryLinesNext(entries: seq<VersionEntry>, i: nat, default: Option<string>, pinned: Option<string>)
    requires i < |entries|
    ensures EntryLines(entries[..i + 1], default, pinned) ==
      EntryLines(entries[..i], default, pinned) + [ListLine(entries[i].name, ActiveOf(pinned, default), default, pinned)]
  {
    assert entries[..i + 1][..i] == entries[..i];
  }

  datatype ListRun = ListRun(status: Result<()>, out: seq<string>)

  /** `list_go`: the home directory, the default (read leniently) and the pin lookup (an
      error here is returned before anything is printed); then the header, the installed
      names (`get_installed_versions`, a parameter) that `parse` accepts, in ascending
      version order, or a note that there are none. `list` parses with `VersionOf`. */
  function ListedGo(t: Tree, home: Option<Path>, pinned: Result<Option<(string, Path)>>,
                    installed: Result<seq<string>>, parse: string -> Option<Version>): (r: ListRun)
    ensures home.None? ==> r == ListRun(Err(Message(NoHomeError)), [])
    ensures home.Some? && pinned.Err? ==> r == ListRun(Err(pinned.error), [])
    ensures home.Some? && pinned.Ok? && installed.Err? ==> r == ListRun(Err(installed.error), [Header])
    ensures r.status.Ok? <==> home.Some? && pinned.Ok? && installed.Ok?
    ensures r.status.Ok? ==> |r.out| >= 1 && r.out[0] == Header
    ensures r.status.Ok? && Parsed(installed.value, parse) == [] ==> r.out == [Header, NothingInstalled]
    ensures r.status.Ok? && Parsed(installed.value, parse) != [] ==> |r.out| == |Parsed(installed.value, parse)| + 1
  {
    match home
    case None => ListRun(Err(Message(NoHomeError)), [])
    case Some(h) =>
      var default := ListedDefault(t, h);
      match pinned
      case Err(e) => ListRun(Err(e), [])
      case Ok(p) =>
        var pinnedVersion := if p.Some? then Some(p.value.0) else None;
        match installed
        case Err(e) => ListRun(Err(e), [Header])
        case Ok(names) =>
          var entries := InsertionSorted(Parsed(names, parse));
          if entries == [] then ListRun(Ok(()), [Header, NothingInstalled])
          else ListRun(Ok(()), [Header] + EntryLines(entries, default, pinnedVersion))
  }

  /** The printing loop of `list_go`: for each entry the star when it is the active
      version, the name, and the tags joined by ", " in parentheses. */
  method PrintEntries(entries: seq<VersionEntry>, default: Option<string>, pinned: Option<string>)
    returns (lines: seq<string>)
    ensures lines == EntryLines(entries, default, pinned)
  {
    var active := if pinned.Some? then pinned else default;
    lines := [];
    for i := 0 to |entries|
      invariant lines == EntryLines(entries[..i], default, pinned)
    {
      var name := entries[i].name;
      var tags: seq<string> := [];
      if default == Some(name) {
        tags := tags + ["default"];
      }
      if pinned == Some(name) {
        tags := tags + ["pinned"];
      }
      var prefix := if active == Some(name) then "*" else " ";
      var tagText := if tags == [] then "" else " (" + JoinComma(tags) + ")";
      TagsJoined(default == Some(name), pinned == Some(name));
      EntryLinesNext(entries, i, default, pinned);
      lines := lines + [prefix + " " + name + tagText];
    }
    assert entries[..|entries|] == entries;
  }

  /** `list_go`: the lookups in the source's order, then the header and the lines. */
  method ListGo(t: Tree, home: Option<Path>, pinned: Result<Option<(string, Path)>>, installed: Result<seq<string>>)
    returns (r: Result<()>, out: seq<string>)
    ensures ListRun(r, out) == ListedGo(t, home, pinned, installed, VersionOf)
  {
    if home.None? {
      return Err(Message(NoHomeError)), [];
    }
    var default := ListedDefault(t, home.value);
    if pinned.Err? {
      return Err(pinned.error), [];
    }
    var pinnedVersion := if pinned.value.Some? then Some(pinned.value.value.0) else None;
    out := [Header];
    if installed.Err? {
      return Err(installed.error), out;
    }
    var entries := InsertionSorted(Parsed(installed.value, VersionOf));
    if |entries| == 0 {
      return Ok(()), out + [NothingInstalled];
    }
    var lines := PrintEntries(entries, default, pinnedVersion);
    return Ok(()), out + lines;
  }

  /** The listing holds every installed name that parses, once each, in ascending
      version order, each on the line `ListLine` describes. */
  lemma ListedInOrder(t: Tree, home: Path, pinned: Option<(string, Path)>, names: seq<string>, parse: string -> Option<Version>)
    requires Parsed(names, parse) != []
    ensures var entries := InsertionSorted(Parsed(names, parse));
      var out := ListedGo(t, Some(home), Ok(pinned), Ok(names), parse).out;
      Sorted(entries) && multiset(entries) == multiset(Parsed(names, parse)) &&
      |out| == |entries| + 1 && out[1..] == EntryLines(entries, ListedDefault(t, home), if pinned.Some? then Some(pinned.value.0) else None)
  {
    var entries := InsertionSorted(Parsed(names, parse));
    assert |multiset(entries)| == |multiset(Parsed(names, parse))|;
    var lines := EntryLines(entries, ListedDefault(t, home), if pinned.Some? then Some(pinned.value.0) else None);
    assert ListedGo(t, Some(home), Ok(pinned), Ok(names), parse).out == [Header] + lines;
    assert ([Header] + lines)[1..] == lines;
  }

  /** The pinned version's line is starred and tagged "pinned", whatever the default. */
  lemma PinnedIsStarred(v: string, default: Option<string>)
    ensures ListLine(v, ActiveOf(Some(v), default), default, Some(v))[0] == '*'
    ensures ListLine(v, ActiveOf(Some(v), default), default, Some(v))[2 + |v|..] ==
      if default == Some(v) then " (default, pinned)" else " (pinned)"
  {
  }

  /** Without a pin the default's line is starred; with a pin for another version the
      default is tagged but not starred. */
  lemma DefaultStarredOnlyWithoutPin(v: string, pinned: Option<string>)
    requires pinned != Some(v)
    ensures ListLine(v, ActiveOf(pinned, Some(v)), Some(v), pinned)[0] == '*' <==> pinned.None?
    ensures var line := ListLine(v, ActiveOf(pinned, Some(v)), Some(v), pinned);
      line[2 + |v|..] == " (default)"
  {
  }

  /** When the default file is readable and not blank, or absent, `list` stars the
      version the rest of the CLI calls active. */
  lemma ListAgreesWithActive(t: Tree, decode: Decoder, cwd: Path, home: Path)
    requires PinLookup(t, decode, cwd).Ok?
    requires !Exists(t, DefaultFile(home)) || (ReadText(t, DefaultFile(home)).Ok? && !AllWhitespace(ReadText(t, DefaultFile(home)).value))
    ensures var p := PinLookup(t, decode, cwd).value;
      Ok(ActiveOf(if p.Some? then Some(p.value.0) else None, ListedDefault(t, home))) ==
        FindActiveGoVersion(t, decode, cwd, Some(home))
  {
  }

  /** Entries with the same members hold the same names. */
  lemma {:induction false} SameNames(a: seq<VersionEntry>, b: seq<VersionEntry>, n: string)
    requires multiset(a) == multiset(b)
    ensures (exists e :: e in a && e.name == n) <==> exists i :: 0 <= i < |b| && b[i].name == n
  {
    if e :| e in a && e.name == n {
      assert e in multiset(b);
    }
    if i :| 0 <= i < |b| && b[i].name == n {
      assert b[i] in multiset(a);
    }
  }

  /** A name the parser accepts is among any reordering of the parsed entries (the
      sorted ones in particular) exactly when it was installed. */
  lemma {:induction false} SortedEntriesHold(names: seq<string>, parse: string -> Option<Version>,
                                             entries: seq<VersionEntry>, n: string)
    requires parse(n).Some? && multiset(entries) == multiset(Parsed(names, parse))
    ensures n in names <==> exists i :: 0 <= i < |entries| && entries[i].name == n
  {
    var parsed := Parsed(names, parse);
    SameNames(parsed, entries, n);
    if n in names {
      var e := VersionEntry(parse(n).value, n);
      assert e in parsed && e.name == n;
    }
  }

  /** Handed the pin lookup and the installed list the source computes from the disk,
      `list` shows a version name (one `semver` accepts) exactly when
      `~/.golta/versions/<name>` is a directory, on the line `ListLine` describes. */
  lemma {:induction false} ListedFromTree(t: Tree, decode: Decoder, cwd: Path, home: Path, listing: Listing, n: string)
    requires ListingOf(t, VersionsDir(home), listing)
    requires PinLookup(t, decode, cwd).Ok? && InstalledVersions(t, Some(home), listing).Ok?
    requires n != "" && VersionOf(n).Some?
    ensures var p := PinLookup(t, decode, cwd).value;
      var pinnedVersion := if p.Some? then Some(p.value.0) else None;
      var installed := InstalledVersions(t, Some(home), listing);
      var entries := InsertionSorted(Parsed(installed.value, VersionOf));
      var r := ListedGo(t, Some(home), PinLookup(t, decode, cwd), installed, VersionOf);
      r.status.Ok? &&
      ((Exists(t, VersionsDir(home)) && IsDir(t, VersionDir(home, n))) <==>
        exists i :: 0 <= i < |entries| && entries[i].name == n && i + 1 < |r.out| &&
          r.out[i + 1] == ListLine(n, ActiveOf(pinnedVersion, ListedDefault(t, home)), ListedDefault(t, home), pinnedVersion))
  {
    var p := PinLookup(t, decode, cwd).value;
    var pinnedVersion := if p.Some? then Some(p.value.0) else None;
    var names := InstalledVersions(t, Some(home), listing).value;
    var entries := InsertionSorted(Parsed(names, VersionOf));
    var r := ListedGo(t, Some(home), Ok(p), Ok(names), VersionOf);
    InstalledIffDir(t, home, listing, n);
    SortedEntriesHold(names, VersionOf, entries, n);
    if n in names {
      var i :| 0 <= i < |entries| && entries[i].name == n;
      ListedInOrder(t, home, p, names, VersionOf);
      assert r.out[1..][i] == r.out[i + 1];
    }
  }

  /** Two non-empty runs of digits joined by a '.' match `\d+\.\d+`. */
  lemma {:induction false} MajorMinorIs(a: string, b: string)
    requires a != [] && AllDigits(a) && b != [] && AllDigits(b)
    ensures IsMajorMinor(a + "." + b)
  {
    var s := a + "." + b;
    assert forall k :: 0 <= k < |a| ==> s[k] == a[k];
    assert forall k :: |a| < k < |s| ==> s[k] == b[k - |a| - 1];
    DigitsEndIs(s, 0, |a|);
    DigitsEndIs(s, |a| + 1, |s|);
  }

  /** Go's pre-release names normalize as the program's own comment shows ("1.3rc1"
      becomes "1.3.0-rc1", "1.4beta1" becomes "1.4.0-beta1"): for every major, minor,
      kind and number, `M.mKINDn` becomes `M.m.0-KINDn`. */
  lemma {:induction false} NormalizePreRelease(a: string, b: string, kind: string, num: string)
    requires a != [] && AllDigits(a) && b != [] && AllDigits(b)
    requires (kind == "rc" || kind == "beta") && num != [] && AllDigits(num)
    ensures NormalizeGoVersion(a + "." + b + kind + num) == a + "." + b + ".0-" + kind + num
  {
    MajorMinorIs(a, b);
    GoPreReleaseComplete(a + "." + b, kind, num);
  }

  /** A three-field release name `M.m.p` is left as it is. */
  lemma {:induction false} ReleaseNameUnchanged(a: string, b: string, c: string)
    requires a != [] && AllDigits(a) && b != [] && AllDigits(b) && AllDigits(c)
    ensures NormalizeGoVersion(a + "." + b + "." + c) == a + "." + b + "." + c
  {
    var s := a + "." + b + "." + c;
    var j := |a| + 1 + |b|;
    assert forall k :: 0 <= k < |a| ==> s[k] == a[k];
    assert forall k :: |a| < k < j ==> s[k] == b[k - |a| - 1];
    assert s[|a|] == '.' && s[j] == '.';
    DigitsEndIs(s, 0, |a|);
    DigitsEndIs(s, |a| + 1, j);
    assert s[j..][0] == '.';
  }
}
