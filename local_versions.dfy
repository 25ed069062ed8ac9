/** The installed versions: the names of the directories under `~/.golta/versions`. */
module LocalVersions {
  import opened Wrappers
  import opened FileSystem
  import opened Layout

  /** A directory entry's file name: valid UTF-8, or not. */
  datatype OsName = Utf8(name: string) | NotUtf8

  /** One entry of `read_dir`, with the outcome of asking for its file type. */
  datatype DirEntry = DirEntry(name: OsName, isDir: Result<bool>)

  /** What `read_dir` yields: an error opening the directory, or its entries (each of
      which may itself be an error), in the order the operating system lists them. */
  type Listing = Result<seq<Result<DirEntry>>>

  /** The entries say what the tree holds below `dir`: every entry that names a
      directory is one, and every directory just below `dir` is listed as one. */
  ghost predicate ListingOf(t: Tree, dir: Path, listing: Listing) {
    listing.Ok? ==>
      (forall i :: 0 <= i < |listing.value| ==>
        listing.value[i].Ok? && listing.value[i].value.name.Utf8? && listing.value[i].value.isDir == Ok(true) ==>
          IsDir(t, dir + [listing.value[i].value.name.name])) &&
      (forall n :: n != "" && IsDir(t, dir + [n]) ==>
        exists i :: 0 <= i < |listing.value| && listing.value[i] == Ok(DirEntry(Utf8(n), Ok(true))))
  }

  /** The entry names as a directory name when it is one golta keeps. */
  function Kept(e: DirEntry): (r: Option<string>)
    requires e.isDir.Ok?
    ensures r.Some? <==> e.isDir.value && e.name.Utf8?
    ensures r.Some? ==> r.value == e.name.name
  {
    if e.isDir.value && e.name.Utf8? then Some(e.name.name) else None
  }

  /** The directory names among `entries`, in order; the first failing entry is the error. */
  function InstalledNames(entries: seq<Result<DirEntry>>): Result<seq<string>>
  {
    if entries == [] then Ok([])
    else
      match InstalledNames(entries[..|entries| - 1])
      case Err(e) => Err(e)
      case Ok(names) =>
        var last := entries[|entries| - 1];
        if last.Err? then Err(last.error)
        else if last.value.isDir.Err? then Err(last.value.isDir.error)
        else match Kept(last.value)
          case None => Ok(names)
          case Some(n) => Ok(names + [n])
  }

  /** What `get_installed_versions` returns: no home is an error, a missing versions
      directory is an empty list, and otherwise every UTF-8-named directory entry is
      listed in order. */
  function InstalledVersions(t: Tree, home: Option<Path>, listing: Listing): (r: Result<seq<string>>)
    ensures home.None? ==> r == Err(Message("Could not find home directory"))
    ensures home.Some? && !Exists(t, VersionsDir(home.value)) ==> r == Ok([])
    ensures home.Some? && Exists(t, VersionsDir(home.value)) && listing.Err? ==> r == Err(listing.error)
  {
    if home.None? then Err(Message("Could not find home directory"))
    else if !Exists(t, VersionsDir(home.value)) then Ok([])
    else if listing.Err? then Err(listing.error)
    else InstalledNames(listing.value)
  }

  /** `get_installed_versions`, which the `default` command also carries a copy of. */
  method GetInstalledVersions(t: Tree, home: Option<Path>, listing: Listing) returns (r: Result<seq<string>>)
    ensures r == InstalledVersions(t, home, listing)
  {
    if home.None? {
      return Err(Message("Could not find home directory"));
    }
    if !Exists(t, VersionsDir(home.value)) {
      return Ok([]);
    }
    if listing.Err? {
      return Err(listing.error);
    }
    var entries := listing.value;
    var names := [];
    for i := 0 to |entries|
      invariant InstalledNames(entries[..i]) == Ok(names)
    {
      assert entries[..i + 1][..i] == entries[..i];
      var entry := entries[i];
      if entry.Err? {
        InstalledNamesFailure(entries, i + 1);
        return Err(entry.error);
      }
      if entry.value.isDir.Err? {
        InstalledNamesFailure(entries, i + 1);
        return Err(entry.value.isDir.error);
      }
      if entry.value.isDir.value {
        if entry.value.name.Utf8? {
          names := names + [entry.value.name.name];
        }
      }
    }
    assert entries[..|entries|] == entries;
    return Ok(names);
  }

  /** The first failing entry decides the error, whatever follows it. */
  lemma {:induction false} InstalledNamesFailure(entries: seq<Result<DirEntry>>, k: nat)
    requires k <= |entries| && InstalledNames(entries[..k]).Err?
    ensures InstalledNames(entries) == InstalledNames(entries[..k])
    decreases |entries| - k
  {
    if k == |entries| {
      assert entries[..k] == entries;
    } else {
      assert entries[..k + 1][..k] == entries[..k];
      InstalledNamesFailure(entries, k + 1);
    }
  }

  /** A name is listed exactly when some entry is a directory with that UTF-8 name. */
  lemma {:induction false} InstalledNamesMembers(entries: seq<Result<DirEntry>>, names: seq<string>, n: string)
    requires InstalledNames(entries) == Ok(names)
    ensures n in names <==> exists i :: 0 <= i < |entries| && entries[i] == Ok(DirEntry(Utf8(n), Ok(true)))
  {
    if entries != [] {
      var init := entries[..|entries| - 1];
      var names0 := InstalledNames(init).value;
      InstalledNamesMembers(init, names0, n);
      assert forall i :: 0 <= i < |init| ==> entries[i] == init[i];
      if exists i :: 0 <= i < |entries| && entries[i] == Ok(DirEntry(Utf8(n), Ok(true))) {
        var i :| 0 <= i < |entries| && entries[i] == Ok(DirEntry(Utf8(n), Ok(true)));
        if i < |init| {
          assert init[i] == entries[i];
        }
      }
    }
  }

  /** Listing two runs of entries lists the names of the first, then those of the second. */
  lemma {:induction false} InstalledNamesAppend(a: seq<Result<DirEntry>>, b: seq<Result<DirEntry>>)
    requires InstalledNames(a).Ok? && InstalledNames(b).Ok?
    ensures InstalledNames(a + b) == Ok(InstalledNames(a).value + InstalledNames(b).value)
    decreases |b|
  {
    if b == [] {
      assert a + b == a;
      assert InstalledNames(a).value + [] == InstalledNames(a).value;
    } else {
      var b0 := b[..|b| - 1];
      assert (a + b)[..|a + b| - 1] == a + b0;
      assert (a + b)[|a + b| - 1] == b[|b| - 1];
      assert InstalledNames(b0).Ok?;
      InstalledNamesAppend(a, b0);
      var last := b[|b| - 1];
      var na, nb0 := InstalledNames(a).value, InstalledNames(b0).value;
      match Kept(last.value)
      case None =>
      case Some(n) => assert na + nb0 + [n] == na + (nb0 + [n]);
    }
  }

  /** When the listing describes the tree and no entry fails, a name is installed
      exactly when `~/.golta/versions/<name>` is a directory. */
  lemma {:induction false} InstalledIffDir(t: Tree, home: Path, listing: Listing, n: string)
    requires ListingOf(t, VersionsDir(home), listing)
    requires InstalledVersions(t, Some(home), listing).Ok?
    requires n != ""
    ensures n in InstalledVersions(t, Some(home), listing).value <==>
      Exists(t, VersionsDir(home)) && IsDir(t, VersionDir(home, n))
  {
    if Exists(t, VersionsDir(home)) {
      var names := InstalledNames(listing.value).value;
      InstalledNamesMembers(listing.value, names, n);
      assert VersionDir(home, n) == VersionsDir(home) + [n];
    }
  }

  /** Every listed name is an installed version directory, when the listing describes the tree. */
  lemma {:induction false} InstalledNamesAreDirs(t: Tree, home: Path, listing: Listing, n: string)
    requires listing.Ok? && ListingOf(t, VersionsDir(home), listing)
    requires InstalledNames(listing.value).Ok? && n in InstalledNames(listing.value).value
    ensures n != "" ==> IsDir(t, VersionDir(home, n))
  {
    InstalledNamesMembers(listing.value, InstalledNames(listing.value).value, n);
  }
}
