/** The CLI's idea of the active Go version: the project pin, else the global default. */
module ActiveVersion {
  import opened Wrappers
  import opened Strings
  import opened FileSystem
  import opened Layout
  import opened PinnedVersion

  /** The global default as the CLI reads it: missing home, missing file and a blank
      file all mean "no default"; a file that cannot be read is an error. */
  function DefaultVersion(t: Tree, home: Option<Path>): (r: Result<Option<string>>)
    ensures home.None? ==> r == Ok(None)
    ensures home.Some? ==> (r.Err? <==> Exists(t, DefaultFile(home.value)) && ReadText(t, DefaultFile(home.value)).Err?)
    ensures home.Some? && !Exists(t, DefaultFile(home.value)) ==> r == Ok(None)
    ensures home.Some? && ReadText(t, DefaultFile(home.value)).Ok? ==>
      var text := ReadText(t, DefaultFile(home.value)).value;
      r == if AllWhitespace(text) then Ok(None) else Ok(Some(Trim(text)))
    ensures r.Ok? && r.value.Some? ==> r.value.value != [] && Trim(r.value.value) == r.value.value
  {
    match home
    case None => Ok(None)
    case Some(h) =>
      var file := DefaultFile(h);
      if !Exists(t, file) then Ok(None)
      else match ReadText(t, file)
        case Err(e) => Err(e)
        case Ok(text) =>
          var trimmed := Trim(text);
          TrimEmpty(text);
          if trimmed == [] then Ok(None)
          else TrimOfTrimmed(trimmed); Ok(Some(trimmed))
  }

  /** `find_active_go_version`: the pin found from `cwd`, else the default; an error
      from the pin search is passed on. */
  function FindActiveGoVersion(t: Tree, decode: Decoder, cwd: Path, home: Option<Path>): (r: Result<Option<string>>)
    ensures PinLookup(t, decode, cwd).Err? ==> r == Err(PinLookup(t, decode, cwd).error)
    ensures PinLookup(t, decode, cwd).Ok? && PinLookup(t, decode, cwd).value.Some? ==>
      r == Ok(Some(PinLookup(t, decode, cwd).value.value.0))
    ensures PinLookup(t, decode, cwd) == Ok(None) ==> r == DefaultVersion(t, home)
  {
    match PinLookup(t, decode, cwd)
    case Err(e) => Err(e)
    case Ok(Some((v, _))) => Ok(Some(v))
    case Ok(None) => DefaultVersion(t, home)
  }

  /** A pin hides the default: whatever the default file holds (even an unreadable
      one), the answer is the pinned version. */
  lemma {:induction false} PinHidesDefault(t: Tree, decode: Decoder, cwd: Path, home: Path, v: string, p: Path, e: Entry)
    requires PinLookup(t, decode, cwd) == Ok(Some((v, p)))
    ensures FindActiveGoVersion(t[DefaultFile(home) := e], decode, cwd, Some(home)) == Ok(Some(v))
    ensures FindActiveGoVersion(t - {DefaultFile(home)}, decode, cwd, Some(home)) == Ok(Some(v))
  {
    forall k | 0 <= k <= |cwd| {
      PinFileIsNotDefaultFile(cwd[..k], home);
    }
    PinLookupFrame(t, t[DefaultFile(home) := e], decode, cwd);
    PinLookupFrame(t, t - {DefaultFile(home)}, decode, cwd);
  }

  /** A pin file never is the default file: their last components differ. */
  lemma PinFileIsNotDefaultFile(dir: Path, home: Path)
    ensures PinFile(dir) != DefaultFile(home)
  {
    assert PinFile(dir)[|PinFile(dir)| - 1] == PinFileName;
    assert DefaultFile(home)[|DefaultFile(home)| - 1] == "default.txt";
  }
}
