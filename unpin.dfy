/** `golta unpin`: removes the pin file of the current directory, if there is one. */
module Unpin {
  import opened Wrappers
  import opened FileSystem
  import opened Layout
  import opened PinnedVersion
  import opened ActiveVersion

  /** The effect of `unpin_go` from `cwd`: only `<cwd>/.golta.json` may go away. */
  function Unpinned(t: Tree, cwd: Path): (r: Outcome)
    ensures r.status.Ok? ==> PinFile(cwd) !in r.tree
    ensures r.status.Err? ==> r.tree == t && PinFile(cwd) in t
    ensures forall q :: q != PinFile(cwd) ==> (q in r.tree <==> q in t)
    ensures forall q :: q != PinFile(cwd) && q in t ==> r.tree[q] == t[q]
  {
    var pin := PinFile(cwd);
    if !Exists(t, pin) then Outcome(Ok(()), t)
    else
      var removed := FileRemoved(t, pin);
      Outcome(Status(removed), After(t, removed))
  }

  const RemovedMessage := "Removed pinned version for this project."
  const NotPinnedMessage := "No Go version is pinned in this directory."

  /** `unpin_go`. */
  method UnpinGo(disk: Disk, cwd: Path) returns (r: Result<()>, out: seq<string>)
    modifies disk
    ensures Outcome(r, disk.tree) == Unpinned(old(disk.tree), cwd)
    ensures out == if !Exists(old(disk.tree), PinFile(cwd)) then [NotPinnedMessage]
                   else if r.Ok? then [RemovedMessage] else []
  {
    var pin := PinFile(cwd);
    if Exists(disk.tree, pin) {
      r := disk.RemoveFile(pin);
      out := if r.Ok? then [RemovedMessage] else [];
    } else {
      r := Ok(());
      out := [NotPinnedMessage];
    }
  }

  /** Unpinning twice is unpinning once: the second run finds nothing and changes nothing. */
  lemma {:induction false} UnpinIdempotent(t: Tree, cwd: Path)
    requires Unpinned(t, cwd).status.Ok?
    ensures Unpinned(Unpinned(t, cwd).tree, cwd) == Outcome(Ok(()), Unpinned(t, cwd).tree)
  {
  }

  /** After unpinning, resolution from `cwd` is what it was from the parent directory,
      or, at the root, the default. */
  lemma {:induction false} UnpinFallsBack(t: Tree, decode: Decoder, cwd: Path, home: Option<Path>)
    requires Unpinned(t, cwd).status.Ok?
    ensures var t1 := Unpinned(t, cwd).tree;
      FindActiveGoVersion(t1, decode, cwd, home) ==
        if cwd == [] then DefaultVersion(t, home) else FindActiveGoVersion(t, decode, cwd[..|cwd| - 1], home)
  {
    var t1 := Unpinned(t, cwd).tree;
    assert PinAt(t1, decode, cwd) == Ok(None);
    if home.Some? {
      PinFileIsNotDefaultFile(cwd, home.value);
      assert ReadText(t1, DefaultFile(home.value)) == ReadText(t, DefaultFile(home.value));
    }
    assert DefaultVersion(t1, home) == DefaultVersion(t, home);
    if cwd != [] {
      var parent := cwd[..|cwd| - 1];
      forall k | 0 <= k <= |parent|
        ensures PinFile(parent[..k]) != PinFile(cwd)
      {
        assert |PinFile(parent[..k])| < |PinFile(cwd)|;
      }
      PinLookupFrame(t, t1, decode, parent);
    }
  }
}
