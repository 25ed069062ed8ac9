/** The filesystem golta works on: a map from absolute paths to entries, and a
    `Disk` object holding that map, whose methods are the std::fs calls golta makes. */
module FileSystem {
  import opened Wrappers

  /** A path as its components from the root; the root itself is `[]`. */
  type Path = seq<string>

  /** What `read_to_string` finds in a file: text, or bytes it cannot decode. */
  datatype Content = Text(text: string) | Unreadable

  datatype Entry = Dir | File(content: Content)

  type Tree = map<Path, Entry>

  /** `q` is `p` or lies below it. */
  predicate Under(q: Path, p: Path) {
    |p| <= |q| && q[..|p|] == p
  }

  /** `Path::join` with one component; joining "" leaves the components as they are. */
  function Join(p: Path, name: string): Path {
    if name == "" then p else p + [name]
  }

  /** `Path::exists`: the root always exists. */
  predicate Exists(t: Tree, p: Path) {
    p == [] || p in t
  }

  predicate IsDir(t: Tree, p: Path) {
    p == [] || (p in t && t[p] == Dir)
  }

  /** `fs::read_to_string`. */
  function ReadText(t: Tree, p: Path): (r: Result<string>)
    ensures r.Ok? <==> p != [] && p in t && t[p].File? && t[p].content.Text?
    ensures r.Ok? ==> t[p] == File(Text(r.value))
    ensures r == Err(Io(NotFound, p)) <==> !Exists(t, p)
    ensures r.Err? ==> r.error.Io? && r.error.path == p
  {
    if p == [] then Err(Io(IsADirectory, p))
    else if p !in t then Err(Io(NotFound, p))
    else match t[p]
      case Dir => Err(Io(IsADirectory, p))
      case File(Unreadable) => Err(Io(ReadFailed, p))
      case File(Text(s)) => Ok(s)
  }

  /** The directories `create_dir_all(p)` makes or needs: every non-root prefix of `p`. */
  function Ancestry(p: Path): (r: set<Path>)
    ensures forall q :: q in r <==> q != [] && Under(p, q)
  {
    var r := set k | 1 <= k <= |p| :: p[..k];
    assert forall q :: q != [] && Under(p, q) ==> q == p[..|q|];
    r
  }

  /** `fs::create_dir_all`: fails when a file stands where a directory is needed. */
  function DirsCreated(t: Tree, p: Path): (r: Result<Tree>)
    ensures r.Ok? <==> forall q :: q in Ancestry(p) && q in t ==> t[q] == Dir
    ensures r.Ok? ==> r.value.Keys == t.Keys + Ancestry(p)
    ensures r.Ok? ==> forall q :: q in r.value ==> r.value[q] == if q in t then t[q] else Dir
    ensures r.Ok? ==> IsDir(r.value, p)
  {
    if forall q :: q in Ancestry(p) && q in t ==> t[q] == Dir then
      Ok(map q | q in t.Keys + Ancestry(p) :: if q in t then t[q] else Dir)
    else Err(Io(NotADirectory, p))
  }

  /** `fs::remove_file`. */
  function FileRemoved(t: Tree, p: Path): (r: Result<Tree>)
    ensures r.Ok? <==> p != [] && p in t && t[p].File?
    ensures r.Ok? ==> r.value == t - {p}
    ensures r == Err(Io(NotFound, p)) <==> !Exists(t, p)
  {
    if p == [] then Err(Io(IsADirectory, p))
    else if p !in t then Err(Io(NotFound, p))
    else if t[p] == Dir then Err(Io(IsADirectory, p))
    else Ok(t - {p})
  }

  /** Everything in `t` except `p` and what lies below it. */
  function Pruned(t: Tree, p: Path): (r: Tree)
    ensures forall q :: q in r <==> q in t && !Under(q, p)
    ensures forall q :: q in r ==> r[q] == t[q]
  {
    map q | q in t && !Under(q, p) :: t[q]
  }

  /** `fs::remove_dir_all`: removes a directory and everything below it. The root is
      never removed. */
  function DirRemoved(t: Tree, p: Path): (r: Result<Tree>)
    ensures r.Ok? <==> p != [] && p in t && t[p] == Dir
    ensures r.Ok? ==> r.value == Pruned(t, p)
    ensures r == Err(Io(NotFound, p)) <==> !Exists(t, p)
  {
    if p == [] then Err(Io(IsADirectory, p))
    else if p !in t then Err(Io(NotFound, p))
    else if t[p].File? then Err(Io(NotADirectory, p))
    else Ok(Pruned(t, p))
  }

  /** `fs::write`: creates or truncates a file; its parent must be a directory. */
  function FileWritten(t: Tree, p: Path, text: string): (r: Result<Tree>)
    ensures r.Ok? <==> p != [] && IsDir(t, p[..|p| - 1]) && !IsDir(t, p)
    ensures r.Ok? ==> r.value == t[p := File(Text(text))]
  {
    if p == [] || IsDir(t, p) then Err(Io(IsADirectory, p))
    else if !IsDir(t, p[..|p| - 1]) then Err(Io(NotFound, p))
    else Ok(t[p := File(Text(text))])
  }

  /** Where `q`, below `src`, ends up when `src` is moved to `dst`. */
  function Relocated(q: Path, src: Path, dst: Path): Path
    requires Under(q, src)
  {
    dst + q[|src|..]
  }

  lemma RelocatedInjective(q1: Path, q2: Path, src: Path, dst: Path)
    requires Under(q1, src) && Under(q2, src)
    requires Relocated(q1, src, dst) == Relocated(q2, src, dst)
    ensures q1 == q2
  {
    assert q1[|src|..] == Relocated(q1, src, dst)[|dst|..];
    assert q2[|src|..] == Relocated(q2, src, dst)[|dst|..];
    assert q1 == q1[..|src|] + q1[|src|..];
    assert q2 == q2[..|src|] + q2[|src|..];
  }

  lemma RelocatedBack(q: Path, src: Path, dst: Path)
    requires Under(q, src)
    ensures Under(Relocated(q, src, dst), dst)
    ensures src + Relocated(q, src, dst)[|dst|..] == q
  {
    assert Relocated(q, src, dst)[|dst|..] == q[|src|..];
    assert q == q[..|src|] + q[|src|..];
  }

  /** `t` with `src` and everything below it moved to `dst`. */
  function Moved(t: Tree, src: Path, dst: Path): (r: Tree)
    ensures forall q :: q in t && !Under(q, src) && !Under(q, dst) ==> q in r && r[q] == t[q]
    ensures forall q :: q in t && Under(q, src) ==> Relocated(q, src, dst) in r && r[Relocated(q, src, dst)] == t[q]
    ensures forall q :: q in r ==> (q in t && !Under(q, src)) || (Under(q, dst) && src + q[|dst|..] in t)
  {
    var kept := map q | q in t && !Under(q, src) && !Under(q, dst) :: t[q];
    forall q1, q2 | Under(q1, src) && Under(q2, src) && Relocated(q1, src, dst) == Relocated(q2, src, dst) {
      RelocatedInjective(q1, q2, src, dst);
    }
    forall q | Under(q, src) {
      RelocatedBack(q, src, dst);
    }
    var moved := map q | q in t && Under(q, src) :: Relocated(q, src, dst) := t[q];
    kept + moved
  }

  /** `fs::rename`: moves `src` (and what lies below it) to `dst`. Renaming onto an
      existing path is refused here; golta only renames onto a path it found absent. */
  function Renamed(t: Tree, src: Path, dst: Path): (r: Result<Tree>)
    ensures r.Ok? <==> src in t && dst != [] && dst !in t && IsDir(t, dst[..|dst| - 1]) && !Under(dst, src)
    ensures r.Ok? ==> r.value == Moved(t, src, dst)
  {
    if src !in t then Err(Io(NotFound, src))
    else if dst == [] || dst in t then Err(Io(AlreadyExists, dst))
    else if !IsDir(t, dst[..|dst| - 1]) then Err(Io(NotFound, dst))
    else if Under(dst, src) then Err(Io(InvalidInput, dst))
    else Ok(Moved(t, src, dst))
  }

  /** An archive member unpacked at `p`: its parent directories are created first. */
  function Unpacked(t: Tree, p: Path, e: Entry): (r: Result<Tree>)
    requires p != []
    ensures r.Ok? ==> p in r.value && r.value[p] == e
    ensures r.Ok? ==> forall q :: q in t && q != p ==> q in r.value && r.value[q] == t[q]
  {
    match DirsCreated(t, p[..|p| - 1])
    case Err(err) => Err(err)
    case Ok(t1) =>
      if p in t1 && t1[p] == Dir && e.File? then Err(Io(IsADirectory, p))
      else Ok(t1[p := e])
  }

  /** What a command leaves behind: its status and the tree after it. */
  datatype Outcome = Outcome(status: Result<()>, tree: Tree)

  /** The tree after an operation: the new tree on success, the old one on failure. */
  function After(t: Tree, r: Result<Tree>): Tree {
    if r.Ok? then r.value else t
  }

  /** The status an operation reports. */
  function Status(r: Result<Tree>): Result<()> {
    if r.Ok? then Ok(()) else Err(r.error)
  }

  /** The machine's filesystem. Each method performs one std::fs call; a call that
      fails leaves the tree as it was. */
  class Disk {
    var tree: Tree

    constructor(t: Tree)
      ensures tree == t
    {
      tree := t;
    }

    method CreateDirAll(p: Path) returns (r: Result<()>)
      modifies this
      ensures r == Status(DirsCreated(old(tree), p))
      ensures tree == After(old(tree), DirsCreated(old(tree), p))
    {
      var next := DirsCreated(tree, p);
      tree := After(tree, next);
      r := Status(next);
    }

    method RemoveFile(p: Path) returns (r: Result<()>)
      modifies this
      ensures r == Status(FileRemoved(old(tree), p))
      ensures tree == After(old(tree), FileRemoved(old(tree), p))
    {
      var next := FileRemoved(tree, p);
      tree := After(tree, next);
      r := Status(next);
    }

    method RemoveDirAll(p: Path) returns (r: Result<()>)
      modifies this
      ensures r == Status(DirRemoved(old(tree), p))
      ensures tree == After(old(tree), DirRemoved(old(tree), p))
    {
      var next := DirRemoved(tree, p);
      tree := After(tree, next);
      r := Status(next);
    }

    method WriteFile(p: Path, text: string) returns (r: Result<()>)
      modifies this
      ensures r == Status(FileWritten(old(tree), p, text))
      ensures tree == After(old(tree), FileWritten(old(tree), p, text))
    {
      var next := FileWritten(tree, p, text);
      tree := After(tree, next);
      r := Status(next);
    }

    method Rename(src: Path, dst: Path) returns (r: Result<()>)
      modifies this
      ensures r == Status(Renamed(old(tree), src, dst))
      ensures tree == After(old(tree), Renamed(old(tree), src, dst))
    {
      var next := Renamed(tree, src, dst);
      tree := After(tree, next);
      r := Status(next);
    }

    method Unpack(p: Path, e: Entry) returns (r: Result<()>)
      requires p != []
      modifies this
      ensures r == Status(Unpacked(old(tree), p, e))
      ensures tree == After(old(tree), Unpacked(old(tree), p, e))
    {
      var next := Unpacked(tree, p, e);
      tree := After(tree, next);
      r := Status(next);
    }
  }
}
