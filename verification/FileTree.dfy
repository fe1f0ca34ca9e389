/** The plain in-memory file tree that a user program believes it is working on.

    Paths are absolute and are sequences of components; the empty path is "/". */
module FileTree {
  type Name = string
  type Path = seq<Name>
  type Bytes = seq<bv8>

  datatype Node = Dir | File(content: Bytes)
  type Tree = map<Path, Node>

  /** What a filesystem call reports: success or an errno. */
  datatype Outcome = Done | Failed(errno: Errno)
  datatype Errno = ENOENT | EEXIST | ENOTDIR | EISDIR | ENOTEMPTY

  function Parent(p: Path): Path
    requires p != []
  {
    p[..|p| - 1]
  }

  predicate IsDir(t: Tree, p: Path) {
    p in t && t[p].Dir?
  }

  predicate IsFile(t: Tree, p: Path) {
    p in t && t[p].File?
  }

  /** "/" is a directory and every other node hangs under a directory. */
  ghost predicate WellFormed(t: Tree) {
    && IsDir(t, [])
    && forall p :: p in t && p != [] ==> IsDir(t, Parent(p))
  }

  function Children(t: Tree, d: Path): (names: set<Name>) {
    set p | p in t && p != [] && Parent(p) == d :: p[|p| - 1]
  }

  lemma ChildName(t: Tree, d: Path, n: Name)
    ensures n in Children(t, d) <==> d + [n] in t
  {
    assert Parent(d + [n]) == d && (d + [n])[|d|] == n;
    forall p | p in t && p != [] && Parent(p) == d && p[|p| - 1] == n ensures p == d + [n] {}
  }

  /** Every proper prefix of an existing path is a directory. */
  lemma {:induction false} PrefixIsDir(t: Tree, p: Path, k: nat)
    requires WellFormed(t) && p in t && k < |p|
    ensures IsDir(t, p[..k])
    decreases |p|
  {
    if k < |p| - 1 {
      PrefixIsDir(t, Parent(p), k);
      assert Parent(p)[..k] == p[..k];
    }
  }

  /** The tree without the node at p and all below it. */
  function WithoutSubtree(t: Tree, p: Path): Tree {
    map q | q in t && !(p <= q) :: t[q]
  }

  /** The errno of a lookup that finds nothing: ENOTDIR below a file. */
  function Absent(t: Tree, p: Path): Errno
    requires p !in t
    decreases |p|
  {
    if p == [] then ENOENT
    else if Parent(p) in t then (if t[Parent(p)].File? then ENOTDIR else ENOENT)
    else Absent(t, Parent(p))
  }

  /** POSIX truncate: cut, or extend with zero bytes. */
  function Truncated(content: Bytes, length: nat): Bytes {
    if length <= |content| then content[..length]
    else content + seq(length - |content|, _ => 0)
  }

  /** The new length, the old bytes as far as they go, and zero bytes after them. */
  lemma TruncatedExactly(content: Bytes, length: nat)
    ensures |Truncated(content, length)| == length
    ensures forall i :: 0 <= i < length ==>
              Truncated(content, length)[i] == if i < |content| then content[i] else 0
  {}

  /** One call of a user program. */
  datatype Op =
    | Write(path: Path, data: Bytes)          // open(path, "w")
    | CreateNew(path: Path, data: Bytes)      // open(path, "x")
    | Append(path: Path, data: Bytes)         // open(path, "a")
    | Update(path: Path, data: Bytes)         // open(path, "r+"), leaving data
    | Truncate(path: Path, length: nat)
    | Touch(path: Path)                       // chmod, utime
    | Mkdir(path: Path)
    | Unlink(path: Path)
    | Rmdir(path: Path)
    | Rename(path: Path, target: Path)
    | Replace(path: Path, target: Path)

  /** rename(2) of something other than a directory: an existing file is overwritten. */
  function Moved(t: Tree, p: Path, target: Path): (Tree, Outcome) {
    if p !in t then (t, Failed(ENOENT))
    else if IsDir(t, target) then (t, Failed(EISDIR))
    else (t[target := t[p]] - {p}, Done)
  }

  /** The meaning of each call on a plain tree. */
  function Plain(t: Tree, op: Op): (Tree, Outcome) {
    var p := op.path;
    match op
    case Write(_, data) =>
      if IsDir(t, p) then (t, Failed(EISDIR)) else (t[p := File(data)], Done)
    case CreateNew(_, data) =>
      if p in t then (t, Failed(EEXIST)) else (t[p := File(data)], Done)
    case Append(_, data) =>
      if IsDir(t, p) then (t, Failed(EISDIR))
      else (t[p := File((if p in t then t[p].content else []) + data)], Done)
    case Update(_, data) =>
      if p !in t then (t, Failed(ENOENT))
      else if IsDir(t, p) then (t, Failed(EISDIR)) else (t[p := File(data)], Done)
    case Truncate(_, length) =>
      if p !in t then (t, Failed(ENOENT))
      else if IsDir(t, p) then (t, Failed(EISDIR))
      else (t[p := File(Truncated(t[p].content, length))], Done)
    case Touch(_) => (t, if p in t then Done else Failed(ENOENT))
    case Mkdir(_) =>
      if p in t then (t, Failed(EEXIST)) else (t[p := Dir], Done)
    case Unlink(_) =>
      if p !in t then (t, Failed(ENOENT))
      else if IsDir(t, p) then (t, Failed(EISDIR)) else (t - {p}, Done)
    case Rmdir(_) =>
      if p !in t then (t, Failed(ENOENT))
      else if IsFile(t, p) then (t, Failed(ENOTDIR))
      else if Children(t, p) != {} then (t, Failed(ENOTEMPTY)) else (t - {p}, Done)
    case Rename(_, target) => Moved(t, p, target)
    case Replace(_, target) => Moved(t, p, target)
  }

  function Final(t: Tree, ops: seq<Op>): Tree
    decreases |ops|
  {
    if ops == [] then t else Final(Plain(t, ops[0]).0, ops[1..])
  }
}
