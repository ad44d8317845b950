/** A filesystem as a finite map from component lists, with the operations a share's backend calls on it. */
module Files {
  import opened Common

  type Path = seq<string>
  type Byte = x: int | 0 <= x < 256

  datatype Node = Dir | File(data: seq<Byte>) | Link(target: string)

  datatype Meta = Meta(mode: Option<int>, mtime: Option<int>)

  datatype Disk = Disk(nodes: map<Path, Node>, meta: map<Path, Meta>)

  datatype Errno = NotExist | Exist | Permission | ReadOnlyShare | Other

  /** The bits of an open call. */
  datatype Flags = Flags(read: bool, write: bool, create: bool, trunc: bool, excl: bool, append: bool)

  function Parent(p: Path): Path
    requires p != []
  {
    p[..|p| - 1]
  }

  /** The root of a disk always exists and is a directory. */
  predicate IsDir(d: Disk, p: Path) {
    p == [] || (p in d.nodes && d.nodes[p].Dir?)
  }

  predicate Exists(d: Disk, p: Path) {
    p == [] || p in d.nodes
  }

  predicate CanCreate(d: Disk, p: Path) {
    p != [] && p !in d.nodes && IsDir(d, Parent(p))
  }

  function Put(d: Disk, p: Path, n: Node): Disk {
    d.(nodes := d.nodes[p := n])
  }

  function Mkdir(d: Disk, p: Path): (Disk, Option<Errno>) {
    if Exists(d, p) then (d, Some(Exist))
    else if !CanCreate(d, p) then (d, Some(NotExist))
    else (Put(d, p, Dir), None)
  }

  /** Opening for writing. Symbolic links are not followed. */
  function OpenFile(d: Disk, p: Path, f: Flags): (Disk, Option<Errno>) {
    if IsDir(d, p) then (d, Some(if f.write then Other else NotExist))
    else if p in d.nodes then
      if f.create && f.excl then (d, Some(Exist))
      else if !d.nodes[p].File? then (d, Some(NotExist))
      else (if f.trunc then Put(d, p, File([])) else d, None)
    else if !f.create || !CanCreate(d, p) then (d, Some(NotExist))
    else (Put(d, p, File([])), None)
  }

  function Zeros(n: nat): seq<Byte> {
    seq(n, _ => 0)
  }

  /** Overwrites from `off` on; a gap past the end is filled with zeros. */
  function Splice(before: seq<Byte>, off: nat, data: seq<Byte>): seq<Byte> {
    var head := if off <= |before| then before[..off] else before + Zeros(off - |before|);
    var tail := if off + |data| <= |before| then before[off + |data|..] else [];
    if data == [] then before else head + data + tail
  }

  datatype Chunk = Chunk(off: nat, data: seq<Byte>)

  /** Writes through an open handle. A handle opened for appending refuses positioned writes. */
  function WriteAll(d: Disk, p: Path, chunks: seq<Chunk>): Disk
    decreases |chunks|
  {
    if chunks == [] || p !in d.nodes || !d.nodes[p].File? then d
    else WriteAll(Put(d, p, File(Splice(d.nodes[p].data, chunks[0].off, chunks[0].data))), p, chunks[1..])
  }

  function Truncate(d: Disk, p: Path, size: nat): Disk {
    if p in d.nodes && d.nodes[p].File? then
      var before := d.nodes[p].data;
      Put(d, p, File(if size <= |before| then before[..size] else before + Zeros(size - |before|)))
    else d
  }

  predicate EmptyDir(d: Disk, p: Path) {
    forall q :: q in d.nodes ==> !(p <= q && |p| < |q|)
  }

  function Remove(d: Disk, p: Path): (Disk, Option<Errno>) {
    if p !in d.nodes then (d, Some(NotExist))
    else if d.nodes[p].Dir? && !EmptyDir(d, p) then (d, Some(Other))
    else (Disk(map q | q in d.nodes && q != p :: d.nodes[q], d.meta), None)
  }

  function Moved(keys: set<Path>, from: Path, to: Path): (r: set<Path>)
    ensures forall q :: q in r ==> to <= q
  {
    set q | q in keys && from <= q :: to + q[|from|..]
  }

  /** Moves a file or a whole tree. A file may replace a file, a directory an empty directory. */
  function Rename(d: Disk, from: Path, to: Path): (Disk, Option<Errno>) {
    if from !in d.nodes || to == [] || !IsDir(d, Parent(to)) then (d, Some(NotExist))
    else if from == to then (d, None)
    else if from <= to then (d, Some(Other))
    else if to in d.nodes && (d.nodes[from].Dir? != d.nodes[to].Dir? || (d.nodes[to].Dir? && !EmptyDir(d, to))) then
      (d, Some(Exist))
    else
      var stay := map q | q in d.nodes && !(from <= q) && q != to :: d.nodes[q];
      var moved := map q | q in Moved(d.nodes.Keys, from, to) && from + q[|to|..] in d.nodes :: d.nodes[from + q[|to|..]];
      (Disk(stay + moved, d.meta), None)
  }

  function Symlink(d: Disk, target: string, p: Path): (Disk, Option<Errno>) {
    if Exists(d, p) then (d, Some(Exist))
    else if !CanCreate(d, p) then (d, Some(NotExist))
    else (Put(d, p, Link(target)), None)
  }

  /** A hard link, as a second copy of the file. */
  function HardLink(d: Disk, from: Path, p: Path): (Disk, Option<Errno>) {
    if from !in d.nodes || d.nodes[from].Dir? then (d, Some(NotExist))
    else if Exists(d, p) then (d, Some(Exist))
    else if !CanCreate(d, p) then (d, Some(NotExist))
    else (Put(d, p, d.nodes[from]), None)
  }

  function MetaOf(d: Disk, p: Path): Meta {
    if p in d.meta then d.meta[p] else Meta(None, None)
  }

  function Chmod(d: Disk, p: Path, mode: int): (Disk, Option<Errno>) {
    if !Exists(d, p) then (d, Some(NotExist))
    else (d.(meta := d.meta[p := MetaOf(d, p).(mode := Some(mode))]), None)
  }

  function Chtimes(d: Disk, p: Path, mtime: int): (Disk, Option<Errno>) {
    if !Exists(d, p) then (d, Some(NotExist))
    else (d.(meta := d.meta[p := MetaOf(d, p).(mtime := Some(mtime))]), None)
  }

  /** The names directly inside a directory. */
  function Children(d: Disk, p: Path): set<string> {
    set q | q in d.nodes && |q| == |p| + 1 && p <= q :: q[|p|]
  }
}
