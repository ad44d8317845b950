/**
  A share as its clients see it: what single requests for a client path do, and the two ways of making the
  directories above an entry (MkdirAll of the SFTP client library, and os.MkdirAll).
 */
module Requests {
  import opened Common
  import opened Paths
  import opened Files
  import opened Trees
  import opened ClientPaths
  import opened Share

  /** A share of one directory. */
  class RemoteShare {
    const mode: Mode
    var disk: Disk

    constructor (mode: Mode, disk: Disk)
      ensures this.mode == mode && this.disk == disk
    {
      this.mode, this.disk := mode, disk;
    }

    method Handle(r: Request) returns (o: Outcome)
      modifies this
      ensures o == Serve(mode, DirStore, old(disk), r) && disk == o.disk
      ensures mode == ReadOnly ==> disk == old(disk)
    {
      ReadOnlyRefuses(DirStore, disk, r);
      o := Serve(mode, DirStore, disk, r);
      disk := o.disk;
    }
  }

  // ---- single requests ----

  ghost predicate Reaches(r: ClientPath) {
    Valid(r) && (At(r) == [] || TidyName(At(r)[|At(r)| - 1]))
  }

  lemma TidyReaches(r: ClientPath)
    requires Valid(r) && Tidy(At(r))
    ensures Reaches(r)
  {
    if At(r) != [] { assert TidyName(At(r)[|At(r)| - 1]); }
  }

  lemma StatServed(m: Mode, d: Disk, r: ClientPath)
    requires Reaches(r)
    ensures var o := Serve(m, DirStore, d, Stat(Wire(Text(r))));
      o.disk == d && o.answer == NodeAt(d, At(r)) && (o.status == Okay <==> o.answer.Info?)
    ensures Serve(m, DirStore, d, Lstat(Wire(Text(r)))) == Serve(m, DirStore, d, Stat(Wire(Text(r)))).(
              calls := [CLstat(Rel(Wire(Text(r))))])
  {
    hide Rel, Wire, Text, At, Target, Valid;
    Arrives(r);
  }

  /** Reading requests leave the share as it is. */
  lemma ReadKeeps(m: Mode, d: Disk, path: string)
    ensures Serve(m, DirStore, d, Stat(path)).disk == d && Serve(m, DirStore, d, Lstat(path)).disk == d
    ensures Serve(m, DirStore, d, List(path)).disk == d && Serve(m, DirStore, d, Get(path)).disk == d
  {
    hide Rel, Target;
  }

  lemma MkdirServed(m: Mode, d: Disk, r: ClientPath)
    requires Reaches(r)
    ensures var o := Serve(m, DirStore, d, Cmd(MkdirM, Wire(Text(r)), "", None));
      && (CanWrite(m) ==> o.disk == Mkdir(d, At(r)).0 && (o.status == Okay <==> Mkdir(d, At(r)).1.None?))
      && (!CanWrite(m) ==> o.disk == d && o.status != Okay)
  {
    hide Rel, Wire, Text, At, Target, Valid, Mkdir;
    Arrives(r);
  }

  const UPLOAD := Flags(false, true, true, true, false, false)

  /** A file can be created or replaced here. */
  predicate FileFree(d: Disk, t: Path) {
    t != [] && if t in d.nodes then d.nodes[t].File? else IsDir(d, Parent(t))
  }

  /** Opening for upload empties or creates the file; the pieces then make it the contents. */
  lemma Overwritten(d: Disk, p: Path, data: seq<Byte>, chunks: seq<Chunk>)
    requires Covers(chunks, data)
    ensures WriteAll(Put(d, p, File([])), p, chunks) == Put(d, p, File(data))
  {
    var d0 := Put(d, p, File([]));
    assert [] + chunks == chunks;
    assert forall i :: !Hit([], i);
    ChunksGiveContents(d0, p, [], chunks, data);
    assert Put(d0, p, File(data)) == Put(d, p, File(data));
  }

  lemma PutServed(m: Mode, d: Disk, r: ClientPath, data: seq<Byte>, chunks: seq<Chunk>)
    requires Reaches(r) && Covers(chunks, data) && At(r) != []
    ensures var o := Serve(m, DirStore, d, PutReq(Wire(Text(r)), UPLOAD, chunks));
      && (o.status == Okay <==> CanWrite(m) && FileFree(d, At(r)))
      && o.disk == if CanWrite(m) && FileFree(d, At(r)) then Put(d, At(r), File(data)) else d
  {
    hide Rel, Wire, Text, At, Target, Valid, Covers, WriteAll;
    Arrives(r);
    Overwritten(d, At(r), data, chunks);
  }

  /** The share gives this file away. */
  predicate GivesFile(m: Mode, d: Disk, t: Path) {
    CanRead(m) && t != [] && t in d.nodes && d.nodes[t].File?
  }

  lemma GetServed(m: Mode, d: Disk, r: ClientPath)
    requires Reaches(r) && At(r) != []
    ensures var o := Serve(m, DirStore, d, Get(Wire(Text(r))));
      && (o.status == Okay <==> GivesFile(m, d, At(r)))
      && (o.status == Okay ==> o.answer == Opened(At(r)))
  {
    hide Rel, Wire, Text, At, Target, Valid;
    Arrives(r);
  }

  lemma ListServed(m: Mode, d: Disk, r: ClientPath)
    requires Reaches(r) && IsDir(d, At(r))
    ensures Serve(m, DirStore, d, List(Wire(Text(r)))).status == Okay <==> CanRead(m)
  {
    hide Rel, Wire, Text, At, Target, Valid;
    Arrives(r);
  }

  // ---- one entry at its destination ----

  /** The nodes after an entry was put where it fits; nothing happens where it does not. */
  ghost function PutNode(n: Nodes, q: Path, x: Node): Nodes
    requires q != []
  {
    if Fits(n, q, x) then WithDirs(n, Parent(q))[q := x] else n
  }

  lemma DirsOkStep(n: Nodes, t: Path)
    requires t != []
    ensures DirsOk(n, t) <==> DirsOk(n, Parent(t)) && (t in n ==> n[t].Dir?)
  {
    assert t[..|t|] == t;
    assert forall k :: 1 <= k <= |Parent(t)| ==> Parent(t)[..k] == t[..k];
    forall k | 1 <= k <= |t| && t[..k] in n && DirsOk(n, Parent(t)) && (t in n ==> n[t].Dir?) ensures n[t[..k]].Dir? {
      if k < |t| { assert t[..k] == Parent(t)[..k]; }
    }
  }

  /** A directory fits where the whole way to it is directories. */
  lemma DirFits(n: Nodes, q: Path)
    requires q != []
    ensures Fits(n, q, Dir) <==> DirsOk(n, q)
    ensures DirsOk(n, q) ==> PutNode(n, q, Dir) == WithDirs(n, q)
  {
    DirsOkStep(n, q);
    WithDirsStep(n, q);
    if DirsOk(n, q) && q in n {
      assert WithDirs(n, Parent(q))[q] == Dir;
      assert WithDirs(n, Parent(q))[q := Dir] == WithDirs(n, Parent(q));
    }
  }

  /** What is there already has directories above it. */
  lemma PresentDirs(n: Nodes, t: Path)
    requires Closed(n) && t != [] && t in n
    ensures DirsOk(n, Parent(t)) && WithDirs(n, Parent(t)) == n
  {
    if |t| == 1 { assert Parent(t) == []; }
    DirsAbove(n, Parent(t));
    WithDirsPresent(n, Parent(t));
  }

  // ---- os.MkdirAll ----

  ghost function Made(n: Nodes, t: Path): Nodes {
    if DirsOk(n, t) then WithDirs(n, t) else n
  }

  /** One Mkdir on top of the parents. */
  lemma MkdirOnTop(d: Disk, n: Nodes, t: Path)
    requires Closed(n) && t != [] && DirsOk(n, Parent(t)) && t !in n && d.nodes == WithDirs(n, Parent(t))
    ensures Mkdir(d, t) == (d.(nodes := WithDirs(n, t)), None)
  {
    ClosedWithDirs(n, Parent(t));
    if t in Prefixes(Parent(t)) { PrefixIsShort(Parent(t), t); }
    WithDirsStep(n, t);
  }

  function MakeDirs(d: Disk, t: Path): (Disk, bool)
    decreases |t|
  {
    if IsDir(d, t) then (d, true)
    else if t in d.nodes then (d, false)
    else
      var (d1, ok) := MakeDirs(d, Parent(t));
      if !ok then (d1, false)
      else
        var (d2, e) := Mkdir(d1, t);
        (d2, e.None?)
  }

  /** It makes exactly the missing directories, or nothing when something else is in the way. */
  lemma {:induction false} MakeDirsMakes(d: Disk, t: Path)
    requires Closed(d.nodes)
    ensures MakeDirs(d, t) == (d.(nodes := Made(d.nodes, t)), DirsOk(d.nodes, t))
    decreases |t|
  {
    hide Closed, DirsOk, WithDirs, Mkdir;
    if IsDir(d, t) {
      DirsAbove(d.nodes, t);
      WithDirsPresent(d.nodes, t);
    } else {
      DirsOkStep(d.nodes, t);
      if t !in d.nodes {
        MakeDirsMakes(d, Parent(t));
        if DirsOk(d.nodes, Parent(t)) { MkdirOnTop(d.(nodes := WithDirs(d.nodes, Parent(t))), d.nodes, t); }
      }
    }
  }

  // ---- MkdirAll over the share ----

  /** If something is there, it is a directory or in the way. */
  lemma StatDecides(d: Disk, t: Path)
    requires Closed(d.nodes) && NodeAt(d, t).Info?
    ensures NodeAt(d, t) == Info(Dir) <==> DirsOk(d.nodes, t)
    ensures Made(d.nodes, t) == d.nodes
  {
    if IsDir(d, t) {
      DirsAbove(d.nodes, t);
      WithDirsPresent(d.nodes, t);
    } else {
      DirsOkStep(d.nodes, t);
    }
  }

  lemma TidyParent(t: Path)
    requires Tidy(t) && t != []
    ensures Tidy(Parent(t))
  {
  }

  lemma NoDirsNeeded(n: Nodes)
    ensures DirsOk(n, [])
  {
  }

  lemma AtOfOne(r: ClientPath)
    requires Valid(r) && |r.cs| == 1 && At(r) != []
    ensures Parent(At(r)) == []
  {
    UpIsParent(r);
  }

  /** Stat, make the parent, make the directory, and look again. */
  method MkdirAll(s: RemoteShare, r: ClientPath) returns (ok: bool)
    requires Valid(r)
    modifies s
    ensures Closed(old(s.disk.nodes)) && Tidy(At(r)) && CanWrite(s.mode) ==>
              (ok <==> DirsOk(old(s.disk.nodes), At(r))) &&
              s.disk == old(s.disk).(nodes := Made(old(s.disk.nodes), At(r)))
    ensures Tidy(At(r)) && !CanWrite(s.mode) ==> (ok <==> IsDir(s.disk, At(r)))
    ensures s.mode == ReadOnly ==> s.disk == old(s.disk)
    decreases |r.cs|
  {
    hide Serve, Rel, Wire, Text, Target, Valid, Closed, DirsOk, WithDirs, Mkdir, Tidy;
    ghost var d0, t := s.disk, At(r);
    ghost var clear := Closed(d0.nodes) && Tidy(t);
    if Tidy(t) {
      TidyReaches(r);
      StatServed(s.mode, d0, r);
    }
    ReadKeeps(s.mode, d0, Wire(Text(r)));
    var o := s.Handle(Stat(Wire(Text(r))));
    if o.status == Okay {
      if clear { StatDecides(d0, t); }
      return o.answer == Info(Dir);
    }
    if r.cs == [] { return false; }
    UpIsParent(r);
    if Tidy(t) { TidyParent(t); }
    if clear { DirsOkStep(d0.nodes, t); }
    if |r.cs| > 1 {
      ok := MkdirAll(s, Up(r));
      if !ok { return; }
    } else if Tidy(t) {
      AtOfOne(r);
      WithDirsNone(d0.nodes);
      NoDirsNeeded(d0.nodes);
    }
    if clear && CanWrite(s.mode) { MkdirOnTop(s.disk, d0.nodes, t); }
    if Tidy(t) { MkdirServed(s.mode, s.disk, r); }
    o := s.Handle(Cmd(MkdirM, Wire(Text(r)), "", None));
    if o.status == Okay { return true; }
    if Tidy(t) { StatServed(s.mode, s.disk, r); }
    o := s.Handle(Lstat(Wire(Text(r))));
    ok := o.status == Okay && o.answer == Info(Dir);
  }
}
