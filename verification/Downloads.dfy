/** core/engine/fileshare/client.go: copying a file, a tree or everything from a share, request by request. */
module Downloads {
  import opened Common
  import opened Paths
  import opened Files
  import opened Trees
  import opened ClientPaths
  import opened Share
  import opened Requests
  import opened Uploads

  /** The filesystem files are downloaded to. */
  class LocalDisk {
    var disk: Disk

    constructor (disk: Disk)
      ensures this.disk == disk
    {
      this.disk := disk;
    }
  }

  // ---- one file ----

  lemma OnePiece(data: seq<Byte>)
    ensures Covers([Chunk(0, data)], data)
  {
    var c := Chunk(0, data);
    forall i | 0 <= i < |data| ensures Hit([c], i) { assert c in [c]; }
  }

  const CREATE := Flags(true, true, true, true, false, false)

  /** os.Create and one write of everything read. */
  lemma Created(d: Disk, q: Path, data: seq<Byte>)
    requires q != []
    ensures var f := OpenFile(d, q, CREATE);
      && (f.1.None? <==> FileFree(d, q))
      && (f.1.Some? ==> f.0 == d)
      && (f.1.None? ==> WriteAll(f.0, q, [Chunk(0, data)]) == Put(d, q, File(data)))
  {
    hide Covers, WriteAll;
    OnePiece(data);
    Overwritten(d, q, data, [Chunk(0, data)]);
  }

  lemma NoWayNoFit(n: Nodes, q: Path, x: Node)
    requires q != []
    ensures !DirsOk(n, Parent(q)) ==> !Fits(n, q, x) && PutNode(n, q, x) == n && Made(n, Parent(q)) == n
  {
  }

  method DownloadFile(s: RemoteShare, r: ClientPath, local: LocalDisk, to: Path) returns (ok: bool)
    requires Valid(r) && to != []
    modifies s, local
    ensures s.disk == old(s.disk)
    ensures ok ==> Serve(s.mode, DirStore, s.disk, Get(Wire(Text(r)))).status == Okay
    ensures Tidy(At(r)) && At(r) != [] && !GivesFile(s.mode, s.disk, At(r)) ==> !ok && local.disk == old(local.disk)
    ensures Tidy(At(r)) && At(r) != [] && GivesFile(s.mode, s.disk, At(r)) && Closed(old(local.disk.nodes)) ==>
              (ok <==> Fits(old(local.disk.nodes), to, s.disk.nodes[At(r)])) &&
              local.disk == old(local.disk).(nodes := PutNode(old(local.disk.nodes), to, s.disk.nodes[At(r)]))
  {
    hide Serve, Rel, Wire, Text, Target, Valid, Closed, DirsOk, WithDirs, OpenFile, WriteAll, Fits, FileFree, Tidy;
    ghost var n := local.disk.nodes;
    ReadKeeps(s.mode, s.disk, Wire(Text(r)));
    if Tidy(At(r)) && At(r) != [] {
      TidyReaches(r);
      GetServed(s.mode, s.disk, r);
    }
    var o := s.Handle(Get(Wire(Text(r))));
    if o.status != Okay || !o.answer.Opened? || o.answer.at !in o.disk.nodes || !o.disk.nodes[o.answer.at].File? {
      return false;
    }
    var data := o.disk.nodes[o.answer.at].data;
    if Closed(n) {
      MakeDirsMakes(local.disk, Parent(to));
      FileFits(local.disk.(nodes := Made(n, Parent(to))), n, to, data);
      NoWayNoFit(n, to, File(data));
    }
    var made := MakeDirs(local.disk, Parent(to));
    local.disk := made.0;
    if !made.1 { return false; }
    Created(local.disk, to, data);
    var file := OpenFile(local.disk, to, CREATE);
    local.disk := file.0;
    if file.1.Some? { return false; }
    local.disk := WriteAll(local.disk, to, [Chunk(0, data)]);
    ok := true;
  }

  // ---- the walk ----

  /** The entries of a walk over the share, for every directory that may be walked. */
  ghost predicate Walks(walks: map<Path, seq<Path>>, n: Nodes) {
    forall at :: at in walks ==> IsWalk(walks[at], Below(n, at))
  }

  /** Where an entry of the walk is written, if filepath.Rel knows. */
  function LocalPath(dir: Path, r: ClientPath, rp: ClientPath): Option<Path> {
    match RelTo(DirOf(r).cs, rp.cs)
    case None => None
    case Some(rel) => Some(Resolve(true, dir, rel))
  }

  lemma LastIsNamed(t: Path)
    requires Tidy(t) && t != []
    ensures Named(t[|t| - 1])
  {
    assert TidyName(t[|t| - 1]);
  }

  lemma KeepsNames(dir: Path, last: string, p: Path)
    requires Named(last) && Normal(p)
    ensures Resolve(true, dir, [last] + p) == dir + [last] + p
  {
    hide Resolve, Named;
    assert Normal([last] + p) by { forall i | 0 <= i < |p| + 1 ensures Named(([last] + p)[i]) {} }
    ResolveKeeps(true, dir, [last] + p);
    assert dir + ([last] + p) == dir + [last] + p;
  }

  lemma LocalPathOf(dir: Path, r: ClientPath, p: Path)
    requires Valid(r) && At(r) != [] && Tidy(At(r)) && Normal(p)
    ensures LocalPath(dir, r, Sub(r, p)) == Some(dir + [At(r)[|At(r)| - 1]] + p)
  {
    assert r.cs != [];
    hide Valid, Resolve, RelTo, At, TidyName, Named, Climbs, Split, Join;
    UpIsParent(r);
    var last := r.cs[|r.cs| - 1];
    LastIsNamed(At(r));
    assert r.cs == Up(r).cs + [last];
    RelToBelow(Up(r).cs, [last] + p);
    assert r.cs + p == Up(r).cs + ([last] + p);
    KeepsNames(dir, last, p);
  }

  /** File systems hold no empty, dot or dot-dot names. */
  ghost predicate ProperNames(n: Nodes) {
    forall q :: q in n ==> Normal(q)
  }

  lemma BelowProper(n: Nodes, at: Path, p: Path)
    requires ProperNames(n) && p in Below(n, at)
    ensures Normal(p) && at + p in n && Below(n, at)[p] == n[at + p]
  {
    BelowHas(n, at, p);
    forall i | 0 <= i < |p| ensures Named(p[i]) { assert (at + p)[|at| + i] == p[i]; }
  }

  /** The library's view of one entry: its kind, and its path. */
  lemma EntrySeen(m: Mode, d: Disk, r: ClientPath, p: Path)
    requires Valid(r) && Tidy(At(r)) && Tidy(p) && Normal(p) && At(r) + p != [] && At(r) + p in d.nodes
    ensures var rp := Sub(r, p);
      && Valid(rp) && At(rp) == At(r) + p && Tidy(At(rp)) && Reaches(rp)
      && Serve(m, DirStore, d, Lstat(Wire(Text(rp)))).answer == Info(d.nodes[At(rp)])
  {
    hide Serve, Rel, Wire, Text, At, Target, Valid, Tidy;
    SubValid(r, p);
    TidyJoin(At(r), p);
    TidyReaches(Sub(r, p));
    StatServed(m, d, Sub(r, p));
  }

  // ---- one entry ----

  /** Ordinary names, on the share and below the entry, and a local filesystem. */
  ghost predicate OrdinaryEntry(n: Nodes, at: Path, local: Nodes) {
    && Closed(n) && at != [] && at in n && !n[at].Link? && Tidy(at) && TidyTree(Below(n, at)) && Closed(local)
  }

  /** Where an entry of the share goes. */
  function Here(dir: Path, at: Path): Path
    requires at != []
  {
    dir + [at[|at| - 1]]
  }

  /** The share lets itself be read, and nothing of another kind is in the way. */
  ghost predicate CanDownload(m: Mode, n: Nodes, at: Path, local: Nodes, dir: Path) {
    OrdinaryEntry(n, at, local) && CanRead(m) && Takes(local, Here(dir, at), Below(n, at))
  }

  lemma EntryCopyable(n: Nodes, at: Path, local: Nodes, dir: Path)
    requires OrdinaryEntry(n, at, local)
    ensures Copyable(local, Here(dir, at), Below(n, at)) && Below(n, at)[[]] == n[at]
  {
    BelowIsTree(n, at);
    BelowHas(n, at, []);
    assert at + [] == at;
  }

  /** One entry of the walk: a directory is made and listed, a file fetched, anything else skipped. */
  method FetchEntry(s: RemoteShare, node: Node, r: ClientPath, local: LocalDisk, to: Path) returns (ok: bool)
    requires Valid(r)
    modifies s, local
    ensures s.disk == old(s.disk)
    ensures node.Link? ==> ok && local.disk == old(local.disk)
    ensures Tidy(At(r)) && At(r) != [] && At(r) in s.disk.nodes && s.disk.nodes[At(r)] == node && !node.Link? &&
            to != [] && Closed(old(local.disk.nodes)) ==>
              (ok <==> CanRead(s.mode) && Fits(old(local.disk.nodes), to, node)) &&
              (ok ==> local.disk == old(local.disk).(nodes := PutNode(old(local.disk.nodes), to, node)))
  {
    hide Serve, Rel, Wire, Text, Target, Valid, At, Closed, DirsOk, WithDirs, Fits, PutNode, Tidy;
    if node.Link? { return true; }
    if node.File? {
      if to == [] { return false; }
      ok := DownloadFile(s, r, local, to);
      return;
    }
    if Closed(local.disk.nodes) {
      MakeDirsMakes(local.disk, to);
      if to != [] { DirFits(local.disk.nodes, to); }
    }
    if Tidy(At(r)) && At(r) in s.disk.nodes && s.disk.nodes[At(r)] == node {
      TidyReaches(r);
      ListServed(s.mode, s.disk, r);
    }
    ReadKeeps(s.mode, s.disk, Wire(Text(r)));
    var made := MakeDirs(local.disk, to);
    local.disk := made.0;
    if !made.1 { return false; }
    var o := s.Handle(List(Wire(Text(r))));
    ok := o.status == Okay;
  }

  /** What the next entry of the walk finds at its destination, and what it leads to. */
  lemma FetchGoes(n: Nodes, l: Nodes, from: Path, dir: Path, order: seq<Path>, i: nat, cur: Nodes)
    requires OrdinaryEntry(n, from, l) && i < |order|
    requires Copied(l, Here(dir, from), Below(n, from), order, i, cur)
    ensures var t, at, p := Below(n, from), Here(dir, from), order[i];
      && p in t && Tidy(p) && at + p != [] && Closed(cur)
      && (t[p].Link? ==> Copied(l, at, t, order, i + 1, cur))
      && (!t[p].Link? && Fits(cur, at + p, t[p]) ==> Copied(l, at, t, order, i + 1, PutNode(cur, at + p, t[p])))
      && (!t[p].Link? && !Fits(cur, at + p, t[p]) ==> !Takes(l, at, t))
  {
    hide Closed, WithDirs, Graft, Visited, Below, IsWalk, Fits, Takes, Tidy, IsTree;
    var t, at, p := Below(n, from), Here(dir, from), order[i];
    InWalk(order, t, i);
    if t[p].Link? {
      CopySkip(l, at, t, order, i, cur);
    } else {
      CopyReady(l, at, t, order, i, cur);
      if Fits(cur, at + p, t[p]) {
        CopyStep(l, at, t, order, i, cur);
      } else if Takes(l, at, t) {
        TakesPart(l, at, t, order[..i + 1]);
      }
    }
  }

  lemma DownloadNeeds(m: Mode, n: Nodes, at: Path, l: Nodes, dir: Path)
    requires OrdinaryEntry(n, at, l)
    ensures CanDownload(m, n, at, l, dir) <==> CanRead(m) && Takes(l, Here(dir, at), Below(n, at))
  {
  }

  lemma FirstIsNoLink(n: Nodes, at: Path, l: Nodes, order: seq<Path>, i: nat)
    requires OrdinaryEntry(n, at, l) && IsWalk(order, Below(n, at)) && i < |order|
    ensures order[i] in Below(n, at) && (i == 0 ==> !Below(n, at)[order[i]].Link?)
  {
    EntryCopyable(n, at, l, []);
    WalkStartsAtRoot(order, Below(n, at));
    InWalk(order, Below(n, at), i);
  }

  lemma StartFetch(m: Mode, n: Nodes, at: Path, l: Nodes, dir: Path, order: seq<Path>)
    requires OrdinaryEntry(n, at, l) && IsWalk(order, Below(n, at))
    ensures at != [] && at in n && Tidy(at) && order != []
    ensures Copied(l, Here(dir, at), Below(n, at), order, 0, l)
    ensures CanDownload(m, n, at, l, dir) <==> CanRead(m) && Takes(l, Here(dir, at), Below(n, at))
  {
    EntryCopyable(n, at, l, dir);
    WalkStartsAtRoot(order, Below(n, at));
  }

  /** All that one turn of the loop needs to know. */
  lemma FetchReady(m: Mode, d: Disk, r: ClientPath, l: Nodes, dir: Path, order: seq<Path>, i: nat, cur: Nodes)
    requires Valid(r) && ProperNames(d.nodes) && OrdinaryEntry(d.nodes, At(r), l) && i < |order|
    requires Copied(l, Here(dir, At(r)), Below(d.nodes, At(r)), order, i, cur)
    ensures var t, at, p := Below(d.nodes, At(r)), Here(dir, At(r)), order[i];
      var rp := Sub(r, p);
      && p in t && at + p != [] && Closed(cur) && Valid(rp) && Tidy(At(rp)) && At(rp) != []
      && At(rp) in d.nodes && d.nodes[At(rp)] == t[p]
      && LocalPath(dir, r, rp) == Some(at + p)
      && Serve(m, DirStore, d, Lstat(Wire(Text(rp)))).answer == Info(t[p])
      && (i == 0 ==> !t[p].Link?)
      && (t[p].Link? ==> Copied(l, at, t, order, i + 1, cur))
      && (!t[p].Link? && Fits(cur, at + p, t[p]) ==> Copied(l, at, t, order, i + 1, PutNode(cur, at + p, t[p])))
      && (!t[p].Link? && !Fits(cur, at + p, t[p]) ==> !Takes(l, at, t))
  {
    hide Serve, Rel, Wire, Text, Target, Valid, At, Closed, DirsOk, WithDirs, Graft, Visited, Below, IsWalk, RelTo;
    hide Resolve, ProperNames, Fits, PutNode, Takes, Tidy, LocalPath;
    FetchGoes(d.nodes, l, At(r), dir, order, i, cur);
    BelowProper(d.nodes, At(r), order[i]);
    EntrySeen(m, d, r, order[i]);
    LocalPathOf(dir, r, order[i]);
    FirstIsNoLink(d.nodes, At(r), l, order, i);
  }

  /** The share tells what is at this path of a walk. */
  predicate Answers(m: Mode, d: Disk, r: ClientPath) {
    Serve(m, DirStore, d, Lstat(Wire(Text(r)))).answer.Info?
  }

  method DownloadTree(s: RemoteShare, r: ClientPath, local: LocalDisk, dir: Path, order: seq<Path>) returns (ok: bool)
    requires Valid(r) && ProperNames(s.disk.nodes) && IsWalk(order, Below(s.disk.nodes, At(r)))
    modifies s, local
    ensures s.disk == old(s.disk)
    ensures ok ==> forall k :: 0 <= k < |order| ==> Answers(s.mode, s.disk, Sub(r, order[k]))
    ensures OrdinaryEntry(s.disk.nodes, At(r), old(local.disk.nodes)) ==>
              (ok <==> CanDownload(s.mode, s.disk.nodes, At(r), old(local.disk.nodes), dir)) &&
              (ok ==> local.disk == old(local.disk).(nodes :=
                        Graft(old(local.disk.nodes), Here(dir, At(r)), Regular(Below(s.disk.nodes, At(r))))))
  {
    hide Serve, Rel, Wire, Text, Target, Valid, At, Closed, DirsOk, WithDirs, Graft, Visited, Below, IsWalk, Regular;
    hide RelTo, Resolve, ProperNames, Fits, PutNode, Takes, Tidy, OrdinaryEntry, CanDownload, Here, Copied, LocalPath;
    ghost var d, n, l, t := s.disk, s.disk.nodes, local.disk, Below(s.disk.nodes, At(r));
    ghost var good := OrdinaryEntry(n, At(r), l.nodes);
    if good { StartFetch(s.mode, n, At(r), l.nodes, dir, order); }
    ghost var at := if At(r) != [] then Here(dir, At(r)) else [];
    for i := 0 to |order|
      invariant s.disk == d
      invariant good ==> Copied(l.nodes, at, t, order, i, local.disk.nodes) && local.disk.meta == l.meta
      invariant i > 0 && good ==> CanRead(s.mode)
      invariant forall k :: 0 <= k < i ==> Answers(s.mode, d, Sub(r, order[k]))
    {
      var p := order[i];
      InWalk(order, t, i);
      BelowProper(n, At(r), p);
      SubValid(r, p);
      var rp := Sub(r, p);
      if good { FetchReady(s.mode, d, r, l.nodes, dir, order, i, local.disk.nodes); }
      ReadKeeps(s.mode, d, Wire(Text(rp)));
      var o := s.Handle(Lstat(Wire(Text(rp))));
      if !o.answer.Info? { return false; }
      var to := LocalPath(dir, r, rp);
      if to.None? { return false; }
      ok := FetchEntry(s, o.answer.node, rp, local, to.value);
      if !ok { return; }
    }
    if good { CopyDone(l.nodes, at, t, order, local.disk.nodes); }
    ok := true;
  }

  /** A named file or directory arrives exactly when the share can be read and nothing of another kind is in the way. */
  method DownloadEntry(s: RemoteShare, r: ClientPath, local: LocalDisk, dir: Path,
                       walks: map<Path, seq<Path>>) returns (ok: bool)
    requires Valid(r) && r.cs != [] && ProperNames(s.disk.nodes)
    requires Walks(walks, s.disk.nodes) && (At(r) in s.disk.nodes ==> At(r) in walks)
    modifies s, local
    ensures s.disk == old(s.disk)
    ensures ok ==> Serve(s.mode, DirStore, s.disk, Stat(Wire(Text(r)))).status == Okay
    ensures OrdinaryEntry(s.disk.nodes, At(r), old(local.disk.nodes)) ==>
              (ok <==> CanDownload(s.mode, s.disk.nodes, At(r), old(local.disk.nodes), dir)) &&
              (ok ==> local.disk == old(local.disk).(nodes :=
                        Graft(old(local.disk.nodes), Here(dir, At(r)), Regular(Below(s.disk.nodes, At(r))))))
    ensures Tidy(At(r)) && At(r) != [] && At(r) !in s.disk.nodes ==> !ok && local.disk == old(local.disk)
  {
    hide Serve, Rel, Wire, Text, Target, Valid, At, Closed, DirsOk, WithDirs, Graft, Visited, Below, IsWalk, Regular;
    hide RelTo, Resolve, ProperNames, Fits, PutNode, Takes, Tidy, FileFree;
    ghost var d, n, l := s.disk, s.disk.nodes, local.disk.nodes;
    ghost var good := OrdinaryEntry(n, At(r), l);
    if Tidy(At(r)) {
      TidyReaches(r);
      StatServed(s.mode, d, r);
    }
    ReadKeeps(s.mode, d, Wire(Text(r)));
    var o := s.Handle(Stat(Wire(Text(r))));
    if o.status != Okay || !o.answer.Info? { return false; }
    if o.answer.node == Dir {
      if At(r) !in walks { return false; }
      ok := DownloadTree(s, r, local, dir, walks[At(r)]);
      return;
    }
    if good {
      LocalPathOf(dir, r, []);
      assert Sub(r, []) == r && dir + [At(r)[|At(r)| - 1]] + [] == Here(dir, At(r));
      EntryCopyable(n, At(r), l, dir);
    }
    if o.answer.node.Link? { return false; }
    if good { FileIsTree(l, Here(dir, At(r)), Below(n, At(r))); }
    var to := LocalPath(dir, r, r);
    if to.None? || to.value == [] { return false; }
    ok := DownloadFile(s, r, local, to.value);
  }
}
