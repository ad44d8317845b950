/** core/engine/fileshare/client.go: copying a local file or tree to a share, request by request. */
module Uploads {
  import opened Paths
  import opened Files
  import opened Trees
  import opened ClientPaths
  import opened Share
  import opened Requests

  /** path.Dir. */
  function DirOf(r: ClientPath): ClientPath {
    if r.cs == [] then r else Up(r)
  }

  // ---- one file ----

  lemma NotAbove(n: Nodes, t: Path)
    requires t != [] && t !in n
    ensures t !in WithDirs(n, Parent(t))
  {
    if t in Prefixes(Parent(t)) { PrefixIsShort(Parent(t), t); }
  }

  /** With the directories made as far as possible, the file can be put exactly where it fits. */
  lemma FileFits(d: Disk, n: Nodes, t: Path, data: seq<Byte>)
    requires t != [] && Closed(n) && d.nodes == Made(n, Parent(t))
    ensures FileFree(d, t) <==> Fits(n, t, File(data))
    ensures (if FileFree(d, t) then d.nodes[t := File(data)] else d.nodes) == PutNode(n, t, File(data))
  {
    hide Closed, DirsOk, WithDirs;
    if t in n {
      PresentDirs(n, t);
    } else if DirsOk(n, Parent(t)) {
      ClosedWithDirs(n, Parent(t));
      NotAbove(n, t);
    } else {
      if IsDir(d, Parent(t)) { DirsAbove(n, Parent(t)); }
    }
  }

  method UploadFile(s: RemoteShare, r: ClientPath, data: seq<Byte>, chunks: seq<Chunk>) returns (ok: bool)
    requires Valid(r) && Covers(chunks, data)
    modifies s
    ensures Closed(old(s.disk.nodes)) && Tidy(At(r)) && At(r) != [] && CanWrite(s.mode) ==>
              (ok <==> Fits(old(s.disk.nodes), At(r), File(data))) &&
              s.disk == old(s.disk).(nodes := PutNode(old(s.disk.nodes), At(r), File(data)))
    ensures Tidy(At(r)) && At(r) != [] && !CanWrite(s.mode) ==> !ok
    ensures s.mode == ReadOnly ==> s.disk == old(s.disk)
  {
    hide Serve, Rel, Wire, Text, Target, Valid, Closed, DirsOk, WithDirs, Covers, Tidy, FileFree, Fits;
    ghost var d0, t := s.disk, At(r);
    ghost var clear := Tidy(t) && t != [];
    if r.cs != [] { UpIsParent(r); }
    if clear { TidyParent(t); }
    if DirOf(r).cs != [] {
      var _ := MkdirAll(s, DirOf(r));
    } else if clear {
      AtOfOne(r);
      WithDirsNone(d0.nodes);
    }
    if clear {
      TidyReaches(r);
      PutServed(s.mode, s.disk, r, data, chunks);
      if Closed(d0.nodes) && CanWrite(s.mode) { FileFits(s.disk, d0.nodes, t, data); }
    }
    var o := s.Handle(PutReq(Wire(Text(r)), UPLOAD, chunks));
    ok := o.status == Okay;
  }

  // ---- one entry of a walk ----

  lemma PutNowhere(n: Nodes, q: Path, x: Node)
    requires q != []
    ensures !Fits(n, q, x) ==> PutNode(n, q, x) == n
  {
  }

  method UploadEntry(s: RemoteShare, node: Node, r: ClientPath, chunks: seq<Chunk>) returns (ok: bool)
    requires Valid(r) && (node.File? ==> Covers(chunks, node.data))
    modifies s
    ensures node.Link? ==> ok && s.disk == old(s.disk)
    ensures Closed(old(s.disk.nodes)) && Tidy(At(r)) && At(r) != [] && CanWrite(s.mode) && !node.Link? ==>
              (ok <==> Fits(old(s.disk.nodes), At(r), node)) &&
              s.disk == old(s.disk).(nodes := PutNode(old(s.disk.nodes), At(r), node))
    ensures s.mode == ReadOnly ==> s.disk == old(s.disk)
  {
    hide Serve, Rel, Wire, Text, Target, Valid, At, Closed, DirsOk, WithDirs, Covers, Tidy, Fits, PutNode;
    if node.Link? { return true; }
    if node.Dir? {
      if At(r) != [] {
        DirFits(s.disk.nodes, At(r));
        PutNowhere(s.disk.nodes, At(r), node);
      }
      ok := MkdirAll(s, r);
    } else {
      ok := UploadFile(s, r, node.data, chunks);
    }
  }

  // ---- a file or a tree ----

  /** The directory part of an upload path, with "." for the share's root. */
  function RemoteDir(dir: string): string {
    if dir == "" then "." else dir
  }

  /** Where an upload of `source` into `dir` goes. */
  function Destination(dir: string, source: Path): Path
    requires source != []
  {
    Target(dir) + [source[|source| - 1]]
  }

  /** No directory at all is the share's root. */
  lemma RemoteDirIs(dir: string)
    ensures Target(RemoteDir(dir)) == Target(dir) && RemoteDir(dir) != ""
  {
    if dir == "" {
      SplitFirst("", "");
      SplitFirst(".", "");
      ResolveOne(true, [], "");
      ResolveOne(true, [], ".");
    }
  }

  /** Ordinary names here and there, and a share that can be written. */
  ghost predicate Ordinary(m: Mode, n: Nodes, local: Nodes, source: Path, dir: string) {
    && CanWrite(m) && Closed(n) && Closed(local) && source != [] && source in local && !local[source].Link?
    && TidyTree(Below(local, source)) && Tidy(Destination(dir, source))
  }

  /** And nothing of another kind in the way. */
  ghost predicate CanUpload(m: Mode, n: Nodes, local: Nodes, source: Path, dir: string) {
    && Ordinary(m, n, local, source, dir)
    && Takes(n, Destination(dir, source), Below(local, source))
  }

  /** How the library splits each file into pieces. */
  ghost predicate Pieces(writes: map<Path, seq<Chunk>>, t: Nodes) {
    forall p :: p in t && t[p].File? ==> p in writes && Covers(writes[p], t[p].data)
  }

  lemma OrdinaryCopyable(m: Mode, n: Nodes, local: Nodes, source: Path, dir: string)
    requires Ordinary(m, n, local, source, dir)
    ensures Copyable(n, Destination(dir, source), Below(local, source))
    ensures Below(local, source)[[]] == local[source]
  {
    BelowIsTree(local, source);
    BelowHas(local, source, []);
    assert source + [] == source;
  }

  lemma {:induction false} FileIsWholeTree(t: Nodes, p: Path)
    requires IsTree(t) && !t[[]].Dir? && p in t
    ensures p == []
    decreases |p|
  {
    if p != [] { FileIsWholeTree(t, Parent(p)); }
  }

  lemma OnlyEntry(t: Nodes)
    requires IsTree(t) && t[[]].File?
    ensures t == map[[] := t[[]]] && Regular(t) == t
  {
    forall p | p in t ensures p == [] { FileIsWholeTree(t, p); }
  }

  lemma GraftOne(n: Nodes, at: Path, x: Node)
    requires at != []
    ensures Graft(n, at, map[[] := x]) == WithDirs(n, Parent(at))[at := x]
  {
    hide Graft, WithDirs;
    var none: Nodes := map[];
    GraftStep(n, at, none, [], x);
    GraftNothing(n, at);
    assert none[[] := x] == map[[] := x] && at + [] == at;
  }

  /** A file is a tree of one entry. */
  lemma FileIsTree(n: Nodes, at: Path, t: Nodes)
    requires Copyable(n, at, t) && t[[]].File?
    ensures Takes(n, at, t) <==> Fits(n, at, t[[]])
    ensures Takes(n, at, t) ==> PutNode(n, at, t[[]]) == Graft(n, at, Regular(t))
  {
    hide Fits, Takes, Graft, WithDirs, Regular, Closed, IsTree;
    OnlyEntry(t);
    FirstFits(n, at, t);
    GraftOne(n, at, t[[]]);
  }

  lemma UploadPath(dir: string, source: Path, p: Path)
    requires source != [] && Named(source[|source| - 1]) && Normal(p)
    ensures var r := Parse(RemoteDir(dir) + "/" + source[|source| - 1] + "/" + Show(p));
      Valid(r) && At(r) == Destination(dir, source) + p
  {
    hide Resolve, Split, Show, Target, Valid;
    var d := RemoteDir(dir);
    var base := source[|source| - 1];
    RemoteDirIs(dir);
    ParseJoined(d, base, p);
    ParseValid(d);
    SubValid(Parse(d), [base] + p);
    assert Target(d) + ([base] + p) == Target(d) + [base] + p;
  }

  lemma UploadFilePath(dir: string, source: Path)
    requires source != [] && Named(source[|source| - 1])
    ensures var r := Parse(RemoteDir(dir) + "/" + source[|source| - 1]);
      Valid(r) && At(r) == Destination(dir, source)
  {
    hide Resolve, Split, Target, Valid;
    RemoteDirIs(dir);
    ParseChild(RemoteDir(dir), source[|source| - 1]);
    ParseValid(RemoteDir(dir));
    SubValid(Parse(RemoteDir(dir)), [source[|source| - 1]]);
  }

  lemma BaseIsName(dir: string, source: Path)
    requires source != [] && Tidy(Destination(dir, source))
    ensures Named(source[|source| - 1])
  {
    assert TidyName(Destination(dir, source)[|Destination(dir, source)| - 1]);
  }

  lemma TidyNormal(p: Path)
    requires Tidy(p)
    ensures Normal(p)
  {
  }

  lemma InWalk(order: seq<Path>, t: Nodes, i: nat)
    requires IsWalk(order, t) && i < |order|
    ensures order[i] in t
  {
    assert order[i] in order;
  }

  lemma TidyJoin(a: Path, b: Path)
    requires Tidy(a) && Tidy(b)
    ensures Tidy(a + b)
  {
  }

  /** What the next entry of the walk asks of the share, and what it leads to. */
  lemma EntryGoes(m: Mode, n: Nodes, local: Nodes, source: Path, dir: string, order: seq<Path>, i: nat, cur: Nodes)
    requires Ordinary(m, n, local, source, dir) && i < |order|
    requires Copied(n, Destination(dir, source), Below(local, source), order, i, cur)
    ensures var t, at, p := Below(local, source), Destination(dir, source), order[i];
      var r := Parse(RemoteDir(dir) + "/" + source[|source| - 1] + "/" + Show(p));
      && p in t && At(r) == at + p && at + p != [] && Tidy(at + p) && Closed(cur)
      && (t[p].Link? ==> Copied(n, at, t, order, i + 1, cur))
      && (!t[p].Link? && Fits(cur, at + p, t[p]) ==> Copied(n, at, t, order, i + 1, PutNode(cur, at + p, t[p])))
      && (!t[p].Link? && !Fits(cur, at + p, t[p]) ==> !Takes(n, at, t))
  {
    hide Target, Closed, WithDirs, Graft, Visited, Below, IsWalk, Parse, Fits, Takes, Tidy, IsTree;
    var t, at, p := Below(local, source), Destination(dir, source), order[i];
    InWalk(order, t, i);
    BaseIsName(dir, source);
    TidyNormal(p);
    TidyJoin(at, p);
    UploadPath(dir, source, p);
    if t[p].Link? {
      CopySkip(n, at, t, order, i, cur);
    } else {
      CopyReady(n, at, t, order, i, cur);
      if Fits(cur, at + p, t[p]) {
        CopyStep(n, at, t, order, i, cur);
      } else if Takes(n, at, t) {
        TakesPart(n, at, t, order[..i + 1]);
      }
    }
  }

  lemma StartCopy(m: Mode, n: Nodes, local: Nodes, source: Path, dir: string, order: seq<Path>)
    requires Ordinary(m, n, local, source, dir) && IsWalk(order, Below(local, source))
    ensures Copied(n, Destination(dir, source), Below(local, source), order, 0, n) && CanWrite(m)
  {
    OrdinaryCopyable(m, n, local, source, dir);
  }

  method UploadTree(s: RemoteShare, local: Disk, source: Path, dir: string, order: seq<Path>,
                    writes: map<Path, seq<Chunk>>) returns (ok: bool)
    requires source != [] && source in local.nodes
    requires IsWalk(order, Below(local.nodes, source)) && Pieces(writes, Below(local.nodes, source))
    modifies s
    ensures Ordinary(s.mode, old(s.disk.nodes), local.nodes, source, dir) ==>
              (ok <==> CanUpload(s.mode, old(s.disk.nodes), local.nodes, source, dir)) &&
              (ok ==> s.disk == old(s.disk).(nodes := Graft(old(s.disk.nodes), Destination(dir, source),
                                                            Regular(Below(local.nodes, source)))))
    ensures s.mode == ReadOnly ==> s.disk == old(s.disk)
  {
    hide Target, Valid, At, Destination, Closed, WithDirs, Covers, Graft, Visited, Below, IsWalk, Regular, Parse;
    hide Tidy, Fits, Takes, PutNode, Ordinary;
    var base := source[|source| - 1];
    ghost var t, at, d0 := Below(local.nodes, source), Destination(dir, source), s.disk;
    ghost var good := Ordinary(s.mode, d0.nodes, local.nodes, source, dir);
    if good { StartCopy(s.mode, d0.nodes, local.nodes, source, dir, order); }
    for i := 0 to |order|
      invariant good ==> Copied(d0.nodes, at, t, order, i, s.disk.nodes) && s.disk.meta == d0.meta
      invariant s.mode == ReadOnly ==> s.disk == d0
    {
      var p := order[i];
      InWalk(order, t, i);
      BelowHas(local.nodes, source, p);
      if good { EntryGoes(s.mode, d0.nodes, local.nodes, source, dir, order, i, s.disk.nodes); }
      ParseValid(RemoteDir(dir) + "/" + base + "/" + Show(p));
      ok := UploadEntry(s, local.nodes[source + p], Parse(RemoteDir(dir) + "/" + base + "/" + Show(p)),
                        if p in writes then writes[p] else []);
      if !ok { return; }
    }
    if good { CopyDone(d0.nodes, at, t, order, s.disk.nodes); }
    ok := true;
  }

  /**
    Uploading a file or a tree succeeds exactly when nothing of another kind is in the way, and then its directories
    and regular files are at the destination and nothing else has changed, whatever order the tree is walked in and
    however its files are split.
   */
  method Upload(s: RemoteShare, local: Disk, source: Path, dir: string, order: seq<Path>,
                writes: map<Path, seq<Chunk>>) returns (ok: bool)
    requires source != []
    requires source in local.nodes ==> IsWalk(order, Below(local.nodes, source))
    requires source in local.nodes ==> Pieces(writes, Below(local.nodes, source))
    modifies s
    ensures Ordinary(s.mode, old(s.disk.nodes), local.nodes, source, dir) ==>
              (ok <==> CanUpload(s.mode, old(s.disk.nodes), local.nodes, source, dir)) &&
              (ok ==> s.disk == old(s.disk).(nodes := Graft(old(s.disk.nodes), Destination(dir, source),
                                                            Regular(Below(local.nodes, source)))))
    ensures source !in local.nodes ==> !ok && s.disk == old(s.disk)
    ensures s.mode == ReadOnly ==> s.disk == old(s.disk)
  {
    hide Target, Valid, Closed, WithDirs, Covers, Graft, Visited, Below, IsWalk, Regular, Fits, Takes, PutNode, Tidy;
    if source !in local.nodes { return false; }
    BelowHas(local.nodes, source, []);
    assert source + [] == source;
    if local.nodes[source].Dir? {
      ok := UploadTree(s, local, source, dir, order, writes);
      return;
    }
    if local.nodes[source].Link? { return false; }
    ParseValid(RemoteDir(dir) + "/" + source[|source| - 1]);
    if Ordinary(s.mode, s.disk.nodes, local.nodes, source, dir) {
      BaseIsName(dir, source);
      UploadFilePath(dir, source);
      OrdinaryCopyable(s.mode, s.disk.nodes, local.nodes, source, dir);
      FileIsTree(s.disk.nodes, Destination(dir, source), Below(local.nodes, source));
    }
    ok := UploadFile(s, Parse(RemoteDir(dir) + "/" + source[|source| - 1]), local.nodes[source].data, writes[[]]);
  }
}
