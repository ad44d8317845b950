/**
  core/engine/fileshare/handlers.go: what the writing requests of a client leave on a share of one directory, said of
  the files themselves.
 */
module Commands {
  import opened Common
  import opened Paths
  import opened Files
  import opened Trees
  import opened Share

  /** Where a request path leads: trimmed, then cleaned below the root. */
  ghost function Asked(p: string): Path {
    Target(Trim(p))
  }

  lemma AskedIs(p: string)
    ensures Target(Rel(p)) == Asked(p)
  {
    RelIsNormalForm(p);
  }

  /** Nothing but these paths has changed. */
  ghost predicate SameBut(n: Nodes, n': Nodes, ps: set<Path>) {
    forall q :: q !in ps ==> (q in n <==> q in n') && (q in n ==> n'[q] == n[q])
  }

  /** A directory, or nothing, can be taken away; a directory only when nothing is in it. */
  ghost predicate Removable(n: Nodes, p: Path) {
    p in n && (n[p].Dir? ==> forall q :: q in n && p <= q ==> q == p)
  }

  /** Remove and Rmdir take exactly the named entry away. */
  lemma RemoveServed(d: Disk, path: string, target: string, meth: Method)
    requires meth == RemoveM || meth == RmdirM
    ensures var o, p := Serve(ReadWrite, DirStore, d, Cmd(meth, path, target, None)), Asked(path);
      && (o.status == Okay <==> Removable(d.nodes, p))
      && (o.status == Okay ==> p !in o.disk.nodes && SameBut(d.nodes, o.disk.nodes, {p}) && o.disk.meta == d.meta)
      && (o.status != Okay ==> o.disk == d)
      && (p !in d.nodes ==> o.status == NoSuchFile)
  {
    hide Target, Trim, Rel, Asked;
    AskedIs(path);
  }

  /** The name `to` is free for what is renamed: the same kind of entry, and no directory with something in it. */
  ghost predicate GivesWay(n: Nodes, from: Path, to: Path)
    requires from in n
  {
    to in n ==> n[to].Dir? == n[from].Dir? && Removable(n, to)
  }

  /** What was at and below `from` is now at and below `to`, where nothing else is. */
  ghost predicate Moves(n: Nodes, from: Path, to: Path, n': Nodes) {
    && Below(n', to) == Below(n, from)
    && Fresh(n', from)
    && forall q :: !(from <= q) && !(to <= q) ==> (q in n <==> q in n') && (q in n ==> n'[q] == n[q])
  }

  lemma {:induction false} NothingBelowFile(n: Nodes, at: Path, q: Path)
    requires Closed(n) && at != [] && at in n && !n[at].Dir? && q in n && at <= q
    ensures q == at
    decreases |q|
  {
    if |q| > |at| {
      assert at <= Parent(q);
      NothingBelowFile(n, at, Parent(q));
    }
  }

  lemma {:induction false} ClosedAbove(n: Nodes, at: Path, q: Path)
    requires Closed(n) && at != [] && q in n && at <= q
    ensures at in n
    decreases |q|
  {
    if |q| == |at| {
      assert q == at;
    } else {
      assert at <= Parent(q);
      ClosedAbove(n, at, Parent(q));
    }
  }

  lemma FreeBelow(d: Disk, from: Path, to: Path, q: Path)
    requires Closed(d.nodes) && Rename(d, from, to).1 == None && from != to && q in d.nodes && to <= q
    ensures q == to
  {
    ClosedAbove(d.nodes, to, q);
    if !d.nodes[to].Dir? { NothingBelowFile(d.nodes, to, q); }
  }

  lemma RenamedAt(d: Disk, from: Path, to: Path, q: Path)
    requires Closed(d.nodes) && Rename(d, from, to).1 == None && from != to
    ensures var n' := Rename(d, from, to).0.nodes;
      if to <= q then (q in n' <==> from + q[|to|..] in d.nodes) && (q in n' ==> n'[q] == d.nodes[from + q[|to|..]])
      else (q in n' <==> q in d.nodes && !(from <= q)) && (q in n' ==> n'[q] == d.nodes[q])
  {
    if to <= q {
      var p := from + q[|to|..];
      assert p[|from|..] == q[|to|..] && to + q[|to|..] == q;
      if p in d.nodes { assert from <= p && q in Moved(d.nodes.Keys, from, to); }
      if q in d.nodes { FreeBelow(d, from, to, q); }
    }
  }

  lemma Apart(d: Disk, from: Path, to: Path, q: Path)
    requires Closed(d.nodes) && Rename(d, from, to).1 == None && from != to
    ensures !(from <= q && to <= q)
  {
    if from <= q && to <= q {
      if |from| > |to| {
        assert from[..|to|] == q[..|to|] == to;
        FreeBelow(d, from, to, from);
      }
    }
  }

  lemma MovedBelow(d: Disk, from: Path, to: Path)
    requires Closed(d.nodes) && from != to && Rename(d, from, to).1 == None
    ensures Below(Rename(d, from, to).0.nodes, to) == Below(d.nodes, from)
  {
    hide Closed, Rename, Below;
    var n' := Rename(d, from, to).0.nodes;
    forall p ensures (p in Below(n', to) <==> p in Below(d.nodes, from)) &&
                     (p in Below(n', to) ==> Below(n', to)[p] == Below(d.nodes, from)[p])
    {
      BelowHas(n', to, p);
      BelowHas(d.nodes, from, p);
      RenamedAt(d, from, to, to + p);
      assert (to + p)[|to|..] == p;
    }
  }

  lemma GoneFrom(d: Disk, from: Path, to: Path)
    requires Closed(d.nodes) && from != to && Rename(d, from, to).1 == None
    ensures Fresh(Rename(d, from, to).0.nodes, from)
  {
    hide Closed, Rename;
    forall q ensures q in Rename(d, from, to).0.nodes ==> !(from <= q) {
      RenamedAt(d, from, to, q);
      Apart(d, from, to, q);
    }
  }

  lemma MovesOver(d: Disk, from: Path, to: Path)
    requires Closed(d.nodes) && from != to && Rename(d, from, to).1 == None
    ensures Moves(d.nodes, from, to, Rename(d, from, to).0.nodes)
  {
    hide Closed, Rename, Below, Fresh;
    MovedBelow(d, from, to);
    GoneFrom(d, from, to);
    var n' := Rename(d, from, to).0.nodes;
    forall q | !(from <= q) && !(to <= q)
      ensures (q in d.nodes <==> q in n') && (q in d.nodes ==> n'[q] == d.nodes[q])
    {
      RenamedAt(d, from, to, q);
    }
  }

  lemma RenameMoves(d: Disk, from: Path, to: Path)
    requires Closed(d.nodes) && from != to
    ensures var r := Rename(d, from, to);
      && (r.1 == None <==>
            from in d.nodes && to != [] && IsDir(d, Parent(to)) && !(from <= to) && GivesWay(d.nodes, from, to))
      && (r.1 == None ==> Moves(d.nodes, from, to, r.0.nodes) && r.0.meta == d.meta)
      && (r.1 != None ==> r.0 == d)
  {
    var r := Rename(d, from, to);
    if from in d.nodes && to in d.nodes && d.nodes[to].Dir? {
      assert EmptyDir(d, to) <==> Removable(d.nodes, to);
    }
    if r.1 == None {
      MovesOver(d, from, to);
    }
  }

  /** Rename moves the entry with all it contains, and nothing else changes. */
  lemma RenameServed(d: Disk, path: string, target: string)
    requires Closed(d.nodes) && Asked(path) != Asked(target)
    ensures var o := Serve(ReadWrite, DirStore, d, Cmd(RenameM, path, target, None));
      var from, to := Asked(path), Asked(target);
      && (o.status == Okay <==>
            from in d.nodes && to != [] && IsDir(d, Parent(to)) && !(from <= to) && GivesWay(d.nodes, from, to))
      && (o.status == Okay ==> Moves(d.nodes, from, to, o.disk.nodes) && o.disk.meta == d.meta)
      && (o.status != Okay ==> o.disk == d)
  {
    hide Target, Trim, Rel, Asked, Rename, Moves, GivesWay, Closed;
    AskedIs(path);
    AskedIs(target);
    RenameMoves(d, Asked(path), Asked(target));
  }

  lemma RenameToItself(d: Disk, path: string, target: string)
    requires Asked(path) == Asked(target)
    ensures var o, p := Serve(ReadWrite, DirStore, d, Cmd(RenameM, path, target, None)), Asked(path);
      o.disk == d && (o.status == Okay <==> p in d.nodes && p != [] && IsDir(d, Parent(p)))
  {
    hide Target, Trim, Rel, Asked;
    AskedIs(path);
    AskedIs(target);
  }

  /** A symbolic link keeps the text it was given; it is not cleaned. */
  lemma SymlinkServed(d: Disk, path: string, target: string)
    ensures var o, p := Serve(ReadWrite, DirStore, d, Cmd(SymlinkM, path, target, None)), Asked(path);
      && (o.status == Okay <==> p != [] && p !in d.nodes && IsDir(d, Parent(p)))
      && (o.status == Okay ==>
            p in o.disk.nodes && o.disk.nodes[p] == Link(target) && SameBut(d.nodes, o.disk.nodes, {p}))
      && (o.status != Okay ==> o.disk == d)
  {
    hide Target, Trim, Rel, Asked;
    AskedIs(path);
  }

  /** A link is a further name, given by the request's path, for what its target names. */
  lemma LinkServed(d: Disk, path: string, target: string)
    ensures var o, from, p := Serve(ReadWrite, DirStore, d, Cmd(LinkM, path, target, None)), Asked(target), Asked(path);
      && (o.status == Okay <==>
            from in d.nodes && !d.nodes[from].Dir? && p != [] && p !in d.nodes && IsDir(d, Parent(p)))
      && (o.status == Okay ==>
            p in o.disk.nodes && o.disk.nodes[p] == d.nodes[from] && SameBut(d.nodes, o.disk.nodes, {p}))
      && (o.status != Okay ==> o.disk == d)
  {
    hide Target, Trim, Rel, Asked;
    AskedIs(path);
    AskedIs(target);
  }

  // ---- attributes ----

  /** The contents cut off, or filled up with zeros. */
  ghost predicate Resized(before: seq<Byte>, after: seq<Byte>, size: nat) {
    && |after| == size
    && forall i :: 0 <= i < size ==> after[i] == if i < |before| then before[i] else 0
  }

  /** The mode set at p, if one is given and something is there. */
  ghost predicate ModeSet(d: Disk, p: Path, mode: Option<int>, d': Disk) {
    && d'.nodes == d.nodes && (forall q :: q != p ==> MetaOf(d', q) == MetaOf(d, q))
    && (!Exists(d, p) ==> d' == d)
    && (Exists(d, p) ==> MetaOf(d', p) == if mode.Some? then MetaOf(d, p).(mode := mode) else MetaOf(d, p))
  }

  /** Likewise the time of the last change. */
  ghost predicate TimeSet(d: Disk, p: Path, mtime: Option<int>, d': Disk) {
    && d'.nodes == d.nodes && (forall q :: q != p ==> MetaOf(d', q) == MetaOf(d, q))
    && (!Exists(d, p) ==> d' == d)
    && (Exists(d, p) ==> MetaOf(d', p) == if mtime.Some? then MetaOf(d, p).(mtime := mtime) else MetaOf(d, p))
  }

  /** And the size of a file. */
  ghost predicate SizeSet(d: Disk, p: Path, size: Option<nat>, d': Disk) {
    && d'.meta == d.meta && SameBut(d.nodes, d'.nodes, {p}) && (p in d.nodes <==> p in d'.nodes)
    && (!Exists(d, p) ==> d' == d)
    && (p in d.nodes ==>
          if p != [] && d.nodes[p].File? && size.Some? then
            d'.nodes[p].File? && Resized(d.nodes[p].data, d'.nodes[p].data, size.value)
          else d'.nodes[p] == d.nodes[p])
  }

  function Chmodded(d: Disk, p: Path, mode: Option<int>): Disk {
    if mode.Some? then Chmod(d, p, mode.value).0 else d
  }

  function Timed(d: Disk, p: Path, mtime: Option<int>): Disk {
    if mtime.Some? then Chtimes(d, p, mtime.value).0 else d
  }

  const RESIZE := Flags(false, true, false, false, false, false)

  function Sized(d: Disk, p: Path, size: Option<nat>): Disk {
    if size.Some? && OpenFile(d, p, RESIZE).1.None? then Truncate(d, p, size.value) else d
  }

  lemma SizedIs(d: Disk, p: Path, size: Option<nat>)
    ensures SizeSet(d, p, size, Sized(d, p, size))
  {
  }

  lemma SetstatSteps(m: Mode, d: Disk, path: string, target: string, a: Attrs)
    requires m != ReadOnly
    ensures var o, p := Serve(m, DirStore, d, Cmd(SetstatM, path, target, Some(a))), Asked(path);
      && o.status == Okay
      && o.disk == Sized(Timed(Chmodded(d, p, a.mode), p, a.mtime), p, if m == WriteOnly then None else a.size)
  {
    hide Target, Trim, Rel, Asked, MetaOf;
    AskedIs(path);
  }

  /**
    Setting attributes never fails. On what is there it sets the mode and the times it is given, and the size of a
    file unless the share is a drop box; nothing else changes.
   */
  lemma SetstatServed(m: Mode, d: Disk, path: string, target: string, a: Attrs) returns (d1: Disk, d2: Disk)
    requires m != ReadOnly
    ensures var o, p := Serve(m, DirStore, d, Cmd(SetstatM, path, target, Some(a))), Asked(path);
      && o.status == Okay
      && ModeSet(d, p, a.mode, d1) && TimeSet(d1, p, a.mtime, d2)
      && SizeSet(d2, p, if m == WriteOnly then None else a.size, o.disk)
  {
    hide Serve, Asked, OpenFile, Truncate;
    var p := Asked(path);
    SetstatSteps(m, d, path, target, a);
    d1 := Chmodded(d, p, a.mode);
    d2 := Timed(d1, p, a.mtime);
    SizedIs(d2, p, if m == WriteOnly then None else a.size);
  }

  lemma NoAttributes(m: Mode, d: Disk, path: string, target: string)
    requires m != ReadOnly
    ensures Serve(m, DirStore, d, Cmd(SetstatM, path, target, None)).disk == d
    ensures Serve(m, DirStore, d, Cmd(SetstatM, path, target, None)).status == Okay
  {
  }

  // ---- files opened for writing ----

  /** The contents after pieces were written one after the other. */
  function Written(data: seq<Byte>, chunks: seq<Chunk>): seq<Byte>
    decreases |chunks|
  {
    if chunks == [] then data else Written(Splice(data, chunks[0].off, chunks[0].data), chunks[1..])
  }

  lemma {:induction false} WritesTo(d: Disk, p: Path, chunks: seq<Chunk>)
    requires p in d.nodes && d.nodes[p].File?
    ensures WriteAll(d, p, chunks).nodes == d.nodes[p := File(Written(d.nodes[p].data, chunks))]
    ensures WriteAll(d, p, chunks).meta == d.meta
    decreases |chunks|
  {
    if chunks == [] {
      assert d.nodes[p := d.nodes[p]] == d.nodes;
    } else {
      var d1 := Put(d, p, File(Splice(d.nodes[p].data, chunks[0].off, chunks[0].data)));
      WritesTo(d1, p, chunks[1..]);
    }
  }

  /**
    Which opens for writing succeed, by their flags, and what the file then is. A handle opened for appending takes
    no positioned writes.
   */
  lemma PutServedByFlags(m: Mode, d: Disk, path: string, f: Flags, chunks: seq<Chunk>)
    requires m != ReadOnly
    ensures var o, p := Serve(m, DirStore, d, PutReq(path, f, chunks)), Asked(path);
      && (o.status == Okay <==>
            p != [] &&
            if p in d.nodes then d.nodes[p].File? && !(f.create && f.excl) else f.create && IsDir(d, Parent(p)))
      && (o.status != Okay ==> o.disk == d)
      && (o.status == Okay ==>
            && SameBut(d.nodes, o.disk.nodes, {p}) && p in o.disk.nodes && o.disk.meta == d.meta
            && var before := if p in d.nodes && !f.trunc then d.nodes[p].data else [];
               o.disk.nodes[p] == File(if f.append then before else Written(before, chunks)))
  {
    hide Target, Trim, Rel, Asked, WriteAll;
    AskedIs(path);
    var p := Asked(path);
    var r := OpenFile(d, p, f.(write := true));
    if r.1 == None { WritesTo(r.0, p, chunks); }
  }

  /** Opening for both needs a share that allows both; the flags for exclusive creation and appending are ignored. */
  lemma OpenServedByFlags(m: Mode, d: Disk, path: string, f: Flags, chunks: seq<Chunk>)
    ensures var o, q := Serve(m, DirStore, d, OpenReq(path, f, chunks)),
                        Serve(ReadWrite, DirStore, d, PutReq(path, f.(excl := false, append := false), chunks));
      if m == ReadWrite then o.status == q.status && o.disk == q.disk else o.status == Denied && o.disk == d
  {
    hide Target, Trim, Rel, WriteAll;
  }
}
