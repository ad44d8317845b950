/**
  core/engine/fileshare/backend.go: what clients of a hand-picked share get back. Every request is answered with what
  lies behind the picked path its first name stands for, so the whole share reads like one directory.
 */
module PickedShare {
  import opened Common
  import opened Paths
  import opened Backend
  import opened Files
  import opened Trees
  import opened Share

  /** The request asks for `sub` inside the entry, after white space is trimmed and the path is cleaned. */
  ghost predicate AsksFor(p: string, name: string, sub: Path) {
    Target(Trim(p)) == [name] + sub
  }

  /** Names that do not end in white space arrive as they are written. */
  lemma TidyAsks(name: string, sub: Path)
    requires Tidy([name] + sub)
    ensures AsksFor("/" + Join([name] + sub), name, sub)
  {
    hide Target, Trim, Join, Rel;
    var cs := [name] + sub;
    assert TidyName(cs[|cs| - 1]);
    assert Normal(cs) by { forall i | 0 <= i < |cs| ensures Named(cs[i]) { assert TidyName(cs[i]); } }
    RelOfAbsoluteIff(cs);
  }

  lemma AskedTarget(p: string, name: string, sub: Path)
    requires AsksFor(p, name, sub)
    ensures Target(Rel(p)) == [name] + sub
  {
    RelIsNormalForm(p);
  }

  lemma Asked(byName: map<string, Item>, p: string, name: string, sub: Path)
    requires AsksFor(p, name, sub)
    ensures Locate(byName, Rel(p)) == if name !in byName then None else Some((byName[name], Show(sub)))
    ensures Target(Show(sub)) == sub && (Show(sub) == "." <==> sub == []) && !IsRoot(Rel(p))
  {
    hide Target, Trim, Rel, Locate, Split, Join;
    var cs := [name] + sub;
    assert cs[1..] == sub && cs != [];
    LocateOfRequest(byName, p);
    RelIsNormalForm(p);
    assert Normal(cs);
    assert Normal(sub) by { forall i | 0 <= i < |sub| ensures Named(sub[i]) { assert cs[i + 1] == sub[i]; } }
    TargetOfShown(sub);
    JoinOfNormal(cs);
    JoinOfNormal(sub);
    TargetOfShown([]);
    TargetOfShown(cs);
  }

  lemma RootAsked(byName: map<string, Item>, p: string)
    requires Target(Trim(p)) == []
    ensures Rel(p) == "." && Locate(byName, Rel(p)) == None
  {
    hide Target, Trim;
    RelIsNormalForm(p);
  }

  // ---- single requests ----

  lemma NamedIn(b: PathsBackend, e: Item)
    requires Indexed(b.entries, b.byName, b.roots) && e in b.entries
    ensures e.name in b.byName && b.byName[e.name] == e
  {
  }

  lemma NotOffered(b: PathsBackend, name: string)
    requires Indexed(b.entries, b.byName, b.roots) && forall e :: e in b.entries ==> e.name != name
    ensures name !in b.byName
  {
  }

  /** Fetching gives the file behind the picked path, and nothing else can be fetched. */
  lemma GetPicked(m: Mode, b: PathsBackend, d: Disk, p: string, e: Item, sub: Path)
    requires Indexed(b.entries, b.byName, b.roots) && e in b.entries && AsksFor(p, e.name, sub)
    ensures var o, host := Serve(m, PickStore(b.byName), d, Get(p)), Target(e.path) + sub;
      && o.disk == d
      && (o.status == Okay <==> CanRead(m) && (e.isDir || sub == []) && !IsDir(d, host) &&
                                host in d.nodes && d.nodes[host].File?)
      && (o.status == Okay ==> o.answer == Opened(host))
      && (CanRead(m) && IsDir(d, host) && (e.isDir || sub == []) ==> o.status == Failure)
      && (CanRead(m) && (!Exists(d, host) || !(e.isDir || sub == [])) ==> o.status == NoSuchFile)
  {
    hide Target, Trim, Rel, Locate, Indexed, AsksFor, Show;
    NamedIn(b, e);
    Asked(b.byName, p, e.name, sub);
  }

  /** Asking about an entry or something inside it gives what is there. Links are not told apart from their targets. */
  lemma StatPickedEntry(m: Mode, b: PathsBackend, d: Disk, p: string, e: Item, sub: Path)
    requires Indexed(b.entries, b.byName, b.roots) && e in b.entries && AsksFor(p, e.name, sub)
    ensures var o, host := Serve(m, PickStore(b.byName), d, Stat(p)), Target(e.path) + sub;
      && o.disk == d
      && (o.status == Okay <==> Exists(d, host) && (e.isDir || sub == []))
      && (o.status == Okay ==> o.answer == Info(if IsDir(d, host) then Dir else d.nodes[host]))
      && (o.status != Okay ==> o.status == NoSuchFile)
    ensures Serve(m, PickStore(b.byName), d, Lstat(p)).answer == Serve(m, PickStore(b.byName), d, Stat(p)).answer
    ensures Serve(m, PickStore(b.byName), d, Lstat(p)).status == Serve(m, PickStore(b.byName), d, Stat(p)).status
  {
    hide Target, Trim, Rel, Locate, Indexed, AsksFor, Show;
    NamedIn(b, e);
    Asked(b.byName, p, e.name, sub);
  }

  /** Listing a directory inside a picked directory gives its names. */
  lemma ListPicked(m: Mode, b: PathsBackend, d: Disk, p: string, e: Item, sub: Path)
    requires Indexed(b.entries, b.byName, b.roots) && e in b.entries && AsksFor(p, e.name, sub)
    ensures var o, host := Serve(m, PickStore(b.byName), d, List(p)), Target(e.path) + sub;
      && o.disk == d
      && (o.status == Okay <==> CanRead(m) && e.isDir && IsDir(d, host))
      && (o.status == Okay ==> o.answer.Infos? && forall x :: x in o.answer.names <==> host + [x] in d.nodes)
      && (CanRead(m) && o.status != Okay ==> o.status == NoSuchFile)
  {
    hide Target, Trim, Rel, Locate, Indexed, AsksFor, Show;
    NamedIn(b, e);
    Asked(b.byName, p, e.name, sub);
    var host := Target(e.path) + sub;
    forall x ensures x in Children(d, host) <==> host + [x] in d.nodes {
      if x in Children(d, host) {
        var q :| q in d.nodes && |q| == |host| + 1 && host <= q && q[|host|] == x;
        assert q == host + [x];
      }
      if host + [x] in d.nodes { assert (host + [x])[|host|] == x; }
    }
  }

  /** Nothing is found under a name that is not on offer. */
  lemma OtherNamesMissing(m: Mode, b: PathsBackend, d: Disk, p: string, name: string, sub: Path)
    requires Indexed(b.entries, b.byName, b.roots) && AsksFor(p, name, sub)
    requires forall e :: e in b.entries ==> e.name != name
    ensures Serve(m, PickStore(b.byName), d, Stat(p)).status == NoSuchFile
    ensures Serve(m, PickStore(b.byName), d, Lstat(p)).status == NoSuchFile
    ensures CanRead(m) ==> Serve(m, PickStore(b.byName), d, Get(p)).status == NoSuchFile
    ensures CanRead(m) ==> Serve(m, PickStore(b.byName), d, List(p)).status == NoSuchFile
  {
    hide Target, Trim, Rel, Locate, Indexed, AsksFor, Show;
    NotOffered(b, name);
    Asked(b.byName, p, name, sub);
  }

  /** The root is a directory of the entries: the directories, and the files that are still there. */
  lemma RootOfPicks(m: Mode, b: PathsBackend, d: Disk, p: string)
    requires Indexed(b.entries, b.byName, b.roots) && Target(Trim(p)) == []
    ensures Serve(m, PickStore(b.byName), d, Stat(p)).answer == Info(Dir)
    ensures CanRead(m) ==> Serve(m, PickStore(b.byName), d, Get(p)).status == NoSuchFile
    ensures CanRead(m) ==>
              var o := Serve(m, PickStore(b.byName), d, List(p));
              && o.status == Okay && o.answer.Infos?
              && forall x :: x in o.answer.names <==>
                   exists e :: e in b.entries && e.name == x && (e.isDir || Exists(d, Target(e.path)))
  {
    hide Target, Trim, Rel, Locate;
    RootAsked(b.byName, p);
    forall x ensures x in b.byName ==> b.byName[x] in b.entries && b.byName[x].name == x {}
  }

  // ---- the share as one directory ----

  /** The picked paths are still there, and what was a directory when it was picked still is one. */
  ghost predicate StillThere(b: PathsBackend, d: Disk) {
    forall e :: e in b.entries ==> Exists(d, Target(e.path)) && (IsDir(d, Target(e.path)) <==> e.isDir)
  }

  function NodeOf(d: Disk, p: Path): Node {
    if p != [] && p in d.nodes then d.nodes[p] else Dir
  }

  /** The paths of one tree: every entry under its name, and below a picked directory all it contains. */
  ghost function ShownPaths(b: PathsBackend, d: Disk): set<Path> {
    (set e, q | e in b.entries && q in d.nodes && Target(e.path) <= q && (e.isDir || q == Target(e.path)) ::
       [e.name] + q[|Target(e.path)|..])
    + set e | e in b.entries && Target(e.path) == [] :: [e.name]
  }

  ghost function Shown(b: PathsBackend, d: Disk): Nodes {
    map p | p in ShownPaths(b, d) && p != [] && p[0] in b.byName :: NodeOf(d, Target(b.byName[p[0]].path) + p[1..])
  }

  lemma ShownFrom(b: PathsBackend, d: Disk, e: Item, sub: Path)
    requires Indexed(b.entries, b.byName, b.roots) && e in b.entries && [e.name] + sub in ShownPaths(b, d)
    ensures Exists(d, Target(e.path) + sub) && (e.isDir || sub == [])
  {
    hide Target;
    var p := [e.name] + sub;
    NamedIn(b, e);
    if f, q :| f in b.entries && q in d.nodes && Target(f.path) <= q && (f.isDir || q == Target(f.path)) &&
               p == [f.name] + q[|Target(f.path)|..] {
      NamedIn(b, f);
      assert p[0] == f.name && p[1..] == q[|Target(f.path)|..] && p[1..] == sub;
      assert q == Target(f.path) + sub;
    } else {
      var f :| f in b.entries && Target(f.path) == [] && p == [f.name];
      NamedIn(b, f);
      assert p[0] == f.name && p[1..] == [] && p[1..] == sub;
    }
  }

  lemma ShownIff(b: PathsBackend, d: Disk, e: Item, sub: Path)
    requires Indexed(b.entries, b.byName, b.roots) && e in b.entries
    ensures var host := Target(e.path) + sub; var p := [e.name] + sub;
      && (p in Shown(b, d) <==> Exists(d, host) && (e.isDir || sub == []))
      && (p in Shown(b, d) ==> Shown(b, d)[p] == NodeOf(d, host))
  {
    hide Target;
    var at, p := Target(e.path), [e.name] + sub;
    NamedIn(b, e);
    assert p[1..] == sub;
    if Exists(d, at + sub) && (e.isDir || sub == []) {
      if at + sub == [] {
        assert p == [e.name];
      } else {
        assert (at + sub)[|at|..] == sub && at <= at + sub;
      }
      assert p in ShownPaths(b, d);
    }
    if p in ShownPaths(b, d) { ShownFrom(b, d, e, sub); }
  }

  lemma ShownNamed(b: PathsBackend, d: Disk, p: Path)
    requires Indexed(b.entries, b.byName, b.roots) && p in Shown(b, d)
    ensures p != [] && exists e :: e in b.entries && e.name == p[0]
  {
  }

  lemma DirShown(b: PathsBackend, d: Disk, e: Item, sub: Path)
    requires Indexed(b.entries, b.byName, b.roots) && e in b.entries
    ensures var v := Disk(Shown(b, d), map[]);
      IsDir(v, [e.name] + sub) <==> IsDir(d, Target(e.path) + sub) && (e.isDir || sub == [])
  {
    hide Target, Shown, Indexed;
    ShownIff(b, d, e, sub);
  }

  lemma ChildIff(d: Disk, at: Path, x: string)
    ensures x in Children(d, at) <==> at + [x] in d.nodes
  {
    if x in Children(d, at) {
      var q :| q in d.nodes && |q| == |at| + 1 && at <= q && q[|at|] == x;
      assert q == at + [x];
    }
    if at + [x] in d.nodes { assert (at + [x])[|at|] == x; }
  }

  lemma ChildrenShown(b: PathsBackend, d: Disk, e: Item, sub: Path)
    requires Indexed(b.entries, b.byName, b.roots) && e in b.entries && e.isDir
    ensures Children(Disk(Shown(b, d), map[]), [e.name] + sub) == Children(d, Target(e.path) + sub)
  {
    hide Target, Shown, Indexed, Children;
    var v, at, host := Disk(Shown(b, d), map[]), [e.name] + sub, Target(e.path) + sub;
    forall x ensures x in Children(v, at) <==> x in Children(d, host) {
      ChildIff(v, at, x);
      ChildIff(d, host, x);
      ShownIff(b, d, e, sub + [x]);
      assert at + [x] == [e.name] + (sub + [x]) && host + [x] == Target(e.path) + (sub + [x]);
    }
  }

  /** The two answers tell a client the same; where a file is opened it is the same file. */
  ghost predicate SameReply(o: Outcome, d: Disk, v: Outcome, shown: Disk) {
    && o.status == v.status
    && (o.answer.Opened? <==> v.answer.Opened?)
    && (o.answer.Opened? && o.status == Okay ==>
          && o.answer.at in d.nodes && v.answer.at in shown.nodes
          && d.nodes[o.answer.at] == shown.nodes[v.answer.at])
    && (o.status == Okay && !o.answer.Opened? ==> o.answer == v.answer)
  }

  lemma EntrySame(m: Mode, b: PathsBackend, d: Disk, p: string, e: Item, sub: Path)
    requires Indexed(b.entries, b.byName, b.roots) && StillThere(b, d) && e in b.entries && AsksFor(p, e.name, sub)
    ensures var s, v := PickStore(b.byName), Disk(Shown(b, d), map[]);
      && SameReply(Serve(m, s, d, Stat(p)), d, Serve(m, DirStore, v, Stat(p)), v)
      && SameReply(Serve(m, s, d, List(p)), d, Serve(m, DirStore, v, List(p)), v)
      && SameReply(Serve(m, s, d, Get(p)), d, Serve(m, DirStore, v, Get(p)), v)
  {
    hide Target, Trim, Rel, Locate, Indexed, AsksFor, Show, Shown, Children;
    AskedTarget(p, e.name, sub);
    NamedIn(b, e);
    Asked(b.byName, p, e.name, sub);
    ShownIff(b, d, e, sub);
    DirShown(b, d, e, sub);
    if e.isDir { ChildrenShown(b, d, e, sub); }
    assert Target(e.path) + [] == Target(e.path);
  }

  lemma OtherSame(m: Mode, b: PathsBackend, d: Disk, p: string, name: string, sub: Path)
    requires Indexed(b.entries, b.byName, b.roots) && AsksFor(p, name, sub)
    requires forall e :: e in b.entries ==> e.name != name
    ensures var s, v := PickStore(b.byName), Disk(Shown(b, d), map[]);
      && SameReply(Serve(m, s, d, Stat(p)), d, Serve(m, DirStore, v, Stat(p)), v)
      && SameReply(Serve(m, s, d, List(p)), d, Serve(m, DirStore, v, List(p)), v)
      && SameReply(Serve(m, s, d, Get(p)), d, Serve(m, DirStore, v, Get(p)), v)
  {
    hide Target, Trim, Rel, Locate, Indexed, AsksFor, Show, Shown, Children;
    AskedTarget(p, name, sub);
    NotOffered(b, name);
    Asked(b.byName, p, name, sub);
    if [name] + sub in Shown(b, d) { ShownNamed(b, d, [name] + sub); }
  }

  lemma RootNamesShown(b: PathsBackend, d: Disk)
    requires Indexed(b.entries, b.byName, b.roots) && StillThere(b, d)
    ensures Children(Disk(Shown(b, d), map[]), []) ==
            set n | n in b.byName && (b.byName[n].isDir || Exists(d, Target(b.byName[n].path)))
  {
    hide Target, Shown, Children;
    var v := Disk(Shown(b, d), map[]);
    forall x
      ensures x in Children(v, []) <==> x in b.byName && (b.byName[x].isDir || Exists(d, Target(b.byName[x].path)))
    {
      ChildIff(v, [], x);
      assert [] + [x] == [x];
      if x in b.byName {
        ShownIff(b, d, b.byName[x], []);
        assert [x] + [] == [x] && Target(b.byName[x].path) + [] == Target(b.byName[x].path);
      }
      if [x] in Shown(b, d) { ShownNamed(b, d, [x]); }
    }
  }

  lemma RootSame(m: Mode, b: PathsBackend, d: Disk, p: string)
    requires Indexed(b.entries, b.byName, b.roots) && StillThere(b, d) && Target(Trim(p)) == []
    ensures var s, v := PickStore(b.byName), Disk(Shown(b, d), map[]);
      && SameReply(Serve(m, s, d, Stat(p)), d, Serve(m, DirStore, v, Stat(p)), v)
      && SameReply(Serve(m, s, d, List(p)), d, Serve(m, DirStore, v, List(p)), v)
  {
    var s, v := PickStore(b.byName), Disk(Shown(b, d), map[]);
    hide Target, Trim, Rel, Locate, Shown, Children;
    RelIsNormalForm(p);
    RootAsked(b.byName, p);
    RootNamesShown(b, d);
  }

  /**
    While the picked paths stay in place, a client cannot tell the share from one directory that holds them under
    their names: for every request path, asking, listing and fetching are answered as that directory would answer.
    Only fetching the root itself is refused with another status.
   */
  lemma LooksLikeOneDirectory(m: Mode, b: PathsBackend, d: Disk, p: string)
    requires Indexed(b.entries, b.byName, b.roots) && StillThere(b, d)
    ensures var s, v := PickStore(b.byName), Disk(Shown(b, d), map[]);
      && SameReply(Serve(m, s, d, Stat(p)), d, Serve(m, DirStore, v, Stat(p)), v)
      && SameReply(Serve(m, s, d, List(p)), d, Serve(m, DirStore, v, List(p)), v)
      && (Target(Trim(p)) != [] ==> SameReply(Serve(m, s, d, Get(p)), d, Serve(m, DirStore, v, Get(p)), v))
  {
    hide Serve, SameReply, Target, Trim, Indexed, StillThere, Shown;
    var cs := Target(Trim(p));
    if cs == [] {
      RootSame(m, b, d, p);
    } else {
      assert cs == [cs[0]] + cs[1..];
      if e :| e in b.entries && e.name == cs[0] {
        EntrySame(m, b, d, p, e, cs[1..]);
      } else {
        OtherSame(m, b, d, p, cs[0], cs[1..]);
      }
    }
  }
}
