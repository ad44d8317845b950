/** Whole shares and round trips: downloading everything, and getting back what was uploaded. */
module Backup {
  import opened Common
  import opened Paths
  import opened Files
  import opened Trees
  import opened ClientPaths
  import opened Share
  import opened Requests
  import opened Uploads
  import opened Downloads

  // ---- top-level entry by top-level entry ----

  /** The copied part of what lies in or below some top-level entries. */
  function TopPart(n: Nodes, names: seq<string>): Nodes {
    map q | q in n && q != [] && q[0] in names && !n[q].Link? :: n[q]
  }

  /** The destination after some top-level entries have been copied into `dir`. */
  function Filled(l: Nodes, dir: Path, n: Nodes, names: seq<string>): Nodes {
    if names == [] then l else WithDirs(l, dir) + Shifted(dir, TopPart(n, names))
  }

  /** Ordinary names and no link at the top of the share. */
  ghost predicate OrdinaryShare(n: Nodes, l: Nodes) {
    && Closed(n) && TidyTree(n) && Closed(l)
    && forall q :: q in n && |q| == 1 ==> !n[q].Link?
  }

  /** The local directory takes these top-level entries. */
  ghost predicate TakesTop(l: Nodes, dir: Path, n: Nodes, names: seq<string>) {
    names == [] || (DirsOk(l, dir) && Suits(l, dir, TopPart(n, names)))
  }

  lemma BelowNamed(n: Nodes, name: string, p: Path)
    requires p != []
    ensures p[0] == name && p in n <==> [name] <= p && p[1..] in Below(n, [name])
    ensures p[0] == name && p in n ==> Below(n, [name])[p[1..]] == n[p]
  {
    assert p[0] == name ==> [name] + p[1..] == p;
    BelowHas(n, [name], p[1..]);
  }

  lemma TopAt(dir: Path, n: Nodes, names: seq<string>, name: string, q: Path)
    ensures var a, b, c := Shifted(dir, TopPart(n, names + [name])), Shifted(dir, TopPart(n, names)),
                           Shifted(dir + [name], Regular(Below(n, [name])));
      && (q in a <==> q in b || q in c)
      && (q in c ==> a[q] == c[q])
      && (q in b ==> a[q] == b[q])
  {
    hide Shifted, Below;
    ShiftedIff(dir, TopPart(n, names + [name]), q);
    ShiftedIff(dir, TopPart(n, names), q);
    ShiftedIff(dir + [name], Regular(Below(n, [name])), q);
    if dir <= q && |q| > |dir| {
      var p := q[|dir|..];
      BelowNamed(n, name, p);
      assert q[|dir + [name]|..] == p[1..];
      assert dir + [name] <= q <==> p[0] == name;
    }
  }

  lemma ShiftedTop(dir: Path, n: Nodes, names: seq<string>, name: string)
    ensures Shifted(dir, TopPart(n, names + [name])) ==
            Shifted(dir, TopPart(n, names)) + Shifted(dir + [name], Regular(Below(n, [name])))
  {
    hide Shifted, TopPart, Regular, Below;
    forall q { TopAt(dir, n, names, name, q); }
  }

  lemma {:induction false} FirstIsThere(n: Nodes, q: Path)
    requires Closed(n) && q in n
    ensures q != [] && [q[0]] in n
    decreases |q|
  {
    if |q| > 1 { FirstIsThere(n, Parent(q)); } else { assert q == [q[0]]; }
  }

  lemma TopIsAll(d: Disk, names: seq<string>)
    requires Closed(d.nodes) && forall x :: x in names <==> x in Children(d, [])
    ensures TopPart(d.nodes, names) == Regular(d.nodes)
  {
    forall q | q in d.nodes ensures q != [] && q[0] in names {
      FirstIsThere(d.nodes, q);
      assert [q[0]] in d.nodes && [q[0]][0] == q[0];
    }
  }

  lemma ShiftedNone(dir: Path)
    ensures Shifted(dir, map[]) == map[]
  {
  }

  lemma FilledDirs(l: Nodes, dir: Path, n: Nodes, names: seq<string>)
    requires Closed(l) && (names == [] || DirsOk(l, dir)) && Closed(Filled(l, dir, n, names))
    ensures var cur := Filled(l, dir, n, names);
      && (DirsOk(cur, dir) <==> DirsOk(l, dir))
      && WithDirs(cur, dir) == WithDirs(l, dir) + Shifted(dir, TopPart(n, names))
  {
    hide Closed, DirsOk, WithDirs, Shifted;
    var cur := Filled(l, dir, n, names);
    if names == [] {
      assert TopPart(n, names) == map[];
      ShiftedNone(dir);
    } else {
      ClosedWithDirs(l, dir);
      ShiftedIff(dir, TopPart(n, names), dir);
      assert dir[|dir|..] == [];
      DirsAbove(cur, dir);
      WithDirsPresent(cur, dir);
    }
  }

  /** What was copied before is nowhere below the next top-level entry. */
  lemma FilledThere(l: Nodes, dir: Path, n: Nodes, names: seq<string>, name: string, p: Path)
    requires name !in names
    ensures var cur, q := Filled(l, dir, n, names), dir + [name] + p;
      (q in cur <==> q in l) && (q in l ==> cur[q] == l[q])
  {
    hide Shifted;
    var q := dir + [name] + p;
    assert q == dir + ([name] + p) && q[|dir|..] == [name] + p;
    ShiftedIff(dir, TopPart(n, names), q);
    if q in Prefixes(dir) { PrefixIsShort(dir, q); }
  }

  lemma FilledSuits(l: Nodes, dir: Path, n: Nodes, names: seq<string>, name: string)
    requires name !in names
    ensures Suits(Filled(l, dir, n, names), dir + [name], Below(n, [name])) <==> Suits(l, dir + [name], Below(n, [name]))
  {
    hide Filled, Below;
    forall p { FilledThere(l, dir, n, names, name, p); }
  }

  lemma SuitsFewer(l: Nodes, dir: Path, n: Nodes, names: seq<string>, name: string)
    requires Suits(l, dir, TopPart(n, names + [name]))
    ensures Suits(l, dir, TopPart(n, names))
  {
    forall p | p in TopPart(n, names) && dir + p in l
      ensures l[dir + p].Dir? == n[p].Dir? && l[dir + p].File? == n[p].File?
    {
      assert p in TopPart(n, names + [name]);
    }
  }

  lemma SuitsOne(l: Nodes, dir: Path, n: Nodes, names: seq<string>, name: string)
    requires Suits(l, dir, TopPart(n, names + [name]))
    ensures Suits(l, dir + [name], Below(n, [name]))
  {
    hide Below;
    forall p | p in Below(n, [name]) && !Below(n, [name])[p].Link? && dir + [name] + p in l
      ensures l[dir + [name] + p].Dir? == Below(n, [name])[p].Dir?
      ensures l[dir + [name] + p].File? == Below(n, [name])[p].File?
    {
      BelowHas(n, [name], p);
      assert dir + [name] + p == dir + ([name] + p);
      assert [name] + p in TopPart(n, names + [name]);
    }
  }

  lemma SuitsBoth(l: Nodes, dir: Path, n: Nodes, names: seq<string>, name: string)
    requires Suits(l, dir, TopPart(n, names)) && Suits(l, dir + [name], Below(n, [name]))
    ensures Suits(l, dir, TopPart(n, names + [name]))
  {
    hide Below;
    forall p | p in TopPart(n, names + [name]) && dir + p in l
      ensures l[dir + p].Dir? == n[p].Dir? && l[dir + p].File? == n[p].File?
    {
      if p[0] == name {
        BelowNamed(n, name, p);
        assert dir + [name] + p[1..] == dir + p;
      } else {
        assert p in TopPart(n, names);
      }
    }
  }

  /** The next entry is taken beside the ones before it. */
  lemma SuitsSplit(l: Nodes, dir: Path, n: Nodes, names: seq<string>, name: string)
    requires Closed(n)
    ensures Suits(l, dir, TopPart(n, names + [name])) <==>
            Suits(l, dir, TopPart(n, names)) && Suits(l, dir + [name], Below(n, [name]))
  {
    if Suits(l, dir, TopPart(n, names + [name])) {
      SuitsFewer(l, dir, n, names, name);
      SuitsOne(l, dir, n, names, name);
    }
    if Suits(l, dir, TopPart(n, names)) && Suits(l, dir + [name], Below(n, [name])) {
      SuitsBoth(l, dir, n, names, name);
    }
  }

  lemma NothingSuits(l: Nodes, dir: Path, n: Nodes)
    ensures Suits(l, dir, TopPart(n, []))
  {
  }

  lemma TopIsTree(n: Nodes, name: string)
    requires Closed(n) && [name] in n
    ensures IsTree(Below(n, [name])) && Below(n, [name])[[]] == n[[name]]
  {
    BelowIsTree(n, [name]);
    BelowHas(n, [name], []);
    assert [name] + [] == [name];
  }

  lemma FilledIs(l: Nodes, dir: Path, n: Nodes, names: seq<string>, name: string)
    requires WithDirs(Filled(l, dir, n, names), dir) == WithDirs(l, dir) + Shifted(dir, TopPart(n, names))
    ensures Graft(Filled(l, dir, n, names), dir + [name], Regular(Below(n, [name]))) == Filled(l, dir, n, names + [name])
  {
    hide WithDirs, Shifted, TopPart, Regular, Below;
    assert Parent(dir + [name]) == dir;
    ShiftedTop(dir, n, names, name);
  }

  lemma BelowTidy(n: Nodes, name: string)
    requires TidyTree(n) && [name] in n
    ensures TidyTree(Below(n, [name])) && Tidy([name])
  {
  }

  /** One more top-level entry. */
  lemma FilledNext(n: Nodes, l: Nodes, dir: Path, names: seq<string>, name: string)
    requires OrdinaryShare(n, l) && TakesTop(l, dir, n, names) && Closed(Filled(l, dir, n, names))
    requires name !in names && [name] in n
    ensures var cur, here := Filled(l, dir, n, names), dir + [name];
      && OrdinaryEntry(n, [name], cur) && Here(dir, [name]) == here
      && (Takes(cur, here, Below(n, [name])) <==> TakesTop(l, dir, n, names + [name]))
      && (Takes(cur, here, Below(n, [name])) ==>
            && Graft(cur, here, Regular(Below(n, [name]))) == Filled(l, dir, n, names + [name])
            && Closed(Filled(l, dir, n, names + [name])))
  {
    hide Closed, DirsOk, WithDirs, Shifted, TopPart, Regular, Suits, Below, IsTree, Tidy, TidyTree, Filled;
    var cur, here, t := Filled(l, dir, n, names), dir + [name], Below(n, [name]);
    FilledDirs(l, dir, n, names);
    FilledSuits(l, dir, n, names, name);
    SuitsSplit(l, dir, n, names, name);
    NothingSuits(l, dir, n);
    TopIsTree(n, name);
    assert Parent(here) == dir;
    BelowTidy(n, name);
    FilledIs(l, dir, n, names, name);
    if Takes(cur, here, t) { GraftClosed(cur, here, t); }
  }

  // ---- Download ----

  /** The answer to listing the root. */
  ghost predicate Listing(names: seq<string>, d: Disk) {
    Distinct(names) && forall x :: x in names <==> x in Children(d, [])
  }

  lemma ParseName(name: string)
    requires Named(name)
    ensures Parse(name).cs == [name] && Valid(Parse(name)) && At(Parse(name)) == [name]
  {
    SplitFirst(name, "");
    ParseValid(name);
    ResolveKeeps(false, [], [name]);
    ResolveKeeps(true, [], [name]);
  }

  lemma ListedName(d: Disk, names: seq<string>, name: string)
    requires Listing(names, d) && ProperNames(d.nodes) && name in names
    ensures [name] in d.nodes && Named(name)
  {
    assert name in Children(d, []);
    var q :| q in d.nodes && |q| == 1 && q[0] == name;
    assert q == [name];
  }

  lemma NoneFilled(l: Nodes, dir: Path, n: Nodes)
    ensures Filled(l, dir, n, []) == l && TakesTop(l, dir, n, [])
  {
  }

  lemma TakesFirst(l: Nodes, dir: Path, n: Nodes, names: seq<string>, k: nat)
    requires TakesTop(l, dir, n, names) && k <= |names|
    ensures TakesTop(l, dir, n, names[..k])
  {
    forall p | p in TopPart(n, names[..k]) && dir + p in l && k > 0
      ensures l[dir + p].Dir? == n[p].Dir? && l[dir + p].File? == n[p].File?
    {
      assert p in TopPart(n, names);
    }
  }

  lemma AllTaken(d: Disk, l: Nodes, dir: Path, names: seq<string>)
    requires Listing(names, d)
    ensures Closed(d.nodes) ==>
              (TakesTop(l, dir, d.nodes, names) <==> names == [] || (DirsOk(l, dir) && Suits(l, dir, d.nodes)))
  {
    if Closed(d.nodes) {
      hide Closed, DirsOk, Suits;
      TopIsAll(d, names);
      RegularSuits(l, dir, d.nodes);
    }
  }

  lemma AllFilled(d: Disk, l: Nodes, dir: Path, names: seq<string>)
    requires Listing(names, d) && Closed(d.nodes)
    ensures names == [] ==> Filled(l, dir, d.nodes, names) == l
    ensures names != [] ==> Filled(l, dir, d.nodes, names) == WithDirs(l, dir) + Shifted(dir, Regular(d.nodes))
  {
    TopIsAll(d, names);
  }

  lemma RootReached()
    ensures Reaches(Parse(".")) && At(Parse(".")) == []
  {
  }

  /**
    Downloading "." fetches every top-level entry in turn. It succeeds exactly when the share can be read and nothing
    of another kind is in the way, and then the entries together are the whole share. Downloading anything else
    fetches that tree.
   */
  method Download(s: RemoteShare, remote: string, local: LocalDisk, dir: Path, names: seq<string>,
                  walks: map<Path, seq<Path>>) returns (ok: bool)
    requires ProperNames(s.disk.nodes) && Listing(names, s.disk)
    requires Walks(walks, s.disk.nodes) && walks.Keys == s.disk.nodes.Keys
    modifies s, local
    ensures s.disk == old(s.disk)
    ensures Parse(remote).cs == [] && OrdinaryShare(s.disk.nodes, old(local.disk.nodes)) ==>
              && (ok <==>
                    && CanRead(s.mode)
                    && (names == [] ||
                        (DirsOk(old(local.disk.nodes), dir) && Suits(old(local.disk.nodes), dir, s.disk.nodes))))
              && (ok && names == [] ==> local.disk == old(local.disk))
              && (ok && names != [] ==> local.disk == old(local.disk).(nodes :=
                    WithDirs(old(local.disk.nodes), dir) + Shifted(dir, Regular(s.disk.nodes))))
    ensures Parse(remote).cs != [] && OrdinaryEntry(s.disk.nodes, Target(remote), old(local.disk.nodes)) ==>
              && (ok <==> CanDownload(s.mode, s.disk.nodes, Target(remote), old(local.disk.nodes), dir))
              && (ok ==> local.disk == old(local.disk).(nodes :=
                    Graft(old(local.disk.nodes), Here(dir, Target(remote)), Regular(Below(s.disk.nodes, Target(remote))))))
  {
    hide Serve, Rel, Wire, Text, Target, Valid, Closed, DirsOk, WithDirs, Graft, Below, IsWalk, Regular, Shifted;
    hide Resolve, ProperNames, At, TopPart, Filled, Takes, OrdinaryEntry, Here, TakesTop, Suits, Tidy;
    var r := Parse(remote);
    ParseValid(remote);
    if r.cs != [] {
      ok := DownloadEntry(s, r, local, dir, walks);
      return;
    }
    ghost var d, n, l := s.disk, s.disk.nodes, local.disk;
    ghost var good := OrdinaryShare(n, l.nodes);
    RootReached();
    ListServed(s.mode, d, Parse("."));
    ReadKeeps(s.mode, d, Wire(Text(Parse("."))));
    var o := s.Handle(List(Wire(Text(Parse(".")))));
    if o.status != Okay { return false; }
    AllTaken(d, l.nodes, dir, names);
    NoneFilled(l.nodes, dir, n);
    for i := 0 to |names|
      invariant s.disk == d
      invariant good ==> local.disk == l.(nodes := Filled(l.nodes, dir, n, names[..i])) && Closed(local.disk.nodes)
      invariant good ==> TakesTop(l.nodes, dir, n, names[..i])
    {
      assert names[..i + 1] == names[..i] + [names[i]];
      ListedName(d, names, names[i]);
      ParseName(names[i]);
      if good {
        FilledNext(n, l.nodes, dir, names[..i], names[i]);
        DownloadNeeds(s.mode, n, [names[i]], local.disk.nodes, dir);
        if TakesTop(l.nodes, dir, n, names) { TakesFirst(l.nodes, dir, n, names, i + 1); }
      }
      ok := DownloadEntry(s, Parse(names[i]), local, dir, walks);
      if !ok { return; }
    }
    assert names[..|names|] == names;
    if good { AllFilled(d, l.nodes, dir, names); }
    ok := true;
  }

  // ---- round trip ----

  lemma RegularIsTree(t: Nodes)
    requires IsTree(t) && !t[[]].Link?
    ensures IsTree(Regular(t)) && Regular(Regular(t)) == Regular(t) && [] in Regular(t) && !Regular(t)[[]].Link?
    ensures TidyTree(t) ==> TidyTree(Regular(t))
  {
  }

  /** Where nothing was before, nothing is in the way. */
  lemma FreshTakes(n: Nodes, at: Path, t: Nodes)
    requires at != [] && Fresh(n, at) && DirsOk(n, Parent(at))
    ensures Takes(n, at, t)
  {
    forall p ensures at + p !in n { assert at <= at + p; }
  }

  /** What was uploaded can be downloaded, and is the same tree without what is neither directory nor file. */
  lemma UploadedComesBack(m: Mode, n: Nodes, local: Nodes, source: Path, remoteDir: string, back: Nodes, dir: Path)
    requires CanUpload(m, n, local, source, remoteDir) && Fresh(n, Destination(remoteDir, source))
    requires CanRead(m) && Closed(back) && DirsOk(back, dir) && Fresh(back, dir + [source[|source| - 1]])
    ensures var at := Destination(remoteDir, source);
      var up := Graft(n, at, Regular(Below(local, source)));
      && CanDownload(m, up, at, back, dir)
      && Below(Graft(back, Here(dir, at), Regular(Below(up, at))), Here(dir, at)) == Regular(Below(local, source))
  {
    hide WithDirs, Shifted, Graft, Below, Regular, Closed, DirsOk, Tidy, Suits;
    var at, t := Destination(remoteDir, source), Below(local, source);
    var v, here := Regular(t), Here(dir, at);
    var up := Graft(n, at, v);
    OrdinaryCopyable(m, n, local, source, remoteDir);
    BelowGraft(n, at, v);
    GraftClosed(n, at, t);
    RegularIsTree(t);
    assert at + [] == at;
    GraftHas(n, at, v, []);
    assert Parent(here) == dir;
    FreshTakes(back, here, v);
    BelowGraft(back, here, v);
  }

  lemma PrefixNormal(at: Path, q: Path)
    requires Normal(at) && at != [] && q in Prefixes(Parent(at))
    ensures Normal(q)
  {
    var k :| 1 <= k <= |Parent(at)| && q == Parent(at)[..k];
    assert forall i :: 0 <= i < k ==> q[i] == at[i];
  }

  /** The names on the share stay proper. */
  lemma GraftProper(m: Mode, n: Nodes, local: Nodes, source: Path, remoteDir: string)
    requires CanUpload(m, n, local, source, remoteDir) && ProperNames(n)
    ensures ProperNames(Graft(n, Destination(remoteDir, source), Regular(Below(local, source))))
  {
    hide Below, Closed, DirsOk, Suits, Target;
    var at, t := Destination(remoteDir, source), Below(local, source);
    var v := Regular(t);
    TidyNormal(at);
    forall q | q in Graft(n, at, v) ensures Normal(q) {
      if q in Shifted(at, v) {
        ShiftedOnly(at, v, q);
        TidyNormal(q[|at|..]);
        assert q == at + q[|at|..];
      } else if q !in n {
        PrefixNormal(at, q);
      }
    }
  }

  lemma UploadFits(m: Mode, n: Nodes, local: Nodes, source: Path, dir: string)
    requires CanUpload(m, n, local, source, dir)
    ensures Ordinary(m, n, local, source, dir) && source != [] && source in local
  {
  }

  /** A path to an entry is not the root. */
  lemma RemoteIsNamed(remote: string, remoteDir: string, source: Path)
    requires source != [] && Target(remote) == Destination(remoteDir, source)
    ensures Parse(remote).cs != [] && Here([], Target(remote)) == [source[|source| - 1]]
    ensures forall dir: Path :: Here(dir, Target(remote)) == dir + [source[|source| - 1]]
  {
    ParseValid(remote);
  }

  /**
    Uploading a tree to a fresh place and downloading it to a fresh place gives the same tree back: the same
    directories, files and contents, without the entries that are neither.
   */
  method UploadThenDownload(s: RemoteShare, local: Disk, source: Path, remoteDir: string, order: seq<Path>,
                            writes: map<Path, seq<Chunk>>, remote: string, back: LocalDisk, dir: Path,
                            names: seq<string>, walks: map<Path, seq<Path>>) returns (ok: bool)
    requires CanUpload(s.mode, s.disk.nodes, local.nodes, source, remoteDir) && ProperNames(s.disk.nodes)
    requires Fresh(s.disk.nodes, Destination(remoteDir, source)) && Target(remote) == Destination(remoteDir, source)
    requires IsWalk(order, Below(local.nodes, source)) && Pieces(writes, Below(local.nodes, source))
    requires CanRead(s.mode) && Closed(back.disk.nodes) && DirsOk(back.disk.nodes, dir)
    requires Fresh(back.disk.nodes, dir + [source[|source| - 1]])
    requires var up := Graft(s.disk.nodes, Destination(remoteDir, source), Regular(Below(local.nodes, source)));
      Listing(names, s.disk.(nodes := up)) && Walks(walks, up) && walks.Keys == up.Keys
    modifies s, back
    ensures ok
    ensures Below(back.disk.nodes, dir + [source[|source| - 1]]) == Regular(Below(local.nodes, source))
    ensures s.disk == old(s.disk).(nodes := Graft(old(s.disk.nodes), Destination(remoteDir, source),
                                                  Regular(Below(local.nodes, source))))
  {
    hide Ordinary, OrdinaryEntry, Takes, Fresh, Destination, Graft, Below, Regular, Closed, DirsOk, Tidy, ProperNames;
    hide IsWalk, Target, Resolve, Listing;
    UploadedComesBack(s.mode, s.disk.nodes, local.nodes, source, remoteDir, back.disk.nodes, dir);
    GraftProper(s.mode, s.disk.nodes, local.nodes, source, remoteDir);
    UploadFits(s.mode, s.disk.nodes, local.nodes, source, remoteDir);
    RemoteIsNamed(remote, remoteDir, source);
    ok := Upload(s, local, source, remoteDir, order, writes);
    ok := Download(s, remote, back, dir, names, walks);
  }
}
