/** File trees inside a disk: subtrees, grafting one below a path, chunked writes. */
module Trees {
  import opened Common
  import opened Paths
  import opened Files

  type Nodes = map<Path, Node>

  /** Every entry sits in a directory. */
  ghost predicate Closed(n: Nodes) {
    && [] !in n
    && forall p :: p in n && |p| > 1 ==> Parent(p) in n && n[Parent(p)].Dir?
  }

  /** Names that survive the request path of a share: proper names not ending in white space. */
  predicate TidyName(c: string) {
    Named(c) && !IsSpace(c[|c| - 1])
  }

  predicate Tidy(p: Path) {
    forall i :: 0 <= i < |p| ==> TidyName(p[i])
  }

  // ---- directories along a path ----

  function Prefixes(t: Path): (r: set<Path>) {
    set k | 1 <= k <= |t| :: t[..k]
  }

  function WithDirs(n: Nodes, t: Path): Nodes {
    map q | q in n.Keys + Prefixes(t) :: if q in n then n[q] else Dir
  }

  /** No proper file or link is in the way of the directory t. */
  ghost predicate DirsOk(n: Nodes, t: Path) {
    forall k :: 1 <= k <= |t| && t[..k] in n ==> n[t[..k]].Dir?
  }

  lemma WithDirsNone(n: Nodes)
    ensures WithDirs(n, []) == n
  {
    assert Prefixes([]) == {};
  }

  lemma WithDirsStep(n: Nodes, t: Path)
    requires t != []
    ensures WithDirs(n, t) == if t in n then WithDirs(n, Parent(t)) else WithDirs(n, Parent(t))[t := Dir]
  {
    forall q ensures q in Prefixes(t) <==> q == t || q in Prefixes(Parent(t)) {
      if q in Prefixes(t) {
        var k :| 1 <= k <= |t| && q == t[..k];
        assert k < |t| ==> q == Parent(t)[..k];
        assert k == |t| ==> q == t;
      }
      if q in Prefixes(Parent(t)) {
        var k :| 1 <= k <= |Parent(t)| && q == Parent(t)[..k];
        assert q == t[..k];
      }
      assert t == t[..|t|];
    }
  }

  lemma {:induction false} WithDirsPresent(n: Nodes, t: Path)
    requires Closed(n) && (t == [] || (t in n && n[t].Dir?))
    ensures WithDirs(n, t) == n
  {
    if t == [] {
      WithDirsNone(n);
    } else {
      WithDirsStep(n, t);
      if |t| == 1 { assert Parent(t) == []; }
      WithDirsPresent(n, Parent(t));
    }
  }

  // ---- subtrees ----

  /** A tree as a map from paths below its root; the root itself is at []. */
  ghost predicate IsTree(t: Nodes) {
    && [] in t
    && forall p :: p in t && p != [] ==> Parent(p) in t && t[Parent(p)].Dir?
  }

  ghost predicate TidyTree(t: Nodes) {
    forall p :: p in t ==> Tidy(p)
  }

  function Below(n: Nodes, at: Path): Nodes {
    map p | p in (set q | q in n && at <= q :: q[|at|..]) && at + p in n :: n[at + p]
  }

  lemma BelowHas(n: Nodes, at: Path, p: Path)
    ensures p in Below(n, at) <==> at + p in n
    ensures at + p in n ==> Below(n, at)[p] == n[at + p]
  {
    assert (at + p)[|at|..] == p;
  }

  lemma BelowIsTree(n: Nodes, at: Path)
    requires Closed(n) && at != [] && at in n
    ensures IsTree(Below(n, at))
  {
    var t := Below(n, at);
    assert at + [] == at;
    BelowHas(n, at, []);
    forall p | p in t && p != [] ensures Parent(p) in t && t[Parent(p)].Dir? {
      BelowHas(n, at, p);
      assert Parent(at + p) == at + Parent(p);
      BelowHas(n, at, Parent(p));
    }
  }

  /** The part of a tree that is copied: directories and regular files; links and the like are skipped. */
  function Regular(t: Nodes): Nodes {
    map p | p in t && !t[p].Link? :: t[p]
  }

  function Visited(t: Nodes, order: seq<Path>): Nodes {
    map p | p in order && p in t && !t[p].Link? :: t[p]
  }

  function Shifted(at: Path, t: Nodes): Nodes {
    map q | q in (set p | p in t :: at + p) && q[|at|..] in t :: t[q[|at|..]]
  }

  lemma ShiftedIff(at: Path, t: Nodes, q: Path)
    ensures q in Shifted(at, t) <==> at <= q && q[|at|..] in t
    ensures q in Shifted(at, t) ==> Shifted(at, t)[q] == t[q[|at|..]]
  {
    if at <= q { assert q == at + q[|at|..]; }
  }

  lemma ShiftedOnly(at: Path, t: Nodes, q: Path)
    requires q in Shifted(at, t)
    ensures at <= q && q[|at|..] in t
  {
  }

  /** A disk with a tree put at `at`: missing directories above it are made, entries already there are replaced. */
  function Graft(n: Nodes, at: Path, v: Nodes): Nodes
    requires at != []
  {
    WithDirs(n, Parent(at)) + Shifted(at, v)
  }

  lemma GraftNothing(n: Nodes, at: Path)
    requires at != []
    ensures Graft(n, at, map[]) == WithDirs(n, Parent(at))
  {
    assert Shifted(at, map[]) == map[];
  }

  lemma ShiftedStep(at: Path, v: Nodes, p: Path, x: Node)
    ensures Shifted(at, v[p := x]) == Shifted(at, v)[at + p := x]
  {
  }

  lemma GraftStep(n: Nodes, at: Path, v: Nodes, p: Path, x: Node)
    requires at != []
    ensures Graft(n, at, v[p := x]) == Graft(n, at, v)[at + p := x]
  {
    ShiftedStep(at, v, p, x);
  }

  lemma PrefixIsShort(t: Path, q: Path)
    requires q in Prefixes(t)
    ensures 1 <= |q| <= |t|
  {
  }

  lemma GraftHas(n: Nodes, at: Path, v: Nodes, p: Path)
    requires at != []
    ensures p in v ==> at + p in Graft(n, at, v) && Graft(n, at, v)[at + p] == v[p]
    ensures p !in v && at + p in Graft(n, at, v) ==> at + p in n && Graft(n, at, v)[at + p] == n[at + p]
  {
  }

  /** Nothing is at or below this path yet. */
  ghost predicate Fresh(n: Nodes, at: Path) {
    forall q :: q in n ==> !(at <= q)
  }

  /** Where nothing was before, exactly the grafted tree is found again. */
  lemma BelowGraft(n: Nodes, at: Path, v: Nodes)
    requires at != [] && Fresh(n, at)
    ensures Below(Graft(n, at, v), at) == v
  {
  }

  /** What a directory walk lists: each path of the tree once, every directory before what it contains. */
  ghost predicate IsWalk(order: seq<Path>, t: Nodes) {
    && Distinct(order)
    && (forall p :: p in order <==> p in t)
    && forall i :: 0 <= i < |order| && order[i] != [] ==> Parent(order[i]) in order[..i]
  }

  lemma WalkStartsAtRoot(order: seq<Path>, t: Nodes)
    requires IsWalk(order, t) && [] in t
    ensures |order| > 0 && order[0] == []
  {
    assert [] in order;
    assert order[..0] == [];
  }

  // ---- copying a tree entry by entry ----

  /** Nothing already at the destination is of another kind than what is copied there. */
  ghost predicate Suits(n: Nodes, at: Path, t: Nodes) {
    forall p :: p in t && !t[p].Link? && at + p in n ==> n[at + p].Dir? == t[p].Dir? && n[at + p].File? == t[p].File?
  }

  /** The directories above the destination can be made, and nothing is in the way. */
  ghost predicate Takes(n: Nodes, at: Path, t: Nodes)
    requires at != []
  {
    DirsOk(n, Parent(at)) && Suits(n, at, t)
  }

  ghost predicate Copyable(n: Nodes, at: Path, t: Nodes) {
    Closed(n) && at != [] && IsTree(t) && !t[[]].Link?
  }

  ghost predicate CanCopy(n: Nodes, at: Path, t: Nodes) {
    Copyable(n, at, t) && Takes(n, at, t)
  }

  /** The state after the first i entries of the walk have been copied. */
  ghost predicate Copied(n: Nodes, at: Path, t: Nodes, order: seq<Path>, i: nat, cur: Nodes) {
    && Copyable(n, at, t) && IsWalk(order, t) && i <= |order| && Closed(cur)
    && if i == 0 then cur == n
       else Takes(n, at, Visited(t, order[..i])) && cur == Graft(n, at, Visited(t, order[..i]))
  }

  /** The destination of one entry: its directory can be made, and what is there is of the same kind. */
  ghost predicate Fits(n: Nodes, q: Path, x: Node)
    requires q != []
  {
    DirsOk(n, Parent(q)) && (q in n ==> n[q].Dir? == x.Dir? && n[q].File? == x.File?)
  }

  lemma {:induction false} DirsAbove(n: Nodes, t: Path)
    requires Closed(n) && (t == [] || (t in n && n[t].Dir?))
    ensures DirsOk(n, t)
  {
    if t != [] {
      if |t| > 1 { DirsAbove(n, Parent(t)); }
      forall k | 1 <= k <= |t| && t[..k] in n ensures n[t[..k]].Dir? {
        if k < |t| { assert t[..k] == Parent(t)[..k]; } else { assert t[..k] == t; }
      }
    }
  }

  lemma ClosedPut(n: Nodes, q: Path, x: Node)
    requires Closed(n) && q != [] && (|q| == 1 || (Parent(q) in n && n[Parent(q)].Dir?))
    requires q in n && n[q].Dir? ==> x.Dir?
    ensures Closed(n[q := x])
  {
  }

  lemma {:induction false} ClosedWithDirs(n: Nodes, t: Path)
    requires Closed(n) && DirsOk(n, t)
    ensures Closed(WithDirs(n, t))
    ensures t == [] || (t in WithDirs(n, t) && WithDirs(n, t)[t].Dir?)
  {
    if t == [] {
      WithDirsNone(n);
    } else {
      assert forall k :: 1 <= k <= |Parent(t)| ==> Parent(t)[..k] == t[..k];
      ClosedWithDirs(n, Parent(t));
      WithDirsStep(n, t);
      assert t[..|t|] == t;
      if t !in n {
        assert |t| == 1 ==> Parent(t) == [];
        assert t !in WithDirs(n, Parent(t)) by { if t in Prefixes(Parent(t)) { PrefixIsShort(Parent(t), t); } }
        ClosedPut(WithDirs(n, Parent(t)), t, Dir);
      }
    }
  }

  lemma VisitedNext(t: Nodes, order: seq<Path>, i: nat)
    requires i < |order| && order[i] in t
    ensures Visited(t, order[..i + 1]) ==
            if t[order[i]].Link? then Visited(t, order[..i]) else Visited(t, order[..i])[order[i] := t[order[i]]]
  {
    assert order[..i + 1] == order[..i] + [order[i]];
  }

  /** The part visited next is wanted of the destination beside the part visited so far. */
  lemma SuitsNext(n: Nodes, at: Path, v: Nodes, p: Path, x: Node)
    requires p !in v && !x.Link?
    ensures Suits(n, at, v[p := x]) <==>
            Suits(n, at, v) && (at + p in n ==> n[at + p].Dir? == x.Dir? && n[at + p].File? == x.File?)
  {
    if Suits(n, at, v[p := x]) {
      forall q | q in v && !v[q].Link? && at + q in n
        ensures n[at + q].Dir? == v[q].Dir? && n[at + q].File? == v[q].File?
      {
        assert q in v[p := x] && v[p := x][q] == v[q];
      }
    }
  }

  lemma FirstFits(n: Nodes, at: Path, t: Nodes)
    requires Copyable(n, at, t)
    ensures Fits(n, at, t[[]]) <==> Takes(n, at, map[[] := t[[]]])
    ensures WithDirs(n, Parent(at)) == Graft(n, at, map[])
  {
    assert at + [] == at;
    SuitsNext(n, at, map[], [], t[[]]);
    GraftNothing(n, at);
  }

  lemma GraftKeeps(n: Nodes, at: Path, v: Nodes, p: Path)
    requires at != [] && p !in v && at + p in n
    ensures at + p in Graft(n, at, v) && Graft(n, at, v)[at + p] == n[at + p]
  {
    ShiftedIff(at, v, at + p);
    assert (at + p)[|at|..] == p;
  }

  /** An entry below the first: its directory is there already, and what is there was there before. */
  lemma LaterFits(n: Nodes, at: Path, v: Nodes, p: Path, x: Node)
    requires at != [] && Takes(n, at, v) && Closed(Graft(n, at, v))
    requires p != [] && p !in v && Parent(p) in v && v[Parent(p)].Dir? && !x.Link?
    ensures var cur, q := Graft(n, at, v), at + p;
      && q != [] && (Fits(cur, q, x) <==> Takes(n, at, v[p := x]))
      && WithDirs(cur, Parent(q)) == cur
  {
    var cur, q := Graft(n, at, v), at + p;
    assert Parent(q) == at + Parent(p);
    GraftHas(n, at, v, Parent(p));
    GraftHas(n, at, v, p);
    if at + p in n { GraftKeeps(n, at, v, p); }
    hide Graft, Suits, Visited;
    DirsAbove(cur, Parent(q));
    WithDirsPresent(cur, Parent(q));
    SuitsNext(n, at, v, p, x);
  }

  lemma WalkStep(t: Nodes, order: seq<Path>, i: nat)
    requires IsTree(t) && IsWalk(order, t) && i < |order|
    ensures var p := order[i];
      && p in t && p !in Visited(t, order[..i])
      && (i == 0 ==> p == [] && Visited(t, order[..0]) == map[])
      && (i > 0 ==> p != [] && Parent(p) in Visited(t, order[..i]) && Visited(t, order[..i])[Parent(p)].Dir?)
  {
    WalkStartsAtRoot(order, t);
    assert order[i] in order;
  }

  /** The next entry fits exactly when the destination takes all that is visited with it. */
  lemma CopyReady(n: Nodes, at: Path, t: Nodes, order: seq<Path>, i: nat, cur: Nodes)
    requires Copied(n, at, t, order, i, cur) && i < |order| && order[i] in t && !t[order[i]].Link?
    ensures var q := at + order[i];
      && q != []
      && (Fits(cur, q, t[order[i]]) <==> Takes(n, at, Visited(t, order[..i + 1])))
      && WithDirs(cur, Parent(q)) == Graft(n, at, Visited(t, order[..i]))
  {
    hide Visited, Graft, Fits, Takes, Closed, IsTree, IsWalk;
    WalkStep(t, order, i);
    VisitedNext(t, order, i);
    if i == 0 {
      var none: Nodes := map[];
      assert at + order[i] == at && none[[] := t[[]]] == map[[] := t[[]]];
      FirstFits(n, at, t);
    } else {
      LaterFits(n, at, Visited(t, order[..i]), order[i], t[order[i]]);
    }
  }

  lemma PutInGraft(cur: Nodes, q: Path, x: Node)
    requires Closed(cur) && q != [] && Fits(cur, q, x)
    ensures Closed(WithDirs(cur, Parent(q))[q := x])
  {
    ClosedWithDirs(cur, Parent(q));
    var g := WithDirs(cur, Parent(q));
    if q in g && q !in cur { PrefixIsShort(Parent(q), q); }
    ClosedPut(g, q, x);
  }

  lemma CopyStep(n: Nodes, at: Path, t: Nodes, order: seq<Path>, i: nat, cur: Nodes)
    requires Copied(n, at, t, order, i, cur) && i < |order| && order[i] in t && !t[order[i]].Link?
    requires at + order[i] != [] && Fits(cur, at + order[i], t[order[i]])
    ensures var q := at + order[i];
      Copied(n, at, t, order, i + 1, WithDirs(cur, Parent(q))[q := t[order[i]]])
  {
    hide WithDirs, Visited, Shifted, Graft, Closed, Fits, Takes, IsTree, IsWalk;
    CopyReady(n, at, t, order, i, cur);
    VisitedNext(t, order, i);
    GraftStep(n, at, Visited(t, order[..i]), order[i], t[order[i]]);
    PutInGraft(cur, at + order[i], t[order[i]]);
  }

  lemma CopySkip(n: Nodes, at: Path, t: Nodes, order: seq<Path>, i: nat, cur: Nodes)
    requires Copied(n, at, t, order, i, cur) && i < |order| && order[i] in t && t[order[i]].Link?
    ensures Copied(n, at, t, order, i + 1, cur)
  {
    hide WithDirs, Visited, Shifted, Graft, Closed, Takes, IsWalk;
    WalkStep(t, order, i);
    VisitedNext(t, order, i);
  }

  lemma VisitedAll(t: Nodes, order: seq<Path>)
    requires IsWalk(order, t)
    ensures Visited(t, order[..|order|]) == Regular(t)
  {
    assert order[..|order|] == order;
  }

  lemma RegularSuits(n: Nodes, at: Path, t: Nodes)
    ensures Suits(n, at, Regular(t)) <==> Suits(n, at, t)
  {
    if Suits(n, at, Regular(t)) {
      forall p | p in t && !t[p].Link? && at + p in n
        ensures n[at + p].Dir? == t[p].Dir? && n[at + p].File? == t[p].File?
      {
        assert p in Regular(t);
      }
    }
  }

  lemma CopyDone(n: Nodes, at: Path, t: Nodes, order: seq<Path>, cur: Nodes)
    requires Copied(n, at, t, order, |order|, cur)
    ensures cur == Graft(n, at, Regular(t)) && Takes(n, at, t)
  {
    hide Visited, Graft, Suits, Closed;
    WalkStartsAtRoot(order, t);
    VisitedAll(t, order);
    RegularSuits(n, at, t);
  }

  /** A destination that takes the whole tree takes every part of it. */
  lemma TakesPart(n: Nodes, at: Path, t: Nodes, order: seq<Path>)
    requires at != [] && Takes(n, at, t)
    ensures Takes(n, at, Visited(t, order))
  {
  }

  lemma GraftedRoot(n: Nodes, at: Path, v: Nodes)
    requires Closed(n) && |at| > 1 && DirsOk(n, Parent(at))
    ensures var g := Graft(n, at, v); Parent(at) in g && g[Parent(at)].Dir?
  {
    hide DirsOk;
    ClosedWithDirs(n, Parent(at));
    if Parent(at) in Shifted(at, v) { ShiftedOnly(at, v, Parent(at)); }
  }

  lemma GraftedParent(n: Nodes, at: Path, t: Nodes, q: Path)
    requires CanCopy(n, at, t) && q in Shifted(at, Regular(t)) && |q| > 1
    ensures var g := Graft(n, at, Regular(t)); Parent(q) in g && g[Parent(q)].Dir?
  {
    hide DirsOk, Graft, WithDirs, Suits, Closed;
    var v := Regular(t);
    ShiftedOnly(at, v, q);
    var p := q[|at|..];
    assert q == at + p;
    if p == [] {
      assert q == at;
      GraftedRoot(n, at, v);
    } else {
      assert Parent(q) == at + Parent(p);
      GraftHas(n, at, v, Parent(p));
    }
  }

  lemma WithDirsParent(n: Nodes, at: Path, t: Nodes, q: Path)
    requires CanCopy(n, at, t) && q in WithDirs(n, Parent(at)) && |q| > 1
    ensures var g := Graft(n, at, Regular(t)); Parent(q) in g && g[Parent(q)].Dir?
  {
    hide DirsOk;
    var v := Regular(t);
    ClosedWithDirs(n, Parent(at));
    if Parent(q) in Shifted(at, v) {
      ShiftedOnly(at, v, Parent(q));
      var p := Parent(q)[|at|..];
      assert Parent(q) == at + p;
      if Parent(q) in Prefixes(Parent(at)) { PrefixIsShort(Parent(at), Parent(q)); }
    }
  }

  lemma GraftClosed(n: Nodes, at: Path, t: Nodes)
    requires CanCopy(n, at, t)
    ensures Closed(Graft(n, at, Regular(t)))
  {
    var w, v := WithDirs(n, Parent(at)), Regular(t);
    var g := Graft(n, at, v);
    ClosedWithDirs(n, Parent(at));
    forall q | q in g && |q| > 1 ensures Parent(q) in g && g[Parent(q)].Dir? {
      if q in Shifted(at, v) {
        GraftedParent(n, at, t, q);
      } else {
        WithDirsParent(n, at, t, q);
      }
    }
  }

  // ---- writing a file in pieces ----

  ghost predicate Hit(chunks: seq<Chunk>, i: int) {
    exists c :: c in chunks && c.off <= i < c.off + |c.data|
  }

  /** Pieces of the contents that cover all of it, in any order and possibly overlapping. */
  ghost predicate Covers(chunks: seq<Chunk>, data: seq<Byte>) {
    && (forall c :: c in chunks ==> c.off + |c.data| <= |data| && c.data == data[c.off..c.off + |c.data|])
    && (forall i :: 0 <= i < |data| ==> Hit(chunks, i))
  }

  /** So far written: right wherever a piece has landed, and never too long. */
  ghost predicate PartOf(cur: seq<Byte>, done: seq<Chunk>, data: seq<Byte>) {
    && |cur| <= |data|
    && forall i :: 0 <= i < |data| && Hit(done, i) ==> i < |cur| && cur[i] == data[i]
  }

  lemma SpliceKeepsPart(cur: seq<Byte>, done: seq<Chunk>, c: Chunk, data: seq<Byte>)
    requires PartOf(cur, done, data) && c.off + |c.data| <= |data| && c.data == data[c.off..c.off + |c.data|]
    ensures PartOf(Splice(cur, c.off, c.data), done + [c], data)
  {
    var next := Splice(cur, c.off, c.data);
    forall i | 0 <= i < |data| && Hit(done + [c], i) ensures i < |next| && next[i] == data[i] {
      if c.off <= i < c.off + |c.data| {
        assert next[i] == c.data[i - c.off];
      } else {
        var e :| e in done + [c] && e.off <= i < e.off + |e.data|;
        assert e in done && Hit(done, i);
      }
    }
  }

  /** In whatever order the pieces are written, the file ends up as the contents. */
  lemma {:induction false} ChunksGiveContents(d: Disk, p: Path, done: seq<Chunk>, chunks: seq<Chunk>, data: seq<Byte>)
    requires p in d.nodes && d.nodes[p].File? && PartOf(d.nodes[p].data, done, data)
    requires Covers(done + chunks, data)
    ensures WriteAll(d, p, chunks) == Put(d, p, File(data))
    decreases |chunks|
  {
    if chunks == [] {
      assert done + chunks == done;
      var cur := d.nodes[p].data;
      assert forall i :: 0 <= i < |data| ==> Hit(done, i);
      assert |cur| < |data| ==> Hit(done, |cur|);
      assert cur == data;
      assert d.nodes[p := File(data)] == d.nodes;
    } else {
      var c := chunks[0];
      assert c in done + chunks;
      SpliceKeepsPart(d.nodes[p].data, done, c, data);
      var d1 := Put(d, p, File(Splice(d.nodes[p].data, c.off, c.data)));
      assert done + [c] + chunks[1..] == done + chunks;
      ChunksGiveContents(d1, p, done + [c], chunks[1..], data);
      assert Put(d1, p, File(data)) == Put(d, p, File(data));
    }
  }
}
