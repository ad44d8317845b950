/** The slash paths a client builds, and where the share finds them. */
module ClientPaths {
  import opened Common
  import opened Paths
  import opened Files
  import opened Trees

  /** A cleaned path: its components, and whether it starts at the root. */
  datatype ClientPath = ClientPath(rooted: bool, cs: seq<string>)

  /** path.Clean, as components; `Text` writes it back. */
  function Parse(s: string): ClientPath {
    var rooted := s != "" && s[0] == '/';
    ClientPath(rooted, Resolve(rooted, [], Split(s)))
  }

  function Text(r: ClientPath): string {
    if r.rooted then "/" + Join(r.cs) else Show(r.cs)
  }

  ghost predicate Valid(r: ClientPath) {
    if r.rooted then Normal(r.cs) else Climbs(r.cs)
  }

  function Up(r: ClientPath): ClientPath
    requires r.cs != []
  {
    r.(cs := r.cs[..|r.cs| - 1])
  }

  function Sub(r: ClientPath, names: seq<string>): ClientPath {
    r.(cs := r.cs + names)
  }

  /** Where the path leads below the share's root. */
  function At(r: ClientPath): Path {
    Resolve(true, [], r.cs)
  }

  /** What the SFTP server library hands to the handlers: the path made absolute and cleaned. */
  function Wire(s: string): string {
    Clean("/" + s)
  }

  lemma ParseValid(s: string)
    ensures Valid(Parse(s)) && At(Parse(s)) == Target(s) && Text(Parse(s)) == Clean(s)
  {
    SplitPlain(s);
    if Parse(s).rooted {
      ResolveNormal([], Split(s));
      ResolveKeeps(true, [], Parse(s).cs);
    } else {
      RootedAfterRelative([], Split(s));
    }
  }

  lemma TargetOfText(r: ClientPath)
    requires Valid(r)
    ensures Target(Text(r)) == At(r) && Normal(At(r))
  {
    if r.rooted {
      TargetOfShown(r.cs);
      ResolveKeeps(true, [], r.cs);
    } else {
      ResolveNormal([], r.cs);
      if r.cs == [] { SplitFirst(".", ""); } else { SplitJoin(r.cs); }
    }
  }

  lemma WireIsClean(s: string)
    ensures Wire(s) == "/" + Join(Target(s))
  {
    TargetOfRooted(s);
  }

  /** A request for a clean path reaches the entry it names, unless the last name ends in white space. */
  lemma Arrives(r: ClientPath)
    requires Valid(r) && (At(r) == [] || TidyName(At(r)[|At(r)| - 1]))
    ensures Target(Rel(Wire(Text(r)))) == At(r)
  {
    hide Split, Resolve, Clean, Trim, Rel, Text, Wire, Target, At, Valid;
    TargetOfText(r);
    WireIsClean(Text(r));
    RelIsNormalForm("/" + Join(At(r)));
    if At(r) == [] {
      assert "/" + Join([]) == "/";
      TrimFixed("/");
      TargetOfShown([]);
    } else {
      RelOfAbsoluteIff(At(r));
    }
  }

  // ---- joining and going up ----

  lemma ResolveShown(rooted: bool, st: seq<string>, p: seq<string>)
    requires Normal(p)
    ensures Resolve(rooted, st, Split(Show(p))) == st + p
  {
    hide Resolve, Split, Join;
    if p == [] {
      SplitFirst(".", "");
      ResolveOne(rooted, st, ".");
    } else {
      SplitJoin(p);
      ResolveKeeps(rooted, st, p);
    }
  }

  /** path.Join of a directory and clean names below it. */
  lemma ParseJoined(dir: string, base: string, p: seq<string>)
    requires dir != "" && Named(base) && Normal(p)
    ensures Parse(dir + "/" + base + "/" + Show(p)) == Sub(Parse(dir), [base] + p)
  {
    hide Resolve, Split, Show;
    var rooted := dir[0] == '/';
    var st := Resolve(rooted, [], Split(dir));
    SplitConcat(dir + "/" + base, Show(p));
    SplitConcat(dir, base);
    SplitFirst(base, "");
    ResolveAppend(rooted, [], Split(dir) + [base], Split(Show(p)));
    ResolveAppend(rooted, [], Split(dir), [base]);
    ResolveKeeps(rooted, st, [base]);
    ResolveShown(rooted, st + [base], p);
    assert st + [base] + p == st + ([base] + p);
  }

  lemma ParseChild(dir: string, base: string)
    requires dir != "" && Named(base)
    ensures Parse(dir + "/" + base) == Sub(Parse(dir), [base])
  {
    hide Resolve, Split;
    var rooted := dir[0] == '/';
    SplitConcat(dir, base);
    SplitFirst(base, "");
    ResolveAppend(rooted, [], Split(dir), [base]);
    ResolveKeeps(rooted, Resolve(rooted, [], Split(dir)), [base]);
  }

  lemma SubValid(r: ClientPath, names: seq<string>)
    requires Valid(r) && Normal(names)
    ensures Valid(Sub(r, names)) && At(Sub(r, names)) == At(r) + names
  {
    ResolveAppend(true, [], r.cs, names);
    ResolveKeeps(true, At(r), names);
  }

  lemma {:induction false} OnlyUp(st: seq<string>)
    requires forall i :: 0 <= i < |st| ==> st[i] == ".."
    ensures Resolve(true, [], st) == []
  {
    if st != [] { OnlyUp(st[1..]); }
  }

  lemma {:induction false} UpBefore(st: seq<string>, k: nat)
    requires Climbs(st) && k < |st| && st[k] == ".."
    ensures forall i :: 0 <= i <= k ==> st[i] == ".."
  {
    if k > 0 { UpBefore(st, k - 1); }
  }

  /** One component up is one directory up, until the path is above the root. */
  lemma UpIsParent(r: ClientPath)
    requires Valid(r) && r.cs != []
    ensures Valid(Up(r))
    ensures At(r) != [] ==> At(Up(r)) == Parent(At(r)) && At(r)[|At(r)| - 1] == r.cs[|r.cs| - 1]
  {
    var up, last := Up(r).cs, r.cs[|r.cs| - 1];
    assert r.cs == up + [last];
    if last == ".." {
      UpBefore(r.cs, |r.cs| - 1);
      OnlyUp(r.cs);
    } else {
      assert Normal([last]);
      ResolveAppend(true, [], up, [last]);
      ResolveKeeps(true, At(Up(r)), [last]);
    }
  }

  // ---- filepath.Rel and filepath.Join ----

  /** The path from one cleaned directory to another; none when it would have to cross an unknown parent. */
  function RelTo(base: seq<string>, targ: seq<string>): Option<seq<string>>
    decreases |base|
  {
    if base != [] && targ != [] && base[0] == targ[0] then RelTo(base[1..], targ[1..])
    else if base != [] && base[0] == ".." then None
    else Some(seq(|base|, _ => "..") + targ)
  }

  lemma {:induction false} RelToBelow(base: seq<string>, sub: seq<string>)
    ensures RelTo(base, base + sub) == Some(sub)
  {
    if base == [] {
      assert base + sub == sub;
      assert seq(0, _ => "..") + sub == sub;
    } else {
      assert (base + sub)[1..] == base[1..] + sub;
      RelToBelow(base[1..], sub);
    }
  }

  lemma {:induction false} ClimbOut(st: seq<string>, k: nat)
    requires Normal(st) && k <= |st|
    ensures Resolve(true, st, seq(k, _ => "..")) == st[..|st| - k]
    decreases k
  {
    var ups := seq(k, _ => "..");
    if k == 0 {
      assert ups == [] && st[..|st|] == st;
    } else {
      assert ups[0] == ".." && ups[1..] == seq(k - 1, _ => "..");
      ClimbOut(st[..|st| - 1], k - 1);
      assert st[..|st| - 1][..|st| - k] == st[..|st| - k];
    }
  }

  /** From the one directory, the relative path leads to the other. */
  lemma {:induction false} RelToLeads(above: seq<string>, base: seq<string>, targ: seq<string>)
    requires Normal(above) && Normal(base) && Normal(targ)
    ensures RelTo(base, targ).Some? && Resolve(true, above + base, RelTo(base, targ).value) == above + targ
    decreases |base|
  {
    hide Resolve;
    if base != [] && targ != [] && base[0] == targ[0] {
      RelToLeads(above + [base[0]], base[1..], targ[1..]);
      assert above + [base[0]] + base[1..] == above + base;
      assert above + [base[0]] + targ[1..] == above + targ;
    } else {
      var ups := seq(|base|, _ => "..");
      assert base != [] ==> Named(base[0]);
      ResolveAppend(true, above + base, ups, targ);
      ClimbOut(above + base, |base|);
      assert (above + base)[..|above + base| - |base|] == above;
      ResolveKeeps(true, above, targ);
    }
  }
}
