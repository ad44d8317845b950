/**
  Slash-separated paths, and `rel` of core/engine/fileshare/handlers.go. Cleaning and joining follow the
  documented lexical rules of Go's path package.
 */
module Paths {

  // ---- strings and components ----

  function Split(s: string): (cs: seq<string>)
    ensures |cs| >= 1
  {
    if s == "" then [""]
    else
      var r := Split(s[1..]);
      if s[0] == '/' then [""] + r else [[s[0]] + r[0]] + r[1..]
  }

  function Join(cs: seq<string>): string {
    if cs == [] then ""
    else if |cs| == 1 then cs[0]
    else cs[0] + "/" + Join(cs[1..])
  }

  predicate Plain(c: string) {
    '/' !in c
  }

  /** A component that names an entry: not empty, not `.` and not `..`. */
  predicate Named(c: string) {
    Plain(c) && c != "" && c != "." && c != ".."
  }

  ghost predicate Normal(cs: seq<string>) {
    forall i :: 0 <= i < |cs| ==> Named(cs[i])
  }

  lemma {:induction false} SplitPlain(s: string)
    ensures forall i :: 0 <= i < |Split(s)| ==> Plain(Split(s)[i])
  {
    if s != "" { SplitPlain(s[1..]); }
  }

  lemma {:induction false} SplitFirst(c: string, rest: string)
    requires Plain(c)
    ensures Split(c + "/" + rest) == [c] + Split(rest)
    ensures Split(c) == [c]
  {
    if c == "" {
      assert c + "/" + rest == "/" + rest;
      assert ("/" + rest)[1..] == rest;
    } else {
      SplitFirst(c[1..], rest);
      assert (c + "/" + rest)[1..] == c[1..] + "/" + rest;
      assert [c[0]] + c[1..] == c;
    }
  }

  lemma {:induction false} SplitJoin(cs: seq<string>)
    requires cs != [] && forall i :: 0 <= i < |cs| ==> Plain(cs[i])
    ensures Split(Join(cs)) == cs
  {
    if |cs| == 1 {
      SplitFirst(cs[0], "");
    } else {
      SplitJoin(cs[1..]);
      SplitFirst(cs[0], Join(cs[1..]));
      assert [cs[0]] + cs[1..] == cs;
    }
  }

  lemma SplitHead(c: char, s: string)
    ensures Split([c] + s) == if c == '/' then [""] + Split(s) else [[c] + Split(s)[0]] + Split(s)[1..]
  {
    assert ([c] + s)[1..] == s;
  }

  lemma {:induction false} SplitConcat(a: string, b: string)
    ensures Split(a + "/" + b) == Split(a) + Split(b)
    decreases |a|
  {
    hide Split;
    if a == "" {
      SplitHead('/', b);
      SplitFirst("", "");
      assert a + "/" + b == ['/'] + b;
    } else {
      var r, q := Split(a[1..]), Split(b);
      SplitConcat(a[1..], b);
      assert a + "/" + b == [a[0]] + (a[1..] + "/" + b);
      SplitHead(a[0], a[1..] + "/" + b);
      assert a == [a[0]] + a[1..];
      SplitHead(a[0], a[1..]);
      assert (r + q)[1..] == r[1..] + q;
    }
  }

  // ---- path.Clean ----

  function Step(rooted: bool, st: seq<string>, c: string): seq<string> {
    if c == "" || c == "." then st
    else if c != ".." then st + [c]
    else if st != [] && (rooted || st[|st| - 1] != "..") then st[..|st| - 1]
    else if rooted then st
    else st + [".."]
  }

  function Resolve(rooted: bool, st: seq<string>, cs: seq<string>): seq<string>
    decreases |cs|
  {
    if cs == [] then st else Resolve(rooted, Step(rooted, st, cs[0]), cs[1..])
  }

  function Show(cs: seq<string>): string {
    if cs == [] then "." else Join(cs)
  }

  function Clean(p: string): string {
    if p != "" && p[0] == '/' then "/" + Join(Resolve(true, [], Split(p)))
    else Show(Resolve(false, [], Split(p)))
  }

  lemma {:induction false} ResolveAppend(rooted: bool, st: seq<string>, a: seq<string>, b: seq<string>)
    ensures Resolve(rooted, st, a + b) == Resolve(rooted, Resolve(rooted, st, a), b)
    decreases |a|
  {
    if a == [] {
      assert a + b == b;
    } else {
      assert (a + b)[1..] == a[1..] + b;
      ResolveAppend(rooted, Step(rooted, st, a[0]), a[1..], b);
    }
  }

  lemma ResolveOne(rooted: bool, st: seq<string>, c: string)
    ensures Resolve(rooted, st, [c]) == Step(rooted, st, c)
  {
    assert Resolve(rooted, Step(rooted, st, c), [c][1..]) == Step(rooted, st, c);
  }

  lemma {:induction false} ResolveNormal(st: seq<string>, cs: seq<string>)
    requires Normal(st) && forall i :: 0 <= i < |cs| ==> Plain(cs[i])
    ensures Normal(Resolve(true, st, cs))
    decreases |cs|
  {
    if cs != [] { ResolveNormal(Step(true, st, cs[0]), cs[1..]); }
  }

  /** Clean components are appended as they are. */
  lemma {:induction false} ResolveKeeps(rooted: bool, st: seq<string>, cs: seq<string>)
    requires Normal(cs)
    ensures Resolve(rooted, st, cs) == st + cs
    decreases |cs|
  {
    if cs == [] {
      assert st + cs == st;
    } else {
      assert Step(rooted, st, cs[0]) == st + [cs[0]];
      ResolveKeeps(rooted, st + [cs[0]], cs[1..]);
      assert st + [cs[0]] + cs[1..] == st + cs;
    }
  }

  /** A relative stack: parents to climb first, then names. */
  ghost predicate Climbs(st: seq<string>) {
    forall i :: 0 <= i < |st| ==> Plain(st[i]) && st[i] != "" && st[i] != "." &&
                                  (st[i] == ".." && i > 0 ==> st[i - 1] == "..")
  }

  lemma ClimbStep(st: seq<string>, c: string)
    requires Climbs(st) && Plain(c)
    ensures Climbs(Step(false, st, c))
    ensures Resolve(true, [], Step(false, st, c)) == Step(true, Resolve(true, [], st), c)
  {
    var next := Step(false, st, c);
    if c == ".." && st != [] && st[|st| - 1] != ".." {
      var up, top := st[..|st| - 1], st[|st| - 1];
      assert st == up + [top];
      ResolveAppend(true, [], up, [top]);
      assert Resolve(true, Step(true, Resolve(true, [], up), top), [top][1..]) == Resolve(true, [], up) + [top];
    } else if next != st {
      ResolveAppend(true, [], st, [c]);
      assert Resolve(true, Step(true, Resolve(true, [], st), c), [c][1..]) == Step(true, Resolve(true, [], st), c);
    }
  }

  /** Cleaning a relative path and resolving it below the root is resolving it below the root. */
  lemma {:induction false} RootedAfterRelative(st: seq<string>, cs: seq<string>)
    requires Climbs(st) && forall i :: 0 <= i < |cs| ==> Plain(cs[i])
    ensures Climbs(Resolve(false, st, cs))
    ensures Resolve(true, [], Resolve(false, st, cs)) == Resolve(true, Resolve(true, [], st), cs)
    decreases |cs|
  {
    if cs != [] {
      ClimbStep(st, cs[0]);
      RootedAfterRelative(Step(false, st, cs[0]), cs[1..]);
    }
  }

  /** Where a path leads below the root. */
  function Target(p: string): seq<string> {
    Resolve(true, [], Split(p))
  }

  lemma TargetNormal(p: string)
    ensures Normal(Target(p))
  {
    SplitPlain(p);
    ResolveNormal([], Split(p));
  }

  lemma TargetOfRooted(p: string)
    ensures Target("/" + p) == Target(p)
  {
    assert ("/" + p)[1..] == p;
  }

  lemma TargetOfShown(cs: seq<string>)
    requires Normal(cs)
    ensures Target(Show(cs)) == cs && Target("/" + Join(cs)) == cs
  {
    if cs == [] {
      SplitFirst(".", "");
      SplitFirst("", "");
    } else {
      SplitJoin(cs);
      ResolveKeeps(true, [], cs);
    }
    TargetOfRooted(Join(cs));
  }

  /** Cleaning never changes where a path leads. */
  lemma TargetOfClean(p: string)
    ensures Target(Clean(p)) == Target(p)
  {
    SplitPlain(p);
    if p != "" && p[0] == '/' {
      TargetNormal(p);
      TargetOfShown(Target(p));
    } else {
      RootedAfterRelative([], Split(p));
      var cs := Resolve(false, [], Split(p));
      if cs == [] { SplitFirst(".", ""); } else { SplitJoin(cs); }
    }
  }

  // ---- what the parts of a path do, on texts ----

  lemma SlashSplits(a: string, b: string)
    ensures Split(a + "/" + b) == Split(a) + Split(b)
    ensures (a + "/" + b)[0] == '/' <==> a == "" || a[0] == '/'
  {
    SplitConcat(a, b);
  }

  /** Cleaning depends on the components alone, and on whether the path starts at the root. */
  lemma CleanByParts(p: string, q: string)
    requires p != "" && q != "" && (p[0] == '/' <==> q[0] == '/')
    requires Resolve(p[0] == '/', [], Split(p)) == Resolve(q[0] == '/', [], Split(q))
    ensures Clean(p) == Clean(q)
  {
  }

  /** A name and the parent step after it cancel each other. */
  lemma ParentCancelsName(a: string, c: string, b: string)
    requires Named(c)
    ensures Clean(a + "/" + c + "/../" + b) == Clean(a + "/" + b)
  {
    hide Resolve, Split, Clean;
    var p, q := a + "/" + c + "/../" + b, a + "/" + b;
    var rooted := q[0] == '/';
    var st := Resolve(rooted, [], Split(a));
    SlashSplits(a, b);
    SlashSplits(a + "/" + c + "/" + "..", b);
    SlashSplits(a + "/" + c, "..");
    SlashSplits(a, c);
    SplitFirst(c, "");
    SplitFirst("..", "");
    assert p == a + "/" + c + "/" + ".." + "/" + b;
    assert Split(p) == Split(a) + ([c, ".."] + Split(b));
    ResolveAppend(rooted, [], Split(a), [c, ".."] + Split(b));
    ResolveAppend(rooted, st, [c, ".."], Split(b));
    ResolveAppend(rooted, [], Split(a), Split(b));
    assert Resolve(rooted, st, [c, ".."]) == st by {
      ResolveAppend(rooted, st, [c], [".."]);
      ResolveOne(rooted, st, c);
      ResolveOne(rooted, st + [c], "..");
      assert [c] + [".."] == [c, ".."];
    }
    CleanByParts(p, q);
  }

  /** Empty components and dots have no effect. */
  lemma DotCancels(a: string, c: string, b: string)
    requires c == "" || c == "."
    ensures Clean(a + "/" + c + "/" + b) == Clean(a + "/" + b)
  {
    hide Resolve, Split, Clean;
    var p, q := a + "/" + c + "/" + b, a + "/" + b;
    var rooted := q[0] == '/';
    var st := Resolve(rooted, [], Split(a));
    SlashSplits(a, b);
    SlashSplits(a + "/" + c, b);
    SlashSplits(a, c);
    SplitFirst(c, "");
    assert Split(p) == Split(a) + ([c] + Split(b));
    ResolveAppend(rooted, [], Split(a), [c] + Split(b));
    ResolveAppend(rooted, st, [c], Split(b));
    ResolveAppend(rooted, [], Split(a), Split(b));
    ResolveOne(rooted, st, c);
    CleanByParts(p, q);
  }

  /** Above the root there is only the root. */
  lemma ParentOfRoot(s: string)
    ensures Clean("/../" + s) == Clean("/" + s)
  {
    hide Resolve, Split, Clean;
    var p, q := "/../" + s, "/" + s;
    SlashSplits("", s);
    SlashSplits("/..", s);
    SlashSplits("", "..");
    SplitFirst("..", "");
    SplitFirst("", "");
    assert "" + "/" + ".." == "/.." && "" + "/" + s == q && "/.." + "/" + s == p;
    ResolveAppend(true, [], ["", ".."], Split(s));
    ResolveAppend(true, [], [""], Split(s));
    ResolveAppend(true, [], [""], [".."]);
    assert [""] + [".."] == ["", ".."];
    ResolveOne(true, [], "");
    ResolveOne(true, [], "..");
    CleanByParts(p, q);
  }

  function Parents(k: nat): seq<string> {
    seq(k, _ => "..")
  }

  lemma {:induction false} ResolveParents(k: nat)
    ensures Resolve(false, [], Parents(k)) == Parents(k)
  {
    if k == 0 {
      assert Parents(0) == [];
    } else {
      ResolveParents(k - 1);
      assert Parents(k) == Parents(k - 1) + [".."];
      ResolveAppend(false, [], Parents(k - 1), [".."]);
      ResolveOne(false, Parents(k - 1), "..");
    }
  }

  lemma ResolveRelative(k: nat, cs: seq<string>)
    requires Normal(cs)
    ensures Resolve(false, [], Parents(k) + cs) == Parents(k) + cs
  {
    hide Resolve;
    ResolveParents(k);
    ResolveAppend(false, [], Parents(k), cs);
    ResolveKeeps(false, Parents(k), cs);
  }

  lemma {:induction false} JoinHead(cs: seq<string>)
    requires cs != [] && cs[0] != "" && cs[0][0] != '/'
    ensures Join(cs) != "" && Join(cs)[0] != '/'
  {
  }

  /**
    Nothing else changes: a rooted path of names, and a relative one of names behind any number of parent steps, are
    clean. With the laws above this determines the result for every path.
   */
  lemma CleanKeeps(k: nat, cs: seq<string>)
    requires Normal(cs)
    ensures Clean("/" + Join(cs)) == "/" + Join(cs)
    ensures Parents(k) + cs != [] ==> Clean(Join(Parents(k) + cs)) == Join(Parents(k) + cs)
    ensures Clean("") == "." && Clean(".") == "."
  {
    hide Join, Resolve, Split;
    TargetOfShown(cs);
    SplitFirst(".", "");
    SplitFirst("", "");
    ResolveOne(false, [], ".");
    ResolveOne(false, [], "");
    var all := Parents(k) + cs;
    if all != [] {
      assert Plain("..");
      JoinHead(all);
      SplitJoin(all);
      ResolveRelative(k, cs);
    }
  }

  // ---- lengths: cleaning never makes a path longer ----

  function Weight(cs: seq<string>): nat {
    if cs == [] then 0 else |cs[0]| + 1 + Weight(cs[1..])
  }

  lemma {:induction false} WeightAppend(a: seq<string>, b: seq<string>)
    ensures Weight(a + b) == Weight(a) + Weight(b)
  {
    if a == [] {
      assert a + b == b;
    } else {
      assert (a + b)[1..] == a[1..] + b;
      WeightAppend(a[1..], b);
    }
  }

  lemma {:induction false} WeightJoin(cs: seq<string>)
    requires cs != []
    ensures |Join(cs)| + 1 == Weight(cs)
  {
    if |cs| > 1 { WeightJoin(cs[1..]); } else { assert Weight(cs[1..]) == 0; }
  }

  lemma {:induction false} WeightSplit(s: string)
    ensures Weight(Split(s)) == |s| + 1
  {
    if s != "" { WeightSplit(s[1..]); } else { assert Weight(Split(s)[1..]) == 0; }
  }

  lemma {:induction false} WeightResolve(st: seq<string>, cs: seq<string>)
    ensures Weight(Resolve(true, st, cs)) <= Weight(st) + Weight(cs)
    decreases |cs|
  {
    if cs != [] {
      var next := Step(true, st, cs[0]);
      if next == st + [cs[0]] {
        WeightAppend(st, [cs[0]]);
      } else if st != [] {
        WeightAppend(st[..|st| - 1], [st[|st| - 1]]);
        assert st[..|st| - 1] + [st[|st| - 1]] == st;
      }
      WeightResolve(next, cs[1..]);
    }
  }

  lemma TargetIsShort(p: string)
    ensures |Join(Target(p))| <= |p|
  {
    WeightSplit(p);
    WeightResolve([], Split(p));
    if Target(p) != [] { WeightJoin(Target(p)); }
  }

  // ---- strings.TrimSpace ----

  predicate IsSpace(c: char) {
    || c in "\t\n\r \U{000B}\U{000C}\U{0085}\U{00A0}\U{1680}\U{2028}\U{2029}\U{202F}\U{205F}\U{3000}"
    || '\U{2000}' <= c <= '\U{200A}'
  }

  function TrimLeft(s: string): string {
    if s != "" && IsSpace(s[0]) then TrimLeft(s[1..]) else s
  }

  function TrimRight(s: string): string {
    if s != "" && IsSpace(s[|s| - 1]) then TrimRight(s[..|s| - 1]) else s
  }

  function Trim(s: string): string {
    TrimRight(TrimLeft(s))
  }

  /** Neither the first nor the last character is white space. */
  predicate Tight(s: string) {
    s == "" || (!IsSpace(s[0]) && !IsSpace(s[|s| - 1]))
  }

  lemma TrimIsShort(s: string)
    ensures |TrimLeft(s)| <= |s| && |TrimRight(s)| <= |s|
  {
  }

  lemma TrimFixed(s: string)
    ensures Tight(s) ==> Trim(s) == s
    ensures !Tight(s) ==> |Trim(s)| < |s|
  {
    TrimIsShort(s);
    TrimIsShort(TrimLeft(s));
    if !Tight(s) {
      if IsSpace(s[0]) { TrimIsShort(s[1..]); } else { TrimIsShort(s[..|s| - 1]); }
    }
  }

  predicate AllSpace(s: string) {
    forall i :: 0 <= i < |s| ==> IsSpace(s[i])
  }

  lemma {:induction false} TrimLeftOf(l: string, s: string)
    requires AllSpace(l)
    ensures TrimLeft(l + s) == TrimLeft(s)
    decreases |l|
  {
    if l == "" {
      assert l + s == s;
    } else {
      assert (l + s)[1..] == l[1..] + s;
      TrimLeftOf(l[1..], s);
    }
  }

  lemma {:induction false} TrimRightOf(s: string, r: string)
    requires AllSpace(r)
    ensures TrimRight(s + r) == TrimRight(s)
    decreases |r|
  {
    if r == "" {
      assert s + r == s;
    } else {
      assert (s + r)[..|s + r| - 1] == s + r[..|r| - 1];
      TrimRightOf(s, r[..|r| - 1]);
    }
  }

  /** Exactly the white space at the ends is removed. */
  lemma TrimIs(l: string, s: string, r: string)
    requires AllSpace(l) && AllSpace(r) && Tight(s)
    ensures Trim(l + s + r) == s
  {
    assert l + s + r == l + (s + r);
    TrimLeftOf(l, s + r);
    if s == "" {
      assert s + r == r && r + "" == r;
      TrimLeftOf(r, "");
    } else {
      assert TrimLeft(s + r) == s + r;
      TrimRightOf(s, r);
      TrimFixed(s);
    }
  }

  /** Every text is white space around a tight middle. */
  lemma {:induction false} Ends(s: string) returns (l: string, m: string, r: string)
    ensures s == l + m + r && AllSpace(l) && AllSpace(r) && Tight(m)
    decreases |s|
  {
    hide IsSpace;
    if s == "" || Tight(s) {
      l, m, r := "", s, "";
    } else if IsSpace(s[0]) {
      l, m, r := Ends(s[1..]);
      l := [s[0]] + l;
      assert s == [s[0]] + s[1..];
    } else {
      l, m, r := Ends(s[..|s| - 1]);
      r := r + [s[|s| - 1]];
      assert s == s[..|s| - 1] + [s[|s| - 1]];
    }
  }

  // ---- rel ----

  /** `rel`: the request path as a path relative to the share's root. */
  function Rel(p: string): string {
    var q := Clean("/" + Trim(p));
    var r := if q != "" && q[0] == '/' then q[1..] else q;
    if r == "" then "." else r
  }

  lemma {:induction false} JoinOfNormal(cs: seq<string>)
    requires Normal(cs)
    ensures Join(cs) == "" <==> cs == []
    ensures cs != [] ==> Join(cs)[0] == cs[0][0] && Join(cs)[|Join(cs)| - 1] == cs[|cs| - 1][|cs[|cs| - 1]| - 1]
  {
    if |cs| > 1 { JoinOfNormal(cs[1..]); }
  }

  /** The result of rel is a normal form: names separated by single slashes, or the lone dot for the root. */
  lemma RelIsNormalForm(p: string)
    ensures Normal(Target(Trim(p)))
    ensures Rel(p) == Show(Target(Trim(p)))
    ensures Target(Rel(p)) == Target(Trim(p))
  {
    var cs := Target(Trim(p));
    TargetNormal(Trim(p));
    TargetOfRooted(Trim(p));
    assert Clean("/" + Trim(p)) == "/" + Join(cs);
    assert ("/" + Join(cs))[1..] == Join(cs);
    JoinOfNormal(cs);
    TargetOfShown(cs);
  }

  /** Because rel trims white space before cleaning, it is idempotent exactly on results without it at either end. */
  lemma RelIdempotentIff(p: string)
    ensures Rel(Rel(p)) == Rel(p) <==> Tight(Rel(p))
  {
    var r := Rel(p);
    RelIsNormalForm(p);
    RelIsNormalForm(r);
    TrimFixed(r);
    if Tight(r) {
      assert Trim(r) == r;
    } else {
      TargetIsShort(Trim(r));
    }
  }

  lemma LeadingSpace(s: string)
    ensures Trim(" " + s) == Trim(s)
  {
    assert (" " + s)[1..] == s;
  }

  lemma TrimsLeft()
    ensures Trim("/ a") == "/ a" && Trim(" a") == "a"
  {
    TrimFixed("/ a");
    LeadingSpace("a");
    TrimFixed("a");
  }

  lemma TargetOfName(c: string)
    requires Named(c)
    ensures Target(c) == [c] && Target("/" + c) == [c] && Show([c]) == c
  {
    SplitFirst(c, "");
    ResolveKeeps(true, [], [c]);
    TargetOfRooted(c);
  }

  /** For one, the name " a" loses its space, and so becomes another one, when rel is applied again. */
  lemma RelNeedsNoSpace()
    ensures Rel("/ a") == " a" && Rel(" a") == "a"
  {
    hide Trim, Rel, Target, Show;
    TrimsLeft();
    RelIsNormalForm("/ a");
    RelIsNormalForm(" a");
    TargetOfName(" a");
    TargetOfName("a");
    assert "/" + " a" == "/ a";
  }

  lemma SlashIsNoSpace()
    ensures !IsSpace('/')
  {
  }

  lemma {:induction false} TrimKeepsHead(p: string)
    requires p != "" && !IsSpace(p[0])
    ensures TrimRight(p) != "" && TrimRight(p)[0] == p[0]
  {
    if IsSpace(p[|p| - 1]) { TrimKeepsHead(p[..|p| - 1]); }
  }

  /** Once the last character goes, what is left is too short to name the same entry. */
  lemma TrimLonger(p: string, j: string)
    requires p == "/" + j && |Trim(p)| < |p| && j != "" && !(j == ".")
    ensures Rel(p) != j
  {
    var t := Trim(p);
    RelIsNormalForm(p);
    assert TrimLeft(p) == p;
    TrimKeepsHead(p);
    assert t != "" && t[0] == '/';
    hide Trim, TrimLeft, TrimRight, Rel, Target, Join;
    TargetOfRooted(t[1..]);
    assert "/" + t[1..] == t;
    TargetIsShort(t[1..]);
    assert |t[1..]| < |j|;
  }

  /** A clean absolute path names the same entry again exactly when its last name does not end in white space. */
  lemma RelOfAbsoluteIff(cs: seq<string>)
    requires Normal(cs) && cs != []
    ensures Rel("/" + Join(cs)) == Join(cs) <==> !IsSpace(cs[|cs| - 1][|cs[|cs| - 1]| - 1])
    ensures !IsSpace(cs[|cs| - 1][|cs[|cs| - 1]| - 1]) ==> Target(Trim("/" + Join(cs))) == cs
  {
    hide Rel, Trim, Target, Join, IsSpace;
    var p := "/" + Join(cs);
    JoinOfNormal(cs);
    TargetOfShown(cs);
    RelIsNormalForm(p);
    TrimFixed(p);
    SlashIsNoSpace();
    TargetOfShown([]);
    assert Show([]) == "." && Show(cs) == Join(cs);
    assert p[|p| - 1] == Join(cs)[|Join(cs)| - 1];
    if !Tight(p) { TrimLonger(p, Join(cs)); }
  }

  lemma {:induction false} JoinSnoc(cs: seq<string>, c: string)
    requires cs != []
    ensures Join(cs + [c]) == Join(cs) + "/" + c
  {
    if |cs| == 1 {
      assert (cs + [c])[1..] == [c];
    } else {
      assert (cs + [c])[1..] == cs[1..] + [c];
      JoinSnoc(cs[1..], c);
    }
  }

  lemma TrimsEnd(p: string)
    requires p != "" && p[0] == '/' && p[|p| - 1] == '/'
    ensures Trim(p + " ") == p
  {
    var s := p + " ";
    assert s[0] == '/' && TrimLeft(s) == s;
    assert s[|s| - 1] == ' ' && s[..|s| - 1] == p;
    assert TrimRight(s) == TrimRight(p);
  }

  lemma CleanOfRooted(p: string)
    requires p != "" && p[0] == '/'
    ensures Clean(p) == "/" + Join(Target(p))
  {
  }

  /**
    The way round that: with a further component of white space the path is still a clean one, and after trimming
    it leads to the entry, whatever its name ends in.
   */
  lemma RelOfSpacedOut(cs: seq<string>)
    requires Normal(cs) && cs != []
    ensures var p := "/" + Join(cs) + "/ "; Clean(p) == p && Rel(p) == Join(cs)
  {
    hide Clean, Rel, Resolve, Split, Join, Trim;
    var head := "/" + Join(cs);
    TargetOfShown(cs);
    SplitConcat(head, " ");
    SplitConcat(head, "");
    SplitFirst(" ", "");
    SplitFirst("", "");
    ResolveAppend(true, [], Split(head), [" "]);
    ResolveAppend(true, [], Split(head), [""]);
    ResolveOne(true, cs, " ");
    ResolveOne(true, cs, "");
    JoinSnoc(cs, " ");
    assert head + "/" + "" == head + "/" && head + "/" + " " == head + "/ ";
    assert "/" + (Join(cs) + "/" + " ") == head + "/ ";
    CleanOfRooted(head + "/ ");
    assert (head + "/") + " " == head + "/ ";
    TrimsEnd(head + "/");
    RelIsNormalForm(head + "/ ");
  }

  lemma {:induction false} TrimLeftUpTo(a: string, t: string)
    requires t != "" && !IsSpace(t[0])
    ensures TrimLeft(a + t) == TrimLeft(a) + t
    decreases |a|
  {
    hide IsSpace;
    if a == "" {
      assert a + t == t;
    } else {
      assert (a + t)[1..] == a[1..] + t;
      TrimLeftUpTo(a[1..], t);
    }
  }

  lemma {:induction false} TrimRightUpTo(t: string, b: string)
    requires t != "" && !IsSpace(t[|t| - 1])
    ensures TrimRight(t + b) == t + TrimRight(b)
    decreases |b|
  {
    hide IsSpace;
    if b == "" {
      assert t + b == t;
    } else {
      assert (t + b)[..|t + b| - 1] == t + b[..|b| - 1];
      TrimRightUpTo(t, b[..|b| - 1]);
    }
  }

  /** With something solid in the middle, each end is trimmed for itself. */
  lemma TrimAround(a: string, mid: string, b: string)
    requires mid != "" && !IsSpace(mid[0]) && !IsSpace(mid[|mid| - 1])
    ensures Trim(a + mid + b) == TrimLeft(a) + mid + TrimRight(b)
  {
    hide IsSpace, TrimLeft, TrimRight;
    assert a + mid + b == a + (mid + b);
    TrimLeftUpTo(a, mid + b);
    var t := TrimLeft(a) + mid;
    assert TrimLeft(a) + (mid + b) == t + b;
    TrimRightUpTo(t, b);
  }

  lemma TrimBetween(a: string, mid: string, b: string)
    requires mid != "" && mid[0] == '/' && mid[|mid| - 1] == '/'
    ensures "/" + Trim(a + mid + b) == "/" + TrimLeft(a) + mid + TrimRight(b)
  {
    hide IsSpace, Trim, TrimLeft, TrimRight;
    SlashIsNoSpace();
    TrimAround(a, mid, b);
  }

  /** For rel, too, a name and the parent step after it cancel each other, and empty components and dots vanish. */
  lemma RelOfParent(a: string, c: string, b: string)
    requires Named(c) || c == "." || c == ""
    ensures Rel(a + "/" + c + (if Named(c) then "/../" else "/") + b) == Rel(a + "/" + b)
  {
    hide Clean, Trim, TrimLeft, TrimRight;
    var up := if Named(c) then "/../" else "/";
    var l, r := "/" + TrimLeft(a), TrimRight(b);
    TrimBetween(a, "/", b);
    TrimBetween(a, "/" + c + up, b);
    assert a + ("/" + c + up) + b == a + "/" + c + up + b;
    assert l + ("/" + c + up) + r == l + "/" + c + up + r;
    if Named(c) { ParentCancelsName(l, c, r); } else { DotCancels(l, c, r); }
  }
}
