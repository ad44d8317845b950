/** core/engine/fileshare/backend.go: a hand-picked set of files and folders under one virtual root. */
module Backend {
  import opened Common
  import opened Decimal
  import opened Paths

  datatype Item = Item(name: string, size: int, isDir: bool, path: string)

  /** One picked path with what os.Stat and os.OpenRoot answer for it. */
  datatype Picked = Picked(path: string, base: string, stat: Option<(int, bool)>, opens: bool)

  datatype PathsBackend = PathsBackend(entries: seq<Item>, byName: map<string, Item>, roots: map<string, string>)

  // ---- uniqueName ----

  /** filepath.Ext: from the last dot of the last path element on. */
  function Ext(s: string, n: nat): (e: string)
    requires n <= |s|
    ensures |e| <= |s|
    ensures e == s[|s| - |e|..]
  {
    if n == 0 || s[n - 1] == '/' then ""
    else if s[n - 1] == '.' then s[n - 1..]
    else Ext(s, n - 1)
  }

  function Candidate(name: string, i: nat): string {
    var ext := Ext(name, |name|);
    name[..|name| - |ext|] + " (" + Dec(i) + ")" + ext
  }

  lemma {:induction false} ExtOf(stem: string, e: string, k: nat)
    requires '.' !in e && '/' !in e && k <= |e|
    ensures Ext(stem + "." + e, |stem| + 1 + k) == (stem + "." + e)[|stem|..]
    decreases k
  {
    var s := stem + "." + e;
    if k == 0 {
      assert s[|stem|] == '.';
    } else {
      assert s[|stem| + k] == e[k - 1];
      ExtOf(stem, e, k - 1);
    }
  }

  lemma {:induction false} NoExt(s: string, n: nat)
    requires n <= |s| && '.' !in s[..n]
    ensures Ext(s, n) == ""
  {
    if n > 0 {
      assert s[n - 1] in s[..n];
      assert forall c :: c in s[..n - 1] ==> c in s[..n];
      NoExt(s, n - 1);
    }
  }

  lemma CandidateWithExt(stem: string, e: string, i: nat)
    requires '.' !in e && '/' !in e
    ensures Candidate(stem + "." + e, i) == stem + " (" + Dec(i) + ")." + e
  {
    hide Ext, Dec;
    var s := stem + "." + e;
    ExtOf(stem, e, |e|);
    assert s[|stem|..] == "." + e && s[..|stem|] == stem;
    assert stem + " (" + Dec(i) + ")" + ("." + e) == stem + " (" + Dec(i) + ")." + e;
  }

  lemma CandidateWithout(stem: string, i: nat)
    requires '.' !in stem
    ensures Candidate(stem, i) == stem + " (" + Dec(i) + ")"
  {
    hide Ext, Dec;
    assert stem[..|stem|] == stem;
    NoExt(stem, |stem|);
  }

  /** The number goes before the extension, in brackets after a space; without an extension it goes at the end. */
  lemma CandidateReads(stem: string, e: string, i: nat)
    ensures '.' !in e && '/' !in e ==> Candidate(stem + "." + e, i) == stem + " (" + Dec(i) + ")." + e
    ensures '.' !in stem ==> Candidate(stem, i) == stem + " (" + Dec(i) + ")"
  {
    hide Candidate, Dec;
    if '.' !in e && '/' !in e { CandidateWithExt(stem, e, i); }
    if '.' !in stem { CandidateWithout(stem, i); }
  }

  /** The middle of a text between a fixed head and tail. */
  lemma MiddleIs(head: string, mid: string, tail: string)
    ensures var s := head + mid + tail; |s| == |head| + |mid| + |tail| && s[|head|..|s| - |tail|] == mid
  {
  }

  lemma CandidatesDiffer(name: string, i: nat, j: nat)
    requires Candidate(name, i) == Candidate(name, j)
    ensures i == j
  {
    hide Ext, Dec;
    var ext := Ext(name, |name|);
    var head, tail := name[..|name| - |ext|] + " (", ")" + ext;
    assert forall k: nat :: Candidate(name, k) == head + Dec(k) + tail;
    MiddleIs(head, Dec(i), tail);
    MiddleIs(head, Dec(j), tail);
    DecInjective(i, j);
  }

  lemma CandidateIsNew(name: string, i: nat)
    ensures Candidate(name, i) != name
  {
    assert |Candidate(name, i)| > |name|;
  }

  function Candidates(name: string, k: nat): set<string> {
    if k == 0 then {} else Candidates(name, k - 1) + {Candidate(name, k + 1)}
  }

  lemma {:induction false} NotAmong(name: string, k: nat, c: string)
    requires c == name || exists i :: i >= k + 2 && c == Candidate(name, i)
    ensures c !in Candidates(name, k)
  {
    hide Candidate;
    if k > 0 {
      if c == name {
        CandidateIsNew(name, k + 1);
      } else {
        var i: nat :| i >= k + 2 && c == Candidate(name, i);
        if c == Candidate(name, k + 1) { CandidatesDiffer(name, i, k + 1); }
      }
      NotAmong(name, k - 1, c);
    }
  }

  lemma {:induction false} CandidatesCount(name: string, k: nat)
    ensures |Candidates(name, k)| == k
  {
    hide Candidate;
    if k > 0 {
      CandidatesCount(name, k - 1);
      NotAmong(name, k - 1, Candidate(name, k + 1));
    }
  }

  lemma {:induction false} AllAmong(name: string, k: nat, taken: set<string>)
    requires forall j :: 2 <= j < k + 2 ==> Candidate(name, j) in taken
    ensures Candidates(name, k) <= taken
  {
    hide Candidate;
    if k > 0 { AllAmong(name, k - 1, taken); }
  }

  lemma {:induction false} SubsetCount<T>(a: set<T>, b: set<T>)
    requires a <= b
    ensures |a| <= |b|
  {
    if a != {} {
      var x :| x in a;
      SubsetCount(a - {x}, b - {x});
    }
  }

  /** Pigeonhole: k different candidates, none of them the name itself, do not fit beside it in k taken names. */
  lemma TooManyCandidates(taken: set<string>, name: string, k: nat)
    requires name in taken && forall j :: 2 <= j < k + 2 ==> Candidate(name, j) in taken
    ensures k < |taken|
  {
    hide Candidate;
    AllAmong(name, k, taken);
    CandidatesCount(name, k);
    NotAmong(name, k, name);
    SubsetCount(Candidates(name, k), taken - {name});
  }

  /** The loop ends: a free name turns up within the first |taken| numbered candidates, and it is the first. */
  method UniqueName(taken: map<string, Item>, name: string) returns (r: string)
    ensures r !in taken
    ensures name !in taken ==> r == name
    ensures name in taken ==> exists i :: 2 <= i <= |taken.Keys| + 1 && r == Candidate(name, i) &&
                                           forall j :: 2 <= j < i ==> Candidate(name, j) in taken
  {
    hide Candidate;
    if name !in taken {
      return name;
    }
    var i := 2;
    while true
      invariant 2 <= i <= |taken.Keys| + 1
      invariant forall j :: 2 <= j < i ==> Candidate(name, j) in taken
      decreases |taken.Keys| + 1 - i
    {
      var cand := Candidate(name, i);
      if cand !in taken {
        return cand;
      }
      TooManyCandidates(taken.Keys, name, i - 1);
      i := i + 1;
    }
  }

  // ---- the order of names ----

  /** Go's order on strings. On valid UTF-8 the order of bytes is the order of code points. */
  predicate Less(a: string, b: string) {
    b != "" && (a == "" || a[0] < b[0] || (a[0] == b[0] && Less(a[1..], b[1..])))
  }

  lemma {:induction false} LessTrans(a: string, b: string, c: string)
    requires Less(a, b) && Less(b, c)
    ensures Less(a, c)
  {
    if a != "" && a[0] == b[0] && b[0] == c[0] { LessTrans(a[1..], b[1..], c[1..]); }
  }

  lemma {:induction false} LessTotal(a: string, b: string)
    ensures a == b || Less(a, b) || Less(b, a)
    ensures !(Less(a, b) && Less(b, a)) && (a == b ==> !Less(a, b))
  {
    if a != "" && b != "" && a[0] == b[0] {
      LessTotal(a[1..], b[1..]);
      assert a == [a[0]] + a[1..] && b == [b[0]] + b[1..];
    }
  }

  ghost predicate Ascending(s: seq<Item>) {
    forall i, j :: 0 <= i < j < |s| ==> Less(s[i].name, s[j].name)
  }

  function Insert(e: Item, s: seq<Item>): seq<Item> {
    if s == [] || Less(e.name, s[0].name) then [e] + s else [s[0]] + Insert(e, s[1..])
  }

  function SortByName(s: seq<Item>): seq<Item> {
    if s == [] then [] else Insert(s[|s| - 1], SortByName(s[..|s| - 1]))
  }

  ghost predicate SameItems(s: seq<Item>, t: seq<Item>) {
    |s| == |t| && multiset(s) == multiset(t)
  }

  lemma {:induction false} InsertItems(e: Item, s: seq<Item>)
    ensures SameItems(Insert(e, s), [e] + s)
  {
    if s != [] && !Less(e.name, s[0].name) {
      InsertItems(e, s[1..]);
      assert s == [s[0]] + s[1..];
    }
  }

  lemma {:induction false} InsertAscending(e: Item, s: seq<Item>)
    requires Ascending(s) && forall i :: 0 <= i < |s| ==> s[i].name != e.name
    ensures Ascending(Insert(e, s))
  {
    if s == [] {
    } else if Less(e.name, s[0].name) {
      forall j | 0 < j < |s| ensures Less(e.name, s[j].name) { LessTrans(e.name, s[0].name, s[j].name); }
    } else {
      LessTotal(e.name, s[0].name);
      InsertAscending(e, s[1..]);
      InsertItems(e, s[1..]);
      var t := Insert(e, s[1..]);
      forall j | 0 <= j < |t| ensures Less(s[0].name, t[j].name) {
        assert t[j] in multiset(t);
        assert t[j] in multiset([e] + s[1..]);
        assert t[j] in [e] + s[1..];
      }
    }
  }

  /** Sorting distinct names gives the one ascending arrangement of the same entries. */
  lemma {:induction false} SortedItems(s: seq<Item>)
    requires forall i, j :: 0 <= i < j < |s| ==> s[i].name != s[j].name
    ensures SameItems(SortByName(s), s) && Ascending(SortByName(s))
  {
    if s != [] {
      var front, e := s[..|s| - 1], s[|s| - 1];
      SortedItems(front);
      var t := SortByName(front);
      forall i | 0 <= i < |t| ensures t[i].name != e.name {
        assert t[i] in multiset(t);
        assert t[i] in front;
      }
      InsertAscending(e, t);
      InsertItems(e, t);
      assert s == front + [e];
    }
  }

  // ---- newPathsBackend ----

  predicate Usable(p: Picked) {
    p.stat.Some? && (p.stat.value.1 ==> p.opens)
  }

  function EntryOf(p: Picked, name: string): Item
    requires p.stat.Some?
  {
    Item(name, if p.stat.value.1 then 0 else p.stat.value.0, p.stat.value.1, p.path)
  }

  /** byName agrees with the entries, and there is an open root exactly for each directory. */
  ghost predicate Indexed(entries: seq<Item>, byName: map<string, Item>, roots: map<string, string>) {
    && (forall i, j :: 0 <= i < j < |entries| ==> entries[i].name != entries[j].name)
    && (forall e :: e in entries ==> e.name in byName && byName[e.name] == e)
    && (forall n :: n in byName ==> byName[n] in entries && byName[n].name == n)
    && (forall n :: n in roots <==> n in byName && byName[n].isDir)
    && (forall n :: n in roots ==> n in byName && roots[n] == byName[n].path)
  }

  /** What an entry says of the pick: a directory has no size of its own. */
  predicate Describes(e: Item, p: Picked) {
    p.stat.Some? && e.path == p.path && e.isDir == p.stat.value.1 && e.size == if e.isDir then 0 else p.stat.value.0
  }

  /** The names are the base names, numbered only where an earlier pick has taken the name. */
  ghost predicate NamesPicks(unsorted: seq<Item>, picks: seq<Picked>) {
    && |unsorted| == |picks|
    && forall i :: 0 <= i < |picks| ==>
         && Describes(unsorted[i], picks[i])
         && (unsorted[i].name == picks[i].base ||
             exists k :: 2 <= k <= i + 1 && unsorted[i].name == Candidate(picks[i].base, k))
         && (unsorted[i].name != picks[i].base ==> exists j :: 0 <= j < i && unsorted[j].name == picks[i].base)
  }

  ghost predicate WellBuilt(b: PathsBackend, picks: seq<Picked>, unsorted: seq<Item>) {
    && NamesPicks(unsorted, picks)
    && SameItems(b.entries, unsorted)
    && Ascending(b.entries)
    && Indexed(b.entries, b.byName, b.roots)
  }

  lemma {:induction false} NamesCount(entries: seq<Item>)
    ensures |set e | e in entries :: e.name| <= |entries|
  {
    var names := set e | e in entries :: e.name;
    if entries == [] {
      assert names == {};
    } else {
      var front, e := entries[..|entries| - 1], entries[|entries| - 1];
      NamesCount(front);
      var fewer := set x | x in front :: x.name;
      assert entries == front + [e];
      assert names == fewer + {e.name};
    }
  }

  lemma IndexKeysCount(entries: seq<Item>, byName: map<string, Item>, roots: map<string, string>)
    requires Indexed(entries, byName, roots)
    ensures |byName.Keys| <= |entries|
  {
    NamesCount(entries);
    SubsetCount(byName.Keys, set e | e in entries :: e.name);
  }

  lemma NoPicksYet(picks: seq<Picked>)
    ensures Indexed([], map[], map[]) && NamesPicks([], picks[..0])
  {
  }

  lemma IndexedNames(entries: seq<Item>, byName: map<string, Item>, roots: map<string, string>)
    requires Indexed(entries, byName, roots)
    ensures forall i, j :: 0 <= i < j < |entries| ==> entries[i].name != entries[j].name
  {
  }

  lemma NamesOneMore(before: seq<Item>, picks: seq<Picked>, k: nat, e: Item)
    requires k < |picks| && NamesPicks(before, picks[..k]) && picks[k].stat.Some? && e == EntryOf(picks[k], e.name)
    requires e.name == picks[k].base || exists i :: 2 <= i <= k + 1 && e.name == Candidate(picks[k].base, i)
    requires e.name != picks[k].base ==> exists j :: 0 <= j < k && before[j].name == picks[k].base
    ensures NamesPicks(before + [e], picks[..k + 1])
  {
    var after := before + [e];
    forall i | 0 <= i < k + 1
      ensures after[i].name != picks[i].base ==> exists j :: 0 <= j < i && after[j].name == picks[i].base
    {
      if after[i].name != picks[i].base {
        if i < k {
          assert picks[..k][i] == picks[i];
          var j :| 0 <= j < i && before[j].name == picks[i].base;
          assert after[j].name == picks[i].base;
        } else {
          var j :| 0 <= j < k && before[j].name == picks[k].base;
          assert after[j].name == picks[k].base;
        }
      }
    }
    forall i | 0 <= i < k ensures picks[..k + 1][i] == picks[..k][i] && after[i] == before[i] {}
  }

  lemma IndexedOneMore(entries: seq<Item>, byName: map<string, Item>, roots: map<string, string>, e: Item)
    requires Indexed(entries, byName, roots) && e.name !in byName
    ensures Indexed(entries + [e], byName[e.name := e], if e.isDir then roots[e.name := e.path] else roots)
  {
    assert forall i :: 0 <= i < |entries| ==> entries[i] in entries;
  }

  /** One pick more, under the name that was chosen for it. */
  lemma OnePickMore(entries: seq<Item>, byName: map<string, Item>, roots: map<string, string>, picks: seq<Picked>,
                    k: nat, name: string)
    requires k < |picks| && Usable(picks[k]) && NamesPicks(entries, picks[..k]) && Indexed(entries, byName, roots)
    requires name !in byName
    requires picks[k].base !in byName ==> name == picks[k].base
    requires picks[k].base in byName ==> exists i :: 2 <= i <= |byName.Keys| + 1 && name == Candidate(picks[k].base, i)
    ensures var e := EntryOf(picks[k], name);
      && NamesPicks(entries + [e], picks[..k + 1])
      && Indexed(entries + [e], byName[name := e], if picks[k].stat.value.1 then roots[name := picks[k].path] else roots)
  {
    hide Candidate;
    var e := EntryOf(picks[k], name);
    IndexedOneMore(entries, byName, roots, e);
    IndexKeysCount(entries, byName, roots);
    if picks[k].base in byName {
      assert byName[picks[k].base] in entries;
    }
    NamesOneMore(entries, picks, k, e);
  }

  lemma RootNames(entries: seq<Item>, byName: map<string, Item>, roots: map<string, string>)
    requires Indexed(entries, byName, roots)
    ensures roots.Keys == set e | e in entries && e.isDir :: e.name
  {
  }

  lemma IndexOfSorted(entries: seq<Item>, sorted: seq<Item>, byName: map<string, Item>, roots: map<string, string>)
    requires Indexed(entries, byName, roots) && SameItems(sorted, entries) && Ascending(sorted)
    ensures Indexed(sorted, byName, roots)
  {
    forall e ensures e in sorted <==> e in entries {
      assert e in sorted <==> e in multiset(sorted);
      assert e in entries <==> e in multiset(entries);
    }
    forall i, j | 0 <= i < j < |sorted| ensures sorted[i].name != sorted[j].name {
      LessTotal(sorted[i].name, sorted[j].name);
    }
  }

  /** On failure every root opened so far is closed again: `closed` lists their names. */
  method NewPathsBackend(picks: seq<Picked>)
    returns (r: Result<PathsBackend, string>, closed: set<string>, ghost unsorted: seq<Item>)
    ensures r.Ok? <==> forall i :: 0 <= i < |picks| ==> Usable(picks[i])
    ensures r.Ok? ==> closed == {} && WellBuilt(r.value, picks, unsorted)
    ensures r.Err? ==> exists i :: 0 <= i < |picks| && !Usable(picks[i]) && r.error == picks[i].path &&
                          (forall j :: 0 <= j < i ==> Usable(picks[j])) &&
                          NamesPicks(unsorted, picks[..i]) && closed == (set e | e in unsorted && e.isDir :: e.name)
  {
    var entries: seq<Item>, byName: map<string, Item>, roots: map<string, string> := [], map[], map[];
    hide Indexed, NamesPicks, SameItems, Ascending, SortByName, Candidate;
    NoPicksYet(picks);
    for k := 0 to |picks|
      invariant forall i :: 0 <= i < k ==> Usable(picks[i])
      invariant NamesPicks(entries, picks[..k])
      invariant Indexed(entries, byName, roots)
    {
      var p := picks[k];
      if p.stat == None {
        RootNames(entries, byName, roots);
        return Err(p.path), roots.Keys, entries;
      }
      var name := UniqueName(byName, p.base);
      IndexKeysCount(entries, byName, roots);
      var e := EntryOf(p, name);
      if Usable(p) { OnePickMore(entries, byName, roots, picks, k, name); }
      if p.stat.value.1 {
        if !p.opens {
          RootNames(entries, byName, roots);
          return Err(p.path), roots.Keys, entries;
        }
        roots := roots[name := p.path];
      }
      entries := entries + [e];
      byName := byName[name := e];
    }
    unsorted := entries;
    IndexedNames(entries, byName, roots);
    SortedItems(entries);
    var sorted := SortByName(entries);
    IndexOfSorted(entries, sorted, byName, roots);
    assert picks[..|picks|] == picks;
    r, closed := Ok(PathsBackend(sorted, byName, roots)), {};
  }

  // ---- split ----

  /** strings.Cut at the first slash. */
  function Cut(s: string): (string, string) {
    if s == "" then ("", "")
    else if s[0] == '/' then ("", s[1..])
    else ([s[0]] + Cut(s[1..]).0, Cut(s[1..]).1)
  }

  /** `split`: the entry a relative path leads to and the path inside it. */
  function Locate(byName: map<string, Item>, rel: string): Option<(Item, string)> {
    if rel == "." || rel == "" then None
    else
      var (name, sub) := Cut(rel);
      if name !in byName then None else Some((byName[name], if sub == "" then "." else sub))
  }

  lemma {:induction false} CutFirst(c: string, rest: string)
    requires Plain(c)
    ensures Cut(c + "/" + rest) == (c, rest)
    ensures Cut(c) == (c, "")
  {
    if c == "" {
      assert c + "/" + rest == "/" + rest;
    } else {
      CutFirst(c[1..], rest);
      assert (c + "/" + rest)[1..] == c[1..] + "/" + rest;
      assert [c[0]] + c[1..] == c;
    }
  }

  lemma LocateShown(byName: map<string, Item>, cs: seq<string>)
    requires Normal(cs)
    ensures Locate(byName, Show(cs)) ==
      if cs == [] || cs[0] !in byName then None else Some((byName[cs[0]], Show(cs[1..])))
  {
    if cs != [] {
      JoinOfNormal(cs);
      JoinOfNormal(cs[1..]);
      CutFirst(cs[0], Join(cs[1..]));
      if |cs| == 1 {
        assert Join(cs) == cs[0];
      }
    }
  }

  /** What any request resolves to: the entry its first component names, and nothing outside the index. */
  lemma LocateOfRequest(byName: map<string, Item>, p: string)
    ensures var cs := Target(Trim(p));
      Locate(byName, Rel(p)) ==
        if cs == [] || cs[0] !in byName then None else Some((byName[cs[0]], Show(cs[1..])))
  {
    RelIsNormalForm(p);
    LocateShown(byName, Target(Trim(p)));
  }

  lemma ShowInjective(a: seq<string>, b: seq<string>)
    requires Normal(a) && Normal(b) && Show(a) == Show(b)
    ensures a == b
  {
    TargetOfShown(a);
    TargetOfShown(b);
  }

  lemma SameRequest(ts: seq<string>, name: string, sub: seq<string>)
    requires Normal(ts) && Normal(sub) && ts != [] && ts[0] == name && Show(ts[1..]) == Show(sub)
    ensures ts == [name] + sub
  {
    ShowInjective(ts[1..], sub);
    assert ts == [ts[0]] + ts[1..];
  }

  /**
    The absolute path of something inside an entry resolves to that entry and that inner path exactly when its
    last name does not end in white space.
   */
  lemma EntryResolvesIff(entries: seq<Item>, byName: map<string, Item>, roots: map<string, string>,
                         name: string, sub: seq<string>)
    requires Indexed(entries, byName, roots) && name in byName && Normal([name] + sub)
    ensures var cs := [name] + sub; var last := cs[|cs| - 1];
      Locate(byName, Rel("/" + Join(cs))) == Some((byName[name], Show(sub))) <==> !IsSpace(last[|last| - 1])
  {
    var cs := [name] + sub;
    var p := "/" + Join(cs);
    RelOfAbsoluteIff(cs);
    RelIsNormalForm(p);
    assert cs[1..] == sub;
    if Rel(p) == Join(cs) {
      LocateShown(byName, cs);
    } else {
      var ts := Target(Trim(p));
      LocateShown(byName, ts);
      if Locate(byName, Rel(p)) == Some((byName[name], Show(sub))) {
        SameRequest(ts, name, sub);
      }
    }
  }

  /** For one, the name "a " is missed by its own path and met by a longer clean one. */
  lemma SpacedNameMissed(entries: seq<Item>, byName: map<string, Item>, roots: map<string, string>)
    requires Indexed(entries, byName, roots) && "a " in byName
    ensures Locate(byName, Rel("/a ")) != Some((byName["a "], "."))
    ensures Clean("/a / ") == "/a / " && Locate(byName, Rel("/a / ")) == Some((byName["a "], "."))
  {
    hide Rel, Clean, Locate, Indexed;
    var cs := ["a "];
    assert Join(cs) == "a " && "/" + Join(cs) == "/a " && "/" + Join(cs) + "/ " == "/a / ";
    assert ["a "] + [] == cs && cs[1..] == [];
    EntryResolvesIff(entries, byName, roots, "a ", []);
    RelOfSpacedOut(cs);
    LocateShown(byName, cs);
  }
}
