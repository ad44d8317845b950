/** Sorting of integers, as the library sorts of Go and Dart leave a list. */
module Sorting {
  import opened Common

  ghost predicate Ascending(s: seq<int>) {
    forall i, j :: 0 <= i < j < |s| ==> s[i] <= s[j]
  }

  function Insert(x: int, s: seq<int>): seq<int> {
    if s == [] || x <= s[0] then [x] + s else [s[0]] + Insert(x, s[1..])
  }

  function Sort(s: seq<int>): seq<int> {
    if s == [] then [] else Insert(s[0], Sort(s[1..]))
  }

  lemma {:induction false} InsertBag(x: int, s: seq<int>)
    ensures multiset(Insert(x, s)) == multiset(s) + multiset{x}
    ensures forall y :: y in Insert(x, s) <==> y == x || y in s
  {
    if s != [] && x > s[0] {
      InsertBag(x, s[1..]);
      assert s == [s[0]] + s[1..];
    }
  }

  lemma {:induction false} InsertKeeps(x: int, s: seq<int>)
    requires Ascending(s)
    ensures Ascending(Insert(x, s))
  {
    if s != [] && x > s[0] {
      InsertKeeps(x, s[1..]);
      InsertBag(x, s[1..]);
      var r := Insert(x, s[1..]);
      forall k | 0 <= k < |r| ensures s[0] <= r[k] { assert r[k] in r; }
    }
  }

  lemma {:induction false} SortBag(s: seq<int>)
    ensures multiset(Sort(s)) == multiset(s)
    ensures forall y :: y in Sort(s) <==> y in s
  {
    if s != [] {
      SortBag(s[1..]);
      InsertBag(s[0], Sort(s[1..]));
      assert s == [s[0]] + s[1..];
    }
  }

  lemma {:induction false} SortKeeps(s: seq<int>)
    ensures Ascending(Sort(s)) && multiset(Sort(s)) == multiset(s)
    ensures forall y :: y in Sort(s) <==> y in s
  {
    SortBag(s);
    if s != [] {
      SortKeeps(s[1..]);
      InsertKeeps(s[0], Sort(s[1..]));
    }
  }

  lemma {:induction false} CountDistinct(s: seq<int>, x: int)
    ensures Distinct(s) ==> multiset(s)[x] <= 1
    ensures (forall y :: multiset(s)[y] <= 1) ==> Distinct(s)
  {
    if s != [] {
      assert s == [s[0]] + s[1..];
      CountDistinct(s[1..], x);
      if forall y :: multiset(s)[y] <= 1 {
        assert forall y :: multiset(s[1..])[y] <= multiset(s)[y];
        assert s[0] !in s[1..] by { assert multiset(s)[s[0]] == 1 + multiset(s[1..])[s[0]]; }
      }
    }
  }

  /** Without repetitions, sorted is strictly increasing. */
  lemma SortDistinct(s: seq<int>)
    requires Distinct(s)
    ensures StrictlyIncreasing(Sort(s))
  {
    SortKeeps(s);
    forall y ensures multiset(Sort(s))[y] <= 1 { CountDistinct(s, y); }
    CountDistinct(Sort(s), 0);
  }
}
