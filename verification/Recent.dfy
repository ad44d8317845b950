/** app/lib/core/recent.dart: the bounded list of peers the user connected to, most recent first. */
module Recent {
  import opened Common

  datatype Peer = Peer(token: string, name: string, lastMs: int, alias: Option<string>)

  function Without(list: seq<Peer>, token: string): seq<Peer> {
    if list == [] then []
    else if list[0].token == token then Without(list[1..], token)
    else [list[0]] + Without(list[1..], token)
  }

  function AliasIn(list: seq<Peer>, token: string): Option<string> {
    if list == [] then None
    else if list[0].token == token then list[0].alias
    else AliasIn(list[1..], token)
  }

  function Take(list: seq<Peer>, n: nat): seq<Peer> {
    if n < |list| then list[..n] else list
  }

  function Renamed(list: seq<Peer>, token: string, alias: string): seq<Peer> {
    seq(|list|, i requires 0 <= i < |list| => if list[i].token == token then list[i].(alias := Some(alias)) else list[i])
  }

  /** The list without a bound on its length. */
  function Touched(list: seq<Peer>, token: string, name: string, now: int): seq<Peer> {
    [Peer(token, name, now, AliasIn(list, token))] + Without(list, token)
  }

  // ---- runs ----

  datatype Op =
    | Touching(token: string, name: string, now: int)
    | Renaming(token: string, alias: string)
    | Removing(token: string)

  function After(list: seq<Peer>, op: Op, max: nat): seq<Peer> {
    match op
    case Touching(token, name, now) => Take(Touched(list, token, name, now), max)
    case Renaming(token, alias) => Renamed(list, token, alias)
    case Removing(token) => Without(list, token)
  }

  function AfterFull(list: seq<Peer>, op: Op): seq<Peer> {
    match op
    case Touching(token, name, now) => Touched(list, token, name, now)
    case Renaming(token, alias) => Renamed(list, token, alias)
    case Removing(token) => Without(list, token)
  }

  function Bounded(ops: seq<Op>, max: nat): seq<Peer> {
    if ops == [] then [] else After(Bounded(ops[..|ops| - 1], max), ops[|ops| - 1], max)
  }

  function Full(ops: seq<Op>): seq<Peer> {
    if ops == [] then [] else AfterFull(Full(ops[..|ops| - 1]), ops[|ops| - 1])
  }

  predicate Has(list: seq<Peer>, token: string) {
    exists i :: 0 <= i < |list| && list[i].token == token
  }

  ghost predicate Unique(list: seq<Peer>) {
    forall i, j :: 0 <= i < j < |list| ==> list[i].token != list[j].token
  }

  /** Everything but the alias. */
  predicate SameEntry(a: Peer, b: Peer) {
    a.token == b.token && a.name == b.name && a.lastMs == b.lastMs
  }

  predicate Similar(a: Peer, b: Peer) {
    SameEntry(a, b) && (a.alias.Some? ==> a.alias == b.alias)
  }

  ghost predicate Agree(b: seq<Peer>, f: seq<Peer>) {
    |b| <= |f| && forall i :: 0 <= i < |b| ==> Similar(b[i], f[i])
  }

  /** `b` lists the first `max` entries of `f`, and shows no alias that `f` does not. */
  ghost predicate FirstOf(b: seq<Peer>, f: seq<Peer>, max: nat) {
    |b| == (if max < |f| then max else |f|) && Agree(b, f)
  }

  // ---- without ----

  lemma {:induction false} WithoutAbsent(list: seq<Peer>, token: string)
    requires !Has(list, token)
    ensures Without(list, token) == list
  {
    if list != [] {
      assert !Has(list[1..], token) by { assert forall i :: 0 <= i < |list[1..]| ==> list[1..][i] == list[i + 1]; }
      WithoutAbsent(list[1..], token);
      assert list == [list[0]] + list[1..];
    }
  }

  /** Removing the only entry of a token closes the gap it leaves. */
  lemma {:induction false} WithoutAt(list: seq<Peer>, token: string, k: nat)
    requires Unique(list) && k < |list| && list[k].token == token
    ensures Without(list, token) == list[..k] + list[k + 1..] && AliasIn(list, token) == list[k].alias
  {
    if k == 0 {
      assert !Has(list[1..], token) by { assert forall i :: 0 <= i < |list[1..]| ==> list[1..][i] == list[i + 1]; }
      WithoutAbsent(list[1..], token);
    } else {
      assert list[0].token != token;
      WithoutAt(list[1..], token, k - 1);
      assert list[..k] == [list[0]] + list[1..][..k - 1];
      assert list[1..][k..] == list[k + 1..];
    }
  }

  lemma {:induction false} AliasAbsent(list: seq<Peer>, token: string)
    requires !Has(list, token)
    ensures AliasIn(list, token) == None
  {
    if list != [] {
      assert !Has(list[1..], token) by { assert forall i :: 0 <= i < |list[1..]| ==> list[1..][i] == list[i + 1]; }
      AliasAbsent(list[1..], token);
    }
  }

  /** Either the token is nowhere, or it is at exactly one place. */
  lemma WithoutEither(list: seq<Peer>, token: string)
    requires Unique(list)
    ensures Unique(Without(list, token)) && !Has(Without(list, token), token)
    ensures forall q :: q in Without(list, token) ==> q in list
  {
    if Has(list, token) {
      var k :| 0 <= k < |list| && list[k].token == token;
      WithoutAt(list, token, k);
    } else {
      WithoutAbsent(list, token);
    }
  }

  lemma {:induction false} FullUnique(ops: seq<Op>)
    ensures Unique(Full(ops))
  {
    if ops != [] {
      var f, op := Full(ops[..|ops| - 1]), ops[|ops| - 1];
      FullUnique(ops[..|ops| - 1]);
      if !op.Renaming? { WithoutEither(f, op.token); }
    }
  }

  // ---- refinement ----

  lemma FirstOfUnique(b: seq<Peer>, f: seq<Peer>, max: nat)
    requires FirstOf(b, f, max) && Unique(f)
    ensures Unique(b) && forall token :: Has(b, token) ==> Has(f, token)
  {
  }

  lemma AbsentIsLater(b: seq<Peer>, f: seq<Peer>, max: nat, token: string, k: nat)
    requires FirstOf(b, f, max) && !Has(b, token) && k < |f| && f[k].token == token
    ensures k >= |b|
  {
    assert forall i :: 0 <= i < |b| ==> b[i].token != token;
  }

  lemma CutAgree(b: seq<Peer>, f: seq<Peer>, k: nat)
    requires Agree(b, f) && k < |b|
    ensures Agree(b[..k] + b[k + 1..], f[..k] + f[k + 1..])
  {
  }

  lemma TokenAgrees(a: Peer, b: Peer)
    requires Similar(a, b)
    ensures a.token == b.token
    ensures forall token, name, now ::
              Similar(Peer(token, name, now, a.alias), Peer(token, name, now, b.alias))
  {
  }

  lemma OnTop(x: Peer, y: Peer, b: seq<Peer>, f: seq<Peer>)
    requires Similar(x, y) && Agree(b, f)
    ensures Agree([x] + b, [y] + f)
  {
  }

  lemma TouchResident(b: seq<Peer>, f: seq<Peer>, max: nat, token: string, name: string, now: int)
    requires FirstOf(b, f, max) && Unique(f) && Has(b, token)
    ensures FirstOf(Take(Touched(b, token, name, now), max), Touched(f, token, name, now), max)
  {
    hide Without, AliasIn, SameEntry;
    FirstOfUnique(b, f, max);
    var k: nat :| k < |b| && b[k].token == token;
    assert Similar(b[k], f[k]);
    TokenAgrees(b[k], f[k]);
    WithoutAt(b, token, k);
    WithoutAt(f, token, k);
    CutAgree(b, f, k);
    var x, y := Peer(token, name, now, b[k].alias), Peer(token, name, now, f[k].alias);
    OnTop(x, y, b[..k] + b[k + 1..], f[..k] + f[k + 1..]);
  }

  lemma NoAliasIsSimilar(x: Peer, y: Peer)
    requires x.token == y.token && x.name == y.name && x.lastMs == y.lastMs && x.alias == None
    ensures Similar(x, y)
  {
  }

  /** What is hidden can go without disturbing the first entries. */
  lemma HiddenRest(b: seq<Peer>, f: seq<Peer>, max: nat, token: string)
    requires FirstOf(b, f, max) && Unique(f) && !Has(b, token)
    ensures Agree(b, Without(f, token)) && |Without(f, token)| <= |f|
    ensures |Without(f, token)| == |f| || (|b| == max && |Without(f, token)| + 1 == |f|)
  {
    hide AliasIn, SameEntry, Unique;
    if Has(f, token) {
      var k: nat :| k < |f| && f[k].token == token;
      AbsentIsLater(b, f, max, token, k);
      WithoutAt(f, token, k);
    } else {
      WithoutAbsent(f, token);
    }
  }

  lemma TouchHidden(b: seq<Peer>, f: seq<Peer>, max: nat, token: string, name: string, now: int)
    requires FirstOf(b, f, max) && Unique(f) && !Has(b, token)
    ensures FirstOf(Take(Touched(b, token, name, now), max), Touched(f, token, name, now), max)
  {
    hide Without, AliasIn, SameEntry;
    WithoutAbsent(b, token);
    AliasAbsent(b, token);
    var x, y := Peer(token, name, now, None), Peer(token, name, now, AliasIn(f, token));
    assert Similar(x, y) by { NoAliasIsSimilar(x, y); }
    HiddenRest(b, f, max, token);
    OnTop(x, y, b, Without(f, token));
  }

  lemma TouchKeepsFirst(b: seq<Peer>, f: seq<Peer>, max: nat, token: string, name: string, now: int)
    requires FirstOf(b, f, max) && Unique(f)
    ensures FirstOf(Take(Touched(b, token, name, now), max), Touched(f, token, name, now), max)
  {
    hide FirstOf, Touched, Take;
    if Has(b, token) { TouchResident(b, f, max, token, name, now); } else { TouchHidden(b, f, max, token, name, now); }
  }

  lemma RemoveResident(b: seq<Peer>, f: seq<Peer>, max: nat, token: string)
    requires FirstOf(b, f, max) && Unique(f) && Has(b, token)
    ensures FirstOf(Without(b, token), Without(f, token), max) <==> |f| <= max
  {
    hide Without, AliasIn, Similar;
    FirstOfUnique(b, f, max);
    var k: nat :| k < |b| && b[k].token == token;
    assert Similar(b[k], f[k]);
    TokenAgrees(b[k], f[k]);
    WithoutAt(b, token, k);
    WithoutAt(f, token, k);
    CutAgree(b, f, k);
  }

  lemma RemoveHidden(b: seq<Peer>, f: seq<Peer>, max: nat, token: string)
    requires FirstOf(b, f, max) && Unique(f) && !Has(b, token)
    ensures FirstOf(Without(b, token), Without(f, token), max)
  {
    hide Similar, Without;
    WithoutAbsent(b, token);
    HiddenRest(b, f, max, token);
  }

  /** Removing keeps the list the first entries of the full one exactly when nothing hidden has to move up. */
  lemma RemoveKeepsFirstIff(b: seq<Peer>, f: seq<Peer>, max: nat, token: string)
    requires FirstOf(b, f, max) && Unique(f)
    ensures FirstOf(Without(b, token), Without(f, token), max) <==> !Has(b, token) || |f| <= max
  {
    if Has(b, token) { RemoveResident(b, f, max, token); } else { RemoveHidden(b, f, max, token); }
  }

  /** Room for one: "a" is pushed out by "b", and does not come back when "b" is removed. */
  lemma RemovalCanLose()
    ensures var ops := [Touching("a", "A", 1), Touching("b", "B", 2), Removing("b")];
      Bounded(ops, 1) == [] && Full(ops) == [Peer("a", "A", 1, None)] && !FirstOf(Bounded(ops, 1), Full(ops), 1)
  {
    var ops := [Touching("a", "A", 1), Touching("b", "B", 2), Removing("b")];
    var a, b := Peer("a", "A", 1, None), Peer("b", "B", 2, None);
    assert ops[..2] == [Touching("a", "A", 1), Touching("b", "B", 2)] && ops[..2][..1] == [Touching("a", "A", 1)];
    assert ops[..2][..1][..0] == [];
    assert Bounded(ops[..2][..1], 1) == [a] && Full(ops[..2][..1]) == [a];
    WithoutAbsent([a], "b");
    AliasAbsent([a], "b");
    assert Bounded(ops[..2], 1) == [b] && Full(ops[..2]) == [b, a];
    WithoutAt([b], "b", 0);
    WithoutAt([b, a], "b", 0);
  }

  /** A run in which nothing is removed while entries have already been pushed out of it. */
  ghost predicate NoLossyRemove(ops: seq<Op>, max: nat) {
    forall i :: 0 <= i < |ops| && ops[i].Removing? ==> !Has(Bounded(ops[..i], max), ops[i].token) || |Full(ops[..i])| <= max
  }

  /** The bounded list refines the unbounded one: after any such run it is its first `max` entries. */
  lemma {:induction false} RefinesFull(ops: seq<Op>, max: nat)
    requires NoLossyRemove(ops, max)
    ensures FirstOf(Bounded(ops, max), Full(ops), max)
  {
    if ops != [] {
      var n := |ops| - 1;
      var front, op := ops[..n], ops[n];
      forall i | 0 <= i < n ensures front[..i] == ops[..i] {}
      RefinesFull(front, max);
      FullUnique(front);
      match op
      case Touching(token, name, now) => TouchKeepsFirst(Bounded(front, max), Full(front), max, token, name, now);
      case Renaming(token, alias) =>
      case Removing(token) => RemoveKeepsFirstIff(Bounded(front, max), Full(front), max, token);
    }
  }

  lemma TouchesNeverLossy(ops: seq<Op>, max: nat)
    requires forall op :: op in ops ==> !op.Removing?
    ensures FirstOf(Bounded(ops, max), Full(ops), max)
  {
    assert forall i :: 0 <= i < |ops| ==> ops[i] in ops;
    RefinesFull(ops, max);
  }

  // ---- order and aliases ----

  ghost predicate Newest(list: seq<Peer>) {
    forall i, j :: 0 <= i <= j < |list| ==> list[i].lastMs >= list[j].lastMs
  }

  ghost predicate Clocked(ops: seq<Op>) {
    forall i, j :: 0 <= i <= j < |ops| && ops[i].Touching? && ops[j].Touching? ==> ops[i].now <= ops[j].now
  }

  ghost predicate TouchedAt(ops: seq<Op>, ms: int) {
    exists i :: 0 <= i < |ops| && ops[i].Touching? && ops[i].now == ms
  }

  /** Every time in the list is that of some touch. */
  ghost predicate TimesFrom(list: seq<Peer>, ops: seq<Op>) {
    forall q :: q in list ==> TouchedAt(ops, q.lastMs)
  }

  lemma TimesFromMore(list: seq<Peer>, ops: seq<Op>, op: Op)
    requires TimesFrom(list, ops)
    ensures TimesFrom(list, ops + [op])
  {
    forall q | q in list ensures TouchedAt(ops + [op], q.lastMs) {
      assert TouchedAt(ops, q.lastMs);
      var i :| 0 <= i < |ops| && ops[i].Touching? && ops[i].now == q.lastMs;
      assert (ops + [op])[i] == ops[i];
    }
  }

  lemma AfterUnique(list: seq<Peer>, op: Op, max: nat)
    requires Unique(list)
    ensures Unique(After(list, op, max))
  {
    WithoutEither(list, op.token);
    var w := Without(list, op.token);
    assert !Has(w, op.token);
  }

  lemma {:induction false} WithoutShorter(list: seq<Peer>, token: string)
    ensures |Without(list, token)| <= |list|
  {
    if list != [] { WithoutShorter(list[1..], token); }
  }

  lemma AfterFits(list: seq<Peer>, op: Op, max: nat)
    requires Unique(list) && |list| <= max
    ensures |After(list, op, max)| <= max
  {
    WithoutShorter(list, op.token);
  }

  /** Whatever the clock does, no token is listed twice and the list is never longer than allowed. */
  lemma {:induction false} NeverTwice(ops: seq<Op>, max: nat)
    ensures Unique(Bounded(ops, max)) && |Bounded(ops, max)| <= max
  {
    if ops != [] {
      hide Unique, After;
      NeverTwice(ops[..|ops| - 1], max);
      AfterUnique(Bounded(ops[..|ops| - 1], max), ops[|ops| - 1], max);
      AfterFits(Bounded(ops[..|ops| - 1], max), ops[|ops| - 1], max);
    } else {
      assert Bounded(ops, max) == [];
    }
  }

  lemma RemovingIs(list: seq<Peer>, op: Op, max: nat)
    requires op.Removing?
    ensures After(list, op, max) == Without(list, op.token)
  {
  }

  lemma FewerTimes(list: seq<Peer>, ops: seq<Op>, token: string)
    requires TimesFrom(list, ops) && Unique(list)
    ensures TimesFrom(Without(list, token), ops)
  {
    WithoutEither(list, token);
  }

  lemma RenameNewest(list: seq<Peer>, ops: seq<Op>, max: nat)
    requires ops != [] && ops[|ops| - 1].Renaming?
    requires Newest(list) && TimesFrom(list, ops)
    ensures var r := After(list, ops[|ops| - 1], max); Newest(r) && TimesFrom(r, ops)
  {
  }

  lemma NotLater(ops: seq<Op>, ms: int)
    requires ops != [] && ops[|ops| - 1].Touching? && Clocked(ops) && TouchedAt(ops, ms)
    ensures ms <= ops[|ops| - 1].now
  {
  }

  lemma LastTouch(ops: seq<Op>)
    requires ops != [] && ops[|ops| - 1].Touching?
    ensures TouchedAt(ops, ops[|ops| - 1].now)
  {
  }

  lemma WithoutNewest(list: seq<Peer>, token: string)
    requires Newest(list) && Unique(list)
    ensures Newest(Without(list, token))
  {
    if Has(list, token) {
      var k :| 0 <= k < |list| && list[k].token == token;
      WithoutAt(list, token, k);
    } else {
      WithoutAbsent(list, token);
    }
  }

  lemma TouchNewest(list: seq<Peer>, ops: seq<Op>, max: nat)
    requires ops != [] && ops[|ops| - 1].Touching? && Clocked(ops)
    requires Newest(list) && Unique(list) && TimesFrom(list, ops)
    ensures var r := After(list, ops[|ops| - 1], max); Newest(r) && TimesFrom(r, ops)
  {
    var op := ops[|ops| - 1];
    hide Without, AliasIn, TouchedAt;
    WithoutNewest(list, op.token);
    WithoutEither(list, op.token);
    var w := Without(list, op.token);
    forall i | 0 <= i < |w| ensures w[i].lastMs <= op.now {
      assert w[i] in list && TouchedAt(ops, w[i].lastMs);
      NotLater(ops, w[i].lastMs);
    }
    assert TouchedAt(ops, op.now) by { LastTouch(ops); }
  }

  /** With a clock that never falls, the list is ordered by time, newest first. */
  lemma {:induction false} NewestFirst(ops: seq<Op>, max: nat)
    requires Clocked(ops)
    ensures Newest(Bounded(ops, max)) && TimesFrom(Bounded(ops, max), ops)
  {
    if ops != [] {
      hide Newest, Unique, TimesFrom, After;
      var n := |ops| - 1;
      var front, op := ops[..n], ops[n];
      NewestFirst(front, max);
      NeverTwice(front, max);
      assert ops == front + [op];
      TimesFromMore(Bounded(front, max), front, op);
      match op
      case Touching(_, _, _) => TouchNewest(Bounded(front, max), ops, max);
      case Renaming(_, _) => RenameNewest(Bounded(front, max), ops, max);
      case Removing(token) =>
        WithoutNewest(Bounded(front, max), token);
        FewerTimes(Bounded(front, max), ops, token);
        RemovingIs(Bounded(front, max), op, max);
    } else {
      assert Bounded(ops, max) == [];
    }
  }

  /** Its alias is the one of the only entry with the token. */
  lemma AliasOf(list: seq<Peer>, token: string, q: Peer)
    requires Unique(list) && q in list && q.token == token
    ensures AliasIn(list, token) == q.alias
  {
    var k: nat :| k < |list| && list[k] == q;
    WithoutAt(list, token, k);
  }

  lemma AliasOfSome(list: seq<Peer>, token: string) returns (q: Peer)
    requires Unique(list) && Has(list, token)
    ensures q in list && q.token == token && AliasIn(list, token) == q.alias
  {
    var k: nat :| k < |list| && list[k].token == token;
    q := list[k];
    AliasOf(list, token, q);
  }

  lemma RenameOthers(list: seq<Peer>, op: Op, max: nat, q: Peer)
    requires op.Renaming? && q in After(list, op, max) && q.token != op.token
    ensures q in list
  {
  }

  lemma AfterTouch(list: seq<Peer>, op: Op, max: nat, q: Peer)
    requires op.Touching? && Unique(list) && q in After(list, op, max) && q.token == op.token
    ensures q.alias == AliasIn(list, op.token)
  {
    WithoutEither(list, op.token);
    var w := Without(list, op.token);
    assert forall k :: 0 <= k < |w| ==> w[k].token != op.token;
  }

  lemma OthersStay(list: seq<Peer>, op: Op, max: nat, q: Peer)
    requires !op.Renaming? && Unique(list) && q in After(list, op, max) && (op.Touching? ==> q.token != op.token)
    ensures q in list
  {
    WithoutEither(list, op.token);
  }

  /** One operation on a list: an entry that stays keeps its alias, unless it is the one renamed. */
  lemma AliasKept(list: seq<Peer>, op: Op, max: nat, token: string)
    requires Unique(list) && Has(list, token) && Has(After(list, op, max), token)
    requires !(op.Renaming? && op.token == token)
    ensures AliasIn(After(list, op, max), token) == AliasIn(list, token)
  {
    hide Without, AliasIn, Has;
    var next := After(list, op, max);
    var q := AliasOfSome(list, token);
    WithoutEither(list, op.token);
    AfterUnique(list, op, max);
    var q' := AliasOfSome(next, token);
    if op.Renaming? {
      RenameOthers(list, op, max, q');
      AliasOf(list, token, q');
    } else if op.Touching? && op.token == token {
      AfterTouch(list, op, max, q');
    } else {
      assert q' in list by { OthersStay(list, op, max, q'); }
      AliasOf(list, token, q');
    }
  }

  /** An alias survives for as long as its entry is listed and not renamed, whatever else is touched or removed. */
  lemma {:induction false} AliasSurvives(ops: seq<Op>, more: seq<Op>, max: nat, token: string)
    requires forall i :: 0 <= i <= |more| ==> Has(Bounded(ops + more[..i], max), token)
    requires forall op :: op in more ==> !(op.Renaming? && op.token == token)
    ensures AliasIn(Bounded(ops + more, max), token) == AliasIn(Bounded(ops, max), token)
    decreases |more|
  {
    hide Has, AliasIn, After;
    if more == [] {
      assert ops + more == ops;
    } else {
      var n := |more| - 1;
      var front, op := more[..n], more[n];
      forall i | 0 <= i <= n ensures Has(Bounded(ops + front[..i], max), token) { assert front[..i] == more[..i]; }
      AliasSurvives(ops, front, max, token);
      NeverTwice(ops + front, max);
      assert more[..n + 1] == more && ops + front == (ops + more)[..|ops| + n];
      assert op in more && (ops + more)[|ops| + n] == op;
      assert Has(Bounded(ops + front, max), token) by { assert front[..n] == front; }
      assert Bounded(ops + more, max) == After(Bounded(ops + front, max), op, max);
      AliasKept(Bounded(ops + front, max), op, max, token);
    }
  }

  /** An entry that has been pushed out, or was never there, comes back without an alias. */
  lemma EvictedLosesAlias(list: seq<Peer>, token: string, name: string, now: int, max: nat)
    requires !Has(list, token) && max > 0
    ensures After(list, Touching(token, name, now), max)[0] == Peer(token, name, now, None)
  {
    AliasAbsent(list, token);
  }

  // ---- what a run of operations says about one token ----

  /** The last touch of the token, unless it was removed since. */
  function LastTouched(ops: seq<Op>, token: string): Option<nat> {
    if ops == [] then None
    else
      var n := |ops| - 1;
      if ops[n].token != token || ops[n].Renaming? then LastTouched(ops[..n], token)
      else if ops[n].Touching? then Some(n) else None
  }

  /** The last alias given to the token while it was listed, unless it was removed since. */
  function AliasSaid(ops: seq<Op>, token: string): Option<string> {
    if ops == [] then None
    else
      var n := |ops| - 1;
      if ops[n].token != token || ops[n].Touching? then AliasSaid(ops[..n], token)
      else if ops[n].Removing? then None
      else if LastTouched(ops[..n], token) == None then AliasSaid(ops[..n], token)
      else Some(ops[n].alias)
  }

  /** The entry is its token's last touch, with the last alias it was given. */
  ghost predicate Says(ops: seq<Op>, q: Peer) {
    var k := LastTouched(ops, q.token);
    && k.Some? && k.value < |ops| && ops[k.value] == Touching(q.token, q.name, q.lastMs)
    && q.alias == AliasSaid(ops, q.token)
  }

  ghost predicate LaterTouch(ops: seq<Op>, a: Peer, b: Peer) {
    var j, k := LastTouched(ops, a.token), LastTouched(ops, b.token);
    j.Some? && k.Some? && j.value > k.value
  }

  ghost predicate AllSay(list: seq<Peer>, ops: seq<Op>) {
    forall i :: 0 <= i < |list| ==> Says(ops, list[i])
  }

  ghost predicate LatestFirst(list: seq<Peer>, ops: seq<Op>) {
    forall i, j :: 0 <= i < j < |list| ==> LaterTouch(ops, list[i], list[j])
  }

  /** One entry for each token touched and not removed since, the one touched last first. */
  ghost predicate Reflects(list: seq<Peer>, ops: seq<Op>) {
    && AllSay(list, ops) && LatestFirst(list, ops)
    && forall token :: LastTouched(ops, token).Some? ==> Has(list, token)
  }

  lemma {:induction false} LastTouchedIs(ops: seq<Op>, token: string)
    ensures var k := LastTouched(ops, token);
      k.Some? ==> k.value < |ops| && ops[k.value].Touching? && ops[k.value].token == token
    ensures LastTouched(ops, token) == None ==> AliasSaid(ops, token) == None
  {
    if ops != [] { LastTouchedIs(ops[..|ops| - 1], token); }
  }

  lemma SaysMore(ops: seq<Op>, op: Op, q: Peer)
    requires Says(ops, q) && op.token != q.token
    ensures Says(ops + [op], q) && LastTouched(ops + [op], q.token) == LastTouched(ops, q.token)
  {
    assert (ops + [op])[..|ops|] == ops;
  }

  lemma OthersMore(ops: seq<Op>, op: Op, token: string)
    requires op.token != token
    ensures LastTouched(ops + [op], token) == LastTouched(ops, token)
  {
    assert (ops + [op])[..|ops|] == ops;
  }

  lemma {:induction false} StaysIn(list: seq<Peer>, token: string, i: nat)
    requires i < |list| && list[i].token != token
    ensures list[i] in Without(list, token)
  {
    if i > 0 { StaysIn(list[1..], token, i - 1); }
  }

  lemma SayMore(list: seq<Peer>, ops: seq<Op>, op: Op)
    requires AllSay(list, ops) && LatestFirst(list, ops) && forall i :: 0 <= i < |list| ==> list[i].token != op.token
    ensures AllSay(list, ops + [op]) && LatestFirst(list, ops + [op])
  {
    hide Says, LastTouched, AliasSaid;
    forall i | 0 <= i < |list|
      ensures Says(ops + [op], list[i]) && LastTouched(ops + [op], list[i].token) == LastTouched(ops, list[i].token)
    {
      SaysMore(ops, op, list[i]);
    }
    forall i, j | 0 <= i < j < |list| ensures LaterTouch(ops + [op], list[i], list[j]) {
      assert LaterTouch(ops, list[i], list[j]);
    }
  }

  lemma WithoutSays(list: seq<Peer>, ops: seq<Op>, token: string)
    requires Unique(list) && AllSay(list, ops) && LatestFirst(list, ops)
    ensures var w := Without(list, token);
      AllSay(w, ops) && LatestFirst(w, ops) && forall i :: 0 <= i < |w| ==> w[i].token != token
  {
    hide Says, LaterTouch, Without;
    if Has(list, token) {
      var k: nat :| k < |list| && list[k].token == token;
      WithoutAt(list, token, k);
    } else {
      WithoutAbsent(list, token);
    }
    WithoutEither(list, token);
  }

  lemma WithoutHas(list: seq<Peer>, ops: seq<Op>, op: Op, token: string)
    requires Reflects(list, ops) && token != op.token && LastTouched(ops + [op], token).Some?
    ensures Has(Without(list, op.token), token)
  {
    hide Says, LastTouched, AliasSaid, Without;
    OthersMore(ops, op, token);
    var i: nat :| i < |list| && list[i].token == token;
    StaysIn(list, op.token, i);
    var w := Without(list, op.token);
    var m: nat :| m < |w| && w[m] == list[i];
  }

  lemma WithoutReflects(list: seq<Peer>, ops: seq<Op>, op: Op)
    requires Unique(list) && Reflects(list, ops)
    ensures var w := Without(list, op.token);
      && AllSay(w, ops + [op]) && LatestFirst(w, ops + [op])
      && (forall token :: token != op.token && LastTouched(ops + [op], token).Some? ==> Has(w, token))
  {
    hide AllSay, LatestFirst, LastTouched, Without;
    WithoutSays(list, ops, op.token);
    SayMore(Without(list, op.token), ops, op);
    forall token | token != op.token && LastTouched(ops + [op], token).Some?
      ensures Has(Without(list, op.token), token)
    {
      WithoutHas(list, ops, op, token);
    }
  }

  lemma TouchedSays(list: seq<Peer>, ops: seq<Op>, op: Op)
    requires Unique(list) && Reflects(list, ops) && op.Touching?
    ensures Says(ops + [op], AfterFull(list, op)[0])
  {
    assert (ops + [op])[..|ops|] == ops;
    if Has(list, op.token) {
      var k: nat :| k < |list| && list[k].token == op.token;
      WithoutAt(list, op.token, k);
    } else {
      AliasAbsent(list, op.token);
      LastTouchedIs(ops, op.token);
    }
  }

  lemma TouchedBefore(ops: seq<Op>, op: Op, q: Peer)
    requires Says(ops + [op], q) && q.token != op.token
    ensures LastTouched(ops + [op], q.token).Some? && LastTouched(ops + [op], q.token).value < |ops|
  {
    OthersMore(ops, op, q.token);
    LastTouchedIs(ops, q.token);
  }

  lemma OnTopReflects(x: Peer, w: seq<Peer>, ops: seq<Op>, op: Op)
    requires op.Touching? && x.token == op.token && Says(ops + [op], x)
    requires AllSay(w, ops + [op]) && LatestFirst(w, ops + [op]) && forall i :: 0 <= i < |w| ==> w[i].token != op.token
    ensures AllSay([x] + w, ops + [op]) && LatestFirst([x] + w, ops + [op])
  {
    var all, next := ops + [op], [x] + w;
    assert all[..|ops|] == ops;
    assert LastTouched(all, op.token) == Some(|ops|);
    hide Says, LastTouched, AliasSaid;
    forall i | 0 <= i < |next| ensures Says(all, next[i]) {
      if i > 0 { assert Says(all, w[i - 1]); }
    }
    forall i, j | 0 <= i < j < |next| ensures LaterTouch(all, next[i], next[j]) {
      assert Says(all, w[j - 1]);
      if i == 0 { TouchedBefore(ops, op, w[j - 1]); } else { assert LaterTouch(all, w[i - 1], w[j - 1]); }
    }
  }

  lemma TouchReflects(list: seq<Peer>, ops: seq<Op>, op: Op)
    requires Unique(list) && Reflects(list, ops) && op.Touching?
    ensures Reflects(AfterFull(list, op), ops + [op])
  {
    var next, w, all := AfterFull(list, op), Without(list, op.token), ops + [op];
    TouchedSays(list, ops, op);
    hide Says, LastTouched, AliasSaid, Without, AllSay, LatestFirst;
    WithoutReflects(list, ops, op);
    WithoutSays(list, ops, op.token);
    assert next == [next[0]] + w;
    OnTopReflects(next[0], w, ops, op);
    forall token | LastTouched(all, token).Some? ensures Has(next, token) {
      if token == op.token {
        assert next[0].token == token;
      } else {
        var m: nat :| m < |w| && w[m].token == token;
        assert next[m + 1] == w[m];
      }
    }
  }

  lemma RenameReflects(list: seq<Peer>, ops: seq<Op>, op: Op)
    requires Reflects(list, ops) && op.Renaming?
    ensures Reflects(AfterFull(list, op), ops + [op])
  {
    var next, all := AfterFull(list, op), ops + [op];
    assert all[..|ops|] == ops;
    assert forall token :: LastTouched(all, token) == LastTouched(ops, token);
    forall i | 0 <= i < |next| ensures Says(all, next[i]) { assert Says(ops, list[i]); }
    forall i, j | 0 <= i < j < |next| ensures LaterTouch(all, next[i], next[j]) {
      assert LaterTouch(ops, list[i], list[j]);
    }
    forall token | LastTouched(all, token).Some? ensures Has(next, token) {
      var i: nat :| i < |list| && list[i].token == token;
      assert next[i].token == token;
    }
  }

  lemma RemoveReflects(list: seq<Peer>, ops: seq<Op>, op: Op)
    requires Unique(list) && Reflects(list, ops) && op.Removing?
    ensures Reflects(AfterFull(list, op), ops + [op])
  {
    assert (ops + [op])[..|ops|] == ops;
    assert LastTouched(ops + [op], op.token) == None;
    hide LastTouched, Without, AllSay, LatestFirst;
    WithoutReflects(list, ops, op);
    assert AfterFull(list, op) == Without(list, op.token);
    forall token | LastTouched(ops + [op], token).Some? ensures Has(Without(list, op.token), token) {
      assert token != op.token;
    }
  }

  /**
    The full list says what was done: it has one entry for every token touched and not removed since, ordered by last
    touch, with the name and time of that touch and the last alias given.
   */
  lemma {:induction false} FullReflects(ops: seq<Op>)
    ensures Reflects(Full(ops), ops)
  {
    if ops != [] {
      hide Reflects;
      var front, op := ops[..|ops| - 1], ops[|ops| - 1];
      FullReflects(front);
      FullUnique(front);
      assert ops == front + [op];
      match op {
        case Touching(_, _, _) => TouchReflects(Full(front), front, op);
        case Renaming(_, _) => RenameReflects(Full(front), front, op);
        case Removing(_) => RemoveReflects(Full(front), front, op);
      }
    }
  }

  /** Renaming gives the listed entry exactly that alias and changes nothing else, also in the bounded list. */
  lemma RenameSets(list: seq<Peer>, token: string, alias: string, max: nat)
    ensures var r := After(list, Renaming(token, alias), max);
      && |r| == |list|
      && forall i :: 0 <= i < |r| ==>
           SameEntry(r[i], list[i]) && r[i].alias == if list[i].token == token then Some(alias) else list[i].alias
  {
  }

  // ---- the notifier ----

  /** `ops` records every call, so that `Valid` ties the list to the runs above. */
  class RecentPeers {
    const maxItems: nat
    var state: seq<Peer>
    ghost var ops: seq<Op>

    ghost predicate Valid()
      reads this
    {
      state == Bounded(ops, maxItems)
    }

    constructor (maxItems: nat)
      ensures Valid() && this.maxItems == maxItems && ops == []
    {
      this.maxItems, state, ops := maxItems, [], [];
    }

    method Touch(token: string, name: string, now: int)
      requires Valid()
      modifies this
      ensures Valid() && ops == old(ops) + [Touching(token, name, now)]
    {
      var others := Without(state, token);
      state := Take([Peer(token, name, now, AliasIn(state, token))] + others, maxItems);
      Record(Touching(token, name, now));
    }

    method Rename(token: string, alias: string)
      requires Valid()
      modifies this
      ensures Valid() && ops == old(ops) + [Renaming(token, alias)]
    {
      state := Renamed(state, token, alias);
      Record(Renaming(token, alias));
    }

    method Remove(token: string)
      requires Valid()
      modifies this
      ensures Valid() && ops == old(ops) + [Removing(token)]
    {
      state := Without(state, token);
      Record(Removing(token));
    }

    ghost method Record(op: Op)
      requires state == After(Bounded(ops, maxItems), op, maxItems)
      modifies this`ops
      ensures Valid() && ops == old(ops) + [op]
    {
      assert (ops + [op])[..|ops|] == ops;
      ops := ops + [op];
    }
  }
}
