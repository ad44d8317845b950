/** core/engine/engine.go: the table of sessions, and the order in which it is listed. */
module Registry {
  import opened Common
  import opened Events
  import opened Sessions

  /** The JSON view of a session. */
  datatype Row = Row(sid: nat, kind: Kind, state: State, detail: string, created: int, token: Option<string>,
                     info: map<string, string>)

  function Snapshot(s: Session): Row
    reads s
  {
    Row(s.sid, s.kind, s.state, s.detail, s.created, if s.token != "" then Some(s.token) else None, s.info)
  }

  /** The row says of the session what a list is for; a session without a token has none to show. */
  ghost predicate Tells(r: Row, s: Session)
    reads s
  {
    && r.sid == s.sid && r.kind == s.kind && r.created == s.created
    && r.state == s.state && r.detail == s.detail && r.info == s.info
    && (r.token == None <==> s.token == "") && (r.token.Some? ==> r.token.value == s.token)
  }

  lemma SnapshotTells(s: Session, r: Row)
    ensures r == Snapshot(s) <==> Tells(r, s)
  {
  }

  // ---- the sort ----

  ghost predicate ByCreation(rows: seq<Row>) {
    forall i, j :: 0 <= i <= j < |rows| ==> rows[i].created <= rows[j].created
  }

  /** Moves a row left past everything created later. */
  function InsertRow(s: seq<Row>, x: Row): seq<Row> {
    if s != [] && x.created < s[|s| - 1].created then InsertRow(s[..|s| - 1], x) + [s[|s| - 1]] else s + [x]
  }

  function Sorted(s: seq<Row>): seq<Row> {
    if s == [] then [] else InsertRow(Sorted(s[..|s| - 1]), s[|s| - 1])
  }

  /** The rows created at one moment, in order. */
  function CreatedAt(s: seq<Row>, t: int): seq<Row> {
    if s == [] then []
    else CreatedAt(s[..|s| - 1], t) + if s[|s| - 1].created == t then [s[|s| - 1]] else []
  }

  lemma {:induction false} InsertBag(s: seq<Row>, x: Row)
    ensures multiset(InsertRow(s, x)) == multiset(s) + multiset{x}
    ensures forall r :: r in InsertRow(s, x) ==> r in s || r == x
  {
    if s != [] && x.created < s[|s| - 1].created {
      InsertBag(s[..|s| - 1], x);
      assert s == s[..|s| - 1] + [s[|s| - 1]];
    }
  }

  lemma {:induction false} InsertSorts(s: seq<Row>, x: Row)
    requires ByCreation(s)
    ensures ByCreation(InsertRow(s, x)) && multiset(InsertRow(s, x)) == multiset(s) + multiset{x}
  {
    InsertBag(s, x);
    if s != [] && x.created < s[|s| - 1].created {
      var front, last := s[..|s| - 1], s[|s| - 1];
      InsertSorts(front, x);
      InsertBag(front, x);
      var r := InsertRow(front, x);
      forall i | 0 <= i < |r| ensures r[i].created <= last.created { assert r[i] in r; }
    }
  }

  lemma {:induction false} InsertIsStable(s: seq<Row>, x: Row, t: int)
    requires ByCreation(s)
    ensures CreatedAt(InsertRow(s, x), t) == CreatedAt(s + [x], t)
  {
    assert (s + [x])[..|s|] == s;
    if s != [] && x.created < s[|s| - 1].created {
      var front, last := s[..|s| - 1], s[|s| - 1];
      InsertIsStable(front, x, t);
      assert (front + [x])[..|front|] == front;
      assert (InsertRow(front, x) + [last])[..|InsertRow(front, x)|] == InsertRow(front, x);
    }
  }

  lemma CreatedNext(s: seq<Row>, x: Row, t: int)
    ensures CreatedAt(s + [x], t) == CreatedAt(s, t) + if x.created == t then [x] else []
  {
    assert (s + [x])[..|s|] == s;
  }

  /** Listing sorts by creation and keeps every row. */
  lemma {:induction false} SortIsSorted(s: seq<Row>)
    ensures ByCreation(Sorted(s)) && multiset(Sorted(s)) == multiset(s)
  {
    if s != [] {
      hide ByCreation, InsertRow;
      SortIsSorted(s[..|s| - 1]);
      InsertSorts(Sorted(s[..|s| - 1]), s[|s| - 1]);
      assert s == s[..|s| - 1] + [s[|s| - 1]];
    }
  }

  lemma SortedNext(front: seq<Row>, last: Row)
    ensures Sorted(front + [last]) == InsertRow(Sorted(front), last)
  {
    assert (front + [last])[..|front|] == front;
  }

  /** And it keeps the order of rows created at the same moment. */
  lemma {:induction false} SortIsStable(s: seq<Row>, t: int)
    ensures CreatedAt(Sorted(s), t) == CreatedAt(s, t)
  {
    if s == [] {
      assert Sorted(s) == [];
    } else {
      hide ByCreation, InsertRow, CreatedAt, Sorted;
      var front, last := s[..|s| - 1], s[|s| - 1];
      assert s == front + [last];
      SortIsSorted(front);
      SortedNext(front, last);
      calc {
        CreatedAt(Sorted(s), t);
        { InsertIsStable(Sorted(front), last, t); }
        CreatedAt(Sorted(front) + [last], t);
        { CreatedNext(Sorted(front), last, t); }
        CreatedAt(Sorted(front), t) + (if last.created == t then [last] else []);
        { SortIsStable(front, t); }
        CreatedAt(front, t) + (if last.created == t then [last] else []);
        { CreatedNext(front, last, t); }
        CreatedAt(s, t);
      }
    }
  }

  lemma InsertStops(s: seq<Row>, x: Row)
    requires s == [] || x.created >= s[|s| - 1].created
    ensures InsertRow(s, x) == s + [x]
  {
  }

  /** A row x on its way down through the sorted rows before it. */
  ghost predicate Sinking(now: seq<Row>, pre: seq<Row>, x: Row, j: nat) {
    j <= |pre| && now == pre[..j] + [x] + pre[j..]
  }

  lemma SinkOnce(now: seq<Row>, pre: seq<Row>, x: Row, j: nat)
    requires Sinking(now, pre, x, j) && j > 0
    ensures now[j] == x && now[j - 1] == pre[j - 1] && Sinking(now[j := pre[j - 1]][j - 1 := x], pre, x, j - 1)
  {
  }

  /** Inserting x among all of pre is inserting it among the first j and keeping the rest behind. */
  ghost predicate Passed(pre: seq<Row>, x: Row, j: nat) {
    j <= |pre| && InsertRow(pre, x) == InsertRow(pre[..j], x) + pre[j..]
  }

  lemma PassedNone(pre: seq<Row>, x: Row)
    ensures Passed(pre, x, |pre|)
  {
    assert pre[..|pre|] == pre && pre[|pre|..] == [];
  }

  lemma PassesOn(pre: seq<Row>, x: Row, j: nat)
    requires 0 < j && Passed(pre, x, j) && x.created < pre[j - 1].created
    ensures Passed(pre, x, j - 1)
  {
    assert pre[..j][..j - 1] == pre[..j - 1];
    assert [pre[j - 1]] + pre[j..] == pre[j - 1..];
  }

  lemma Sunk(now: seq<Row>, pre: seq<Row>, x: Row, j: nat)
    requires Sinking(now, pre, x, j) && Passed(pre, x, j) && (j == 0 || x.created >= pre[j - 1].created)
    ensures now == InsertRow(pre, x)
  {
    InsertStops(pre[..j], x);
  }

  /** The first i + 1 rows of the array, with x at place j on its way down. */
  ghost predicate OnTheWay(out: array<Row>, i: nat, pre: seq<Row>, x: Row, j: nat)
    reads out
  {
    j <= i < out.Length && Sinking(out[..i + 1], pre, x, j)
  }

  lemma StartSinking(out: array<Row>, i: nat)
    requires i < out.Length
    ensures OnTheWay(out, i, out[..i], out[i], i)
  {
    assert out[..i + 1] == out[..i] + [out[i]];
  }

  lemma RowsThere(out: array<Row>, i: nat, pre: seq<Row>, x: Row, j: nat)
    requires OnTheWay(out, i, pre, x, j)
    ensures j <= |pre| && out[j] == x && (j > 0 ==> out[j - 1] == pre[j - 1])
  {
    assert out[j] == out[..i + 1][j];
    assert j > 0 ==> out[j - 1] == out[..i + 1][j - 1];
  }

  /** One swap. */
  method SinkStep(out: array<Row>, i: nat, j: nat, ghost pre: seq<Row>, ghost x: Row)
    requires 0 < j && OnTheWay(out, i, pre, x, j)
    modifies out
    ensures OnTheWay(out, i, pre, x, j - 1)
    ensures forall k :: i < k < out.Length ==> out[k] == old(out[k])
  {
    hide Sinking;
    ghost var now := out[..i + 1];
    SinkOnce(now, pre, x, j);
    RowsThere(out, i, pre, x, j);
    out[j], out[j - 1] := out[j - 1], out[j];
    assert out[..i + 1] == now[j := pre[j - 1]][j - 1 := x];
  }

  lemma SunkRows(out: array<Row>, i: nat, pre: seq<Row>, x: Row, j: nat)
    requires OnTheWay(out, i, pre, x, j) && Passed(pre, x, j) && (j == 0 || x.created >= pre[j - 1].created)
    ensures out[..i + 1] == InsertRow(pre, x)
  {
    Sunk(out[..i + 1], pre, x, j);
  }

  /** The inner loop: swaps one row down to its place. */
  method Sink(out: array<Row>, i: nat)
    requires i < out.Length
    modifies out
    ensures out[..i + 1] == InsertRow(old(out[..i]), old(out[i]))
    ensures forall k :: i < k < out.Length ==> out[k] == old(out[k])
  {
    hide InsertRow, Sinking, OnTheWay, Passed;
    ghost var pre, x := out[..i], out[i];
    var j := i;
    StartSinking(out, i);
    PassedNone(pre, x);
    RowsThere(out, i, pre, x, j);
    while j > 0 && out[j].created < out[j - 1].created
      invariant 0 <= j <= i && OnTheWay(out, i, pre, x, j) && Passed(pre, x, j)
      invariant j <= |pre| && out[j] == x && (j > 0 ==> out[j - 1] == pre[j - 1])
      invariant forall k :: i < k < out.Length ==> out[k] == old(out[k])
    {
      PassesOn(pre, x, j);
      SinkStep(out, i, j, pre, x);
      j := j - 1;
      RowsThere(out, i, pre, x, j);
    }
    SunkRows(out, i, pre, x, j);
  }

  lemma SortedOne(x: Row)
    ensures Sorted([x]) == [x]
  {
    assert [x][..0] == [];
    assert Sorted([]) == [];
  }

  /** The insertion sort of listSessions. */
  method SortRows(out: array<Row>)
    modifies out
    ensures out[..] == Sorted(old(out[..]))
  {
    ghost var was := out[..];
    if out.Length == 0 { return; }
    SortedOne(was[0]);
    assert out[..1] == [was[0]] && was[..1] == [was[0]];
    for i := 1 to out.Length
      invariant out[..i] == Sorted(was[..i])
      invariant forall k :: i <= k < out.Length ==> out[k] == was[k]
    {
      assert was[..i + 1][..i] == was[..i];
      Sink(out, i);
    }
    assert out[..] == out[..out.Length] && was == was[..out.Length];
  }

  // ---- how much the order of the map matters ----

  /** Rows created at pairwise different moments. */
  ghost predicate NoTies(s: seq<Row>) {
    forall i, j :: 0 <= i < j < |s| ==> s[i].created != s[j].created
  }

  lemma SameFirst(a: seq<Row>, b: seq<Row>)
    requires ByCreation(a) && ByCreation(b) && NoTies(b) && a != [] && b != []
    requires a[0] in b && b[0] in a
    ensures a[0] == b[0]
  {
    var k :| 0 <= k < |b| && b[k] == a[0];
    var m :| 0 <= m < |a| && a[m] == b[0];
  }

  lemma {:induction false} SameOrder(a: seq<Row>, b: seq<Row>)
    requires ByCreation(a) && ByCreation(b) && NoTies(a) && NoTies(b)
    requires forall r :: r in a <==> r in b
    ensures a == b
  {
    assert a != [] ==> a[0] in a;
    assert b != [] ==> b[0] in b;
    if a != [] && b != [] {
      SameFirst(a, b);
      assert a == [a[0]] + a[1..] && b == [b[0]] + b[1..];
      assert a[0] !in a[1..] && b[0] !in b[1..];
      forall r ensures r in a[1..] <==> r in b[1..] { assert r in a <==> r in b; }
      SameOrder(a[1..], b[1..]);
    }
  }

  lemma SameBag(a: seq<Row>, b: seq<Row>)
    requires multiset(a) == multiset(b)
    ensures forall r :: r in a <==> r in b
  {
    forall r ensures r in a <==> r in b { assert r in a <==> r in multiset(a); }
  }

  lemma TwiceInBag(s: seq<Row>, i: nat, j: nat)
    requires i < j < |s| && s[i] == s[j]
    ensures multiset(s)[s[i]] >= 2
  {
    assert s == s[..j] + s[j..] && s[i] in s[..j] && s[i] in s[j..];
  }

  lemma OnceInBag(s: seq<Row>, k: nat)
    requires k < |s| && NoTies(s)
    ensures multiset(s)[s[k]] == 1
  {
    assert s == s[..k] + [s[k]] + s[k + 1..];
    assert s[k] !in s[..k] && s[k] !in s[k + 1..];
  }

  lemma NoTiesOfBag(a: seq<Row>, b: seq<Row>)
    requires multiset(a) == multiset(b) && NoTies(a)
    ensures NoTies(b)
  {
    if i, j :| 0 <= i < j < |b| && b[i].created == b[j].created {
      assert b[i] in multiset(a) && b[j] in multiset(a);
      var k :| 0 <= k < |a| && a[k] == b[i];
      var m :| 0 <= m < |a| && a[m] == b[j];
      if k == m { TwiceInBag(b, i, j); OnceInBag(a, k); }
    }
  }

  /** Without ties the listing is the same whatever order the map is read in. */
  lemma NoTiesNoChoice(a: seq<Row>, b: seq<Row>)
    requires multiset(a) == multiset(b) && NoTies(a)
    ensures Sorted(a) == Sorted(b)
  {
    SortIsSorted(a);
    SortIsSorted(b);
    NoTiesOfBag(a, Sorted(a));
    NoTiesOfBag(a, Sorted(b));
    SameBag(Sorted(a), Sorted(b));
    SameOrder(Sorted(a), Sorted(b));
  }

  lemma {:induction false} CreatedFirst(x: Row, y: Row, rest: seq<Row>)
    requires x.created == y.created
    ensures var c := CreatedAt([x, y] + rest, x.created); |c| >= 2 && c[0] == x && c[1] == y
  {
    var t := x.created;
    if rest == [] {
      assert [x, y] + rest == [x, y] && [x, y][..1] == [x] && [x][..0] == [];
      assert CreatedAt([x], t) == CreatedAt([], t) + [x];
      assert CreatedAt([x, y], t) == CreatedAt([x], t) + [y];
    } else {
      var n := |rest| - 1;
      CreatedFirst(x, y, rest[..n]);
      assert ([x, y] + rest)[..n + 2] == [x, y] + rest[..n];
    }
  }

  /** Two sessions created in the same millisecond are listed in either order, as the map is read. */
  lemma TiesFollowTheMap(x: Row, y: Row, rest: seq<Row>)
    requires x != y && x.created == y.created
    ensures multiset([x, y] + rest) == multiset([y, x] + rest)
    ensures Sorted([x, y] + rest) != Sorted([y, x] + rest)
  {
    var t := x.created;
    SortIsStable([x, y] + rest, t);
    SortIsStable([y, x] + rest, t);
    CreatedFirst(x, y, rest);
    CreatedFirst(y, x, rest);
    assert multiset([x, y]) == multiset([y, x]);
  }

  // ---- the engine ----

  /** A session that was going on is stopped; one that was over keeps its state. Either way it owns nothing more. */
  predicate Stopping(f: Fields, r: Fields) {
    && (if ActiveState(f.state) then r.state == Stopped && r.detail == ""
        else r.state == f.state && r.detail == f.detail)
    && r.kind == f.kind && r.token == f.token && r.info == f.info
    && r.cancelled && r.closed && (!f.closed ==> r.closers == [])
  }

  /** The fields of a session after a stop. */
  function StopLocked(f: Fields): (r: Fields)
    ensures Terminal(r.state) && r.cancelled && r.closed && Stopping(f, r)
  {
    ShutdownLocked(SetStateLocked(f, Stopped, "")).0.(cancelled := true)
  }

  method StopOne(s: Session, now: int)
    requires s.events.Valid()
    modifies s, s.events, s.events.buf
    ensures s.events.Valid() && (s.events.buf == old(s.events.buf) || fresh(s.events.buf))
    ensures s.View() == StopLocked(old(s.View())) && Terminal(s.state) && s.cancelled && s.closed
  {
    s.Stop(now);
  }

  method StopEach(all: seq<Session>, events: EventQueue, now: int)
    requires events.Valid() && Distinct(all) && forall s :: s in all ==> s.events == events
    modifies all, events, events.buf
    ensures events.Valid() && (events.buf == old(events.buf) || fresh(events.buf))
    ensures forall s :: s in all ==> s.View() == StopLocked(old(s.View()))
    ensures forall s :: s in all ==> Terminal(s.state) && s.cancelled && s.closed
  {
    hide StopLocked, SetStateLocked, ShutdownLocked, Moves, Faithful;
    for i := 0 to |all|
      invariant events.Valid() && (events.buf == old(events.buf) || fresh(events.buf))
      invariant forall k :: 0 <= k < i ==> all[k].View() == StopLocked(old(all[k].View()))
      invariant forall k :: 0 <= k < i ==> Terminal(all[k].state) && all[k].cancelled && all[k].closed
      invariant forall k :: i <= k < |all| ==> all[k].View() == old(all[k].View())
    {
      StopOne(all[i], now);
    }
  }

  class Engine {
    const events: EventQueue
    var sessions: map<nat, Session>
    var nextID: nat
    var closed: bool
    var cancelled: bool

    /** Every session is filed under its own number, below the next one to be given out. */
    ghost predicate Valid()
      reads this, events, events.buf, sessions.Values
    {
      && events.Valid()
      && forall id :: id in sessions ==> sessions[id].sid == id <= nextID && sessions[id].events == events
    }

    constructor ()
      ensures Valid() && sessions == map[] && !closed && !cancelled && nextID == 0
      ensures fresh(events) && fresh(events.buf)
    {
      events := new EventQueue();
      sessions, nextID, closed, cancelled := map[], 0, false, false;
    }

    /** Registers a session under a number never used before, unless the engine is closed. */
    method NewSession(kind: Kind, now: int) returns (s: Session?)
      requires Valid()
      modifies this`sessions, this`nextID
      ensures Valid()
      ensures closed ==> s == null && sessions == old(sessions) && nextID == old(nextID)
      ensures !closed ==> s != null && fresh(s) && s.View() == NewFields(kind) && s.created == now
      ensures !closed ==> s.sid == nextID == old(nextID) + 1
      ensures !closed ==> s.sid !in old(sessions) && sessions == old(sessions)[s.sid := s]
    {
      if closed { return null; }
      nextID := nextID + 1;
      s := new Session(nextID, kind, now, events);
      sessions := sessions[nextID := s];
    }

    method Lookup(id: nat) returns (s: Session?)
      ensures s != null <==> id in sessions
      ensures s != null ==> s == sessions[id]
    {
      s := if id in sessions then sessions[id] else null;
    }

    method StopSession(id: nat, now: int) returns (found: bool)
      requires Valid()
      modifies sessions.Values, events, events.buf
      ensures Valid() && found == (id in sessions)
      ensures found ==> Terminal(sessions[id].state) && sessions[id].cancelled && sessions[id].closed
      ensures found ==> Stopping(old(sessions[id].View()), sessions[id].View())
      ensures forall k :: k in sessions && k != id ==> sessions[k].View() == old(sessions[k].View())
    {
      var s := Lookup(id);
      if s == null { return false; }
      s.Stop(now);
      found := true;
    }

    /** The sessions as a list, in the map's order. */
    method Collect() returns (all: seq<Session>)
      requires Valid()
      ensures Distinct(all) && forall s :: s in all <==> s in sessions.Values
    {
      var todo := sessions.Keys;
      all := [];
      while todo != {}
        invariant todo <= sessions.Keys && Distinct(all)
        invariant forall s :: s in all ==> s.sid in sessions && s.sid !in todo && sessions[s.sid] == s
        invariant forall id :: id in sessions && id !in todo ==> sessions[id] in all
        decreases |todo|
      {
        var id :| id in todo;
        all := all + [sessions[id]];
        todo := todo - {id};
      }
    }

    /** No session outlives Close: each one is over, cancelled and shut down, and none can be added. */
    method Close(now: int)
      requires Valid()
      modifies this`closed, this`cancelled, sessions.Values, events, events.buf
      ensures Valid() && closed && cancelled && sessions == old(sessions)
      ensures forall s :: s in sessions.Values ==> s.View() == StopLocked(old(s.View()))
      ensures forall s :: s in sessions.Values ==> Terminal(s.state) && s.cancelled && s.closed
      ensures forall s :: s in sessions.Values ==> Stopping(old(s.View()), s.View())
    {
      hide StopLocked, Faithful;
      closed := true;
      var all := Collect();
      StopEach(all, events, now);
      cancelled := true;
    }

    /** How many sessions are starting or running. */
    method ActiveSessions() returns (n: nat)
      ensures n == |set id | id in sessions && ActiveState(sessions[id].state)|
    {
      var todo := sessions.Keys;
      n := 0;
      ghost var counted: set<nat> := {};
      while todo != {}
        invariant todo <= sessions.Keys && n == |counted|
        invariant counted == set id | id in sessions && id !in todo && ActiveState(sessions[id].state)
        decreases |todo|
      {
        var id :| id in todo;
        var b := sessions[id].IsActive();
        todo := todo - {id};
        if b {
          n := n + 1;
          counted := counted + {id};
        }
      }
      assert counted == set id | id in sessions && ActiveState(sessions[id].state);
    }

    /** One row for each session, in the map's order. */
    method Snapshots() returns (out: seq<Row>)
      requires Valid()
      ensures |out| == |sessions|
      ensures forall r :: r in out <==> exists id :: id in sessions && r == Snapshot(sessions[id])
    {
      hide Faithful;
      var todo := sessions.Keys;
      out := [];
      while todo != {}
        invariant todo <= sessions.Keys && |out| + |todo| == |sessions|
        invariant forall r :: r in out ==> exists id :: id in sessions && r == Snapshot(sessions[id])
        invariant forall id :: id in sessions && id !in todo ==> Snapshot(sessions[id]) in out
        decreases |todo|
      {
        var id :| id in todo;
        out := out + [Snapshot(sessions[id])];
        todo := todo - {id};
      }
    }

    /** One row for each session, ordered by creation. */
    method ListSessions() returns (rows: array<Row>)
      requires Valid()
      ensures fresh(rows) && ByCreation(rows[..]) && rows.Length == |sessions|
      ensures forall r :: r in rows[..] <==> exists id :: id in sessions && Tells(r, sessions[id])
    {
      hide Snapshot, ByCreation, Sorted, Faithful, Tells;
      var out := Snapshots();
      rows := Sort(out);
      assert |multiset(rows[..])| == |multiset(out)|;
      SameBag(rows[..], out);
      forall r ensures r in out <==> exists id :: id in sessions && Tells(r, sessions[id]) {
        forall id | id in sessions ensures r == Snapshot(sessions[id]) <==> Tells(r, sessions[id]) {
          SnapshotTells(sessions[id], r);
        }
      }
    }

    method Sort(out: seq<Row>) returns (rows: array<Row>)
      ensures fresh(rows) && rows[..] == Sorted(out) && ByCreation(rows[..]) && multiset(rows[..]) == multiset(out)
    {
      rows := new Row[|out|](i requires 0 <= i < |out| => out[i]);
      assert rows[..] == out;
      SortRows(rows);
      SortIsSorted(out);
    }
  }
}
