/** core/engine/path.go: what a server reports about its clients, and when. */
module PeerTable {
  import opened Common

  datatype Peer = Peer(active: bool, curAddr: string, relay: string)

  /** The peer table; Go ranges over it in an arbitrary order of its keys. */
  type Table = map<string, Option<Peer>>

  datatype View = View(peers: nat, via: string, detail: string)

  const NOBODY := View(0, "", "")

  predicate Counted(p: Option<Peer>) {
    p.Some? && (p.value.active || p.value.curAddr != "" || p.value.relay != "")
  }

  predicate IsDirect(p: Option<Peer>) {
    p.Some? && p.value.curAddr != ""
  }

  function Derp(relay: string): string {
    "DERP(" + relay + ")"
  }

  function Seen(v: View, p: Option<Peer>): View {
    if !Counted(p) then v
    else if p.value.curAddr != "" then View(v.peers + 1, "direct", p.value.curAddr)
    else if v.via == "" then View(v.peers + 1, "derp", Derp(p.value.relay))
    else v.(peers := v.peers + 1)
  }

  function Fold(t: Table, order: seq<string>): View
    requires forall k :: k in order ==> k in t
  {
    if order == [] then NOBODY
    else Seen(Fold(t, order[..|order| - 1]), t[order[|order| - 1]])
  }

  ghost predicate IsOrder(order: seq<string>, t: Table) {
    Distinct(order) && forall k :: k in order <==> k in t
  }

  // ---- the same view for every order ----

  function CountedIn(t: Table, order: seq<string>): set<string> {
    set k | k in order && k in t && Counted(t[k])
  }

  predicate AnyDirect(t: Table, order: seq<string>) {
    exists k :: k in order && k in t && IsDirect(t[k])
  }

  lemma CountedMore(t: Table, front: seq<string>, k: string)
    requires k !in front && k in t
    ensures CountedIn(t, front + [k]) == if Counted(t[k]) then CountedIn(t, front) + {k} else CountedIn(t, front)
    ensures |CountedIn(t, front + [k])| == |CountedIn(t, front)| + if Counted(t[k]) then 1 else 0
    ensures AnyDirect(t, front + [k]) <==> AnyDirect(t, front) || IsDirect(t[k])
  {
  }

  lemma NobodyIn(t: Table)
    ensures CountedIn(t, []) == {} && !AnyDirect(t, [])
  {
  }

  lemma {:induction false} FoldIs(t: Table, order: seq<string>)
    requires Distinct(order) && forall k :: k in order ==> k in t
    ensures var v := Fold(t, order);
      && v.peers == |CountedIn(t, order)|
      && v.via == (if AnyDirect(t, order) then "direct" else if CountedIn(t, order) != {} then "derp" else "")
  {
    hide CountedIn, AnyDirect;
    if order == [] {
      NobodyIn(t);
    } else {
      var front, k := order[..|order| - 1], order[|order| - 1];
      FoldIs(t, front);
      assert order == front + [k] && k !in front;
      CountedMore(t, front, k);
    }
  }

  /** The number of peers and the kind of path do not depend on the order in which the table is read. */
  lemma SameForEveryOrder(t: Table, a: seq<string>, b: seq<string>)
    requires IsOrder(a, t) && IsOrder(b, t)
    ensures Fold(t, a).peers == Fold(t, b).peers && Fold(t, a).via == Fold(t, b).via
  {
    FoldIs(t, a);
    FoldIs(t, b);
    assert CountedIn(t, a) == CountedIn(t, b);
  }

  // ---- the detail does depend on it ----

  /** The details that some order of the table shows. */
  ghost predicate MayShow(t: Table, d: string) {
    if exists k :: k in t && IsDirect(t[k]) then
      exists k :: k in t && IsDirect(t[k]) && t[k].value.curAddr == d
    else if exists k :: k in t && Counted(t[k]) then
      exists k :: k in t && Counted(t[k]) && Derp(t[k].value.relay) == d
    else d == ""
  }

  lemma {:induction false} DetailIs(t: Table, order: seq<string>)
    requires forall k :: k in order ==> k in t
    ensures var v := Fold(t, order);
      && (v.via == "" ==> v.detail == "" && forall k :: k in order ==> !Counted(t[k]))
      && (v.via == "direct" ==> exists k :: k in order && IsDirect(t[k]) && t[k].value.curAddr == v.detail)
      && (v.via == "derp" ==> exists k :: k in order && Counted(t[k]) && Derp(t[k].value.relay) == v.detail)
      && (v.via != "direct" ==> forall k :: k in order ==> !IsDirect(t[k]))
      && v.via in {"", "derp", "direct"}
  {
    if order != [] {
      var n := |order| - 1;
      var front, k := order[..n], order[n];
      DetailIs(t, front);
      assert order == front + [k] && k in order;
      assert forall j :: j in order <==> j in front || j == k;
    }
  }

  lemma ShownIsPossible(t: Table, order: seq<string>)
    requires IsOrder(order, t)
    ensures MayShow(t, Fold(t, order).detail)
  {
    DetailIs(t, order);
  }

  lemma {:induction false} RelaysKeepFirst(t: Table, k: string, rest: seq<string>)
    requires k in t && Counted(t[k]) && !IsDirect(t[k])
    requires forall j :: j in rest ==> j in t && !IsDirect(t[j])
    ensures Fold(t, [k] + rest).via == "derp" && Fold(t, [k] + rest).detail == Derp(t[k].value.relay)
  {
    if rest == [] {
      assert [k] + rest == [k] && [k][..0] == [];
      assert Fold(t, [k]) == Seen(NOBODY, t[k]);
    } else {
      var n := |rest| - 1;
      assert ([k] + rest)[..n + 1] == [k] + rest[..n];
      RelaysKeepFirst(t, k, rest[..n]);
    }
  }

  function Without(order: seq<string>, k: string): seq<string> {
    if order == [] then []
    else if order[0] == k then order[1..]
    else [order[0]] + Without(order[1..], k)
  }

  lemma {:induction false} WithoutIs(order: seq<string>, k: string)
    requires Distinct(order)
    ensures Distinct(Without(order, k)) && forall j :: j in Without(order, k) <==> j in order && j != k
  {
    if order != [] {
      assert order == [order[0]] + order[1..];
      assert order[0] !in order[1..];
      if order[0] != k {
        WithoutIs(order[1..], k);
        var r := Without(order[1..], k);
        assert forall i :: 0 <= i < |r| ==> r[i] in r;
      }
    }
  }

  /** Every possible detail is shown by some order: the last direct address wins, and otherwise the first relay. */
  lemma EveryDetailShown(t: Table, order: seq<string>, d: string) returns (shown: seq<string>)
    requires IsOrder(order, t) && MayShow(t, d)
    ensures IsOrder(shown, t) && Fold(t, shown).detail == d
  {
    if k :| k in t && IsDirect(t[k]) && t[k].value.curAddr == d {
      WithoutIs(order, k);
      shown := Without(order, k) + [k];
      assert shown[..|shown| - 1] == Without(order, k);
    } else if k :| k in t && Counted(t[k]) && !IsDirect(t[k]) && Derp(t[k].value.relay) == d
                   && forall j :: j in t ==> !IsDirect(t[j]) {
      WithoutIs(order, k);
      shown := [k] + Without(order, k);
      RelaysKeepFirst(t, k, Without(order, k));
    } else {
      shown := order;
      DetailIs(t, order);
    }
  }

  // ---- the probe ----

  const INTERVAL: nat := 5_000
  const HEARTBEAT: nat := 60_000

  datatype Sent = Sent(view: View, seen: nat, sent: nat)

  datatype Probe = Probe(lastPeers: int, lastVia: string, lastEmit: nat, log: seq<Sent>)

  /** One non-nil status: what the fold made of it, and the clock read before deciding and when reporting. */
  datatype Sample = Sample(view: View, seen: nat, sent: nat)

  function Started(now: nat): Probe {
    Probe(-1, "", now, [])
  }

  predicate Tells(p: Probe, s: Sample) {
    s.view.peers != p.lastPeers || s.view.via != p.lastVia || s.seen - p.lastEmit > HEARTBEAT
  }

  function Observe(p: Probe, s: Sample): Probe {
    if Tells(p, s) then Probe(s.view.peers, s.view.via, s.sent, p.log + [Sent(s.view, s.seen, s.sent)]) else p
  }

  function Watch(start: nat, samples: seq<Sample>): Probe {
    if samples == [] then Started(start)
    else Observe(Watch(start, samples[..|samples| - 1]), samples[|samples| - 1])
  }

  datatype Tick = Tick(table: Table, order: seq<string>, isNil: bool, seen: nat, sent: nat)

  ghost predicate ReadsTable(t: Tick) {
    forall k :: k in t.order ==> k in t.table
  }

  function Samples(ticks: seq<Tick>): seq<Sample>
    requires forall t :: t in ticks ==> ReadsTable(t)
  {
    if ticks == [] then []
    else
      var before, t := Samples(ticks[..|ticks| - 1]), ticks[|ticks| - 1];
      assert ReadsTable(t) by { assert t in ticks; }
      if t.isNil then before else before + [Sample(Fold(t.table, t.order), t.seen, t.sent)]
  }

  /** The inner loop over the peer table. */
  method FoldTable(t: Table, order: seq<string>) returns (v: View)
    requires forall k :: k in order ==> k in t
    ensures v == Fold(t, order)
  {
    var peers: nat, via, detail := 0, "", "";
    for j := 0 to |order|
      invariant View(peers, via, detail) == Fold(t, order[..j])
    {
      assert order[..j + 1][..j] == order[..j];
      var p := t[order[j]];
      if p.None? || (!p.value.active && p.value.curAddr == "" && p.value.relay == "") { continue; }
      peers := peers + 1;
      if p.value.curAddr != "" {
        via, detail := "direct", p.value.curAddr;
      } else if via == "" {
        via, detail := "derp", "DERP(" + p.value.relay + ")";
      }
    }
    assert order[..|order|] == order;
    v := View(peers, via, detail);
  }

  /** The loop of serverPathProbe over the ticks of its timer; a nil status is skipped. */
  method ServerPathProbe(start: nat, ticks: seq<Tick>) returns (log: seq<Sent>)
    requires forall t :: t in ticks ==> ReadsTable(t)
    ensures log == Watch(start, Samples(ticks)).log
  {
    hide Fold;
    var lastPeers: int, lastVia, lastEmit := -1, "", start;
    log := [];
    for i := 0 to |ticks|
      invariant Probe(lastPeers, lastVia, lastEmit, log) == Watch(start, Samples(ticks[..i]))
    {
      var t := ticks[i];
      assert t in ticks;
      assert ticks[..i + 1][..i] == ticks[..i];
      if t.isNil { continue; }
      var v := FoldTable(t.table, t.order);
      ghost var before := Samples(ticks[..i]);
      assert Samples(ticks[..i + 1]) == before + [Sample(v, t.seen, t.sent)];
      assert (before + [Sample(v, t.seen, t.sent)])[..|before|] == before;
      if v.peers != lastPeers || v.via != lastVia || t.seen - lastEmit > HEARTBEAT {
        lastPeers, lastVia, lastEmit := v.peers, v.via, t.sent;
        log := log + [Sent(v, t.seen, t.sent)];
      }
    }
    assert ticks[..|ticks|] == ticks;
  }

  /** What the UI was last told is what the latest status says, but for the detail. */
  lemma {:induction false} LastToldIsLatest(start: nat, samples: seq<Sample>)
    requires samples != []
    ensures var p, s := Watch(start, samples), samples[|samples| - 1];
      && p.lastPeers == s.view.peers && p.lastVia == s.view.via
      && p.log != []
      && var last := p.log[|p.log| - 1];
         last.view.peers == s.view.peers && last.view.via == s.view.via && last.sent == p.lastEmit
  {
    var front := samples[..|samples| - 1];
    if front == [] {
      assert Watch(start, front) == Started(start);
    } else {
      LastToldIsLatest(start, front);
    }
  }

  /** A sample that was reported: what the event says and when is what the sample said and when. */
  predicate ReportOf(e: Sent, s: Sample) {
    e.view == s.view && e.seen == s.seen && e.sent == s.sent
  }

  /** Every report is of some sample, whole and detail included, and the reports keep the order of the samples. */
  lemma {:induction false} ReportsAreSamples(start: nat, samples: seq<Sample>) returns (which: seq<nat>)
    ensures |which| == |Watch(start, samples).log|
    ensures forall i :: 0 <= i < |which| ==>
              which[i] < |samples| && ReportOf(Watch(start, samples).log[i], samples[which[i]])
    ensures forall i, j :: 0 <= i < j < |which| ==> which[i] < which[j]
  {
    which := [];
    if samples != [] {
      var n := |samples| - 1;
      which := ReportsAreSamples(start, samples[..n]);
      if Tells(Watch(start, samples[..n]), samples[n]) { which := which + [n]; }
    }
  }

  /** Statuses come at most 5 s apart, and each is reported, if at all, before the next. */
  ghost predicate Steady(start: nat, samples: seq<Sample>) {
    && (forall i :: 0 < i < |samples| ==> samples[i - 1].sent <= samples[i].seen <= samples[i - 1].seen + INTERVAL)
    && (forall i :: 0 <= i < |samples| ==> samples[i].seen <= samples[i].sent)
    && (samples != [] ==> start <= samples[0].seen)
  }

  ghost predicate Spaced(log: seq<Sent>) {
    forall i :: 0 < i < |log| ==>
      && log[i].seen <= log[i - 1].sent + HEARTBEAT + INTERVAL
      && (|| log[i].view.peers != log[i - 1].view.peers || log[i].view.via != log[i - 1].view.via
          || log[i].seen > log[i - 1].sent + HEARTBEAT)
  }

  /** What one more status may add to the reports. */
  lemma HeartbeatNext(p: Probe, s: Sample)
    requires Spaced(p.log) && p.log != []
    requires p.lastEmit <= s.seen <= p.lastEmit + HEARTBEAT + INTERVAL && s.seen <= s.sent
    requires var e := p.log[|p.log| - 1]; e.view.peers == p.lastPeers && e.view.via == p.lastVia && e.sent == p.lastEmit
    ensures var q := Observe(p, s); Spaced(q.log) && s.seen - q.lastEmit <= HEARTBEAT && q.lastEmit <= s.sent
  {
  }

  lemma HeartbeatFirst(start: nat, s: Sample)
    requires start <= s.seen <= s.sent
    ensures var q := Observe(Started(start), s);
      Spaced(q.log) && s.seen - q.lastEmit <= HEARTBEAT && q.lastEmit <= s.sent
  {
  }

  /**
    With a status at least every 5 s, the next report is decided at most 65 s after the one before it, and a report
    that repeats the one before it more than 60 s after it.
   */
  lemma {:induction false} Heartbeat(start: nat, samples: seq<Sample>)
    requires Steady(start, samples)
    ensures Spaced(Watch(start, samples).log)
    ensures samples != [] ==>
              var p, s := Watch(start, samples), samples[|samples| - 1];
              s.seen - p.lastEmit <= HEARTBEAT && p.lastEmit <= s.sent
  {
    if samples == [] {
      assert Watch(start, samples).log == [];
    } else {
      hide Observe, Spaced;
      var front := samples[..|samples| - 1];
      Heartbeat(start, front);
      if front == [] {
        assert Watch(start, front) == Started(start);
        HeartbeatFirst(start, samples[0]);
      } else {
        LastToldIsLatest(start, front);
        assert front[|front| - 1] == samples[|samples| - 2];
        HeartbeatNext(Watch(start, front), samples[|samples| - 1]);
      }
    }
  }
}
