/**
  app/lib/core: the UI's picture of the sessions, folded from the polled events (providers.dart, models.dart,
  and the set of active ids in engine.dart), and what it has to do with the sessions of the engine.
 */
module Mirror {
  import opened Common
  import opened Decimal
  import opened Events
  import opened Lifecycle
  import opened CloseOrder

  // ---- the fold ----

  /** `path` is the kind of path and its detail; the number of clients is one of the extra fields. */
  datatype Row = Row(kind: Kind, state: State, detail: string, token: Option<string>, info: map<string, string>,
                     path: Option<(string, string)>, lastError: Option<string>)

  datatype Ui = Ui(table: map<nat, Row>, active: set<nat>)

  const BLANK: Ui := Ui(map[], {})

  /** Session.fromJson with the previous row: a state event carries no token and leaves what it does not name. */
  function FromState(prev: Option<Row>, b: Body): Row
    requires b.SessionState?
  {
    match prev
    case None => Row(b.kind, b.state, b.detail, None, b.info, None, None)
    case Some(p) => p.(kind := b.kind, state := b.state, detail := b.detail, info := p.info + b.info)
  }

  function Lookup(t: map<nat, Row>, sid: nat): Option<Row> {
    if sid in t then Some(t[sid]) else None
  }

  /** SessionsNotifier._onEvent: events other than state changes are dropped for a session not in the table. */
  function OnEvent(t: map<nat, Row>, b: Body): map<nat, Row> {
    match b
    case SessionState(sid, _, _, _, _) => t[sid := FromState(Lookup(t, sid), b)]
    case TokenReady(sid, token) => if sid in t then t[sid := t[sid].(token := Some(token))] else t
    case Path(sid, via, detail, peers) =>
      if sid !in t then t
      else
        var r := t[sid].(path := Some((via, detail)));
        t[sid := if peers == None then r else r.(info := r.info["peers" := Dec(peers.value)])]
    case Error(sid, message) => if sid in t then t[sid := t[sid].(lastError := Some(message))] else t
    case Log(_) => t
    case Progress(_, _, _, _, _) => t
  }

  /** Engine.pump updates the set of active ids from the same events. */
  function Track(active: set<nat>, b: Body): set<nat> {
    if !b.SessionState? then active
    else if ActiveState(b.state) then active + {b.sid}
    else active - {b.sid}
  }

  function Act(u: Ui, a: UiAct): Ui {
    match a
    case Deliver(ev) => Ui(OnEvent(u.table, ev.body), Track(u.active, ev.body))
    case Dismiss(sid) =>
      if sid !in u.table || ActiveState(u.table[sid].state) then u
      else u.(table := map s | s in u.table && s != sid :: u.table[s])
  }

  function Fold(acts: seq<UiAct>): Ui {
    if acts == [] then BLANK else Act(Fold(acts[..|acts| - 1]), acts[|acts| - 1])
  }

  // ---- what a list of events says about one session ----

  function LastState(log: seq<Body>, sid: nat): Option<Body> {
    if log == [] then None
    else
      var b := log[|log| - 1];
      if b.SessionState? && b.sid == sid then Some(b) else LastState(log[..|log| - 1], sid)
  }

  /** The token of the last token event that comes after some state event of the session. */
  function LastToken(log: seq<Body>, sid: nat): Option<string> {
    if log == [] then None
    else
      var b, before := log[|log| - 1], log[..|log| - 1];
      if b.TokenReady? && b.sid == sid && LastState(before, sid) != None then Some(b.token)
      else LastToken(before, sid)
  }

  /** The kind of path and the detail of the last path event that comes after some state event. */
  function LastPath(log: seq<Body>, sid: nat): Option<(string, string)> {
    if log == [] then None
    else
      var b, before := log[|log| - 1], log[..|log| - 1];
      if b.Path? && b.sid == sid && LastState(before, sid) != None then Some((b.via, b.detail))
      else LastPath(before, sid)
  }

  /** The message of the last error event that comes after some state event. */
  function LastError(log: seq<Body>, sid: nat): Option<string> {
    if log == [] then None
    else
      var b, before := log[|log| - 1], log[..|log| - 1];
      if b.Error? && b.sid == sid && LastState(before, sid) != None then Some(b.message)
      else LastError(before, sid)
  }

  /** The last value given for an extra field: by a state event that names it, or as a count of clients. */
  function LastInfo(log: seq<Body>, sid: nat, key: string): Option<string> {
    if log == [] then None
    else
      var b, before := log[|log| - 1], log[..|log| - 1];
      if b.SessionState? && b.sid == sid && key in b.info then Some(b.info[key])
      else if b.Path? && b.sid == sid && b.peers.Some? && key == "peers" && LastState(before, sid) != None then
        Some(Dec(b.peers.value))
      else LastInfo(before, sid, key)
  }

  function Delivered(acts: seq<UiAct>): seq<Body> {
    if acts == [] then []
    else
      var a, before := acts[|acts| - 1], Delivered(acts[..|acts| - 1]);
      if a.Deliver? then before + [a.ev.body] else before
  }

  /** The delivered events that count for a session: all of them since it was last dismissed when it was over. */
  function Heeded(acts: seq<UiAct>, sid: nat): seq<Body> {
    if acts == [] then []
    else
      var a, before := acts[|acts| - 1], Heeded(acts[..|acts| - 1], sid);
      match a
      case Deliver(ev) => before + [ev.body]
      case Dismiss(s) =>
        match LastState(before, sid)
        case Some(SessionState(_, _, st, _, _)) => if s == sid && Terminal(st) then [] else before
        case _ => before
  }

  function InfoAt(r: Row, key: string): Option<string> {
    if key in r.info then Some(r.info[key]) else None
  }

  /** The picture of a session: nothing, or its last state event and the last heeded event of each other kind. */
  ghost predicate Shows(u: Ui, log: seq<Body>, sid: nat) {
    match LastState(log, sid)
    case None =>
      && sid !in u.table && sid !in u.active
      && LastToken(log, sid) == None && LastPath(log, sid) == None && LastError(log, sid) == None
      && forall key :: LastInfo(log, sid, key) == None
    case Some(b) =>
      && b.SessionState? && sid in u.table
      && var r := u.table[sid];
         && r.state == b.state && r.detail == b.detail && r.kind == b.kind
         && r.token == LastToken(log, sid)
         && r.path == LastPath(log, sid)
         && r.lastError == LastError(log, sid)
         && (forall key :: InfoAt(r, key) == LastInfo(log, sid, key))
         && (sid in u.active <==> ActiveState(b.state))
  }

  lemma ShowsNext(u: Ui, log: seq<Body>, sid: nat, ev: Event)
    requires Shows(u, log, sid)
    ensures Shows(Act(u, Deliver(ev)), log + [ev.body], sid)
  {
    var b := ev.body;
    assert (log + [b])[..|log|] == log;
  }

  /** Dismissing a session that is over forgets it; dismissing any other changes nothing. */
  lemma ShowsDismissed(u: Ui, log: seq<Body>, sid: nat, s: nat)
    requires Shows(u, log, sid)
    ensures Shows(Act(u, Dismiss(s)), if s == sid && LastState(log, sid).Some? &&
                                         Terminal(LastState(log, sid).value.state) then [] else log, sid)
  {
  }

  /** Whatever was delivered and dismissed: every row is the last events of its session that count. */
  lemma {:induction false} FoldShowsHeeded(acts: seq<UiAct>, sid: nat)
    ensures Shows(Fold(acts), Heeded(acts, sid), sid)
  {
    if acts != [] {
      var before, a := acts[..|acts| - 1], acts[|acts| - 1];
      FoldShowsHeeded(before, sid);
      match a {
        case Deliver(ev) => ShowsNext(Fold(before), Heeded(before, sid), sid, ev);
        case Dismiss(s) => ShowsDismissed(Fold(before), Heeded(before, sid), sid, s);
      }
    }
  }

  lemma {:induction false} HeededAll(acts: seq<UiAct>, sid: nat)
    requires Dismiss(sid) !in acts
    ensures Heeded(acts, sid) == Delivered(acts)
  {
    if acts != [] {
      assert acts[|acts| - 1] in acts;
      HeededAll(acts[..|acts| - 1], sid);
    }
  }

  /** For a session that was never dismissed all of them count. */
  lemma FoldShowsLog(acts: seq<UiAct>, sid: nat)
    requires Dismiss(sid) !in acts
    ensures Shows(Fold(acts), Delivered(acts), sid)
  {
    FoldShowsHeeded(acts, sid);
    HeededAll(acts, sid);
  }

  // ---- the event pipe delivers the engine's pushes in order, as long as nothing was dropped ----

  function ItemOf(e: Effect, duties: seq<Duty>): seq<Body> {
    match e
    case Did(d) => if d < |duties| && duties[d].PushDuty? then [duties[d].body] else []
    case Sent(b) => [b]
  }

  function LogOf(trace: seq<Effect>, duties: seq<Duty>): seq<Body> {
    if trace == [] then [] else LogOf(trace[..|trace| - 1], duties) + ItemOf(trace[|trace| - 1], duties)
  }

  function Bodies(evs: seq<Event>): seq<Body> {
    seq(|evs|, i requires 0 <= i < |evs| => evs[i].body)
  }

  ghost predicate InRange(w: World) {
    forall i :: 0 <= i < |w.trace| && w.trace[i].Did? ==> w.trace[i].duty < |w.duties|
  }

  ghost predicate Piped(w: World) {
    && InRange(w)
    && (w.lost == 0 ==>
          w.queue.dropped == 0 && Delivered(w.ui) + Bodies(w.queue.events) == LogOf(w.trace, w.duties))
  }

  lemma {:induction false} LogOfMore(trace: seq<Effect>, duties: seq<Duty>, more: seq<Duty>)
    requires forall i :: 0 <= i < |trace| && trace[i].Did? ==> trace[i].duty < |duties|
    requires duties <= more
    ensures LogOf(trace, more) == LogOf(trace, duties)
  {
    if trace != [] { LogOfMore(trace[..|trace| - 1], duties, more); }
  }

  /** Nothing happened that the pipe or the UI could tell. */
  ghost predicate Quiet(w: World, w': World) {
    w'.trace == w.trace && w'.queue == w.queue && w'.lost == w.lost && w'.ui == w.ui && w.duties <= w'.duties
  }

  lemma DutyQuiet(w: World, tid: nat, ch: Choice)
    requires Enabled(w, tid) && MovesDuties(w.threads[tid][0]) && !w.threads[tid][0].Do?
    ensures Quiet(w, ExecDuty(w, tid, ch))
  {
    hide Closes, Handed, PushTo;
  }

  lemma PlainQuiet(w: World, tid: nat, ch: Choice)
    requires Enabled(w, tid) && !MovesDuties(w.threads[tid][0]) && !Planned(w.threads[tid][0])
    requires !w.threads[tid][0].Emit?
    ensures Quiet(w, ExecPlain(w, tid, ch))
  {
    hide StartCode, StopAll, PushTo, Listing, KindOf;
  }

  lemma ExecQuiet(w: World, tid: nat, ch: Choice)
    requires Enabled(w, tid) && !w.threads[tid][0].Do? && !w.threads[tid][0].Emit?
    ensures Quiet(w, Exec(w, tid, ch))
  {
    hide Plan, ExecDuty, ExecPlain;
    if Planned(w.threads[tid][0]) {
      PlannedStep(w, tid, ch);
    } else if MovesDuties(w.threads[tid][0]) {
      DutyQuiet(w, tid, ch);
    } else {
      PlainQuiet(w, tid, ch);
    }
  }

  /** No effect happened. */
  lemma QuietKeepsPiped(w: World, w': World)
    requires Piped(w)
    requires Quiet(w, w')
    ensures Piped(w')
  {
    LogOfMore(w.trace, w.duties, w'.duties);
  }

  lemma PushKeepsPiped(w: World, w1: World, e: Effect, body: Body, now: int)
    requires Piped(w) && (e.Did? ==> e.duty < |w.duties|) && ItemOf(e, w.duties) == [body]
    requires w1.trace == w.trace + [e] && w1.duties == w.duties
    requires w1.queue == w.queue && w1.lost == w.lost && w1.ui == w.ui
    ensures Piped(Push(w1, body, now))
  {
  }

  lemma DoKeepsPiped(w: World, tid: nat, d: nat, now: int)
    requires Piped(w) && tid < |w.threads| && w.threads[tid] != [] && d < |w.duties| && d < |w.place|
    ensures Piped(ExecDo(w, tid, w.threads[tid][1..], d, now))
  {
    var w1 := Goto(w, tid, w.threads[tid][1..]).(trace := w.trace + [Did(d)], place := w.place[d := Logged(|w.trace|)]);
    if w.duties[d].PushDuty? {
      PushKeepsPiped(w, w1, Did(d), w.duties[d].body, now);
    } else {
      assert w1.trace[..|w.trace|] == w.trace;
      assert LogOf(w1.trace, w.duties) == LogOf(w.trace, w.duties) + [];
    }
  }

  lemma ExecKeepsPiped(w: World, tid: nat, ch: Choice)
    requires Piped(w) && Enabled(w, tid)
    ensures Piped(Exec(w, tid, ch))
  {
    var i, rest := w.threads[tid][0], w.threads[tid][1..];
    if i.Do? {
      DoKeepsPiped(w, tid, i.duty, ch.now);
    } else if i.Emit? {
      PushKeepsPiped(w, Goto(w, tid, rest).(trace := w.trace + [Sent(i.body)]), Sent(i.body), i.body, ch.now);
    } else {
      ExecQuiet(w, tid, ch);
      QuietKeepsPiped(w, Exec(w, tid, ch));
    }
  }

  lemma {:induction false} DeliveredAll(acts: seq<UiAct>, evs: seq<Event>)
    ensures Delivered(acts + Deliveries(evs)) == Delivered(acts) + Bodies(evs)
    decreases |evs|
  {
    if evs == [] {
      assert acts + Deliveries(evs) == acts;
      assert Bodies(evs) == [];
    } else {
      var n := |evs| - 1;
      DeliveredAll(acts, evs[..n]);
      var all := acts + Deliveries(evs);
      assert all[..|all| - 1] == acts + Deliveries(evs[..n]);
      assert Bodies(evs) == Bodies(evs[..n]) + [evs[n].body];
    }
  }

  lemma PollKeepsPiped(w: World, now: int)
    requires Piped(w)
    ensures Piped(Next(w, Poll(now)))
  {
    if w.lost == 0 {
      var evs := DrainOf(w.queue, now).0;
      DeliveredAll(w.ui, evs);
      assert evs == w.queue.events;
      assert Bodies([]) == [];
    }
  }

  lemma {:induction false} RunKeepsPiped(w: World, labels: seq<Label>)
    requires Piped(w)
    ensures Piped(Run(w, labels))
    decreases |labels|
  {
    if labels != [] {
      match labels[0] {
        case Step(tid, ch) => if Enabled(w, tid) { ExecKeepsPiped(w, tid, ch); }
        case Call(cmd) => QuietKeepsPiped(w, Next(w, labels[0]));
        case Poll(now) => PollKeepsPiped(w, now);
        case DismissIt(sid) =>
          var w' := Next(w, labels[0]);
          assert w'.ui[..|w.ui|] == w.ui;
      }
      RunKeepsPiped(Next(w, labels[0]), labels[1..]);
    }
  }

  lemma ReachablePiped(w: World)
    requires Reachable(w)
    ensures Piped(w)
  {
    var labels :| Run(INIT, labels) == w;
    assert Bodies([]) == [];
    RunKeepsPiped(INIT, labels);
  }
}
