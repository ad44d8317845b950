/**
  Until a session is terminal only the goroutine in charge of it makes its transitions, and it pushes each before
  it goes on. So all state events but a terminal one land in the order of their transitions.
 */
module DriverOrder {
  import opened Common
  import opened Events
  import opened Sessions
  import opened Lifecycle
  import opened Placement
  import opened CloseOrder
  import opened Termination
  import opened StateEvents

  /** The session an instruction may move on to a state that is not terminal. */
  function OwnSid(i: Instr): Option<nat> {
    match i
    case ApplyState(sid, st, _) => if Terminal(st) then None else Some(sid)
    case OpenShare(sid, _, _, _) => Some(sid)
    case WarmUp(sid) => Some(sid)
    case ServerSetup(sid) => Some(sid)
    case ServerStart(sid) => Some(sid)
    case _ => None
  }

  /** Only the goroutine in charge of a session holds such instructions. */
  ghost predicate Owns(w: World, tid: nat, code: seq<Instr>) {
    forall i :: i in code && OwnSid(i).Some? ==> OwnSid(i).value < |w.sess| && w.sess[OwnSid(i).value].driver == tid
  }

  /** How many transitions were made before a terminal one. */
  function Steps(s: Sess): nat {
    if Terminal(s.f.state) && s.moves != [] then |s.moves| - 1 else |s.moves|
  }

  /** All of these but the last are pushed, in order, and the last is pushed after them or about to be. */
  ghost predicate InLine(w: World, s: nat)
    requires s < |w.sess|
  {
    var m, n, driver := w.sess[s].moves, Steps(w.sess[s]), w.sess[s].driver;
    && (forall i :: 0 <= i < n ==> m[i] < |w.place|)
    && (forall i :: 0 <= i < n - 1 ==> w.place[m[i]].Logged?)
    && (forall i, j :: 0 <= i < j < n && w.place[m[j]].Logged? ==> w.place[m[i]].at < w.place[m[j]].at)
    && (n > 0 ==>
          || w.place[m[n - 1]].Logged?
          || (driver < |w.threads| && w.place[m[n - 1]] == Pending(driver, |w.threads[driver]|)))
  }

  ghost predicate Driving(w: World) {
    && (forall t {:trigger w.threads[t]} :: 0 <= t < |w.threads| ==> Owns(w, t, w.threads[t]))
    && (forall s {:trigger InLine(w, s)} :: 0 <= s < |w.sess| ==> InLine(w, s))
  }

  // ---- the code a step adds ----

  ghost predicate AddsOwn(w: World, w': World, tid: nat, code: seq<Instr>)
    requires tid < |w.threads| && w.threads[tid] != []
  {
    forall i :: i in code && OwnSid(i).Some? ==>
      || OwnSid(i) == OwnSid(w.threads[tid][0])
      || (|w.sess| <= OwnSid(i).value < |w'.sess| && w'.sess[OwnSid(i).value].driver == tid)
  }

  lemma PlanAddsOwn(w: World, i: Instr, ch: Choice)
    ensures forall j :: j in Plan(w, i, ch) && OwnSid(j).Some? ==> OwnSid(j) == OwnSid(i)
  {
  }

  lemma {:induction false} StopAllOwn(order: seq<nat>)
    ensures forall j :: j in StopAll(order) ==> OwnSid(j) == None
  {
    if order != [] { StopAllOwn(order[1..]); }
  }

  lemma NewAddsOwn(w: World, tid: nat, ch: Choice)
    requires Enabled(w, tid) && w.threads[tid][0].NewSession?
    ensures AddsOwn(w, Exec(w, tid, ch), tid, Added(w, tid, ch))
  {
  }

  lemma RestAddsOwn(w: World, tid: nat, ch: Choice)
    requires Enabled(w, tid)
    requires var i := w.threads[tid][0]; !Planned(i) && !i.CloseEngine? && !i.NewSession?
    ensures forall j :: j in Added(w, tid, ch) ==> OwnSid(j) == None
  {
  }

  lemma ExecAddsOwn(w: World, tid: nat, ch: Choice)
    requires Enabled(w, tid)
    ensures AddsOwn(w, Exec(w, tid, ch), tid, Added(w, tid, ch))
  {
    var i := w.threads[tid][0];
    if Planned(i) {
      PlannedStep(w, tid, ch);
      PlanAddsOwn(w, i, ch);
    } else if i.CloseEngine? {
      StopAllOwn(ch.order);
    } else if i.NewSession? {
      NewAddsOwn(w, tid, ch);
    } else {
      RestAddsOwn(w, tid, ch);
    }
  }

  lemma OwnsStep(w: World, w': World, tid: nat, code: seq<Instr>, t: nat)
    requires Driving(w) && tid < |w.threads| && w.threads[tid] != [] && t < |w'.threads|
    requires Grows(w, w') && Moved(w, w', tid, code) && AddsOwn(w, w', tid, code)
    ensures Owns(w', t, w'.threads[t])
  {
    assert Owns(w, tid, w.threads[tid]);
    assert w.threads[tid][0] in w.threads[tid];
    if t < |w.threads| { assert Owns(w, t, w.threads[t]); }
    forall i | i in w'.threads[t] && OwnSid(i).Some?
      ensures OwnSid(i).value < |w'.sess| && w'.sess[OwnSid(i).value].driver == t
    {
      if t == tid && i !in code { assert i in w.threads[tid]; }
    }
  }

  // ---- the places of the pushes ----

  ghost predicate PushesKept(w: World, w': World, tid: nat)
    requires tid < |w.threads| && w.threads[tid] != []
  {
    && |w.duties| == |w.place| <= |w'.place|
    && forall d :: 0 <= d < |w.duties| && w.duties[d].PushDuty? ==>
         w'.place[d] == if w.threads[tid][0] == Do(d) then Logged(|w.trace|) else w.place[d]
  }

  lemma GotoPushes(w: World, tid: nat, code: seq<Instr>)
    requires |w.duties| == |w.place| && tid < |w.threads| && w.threads[tid] != [] && !w.threads[tid][0].Do?
    ensures PushesKept(w, Goto(w, tid, code), tid)
  {
  }

  lemma ApplyPushes(w: World, tid: nat, rest: seq<Instr>, sid: nat, st: State, detail: string)
    requires |w.duties| == |w.place| && tid < |w.threads| && w.threads[tid] != [] && !w.threads[tid][0].Do?
    requires sid < |w.sess|
    ensures PushesKept(w, ExecApply(w, tid, rest, sid, st, detail), tid)
  {
  }

  lemma DoPushes(w: World, tid: nat, rest: seq<Instr>, d: nat, now: int)
    requires |w.duties| == |w.place| && tid < |w.threads| && w.threads[tid] != [] && w.threads[tid][0] == Do(d)
    requires d < |w.duties|
    ensures PushesKept(w, ExecDo(w, tid, rest, d, now), tid)
  {
  }

  lemma RegisterPushes(w: World, tid: nat, rest: seq<Instr>, sid: nat)
    requires |w.duties| == |w.place| && tid < |w.threads| && w.threads[tid] != [] && !w.threads[tid][0].Do?
    requires sid < |w.sess|
    ensures PushesKept(w, ExecRegister(w, tid, rest, sid), tid)
  {
  }

  lemma BatchPushes(w: World, tid: nat, rest: seq<Instr>, sid: nat)
    requires Placed(w) && tid < |w.threads| && w.threads[tid] != [] && !w.threads[tid][0].Do? && sid < |w.sess|
    ensures PushesKept(w, ExecTakeBatch(w, tid, rest, sid), tid)
  {
    hide PendingOk, LoggedOk;
    forall d | 0 <= d < |w.duties| && w.duties[d].PushDuty? ensures !w.place[d].Held? { NeverHeld(w, d); }
  }

  lemma PlainPushes(w: World, tid: nat, ch: Choice)
    requires |w.duties| == |w.place| && Enabled(w, tid)
    requires !Planned(w.threads[tid][0]) && !MovesDuties(w.threads[tid][0])
    ensures PushesKept(w, ExecPlain(w, tid, ch), tid)
  {
  }

  lemma ExecPushesKept(w: World, tid: nat, ch: Choice)
    requires Placed(w) && Enabled(w, tid)
    ensures PushesKept(w, Exec(w, tid, ch), tid)
  {
    hide HeldOk, PendingOk, LoggedOk, PushesKept, ExecApply, ExecDo, ExecRegister, ExecTakeBatch, ExecPlain, Plan, Goto;
    var i, rest := w.threads[tid][0], w.threads[tid][1..];
    if Planned(i) {
      GotoPushes(w, tid, Plan(w, i, ch) + rest);
    } else if MovesDuties(i) {
      match i {
        case ApplyState(sid, st, detail) => ApplyPushes(w, tid, rest, sid, st, detail);
        case Do(d) => DoPushes(w, tid, rest, d, ch.now);
        case Register(sid) => RegisterPushes(w, tid, rest, sid);
        case RegisterListener(sid) => RegisterPushes(w, tid, [GoAccept(sid, |w.duties|)] + rest, sid);
        case TakeBatch(sid) => BatchPushes(w, tid, rest, sid);
      }
    } else {
      PlainPushes(w, tid, ch);
    }
  }

  // ---- one step, one session ----

  /** The thread about to push a transition has nothing else to run first. */
  lemma AboutToPush(w: World, s: nat, tid: nat)
    requires Placed(w) && s < |w.sess| && InLine(w, s) && Steps(w.sess[s]) > 0
    requires tid < |w.threads| && w.threads[tid] != [] && w.sess[s].driver == tid
    ensures var last := w.sess[s].moves[Steps(w.sess[s]) - 1];
      w.place[last].Logged? || w.threads[tid][0] == Do(last)
  {
    var last := w.sess[s].moves[Steps(w.sess[s]) - 1];
    assert Real(w, w.place[last], last);
  }

  lemma LoggedBefore(w: World, d: nat)
    requires Placed(w) && d < |w.place| && w.place[d].Logged?
    ensures w.place[d].at < |w.trace|
  {
    assert Real(w, w.place[d], d);
  }

  /** What is done is not waiting. */
  lemma NotAgain(w: World, tid: nat, d: nat)
    requires Placed(w) && tid < |w.threads| && w.threads[tid] != [] && d < |w.place| && w.place[d].Logged?
    ensures w.threads[tid][0] != Do(d)
  {
    assert CodeOk(w.place, tid, w.threads[tid]);
  }

  lemma QuietInLine(w: World, w': World, tid: nat, code: seq<Instr>, s: nat)
    requires Placed(w) && s < |w.sess| && MovesFit(w, s) && InLine(w, s)
    requires tid < |w.threads| && w.threads[tid] != [] && Moved(w, w', tid, code) && PushesKept(w, w', tid)
    requires s < |w'.sess| && w'.sess[s].driver == w.sess[s].driver && SameMoves(w.sess[s], w'.sess[s])
    ensures InLine(w', s)
  {
    hide HeldOk, PendingOk, LoggedOk, SessOk;
    var m, n, head := w.sess[s].moves, Steps(w.sess[s]), w.threads[tid][0];
    if n > 0 {
      forall i | 0 <= i < n && w.place[m[i]].Logged?
        ensures w.place[m[i]].at < |w.trace| && head != Do(m[i])
      {
        LoggedBefore(w, m[i]);
        NotAgain(w, tid, m[i]);
      }
      if w.sess[s].driver == tid { AboutToPush(w, s, tid); }
    }
  }

  lemma FitsRange(w: World, s: nat)
    requires s < |w.sess| && MovesFit(w, s)
    ensures forall i :: 0 <= i < |w.sess[s].moves| ==> w.sess[s].moves[i] < |w.duties|
  {
  }

  lemma ApplyInLine(w: World, tid: nat, rest: seq<Instr>, st: State, detail: string, s: nat)
    requires Placed(w) && s < |w.sess| && MovesFit(w, s) && InLine(w, s) && Driving(w)
    requires tid < |w.threads| && w.threads[tid] == [ApplyState(s, st, detail)] + rest && Moves(w.sess[s].f, st, detail)
    ensures InLine(ExecApply(w, tid, rest, s, st, detail), s)
  {
    hide HeldOk, PendingOk, LoggedOk, SessOk, AllReal, Fits, StateBody;
    var m := w.sess[s].moves;
    FitsRange(w, s);
    assert Owns(w, tid, w.threads[tid]) && w.threads[tid][0] in w.threads[tid];
    if m != [] && w.sess[s].driver == tid { AboutToPush(w, s, tid); }
  }

  lemma SoundStep(w: World, tid: nat, ch: Choice)
    requires Sound(w) && Enabled(w, tid)
    ensures var w' := Exec(w, tid, ch);
      && Grows(w, w') && Moved(w, w', tid, Added(w, tid, ch))
      && |w.sess| <= |w'.sess| && forall s :: 0 <= s < |w.sess| ==> w'.sess[s].driver == w.sess[s].driver
  {
    ExecGrows(w, tid, ch);
    ExecMoved(w, tid, ch);
  }

  lemma NewInLine(w: World, s: nat)
    requires s < |w.sess| && w.sess[s].moves == []
    ensures InLine(w, s)
  {
  }

  lemma ApplyEither(w: World, tid: nat, ch: Choice, s: nat)
    requires Sound(w) && Tracked(w) && Driving(w) && Enabled(w, tid) && w.threads[tid][0].ApplyState?
    requires s < |Exec(w, tid, ch).sess|
    ensures InLine(Exec(w, tid, ch), s)
  {
    hide InLine, Owns, Grows, Moved, PushesKept, AddsOwn, Guarded, Placed;
    var i, rest := w.threads[tid][0], w.threads[tid][1..];
    assert w.threads[tid] == [i] + rest;
    assert MovesFit(w, s) && InLine(w, s);
    if i.sid == s && Moves(w.sess[s].f, i.st, i.detail) {
      ApplyInLine(w, tid, rest, i.st, i.detail, s);
    } else {
      SoundStep(w, tid, ch);
      ExecPushesKept(w, tid, ch);
      QuietInLine(w, Exec(w, tid, ch), tid, Added(w, tid, ch), s);
    }
  }

  lemma SessionInLine(w: World, tid: nat, ch: Choice, s: nat)
    requires Sound(w) && Tracked(w) && Driving(w) && Enabled(w, tid) && s < |Exec(w, tid, ch).sess|
    ensures InLine(Exec(w, tid, ch), s)
  {
    hide InLine, Owns, Grows, Moved, PushesKept, AddsOwn, Guarded, Placed;
    hide ExecApply, ExecDo, ExecRegister, ExecTakeBatch, ExecPlain, Plan;
    var w', i := Exec(w, tid, ch), w.threads[tid][0];
    SoundStep(w, tid, ch);
    ExecPushesKept(w, tid, ch);
    if s < |w.sess| { assert MovesFit(w, s) && InLine(w, s); }
    if i.ApplyState? {
      ApplyEither(w, tid, ch, s);
    } else {
      ExecNoMove(w, tid, ch);
      if s < |w.sess| { QuietInLine(w, w', tid, Added(w, tid, ch), s); } else { NewInLine(w', s); }
    }
  }

  lemma ExecKeepsDriving(w: World, tid: nat, ch: Choice)
    requires Sound(w) && Tracked(w) && Driving(w) && Enabled(w, tid)
    ensures Driving(Exec(w, tid, ch))
  {
    hide Exec, InLine, Owns, Grows, Moved, AddsOwn, Guarded, Placed, Tracked;
    var w', code := Exec(w, tid, ch), Added(w, tid, ch);
    SoundStep(w, tid, ch);
    ExecAddsOwn(w, tid, ch);
    forall t | 0 <= t < |w'.threads| ensures Owns(w', t, w'.threads[t]) { OwnsStep(w, w', tid, code, t); }
    forall s | 0 <= s < |w'.sess| ensures InLine(w', s) { SessionInLine(w, tid, ch, s); }
  }

  // ---- runs ----

  lemma IdleKeepsDriving(w: World, w': World)
    requires Sound(w) && Driving(w)
    requires w'.sess == w.sess && w'.place == w.place
    requires w'.threads == w.threads || exists cmd :: w'.threads == w.threads + [CommandCode(cmd)]
    ensures Driving(w')
  {
    hide Guarded, HeldOk, PendingOk, LoggedOk, AllReal;
    forall t | 0 <= t < |w'.threads| ensures Owns(w', t, w'.threads[t]) {
      if t < |w.threads| { assert Owns(w, t, w.threads[t]); }
    }
    forall s | 0 <= s < |w'.sess| ensures InLine(w', s) { assert InLine(w, s); }
  }

  lemma NextKeepsSound(w: World, l: Label)
    requires Sound(w)
    ensures Sound(Next(w, l))
  {
    NextKeepsPlaced(w, l);
    NextKeepsGuarded(w, l);
  }

  lemma NextKeepsTracked(w: World, l: Label)
    requires Tracked(w)
    ensures Tracked(Next(w, l))
  {
    RunKeepsTracked(w, [l]);
    assert Run(Next(w, l), [l][1..]) == Next(w, l);
  }

  lemma NextKeepsDriving(w: World, l: Label)
    requires Sound(w) && Tracked(w) && Driving(w)
    ensures Driving(Next(w, l))
  {
    hide Guarded, Placed, Tracked, Driving, Exec;
    if l.Step? && Enabled(w, l.tid) { ExecKeepsDriving(w, l.tid, l.ch); } else { IdleKeepsDriving(w, Next(w, l)); }
  }

  lemma {:induction false} RunKeepsDriving(w: World, labels: seq<Label>)
    requires Sound(w) && Tracked(w) && Driving(w)
    ensures Driving(Run(w, labels))
    decreases |labels|
  {
    if labels != [] {
      hide Guarded, Placed, Tracked, Driving, Exec;
      var l := labels[0];
      NextKeepsSound(w, l);
      NextKeepsTracked(w, l);
      NextKeepsDriving(w, l);
      RunKeepsDriving(Next(w, l), labels[1..]);
    }
  }

  lemma ReachableDriving(w: World)
    requires Reachable(w)
    ensures Driving(w)
  {
    var labels :| Run(INIT, labels) == w;
    InitSound();
    RunKeepsDriving(INIT, labels);
  }
}
