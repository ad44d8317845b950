/**
  Every duty is in exactly one place in every reachable world: kept by its session, waiting in one
  thread, or done once. So each closer is closed at most once and each state event pushed at most once,
  and after a shutdown the closers registered before it are closed in reverse registration order.
 */
module Placement {
  import opened Events
  import opened Sessions
  import opened Lifecycle

  ghost predicate HeldOk(w: World) {
    forall sid, j {:trigger w.sess[sid].f.closers[j]} :: 0 <= sid < |w.sess| && 0 <= j < |w.sess[sid].f.closers| ==>
      var d := w.sess[sid].f.closers[j];
      d < |w.place| && d < |w.duties| && w.place[d] == Held(sid, j) && w.duties[d] == CloseDuty(sid)
  }

  ghost predicate CodeOk(place: seq<Place>, tid: nat, code: seq<Instr>) {
    forall i :: 0 <= i < |code| && code[i].Do? ==>
      code[i].duty < |place| && place[code[i].duty] == Pending(tid, |code| - i)
  }

  ghost predicate PendingOk(w: World) {
    forall tid :: 0 <= tid < |w.threads| ==> CodeOk(w.place, tid, w.threads[tid])
  }

  ghost predicate LoggedOk(w: World) {
    forall i :: 0 <= i < |w.trace| && w.trace[i].Did? ==>
      w.trace[i].duty < |w.place| && w.place[w.trace[i].duty] == Logged(i)
  }

  ghost predicate Real(w: World, p: Place, d: nat) {
    match p
    case Held(sid, j) => sid < |w.sess| && j < |w.sess[sid].f.closers| && w.sess[sid].f.closers[j] == d
    case Pending(tid, left) =>
      tid < |w.threads| && 1 <= left <= |w.threads[tid]| && w.threads[tid][|w.threads[tid]| - left] == Do(d)
    case Logged(i) => i < |w.trace| && w.trace[i] == Did(d)
  }

  ghost predicate AllReal(w: World) {
    forall d :: 0 <= d < |w.place| ==> Real(w, w.place[d], d)
  }

  ghost predicate SessOk(s: Sess) {
    s.f.closed ==> s.f.closers == []
  }

  ghost predicate Placed(w: World) {
    && |w.place| == |w.duties|
    && HeldOk(w) && PendingOk(w) && LoggedOk(w) && AllReal(w)
    && forall sid :: 0 <= sid < |w.sess| ==> SessOk(w.sess[sid])
  }

  ghost predicate NoDo(code: seq<Instr>) {
    forall i :: 0 <= i < |code| ==> !code[i].Do?
  }

  /** Same closers and the same closed flag, session by session; new sessions own nothing yet. */
  ghost predicate SameClosers(w: World, w': World) {
    && |w.sess| <= |w'.sess|
    && (forall s :: 0 <= s < |w.sess| ==>
          w'.sess[s].f.closers == w.sess[s].f.closers && w'.sess[s].f.closed == w.sess[s].f.closed)
    && (forall s :: |w.sess| <= s < |w'.sess| ==> w'.sess[s].f.closers == [])
  }

  /** What a step may do to the lists of instructions: replace one head, and start one more thread. */
  ghost predicate Replaces(w: World, w': World, tid: nat, code: seq<Instr>)
    requires tid < |w.threads| && w.threads[tid] != []
  {
    && |w.threads| <= |w'.threads| <= |w.threads| + 1
    && w'.threads[tid] == code + w.threads[tid][1..]
    && (forall t :: 0 <= t < |w.threads| && t != tid ==> w'.threads[t] == w.threads[t])
    && (|w'.threads| > |w.threads| ==> NoDo(w'.threads[|w.threads|]))
  }

  ghost predicate TraceGrows(w: World, w': World) {
    w'.trace == w.trace || (|w'.trace| == |w.trace| + 1 && w'.trace[..|w.trace|] == w.trace && w'.trace[|w.trace|].Sent?)
  }

  /** A step that neither creates, moves nor performs a duty. */
  lemma PlainKeepsPlaced(w: World, w': World, tid: nat, code: seq<Instr>)
    requires Placed(w)
    requires tid < |w.threads| && w.threads[tid] != [] && !w.threads[tid][0].Do?
    requires Replaces(w, w', tid, code) && NoDo(code)
    requires w'.place == w.place && w'.duties == w.duties
    requires SameClosers(w, w') && TraceGrows(w, w')
    ensures Placed(w')
  {
  }

  /** The first instruction of a thread performs its duty. */
  lemma DoKeepsPlaced(w: World, w': World, tid: nat, d: nat)
    requires Placed(w) && tid < |w.threads| && w.threads[tid] != [] && w.threads[tid][0] == Do(d)
    requires w'.threads == w.threads[tid := w.threads[tid][1..]] && w'.sess == w.sess && w'.duties == w.duties
    requires d < |w.place| && w'.place == w.place[d := Logged(|w.trace|)] && w'.trace == w.trace + [Did(d)]
    ensures Placed(w')
  {
  }

  /** A new duty whose thread performs it next. */
  ghost predicate AddsPending(w: World, w': World, tid: nat, duty: Duty, code: seq<Instr>) {
    && tid < |w.threads| && w.threads[tid] != [] && !w.threads[tid][0].Do? && NoDo(code)
    && w'.threads == w.threads[tid := [Do(|w.duties|)] + (code + w.threads[tid][1..])]
    && w'.duties == w.duties + [duty]
    && w'.place == w.place + [Pending(tid, |code| + |w.threads[tid]|)]
    && SameClosers(w, w') && |w'.sess| == |w.sess| && w'.trace == w.trace
  }

  lemma NewPendingCode(w: World, w': World, tid: nat, duty: Duty, code: seq<Instr>)
    requires Placed(w) && AddsPending(w, w', tid, duty, code)
    ensures PendingOk(w')
  {
    hide HeldOk, LoggedOk, AllReal, SameClosers;
    forall t | 0 <= t < |w'.threads| ensures CodeOk(w'.place, t, w'.threads[t]) {
      assert CodeOk(w.place, t, w.threads[t]);
    }
  }

  lemma NewPendingReal(w: World, w': World, tid: nat, duty: Duty, code: seq<Instr>)
    requires Placed(w) && AddsPending(w, w', tid, duty, code)
    ensures AllReal(w')
  {
    hide HeldOk, LoggedOk, PendingOk;
    forall d | 0 <= d < |w'.place| ensures Real(w', w'.place[d], d) {
      if d < |w.place| { assert Real(w, w.place[d], d); }
    }
  }

  lemma NewPendingKeepsPlaced(w: World, w': World, tid: nat, duty: Duty, code: seq<Instr>)
    requires Placed(w) && AddsPending(w, w', tid, duty, code)
    ensures Placed(w')
  {
    hide PendingOk, AllReal;
    NewPendingCode(w, w', tid, duty, code);
    NewPendingReal(w, w', tid, duty, code);
  }

  /** Registration with a session that is still open: the session keeps the closer. */
  lemma NewHeldKeepsPlaced(w: World, w': World, tid: nat, sid: nat, code: seq<Instr>)
    requires Placed(w) && sid < |w.sess| && !w.sess[sid].f.closed
    requires tid < |w.threads| && w.threads[tid] != [] && !w.threads[tid][0].Do? && NoDo(code)
    requires w'.threads == w.threads[tid := code + w.threads[tid][1..]]
    requires w'.duties == w.duties + [CloseDuty(sid)]
    requires w'.place == w.place + [Held(sid, |w.sess[sid].f.closers|)]
    requires w'.sess == w.sess[sid := w.sess[sid].(f := AddCloserLocked(w.sess[sid].f, |w.duties|))]
    requires w'.trace == w.trace
    ensures Placed(w')
  {
  }

  lemma ClosesAt(batch: seq<nat>, j: nat)
    requires j < |batch|
    ensures |Closes(batch)| == |batch| && Closes(batch)[|batch| - 1 - j] == Do(batch[j])
  {
    assert Closes(batch)[|batch| - 1 - j] == Do(Reverse(batch)[|batch| - 1 - j]);
  }

  ghost predicate TakesBatch(w: World, w': World, tid: nat, sid: nat) {
    && tid < |w.threads| && w.threads[tid] != [] && !w.threads[tid][0].Do? && sid < |w.sess|
    && |w'.place| == |w.place| && w'.duties == w.duties && w'.trace == w.trace && |w'.sess| == |w.sess|
    && w'.threads == w.threads[tid := Closes(w.sess[sid].f.closers) + w.threads[tid][1..]]
    && (forall d :: 0 <= d < |w.place| ==> w'.place[d] == Handed(w.place[d], sid, tid, |w.threads[tid]| - 1))
    && w'.sess[sid].f.closers == []
    && (forall s :: 0 <= s < |w.sess| && s != sid ==> w'.sess[s] == w.sess[s])
  }

  lemma TakenCode(w: World, w': World, tid: nat, sid: nat)
    requires Placed(w) && TakesBatch(w, w', tid, sid)
    ensures CodeOk(w'.place, tid, w'.threads[tid])
  {
    var before, batch, after := w.threads[tid], w.sess[sid].f.closers, w'.threads[tid];
    assert CodeOk(w.place, tid, before);
    forall i | 0 <= i < |after| && after[i].Do?
      ensures after[i].duty < |w'.place| && w'.place[after[i].duty] == Pending(tid, |after| - i)
    {
      if i < |batch| {
        ClosesAt(batch, |batch| - 1 - i);
        assert w.place[batch[|batch| - 1 - i]] == Held(sid, |batch| - 1 - i);
      } else {
        assert after[i] == before[i - |batch| + 1];
      }
    }
  }

  lemma TakenReal(w: World, w': World, tid: nat, sid: nat, e: nat)
    requires Placed(w) && TakesBatch(w, w', tid, sid) && e < |w.place|
    ensures Real(w', w'.place[e], e)
  {
    var before, batch, after := w.threads[tid], w.sess[sid].f.closers, w'.threads[tid];
    assert Real(w, w.place[e], e);
    match w.place[e] {
      case Held(s, j) => if s == sid { ClosesAt(batch, j); }
      case Pending(t, left) =>
        if t == tid {
          assert left < |before|;
          assert after[|after| - left] == before[|before| - left];
        }
      case Logged(i) =>
    }
  }

  /** The shutdown moves every closer the session holds into its own thread, last registered first. */
  lemma TakeBatchKeepsPlaced(w: World, w': World, tid: nat, sid: nat)
    requires Placed(w) && TakesBatch(w, w', tid, sid)
    ensures Placed(w')
  {
    TakenCode(w, w', tid, sid);
    forall t | 0 <= t < |w'.threads| ensures CodeOk(w'.place, t, w'.threads[t]) {
      assert CodeOk(w.place, t, w.threads[t]);
    }
    forall e | 0 <= e < |w'.place| ensures Real(w', w'.place[e], e) {
      TakenReal(w, w', tid, sid, e);
    }
    assert HeldOk(w') by {
      forall s, j | 0 <= s < |w'.sess| && 0 <= j < |w'.sess[s].f.closers|
        ensures var e := w'.sess[s].f.closers[j];
          e < |w'.place| && w'.place[e] == Held(s, j) && w'.duties[e] == CloseDuty(s)
      {
        assert s != sid;
        assert w.place[w.sess[s].f.closers[j]] == Held(s, j);
      }
    }
    assert LoggedOk(w') by {
      forall i | 0 <= i < |w'.trace| && w'.trace[i].Did?
        ensures w'.trace[i].duty < |w'.place| && w'.place[w'.trace[i].duty] == Logged(i)
      {
        assert w.place[w.trace[i].duty] == Logged(i);
      }
    }
  }

  // ---- every step, every run ----

  lemma PlanNoDo(w: World, i: Instr, ch: Choice)
    ensures NoDo(Plan(w, i, ch))
  {
  }

  lemma StopAllNoDo(order: seq<nat>)
    ensures NoDo(StopAll(order))
  {
  }

  lemma ApplyKeepsPlaced(w: World, tid: nat, sid: nat, st: State, detail: string)
    requires Placed(w) && Enabled(w, tid) && w.threads[tid][0] == ApplyState(sid, st, detail)
    ensures Placed(ExecApply(w, tid, w.threads[tid][1..], sid, st, detail))
  {
    var rest := w.threads[tid][1..];
    var w' := ExecApply(w, tid, rest, sid, st, detail);
    assert [] + rest == rest;
    if Moves(w.sess[sid].f, st, detail) {
      NewPendingKeepsPlaced(w, w', tid, w'.duties[|w.duties|], []);
    } else {
      PlainKeepsPlaced(w, w', tid, []);
    }
  }

  lemma RegisterKeepsPlaced(w: World, tid: nat, sid: nat, code: seq<Instr>)
    requires Placed(w) && sid < |w.sess| && tid < |w.threads| && w.threads[tid] != []
    requires !w.threads[tid][0].Do? && NoDo(code)
    ensures Placed(ExecRegister(w, tid, code + w.threads[tid][1..], sid))
  {
    var w' := ExecRegister(w, tid, code + w.threads[tid][1..], sid);
    if w.sess[sid].f.closed {
      NewPendingKeepsPlaced(w, w', tid, CloseDuty(sid), code);
    } else {
      NewHeldKeepsPlaced(w, w', tid, sid, code);
    }
  }

  lemma ShutdownKeepsPlaced(w: World, tid: nat, sid: nat)
    requires Placed(w) && Enabled(w, tid) && w.threads[tid][0] == TakeBatch(sid)
    ensures Placed(ExecTakeBatch(w, tid, w.threads[tid][1..], sid))
  {
    var w' := ExecTakeBatch(w, tid, w.threads[tid][1..], sid);
    assert [] + w.threads[tid][1..] == w.threads[tid][1..];
    if w.sess[sid].f.closed {
      PlainKeepsPlaced(w, w', tid, []);
    } else {
      TakeBatchKeepsPlaced(w, w', tid, sid);
    }
  }

  /** What steps that neither create, move nor perform a duty have in common. */
  ghost predicate KeepsDuties(w: World, w': World, tid: nat, code: seq<Instr>)
    requires tid < |w.threads| && w.threads[tid] != []
  {
    && Replaces(w, w', tid, code) && NoDo(code)
    && w'.place == w.place && w'.duties == w.duties && SameClosers(w, w') && TraceGrows(w, w')
  }

  lemma PlannedDuties(w: World, tid: nat, ch: Choice)
    requires Enabled(w, tid) && Planned(w.threads[tid][0])
    ensures KeepsDuties(w, Exec(w, tid, ch), tid, Added(w, tid, ch))
  {
    hide Plan;
    PlannedStep(w, tid, ch);
    PlanNoDo(w, w.threads[tid][0], ch);
  }

  lemma PlainDuties(w: World, tid: nat, ch: Choice)
    requires Enabled(w, tid) && !MovesDuties(w.threads[tid][0]) && !Planned(w.threads[tid][0])
    ensures KeepsDuties(w, ExecPlain(w, tid, ch), tid, AddedPlainly(w, tid, ch))
  {
    hide StopAll, PushTo, Listing, KindOf;
    var i, rest := w.threads[tid][0], w.threads[tid][1..];
    assert [] + rest == rest;
    assert w.threads[tid] == [i] + rest;
    if i.CloseEngine? { StopAllNoDo(ch.order); }
  }

  lemma PlainStep(w: World, tid: nat, ch: Choice)
    requires Enabled(w, tid) && !MovesDuties(w.threads[tid][0])
    ensures KeepsDuties(w, Exec(w, tid, ch), tid, Added(w, tid, ch))
  {
    hide Plan, ExecPlain, AddedPlainly;
    if Planned(w.threads[tid][0]) { PlannedDuties(w, tid, ch); } else { PlainDuties(w, tid, ch); }
  }

  lemma DoStepKeepsPlaced(w: World, tid: nat, d: nat, now: int)
    requires Placed(w) && Enabled(w, tid) && w.threads[tid][0] == Do(d)
    ensures Placed(ExecDo(w, tid, w.threads[tid][1..], d, now))
  {
    DoKeepsPlaced(w, ExecDo(w, tid, w.threads[tid][1..], d, now), tid, d);
  }

  lemma ExecKeepsPlaced(w: World, tid: nat, ch: Choice)
    requires Placed(w) && Enabled(w, tid)
    ensures Placed(Exec(w, tid, ch))
  {
    hide Placed, ExecApply, ExecDo, ExecRegister, ExecTakeBatch, ExecPlain, Plan;
    var i, rest := w.threads[tid][0], w.threads[tid][1..];
    if MovesDuties(i) {
      match i {
        case ApplyState(sid, st, detail) => ApplyKeepsPlaced(w, tid, sid, st, detail);
        case Do(d) => DoStepKeepsPlaced(w, tid, d, ch.now);
        case Register(sid) =>
          assert [] + rest == rest;
          RegisterKeepsPlaced(w, tid, sid, []);
        case RegisterListener(sid) => RegisterKeepsPlaced(w, tid, sid, [GoAccept(sid, |w.duties|)]);
        case TakeBatch(sid) => ShutdownKeepsPlaced(w, tid, sid);
      }
    } else {
      PlainStep(w, tid, ch);
      PlainKeepsPlaced(w, Exec(w, tid, ch), tid, Added(w, tid, ch));
    }
  }

  lemma CallKeepsPlaced(w: World, cmd: Command)
    requires Placed(w)
    ensures Placed(Next(w, Call(cmd)))
  {
    var w' := Next(w, Call(cmd));
    forall t | 0 <= t < |w'.threads| ensures CodeOk(w'.place, t, w'.threads[t]) {
      if t < |w.threads| { assert CodeOk(w.place, t, w.threads[t]); }
    }
    forall d | 0 <= d < |w'.place| ensures Real(w', w'.place[d], d) {
      assert Real(w, w.place[d], d);
    }
  }

  lemma NextKeepsPlaced(w: World, l: Label)
    requires Placed(w)
    ensures Placed(Next(w, l))
  {
    hide Exec;
    match l {
      case Step(tid, ch) => if Enabled(w, tid) { ExecKeepsPlaced(w, tid, ch); }
      case Call(cmd) => CallKeepsPlaced(w, cmd);
      case _ =>
        var w' := Next(w, l);
        forall t | 0 <= t < |w'.threads| ensures CodeOk(w'.place, t, w'.threads[t]) {
          assert CodeOk(w.place, t, w.threads[t]);
        }
        forall d | 0 <= d < |w'.place| ensures Real(w', w'.place[d], d) {
          assert Real(w, w.place[d], d);
        }
    }
  }

  lemma {:induction false} RunKeepsPlaced(w: World, labels: seq<Label>)
    requires Placed(w)
    ensures Placed(Run(w, labels))
    decreases |labels|
  {
    if labels != [] {
      NextKeepsPlaced(w, labels[0]);
      RunKeepsPlaced(Next(w, labels[0]), labels[1..]);
    }
  }
}
