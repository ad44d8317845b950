/** Shutdown closes what was registered before it in reverse order of registration, under every interleaving. */
module CloseOrder {
  import opened Events
  import opened Lifecycle
  import opened Placement

  /** d2 is closed before d1: both wait in one thread with d2 first, or d2 is done already. */
  predicate Before(p2: Place, p1: Place) {
    match (p2, p1)
    case (Pending(t2, k2), Pending(t1, k1)) => t1 == t2 && k1 < k2
    case (Logged(_), Pending(_, _)) => true
    case (Logged(i2), Logged(i1)) => i2 < i1
    case _ => false
  }

  /** An open session holds every closer registered with it. */
  ghost predicate HeldOpen(w: World, d: nat)
    requires d < |w.duties| && d < |w.place|
  {
    w.duties[d].CloseDuty? ==>
      var sid := w.duties[d].sid;
      sid < |w.sess| && (!w.sess[sid].f.closed ==> w.place[d].Held? && w.place[d].sid == sid)
  }

  ghost predicate PairOk(w: World, d1: nat, d2: nat)
    requires d1 < |w.duties| && d1 < |w.place| && d2 < |w.duties| && d2 < |w.place|
  {
    w.duties[d1].CloseDuty? && w.duties[d2] == w.duties[d1] && w.duties[d1].sid < |w.sess| ==>
      var s := w.sess[w.duties[d1].sid];
      if s.f.closed then d2 < s.cut ==> Before(w.place[d2], w.place[d1])
      else w.place[d1].Held? && w.place[d2].Held? && w.place[d1].idx < w.place[d2].idx
  }

  ghost predicate Ordered(w: World) {
    && |w.place| == |w.duties|
    && (forall d {:trigger HeldOpen(w, d)} :: 0 <= d < |w.duties| ==> HeldOpen(w, d))
    && (forall d1, d2 {:trigger PairOk(w, d1, d2)} :: 0 <= d1 < d2 < |w.duties| ==> PairOk(w, d1, d2))
    && forall s :: 0 <= s < |w.sess| ==> w.sess[s].cut <= |w.duties|
  }

  ghost predicate SameCuts(w: World, w': World) {
    && |w.sess| <= |w'.sess|
    && (forall s :: 0 <= s < |w.sess| ==> w'.sess[s].f.closed == w.sess[s].f.closed && w'.sess[s].cut == w.sess[s].cut)
    && (forall s :: |w.sess| <= s < |w'.sess| ==> w'.sess[s].cut == 0)
  }

  ghost predicate NoNewCloser(w: World, w': World) {
    && |w.duties| == |w.place| <= |w'.place| == |w'.duties|
    && (forall d :: 0 <= d < |w.duties| ==> w'.duties[d] == w.duties[d] && w'.place[d] == w.place[d])
    && (forall d :: |w.duties| <= d < |w'.duties| ==> !w'.duties[d].CloseDuty?)
  }

  /** New duties that are not closers change nothing here. */
  lemma PlainKeepsOrdered(w: World, w': World)
    requires Ordered(w) && SameCuts(w, w') && NoNewCloser(w, w')
    ensures Ordered(w')
  {
    forall d | 0 <= d < |w'.duties| ensures HeldOpen(w', d) {
      if d < |w.duties| { assert HeldOpen(w, d); }
    }
    forall d1, d2 | 0 <= d1 < d2 < |w'.duties| ensures PairOk(w', d1, d2) {
      if d2 < |w.duties| { assert PairOk(w, d1, d2) && HeldOpen(w, d1); }
    }
  }

  lemma DoKeepsOrdered(w: World, w': World, tid: nat, d: nat)
    requires Placed(w) && Ordered(w) && w'.sess == w.sess
    requires tid < |w.threads| && w.threads[tid] != [] && w.threads[tid][0] == Do(d) && d < |w.place|
    requires w'.duties == w.duties && w'.place == w.place[d := Logged(|w.trace|)]
    ensures Ordered(w')
  {
    assert CodeOk(w.place, tid, w.threads[tid]);
    assert w.place[d] == Pending(tid, |w.threads[tid]|);
    forall e | 0 <= e < |w'.duties| ensures HeldOpen(w', e) {
      assert HeldOpen(w, e);
    }
    forall d1, d2 | 0 <= d1 < d2 < |w'.duties| ensures PairOk(w', d1, d2) {
      assert PairOk(w, d1, d2);
      assert Real(w, w.place[d2], d2) && Real(w, w.place[d1], d1);
    }
  }

  lemma RegisterPair(w: World, w': World, tid: nat, rest: seq<Instr>, sid: nat, d1: nat, d2: nat)
    requires Placed(w) && Ordered(w) && tid < |w.threads| && sid < |w.sess| && d1 < d2 <= |w.duties|
    requires w' == ExecRegister(w, tid, rest, sid)
    ensures PairOk(w', d1, d2)
  {
    hide HeldOk, PendingOk, LoggedOk;
    assert HeldOpen(w, d1) && Real(w, w.place[d1], d1);
    if d2 < |w.duties| { assert PairOk(w, d1, d2); }
  }

  lemma RegisterKeepsOrdered(w: World, tid: nat, rest: seq<Instr>, sid: nat)
    requires Placed(w) && Ordered(w) && tid < |w.threads| && sid < |w.sess|
    ensures Ordered(ExecRegister(w, tid, rest, sid))
  {
    var w' := ExecRegister(w, tid, rest, sid);
    forall d | 0 <= d < |w'.duties| ensures HeldOpen(w', d) {
      if d < |w.duties| { assert HeldOpen(w, d); }
    }
    forall d1, d2 | 0 <= d1 < d2 < |w'.duties| ensures PairOk(w', d1, d2) {
      RegisterPair(w, w', tid, rest, sid, d1, d2);
    }
  }

  lemma TakeBatchPair(w: World, w': World, tid: nat, rest: seq<Instr>, sid: nat, d1: nat, d2: nat)
    requires Placed(w) && Ordered(w) && tid < |w.threads| && sid < |w.sess| && d1 < d2 < |w.duties|
    requires w' == ExecTakeBatch(w, tid, rest, sid)
    ensures PairOk(w', d1, d2)
  {
    assert PairOk(w, d1, d2) && HeldOpen(w, d1) && HeldOpen(w, d2);
    if !w.sess[sid].f.closed {
      assert w'.place[d1] == Handed(w.place[d1], sid, tid, |rest|);
      assert w'.place[d2] == Handed(w.place[d2], sid, tid, |rest|);
    }
  }

  lemma TakeBatchHeld(w: World, w': World, tid: nat, rest: seq<Instr>, sid: nat, d: nat)
    requires Placed(w) && Ordered(w) && tid < |w.threads| && sid < |w.sess| && d < |w.duties|
    requires w' == ExecTakeBatch(w, tid, rest, sid)
    ensures HeldOpen(w', d)
  {
    assert HeldOpen(w, d);
  }

  lemma TakeBatchKeepsOrdered(w: World, tid: nat, rest: seq<Instr>, sid: nat)
    requires Placed(w) && Ordered(w) && tid < |w.threads| && sid < |w.sess|
    ensures Ordered(ExecTakeBatch(w, tid, rest, sid))
  {
    var w' := ExecTakeBatch(w, tid, rest, sid);
    forall d | 0 <= d < |w'.duties| ensures HeldOpen(w', d) {
      TakeBatchHeld(w, w', tid, rest, sid, d);
    }
    forall d1, d2 | 0 <= d1 < d2 < |w'.duties| ensures PairOk(w', d1, d2) {
      TakeBatchPair(w, w', tid, rest, sid, d1, d2);
    }
  }

  lemma ApplyKeepsOrdered(w: World, tid: nat, rest: seq<Instr>, sid: nat, st: State, detail: string)
    requires Ordered(w) && tid < |w.threads| && sid < |w.sess|
    ensures Ordered(ExecApply(w, tid, rest, sid, st, detail))
  {
    PlainKeepsOrdered(w, ExecApply(w, tid, rest, sid, st, detail));
  }

  lemma DoStepKeepsOrdered(w: World, tid: nat, d: nat, now: int)
    requires Placed(w) && Ordered(w) && Enabled(w, tid) && w.threads[tid][0] == Do(d)
    ensures Ordered(ExecDo(w, tid, w.threads[tid][1..], d, now))
  {
    DoKeepsOrdered(w, ExecDo(w, tid, w.threads[tid][1..], d, now), tid, d);
  }

  lemma PlainOrder(w: World, tid: nat, ch: Choice)
    requires |w.place| == |w.duties| && Enabled(w, tid)
    requires !MovesDuties(w.threads[tid][0]) && !Planned(w.threads[tid][0])
    ensures NoNewCloser(w, ExecPlain(w, tid, ch)) && SameCuts(w, ExecPlain(w, tid, ch))
  {
    hide StartCode, StopAll, PushTo, Listing, KindOf;
  }

  lemma PlainStepOrder(w: World, tid: nat, ch: Choice)
    requires |w.place| == |w.duties| && Enabled(w, tid) && !MovesDuties(w.threads[tid][0])
    ensures NoNewCloser(w, Exec(w, tid, ch)) && SameCuts(w, Exec(w, tid, ch))
  {
    hide Plan, ExecPlain;
    if Planned(w.threads[tid][0]) { PlannedStep(w, tid, ch); } else { PlainOrder(w, tid, ch); }
  }

  lemma ExecKeepsOrdered(w: World, tid: nat, ch: Choice)
    requires Placed(w) && Ordered(w) && Enabled(w, tid)
    ensures Ordered(Exec(w, tid, ch))
  {
    assert |w.place| == |w.duties|;
    hide Placed, Ordered, ExecApply, ExecDo, ExecRegister, ExecTakeBatch, ExecPlain, Plan;
    var i, rest := w.threads[tid][0], w.threads[tid][1..];
    if MovesDuties(i) {
      match i {
        case ApplyState(sid, st, detail) => ApplyKeepsOrdered(w, tid, rest, sid, st, detail);
        case Do(d) => DoStepKeepsOrdered(w, tid, d, ch.now);
        case Register(sid) => RegisterKeepsOrdered(w, tid, rest, sid);
        case RegisterListener(sid) => RegisterKeepsOrdered(w, tid, [GoAccept(sid, |w.duties|)] + rest, sid);
        case TakeBatch(sid) => TakeBatchKeepsOrdered(w, tid, rest, sid);
      }
    } else {
      PlainStepOrder(w, tid, ch);
      PlainKeepsOrdered(w, Exec(w, tid, ch));
    }
  }

  lemma NextKeepsOrdered(w: World, l: Label)
    requires Placed(w) && Ordered(w)
    ensures Ordered(Next(w, l))
  {
    if l.Step? {
      if Enabled(w, l.tid) { ExecKeepsOrdered(w, l.tid, l.ch); }
    } else {
      PlainKeepsOrdered(w, Next(w, l));
    }
  }

  lemma {:induction false} RunKeepsOrdered(w: World, labels: seq<Label>)
    requires Placed(w) && Ordered(w)
    ensures Placed(Run(w, labels)) && Ordered(Run(w, labels))
    decreases |labels|
  {
    if labels != [] {
      NextKeepsPlaced(w, labels[0]);
      NextKeepsOrdered(w, labels[0]);
      RunKeepsOrdered(Next(w, labels[0]), labels[1..]);
    }
  }

  // ---- the results ----

  /** Some interleaving leads here. */
  ghost predicate Reachable(w: World) {
    exists labels :: Run(INIT, labels) == w
  }

  lemma ReachableOrdered(w: World)
    requires Reachable(w)
    ensures Placed(w) && Ordered(w)
  {
    var labels :| Run(INIT, labels) == w;
    RunKeepsOrdered(INIT, labels);
  }

  /** Every call has returned and every goroutine has finished. */
  ghost predicate Idle(w: World) {
    forall t :: 0 <= t < |w.threads| ==> w.threads[t] == []
  }

  /** How often a duty was performed so far. */
  function Times(trace: seq<Effect>, d: nat): nat {
    if trace == [] then 0
    else Times(trace[..|trace| - 1], d) + if trace[|trace| - 1] == Did(d) then 1 else 0
  }

  lemma {:induction false} TimesOfLogged(w: World, d: nat, n: nat)
    requires Placed(w) && n <= |w.trace| && d < |w.place|
    ensures Times(w.trace[..n], d) == if w.place[d].Logged? && w.place[d].at < n then 1 else 0
  {
    if n > 0 {
      assert w.trace[..n][..n - 1] == w.trace[..n - 1];
      TimesOfLogged(w, d, n - 1);
      assert Real(w, w.place[d], d);
    }
  }

  /** Some thread still has the duty to perform. */
  predicate Waiting(w: World, d: nat) {
    exists t :: 0 <= t < |w.threads| && Do(d) in w.threads[t]
  }

  lemma WaitingIff(w: World, d: nat)
    requires Placed(w) && d < |w.duties|
    ensures Waiting(w, d) <==> w.place[d].Pending?
  {
    assert Real(w, w.place[d], d);
    if Waiting(w, d) {
      var t :| 0 <= t < |w.threads| && Do(d) in w.threads[t];
      assert CodeOk(w.place, t, w.threads[t]);
      var i :| 0 <= i < |w.threads[t]| && w.threads[t][i] == Do(d);
    }
  }

  /**
    In every interleaving each registered closer and each state event is, at any moment, in exactly one place,
    and is closed or pushed at most once. A state event, and a closer of a session that was shut down, is either
    done exactly once or waiting in a thread, never both; so once the calls that took them over have returned,
    each has been pushed or closed exactly once, whatever other sessions do.
   */
  lemma EachDutyOnce(w: World, d: nat)
    requires Reachable(w) && d < |w.duties|
    ensures |w.place| == |w.duties| && Real(w, w.place[d], d)
    ensures Times(w.trace, d) == if w.place[d].Logged? then 1 else 0
    ensures Times(w.trace, d) + (if Waiting(w, d) then 1 else 0) <= 1
    ensures w.duties[d].PushDuty? || (w.duties[d].sid < |w.sess| && w.sess[w.duties[d].sid].f.closed) ==>
              Times(w.trace, d) + (if Waiting(w, d) then 1 else 0) == 1
  {
    ReachableOrdered(w);
    TimesOfLogged(w, d, |w.trace|);
    WaitingIff(w, d);
    assert w.trace[..|w.trace|] == w.trace;
    assert Real(w, w.place[d], d);
    if w.place[d].Held? {
      var s := w.place[d].sid;
      assert w.sess[s].f.closers[w.place[d].idx] == d;
      assert w.duties[d] == CloseDuty(s) && SessOk(w.sess[s]);
    }
  }

  /** Of two closers registered before the shutdown of their session, the later one is closed first. */
  lemma ClosedInReverse(w: World, sid: nat, d1: nat, d2: nat, i: nat)
    requires Reachable(w) && sid < |w.sess| && w.sess[sid].f.closed
    requires d1 < d2 < |w.duties| && w.duties[d1] == w.duties[d2] == CloseDuty(sid) && d2 < w.sess[sid].cut
    requires i < |w.trace| && w.trace[i] == Did(d1)
    ensures exists k :: 0 <= k < i && w.trace[k] == Did(d2)
  {
    ReachableOrdered(w);
    assert w.place[d1] == Logged(i);
    assert PairOk(w, d1, d2);
    assert Real(w, w.place[d2], d2);
    assert w.trace[w.place[d2].at] == Did(d2);
  }

  /** No closer is closed while its session is open. */
  lemma ClosedOnlyByShutdown(w: World, d: nat)
    requires Reachable(w) && d < |w.duties| && w.duties[d].CloseDuty? && IsClosed(w, d)
    ensures w.duties[d].sid < |w.sess| && w.sess[w.duties[d].sid].f.closed
  {
    ReachableOrdered(w);
    var k :| 0 <= k < |w.trace| && w.trace[k] == Did(d);
    assert w.place[d] == Logged(k);
    assert HeldOpen(w, d);
  }
}
