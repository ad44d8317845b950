/** State transitions and the state events pushed for them, under every interleaving. */
module StateEvents {
  import opened Events
  import opened Sessions
  import opened Lifecycle
  import opened Placement
  import opened CloseOrder

  predicate MoveOf(d: Duty, sid: nat) {
    d.PushDuty? && d.sid == sid && d.body.SessionState? && d.body.sid == sid
  }

  predicate IsMove(w: World, d: nat, sid: nat)
    requires d < |w.duties|
  {
    MoveOf(w.duties[d], sid)
  }

  /** The moves of a session are its transitions in order: only the last may be terminal, and it is the state. */
  ghost predicate Fits(duties: seq<Duty>, s: Sess, sid: nat) {
    && (forall i :: 0 <= i < |s.moves| ==> s.moves[i] < |duties| && MoveOf(duties[s.moves[i]], sid))
    && (forall i, j :: 0 <= i < j < |s.moves| ==> s.moves[i] < s.moves[j])
    && (forall i :: 0 <= i < |s.moves| - 1 ==> !Terminal(duties[s.moves[i]].body.state))
    && (if s.moves == [] then s.f.state == Starting && s.f.detail == ""
        else var b := duties[s.moves[|s.moves| - 1]].body; s.f.state == b.state && s.f.detail == b.detail)
  }

  ghost predicate MovesFit(w: World, sid: nat)
    requires sid < |w.sess|
  {
    Fits(w.duties, w.sess[sid], sid)
  }

  lemma FitsMore(duties: seq<Duty>, more: seq<Duty>, s: Sess, sid: nat)
    requires Fits(duties, s, sid) && duties <= more
    ensures Fits(more, s, sid)
  {
  }

  /** One more transition out of a state that is not terminal. */
  lemma FitsNext(duties: seq<Duty>, s: Sess, sid: nat, f: Fields)
    requires Fits(duties, s, sid) && !Terminal(s.f.state)
    ensures Fits(duties + [PushDuty(sid, StateBody(sid, f))], s.(f := f, moves := s.moves + [|duties|]), sid)
  {
  }

  ghost predicate Listed(w: World, d: nat)
    requires d < |w.duties|
  {
    w.duties[d].PushDuty? ==> w.duties[d].sid < |w.sess| && d in w.sess[w.duties[d].sid].moves
  }

  ghost predicate Tracked(w: World) {
    && (forall sid {:trigger MovesFit(w, sid)} :: 0 <= sid < |w.sess| ==> MovesFit(w, sid))
    && (forall d {:trigger Listed(w, d)} :: 0 <= d < |w.duties| ==> Listed(w, d))
  }

  ghost predicate SameMoves(s: Sess, t: Sess) {
    t.moves == s.moves && t.f.state == s.f.state && t.f.detail == s.f.detail
  }

  ghost predicate NoMove(w: World, w': World) {
    && |w.sess| <= |w'.sess| && |w.duties| <= |w'.duties|
    && (forall s :: 0 <= s < |w.sess| ==> SameMoves(w.sess[s], w'.sess[s]))
    && (forall s :: |w.sess| <= s < |w'.sess| ==> SameMoves(Sess(NewFields(Server), [], 0, 0), w'.sess[s]))
    && (forall d :: 0 <= d < |w.duties| ==> w'.duties[d] == w.duties[d])
    && (forall d :: |w.duties| <= d < |w'.duties| ==> w'.duties[d].CloseDuty?)
  }

  /** Steps that touch no state: new sessions start without moves, new duties only close. */
  lemma PlainKeepsTracked(w: World, w': World)
    requires Tracked(w)
    requires NoMove(w, w')
    ensures Tracked(w')
  {
    forall s | 0 <= s < |w'.sess| ensures MovesFit(w', s) {
      if s < |w.sess| { assert MovesFit(w, s); }
    }
    forall d | 0 <= d < |w'.duties| ensures Listed(w', d) {
      if d < |w.duties| { assert Listed(w, d); }
    }
  }

  lemma ApplyKeepsTracked(w: World, tid: nat, rest: seq<Instr>, sid: nat, st: State, detail: string)
    requires Tracked(w) && tid < |w.threads| && sid < |w.sess|
    ensures Tracked(ExecApply(w, tid, rest, sid, st, detail))
  {
    var w' := ExecApply(w, tid, rest, sid, st, detail);
    forall s | 0 <= s < |w'.sess| ensures MovesFit(w', s) {
      assert MovesFit(w, s);
      FitsMore(w.duties, w'.duties, w.sess[s], s);
      if s == sid && Moves(w.sess[s].f, st, detail) {
        FitsNext(w.duties, w.sess[s], s, w'.sess[s].f);
      }
    }
    forall d | 0 <= d < |w'.duties| ensures Listed(w', d) {
      if d < |w.duties| {
        assert Listed(w, d);
      } else {
        var m := w'.sess[sid].moves;
        assert m[|m| - 1] == d;
      }
    }
  }

  lemma RegisterNoMove(w: World, tid: nat, rest: seq<Instr>, sid: nat)
    requires tid < |w.threads| && sid < |w.sess|
    ensures NoMove(w, ExecRegister(w, tid, rest, sid))
  {
  }

  lemma TakeBatchNoMove(w: World, tid: nat, rest: seq<Instr>, sid: nat)
    requires tid < |w.threads| && sid < |w.sess|
    ensures NoMove(w, ExecTakeBatch(w, tid, rest, sid))
  {
  }

  lemma GotoNoMove(w: World, tid: nat, code: seq<Instr>)
    requires tid < |w.threads|
    ensures NoMove(w, Goto(w, tid, code))
  {
  }

  lemma DoNoMove(w: World, tid: nat, rest: seq<Instr>, d: nat, now: int)
    requires tid < |w.threads| && d < |w.duties| && d < |w.place|
    ensures NoMove(w, ExecDo(w, tid, rest, d, now))
  {
  }

  lemma PlainNoMove(w: World, tid: nat, ch: Choice)
    requires Enabled(w, tid) && !Planned(w.threads[tid][0]) && !MovesDuties(w.threads[tid][0])
    ensures NoMove(w, ExecPlain(w, tid, ch))
  {
    hide StartCode, StopAll, PushTo, Listing, KindOf;
  }

  lemma ExecNoMove(w: World, tid: nat, ch: Choice)
    requires Enabled(w, tid) && !w.threads[tid][0].ApplyState?
    ensures NoMove(w, Exec(w, tid, ch))
  {
    hide NoMove, ExecRegister, ExecTakeBatch, ExecDo, ExecPlain, Plan, Goto;
    var i, rest := w.threads[tid][0], w.threads[tid][1..];
    if Planned(i) {
      GotoNoMove(w, tid, Plan(w, i, ch) + rest);
    } else if i.Register? {
      RegisterNoMove(w, tid, rest, i.sid);
    } else if i.RegisterListener? {
      RegisterNoMove(w, tid, [GoAccept(i.sid, |w.duties|)] + rest, i.sid);
    } else if i.TakeBatch? {
      TakeBatchNoMove(w, tid, rest, i.sid);
    } else if i.Do? {
      DoNoMove(w, tid, rest, i.duty, ch.now);
    } else {
      PlainNoMove(w, tid, ch);
    }
  }

  lemma ExecKeepsTracked(w: World, tid: nat, ch: Choice)
    requires Tracked(w) && Enabled(w, tid)
    ensures Tracked(Exec(w, tid, ch))
  {
    var i := w.threads[tid][0];
    if i.ApplyState? {
      ApplyKeepsTracked(w, tid, w.threads[tid][1..], i.sid, i.st, i.detail);
    } else {
      ExecNoMove(w, tid, ch);
      PlainKeepsTracked(w, Exec(w, tid, ch));
    }
  }

  lemma {:induction false} RunKeepsTracked(w: World, labels: seq<Label>)
    requires Tracked(w)
    ensures Tracked(Run(w, labels))
    decreases |labels|
  {
    if labels != [] {
      var l := labels[0];
      if l.Step? && Enabled(w, l.tid) {
        ExecKeepsTracked(w, l.tid, l.ch);
      } else {
        PlainKeepsTracked(w, Next(w, l));
      }
      RunKeepsTracked(Next(w, l), labels[1..]);
    }
  }

  lemma ReachableTracked(w: World)
    requires Reachable(w)
    ensures Tracked(w) && Placed(w)
  {
    var labels :| Run(INIT, labels) == w;
    RunKeepsTracked(INIT, labels);
    ReachableOrdered(w);
  }

  // ---- the results ----

  lemma NeverHeld(w: World, d: nat)
    requires Placed(w) && d < |w.duties| && w.duties[d].PushDuty?
    ensures !w.place[d].Held?
  {
    assert Real(w, w.place[d], d);
  }

  /**
    No transition follows a terminal one, the session's state is its last transition, and every transition is
    accounted for: its event is pushed exactly once or its push is still pending in one thread.
   */
  lemma TransitionsAreEvents(w: World, sid: nat, i: nat)
    requires Reachable(w) && sid < |w.sess| && i < |w.sess[sid].moves|
    ensures var m := w.sess[sid].moves; var d := m[i];
      && d < |w.duties| && d < |w.place| && IsMove(w, d, sid)
      && (i < |m| - 1 ==> !Terminal(w.duties[d].body.state))
      && (i == |m| - 1 ==>
            w.duties[d].body.state == w.sess[sid].f.state && w.duties[d].body.detail == w.sess[sid].f.detail)
      && Times(w.trace, d) + (if w.place[d].Pending? then 1 else 0) == 1
      && (w.place[d].Pending? ==> Real(w, w.place[d], d))
  {
    ReachableTracked(w);
    assert MovesFit(w, sid);
    var d := w.sess[sid].moves[i];
    EachDutyOnce(w, d);
    NeverHeld(w, d);
  }

  /** At most one terminal session_state event of a session is ever emitted, by whichever thread wins. */
  lemma OneTerminalEvent(w: World, j: nat, k: nat)
    requires Reachable(w) && j < |w.trace| && k < |w.trace| && w.trace[j].Did? && w.trace[k].Did?
    requires var d, e := w.trace[j].duty, w.trace[k].duty;
      && d < |w.duties| && e < |w.duties| && w.duties[d].PushDuty? && w.duties[e].PushDuty?
      && w.duties[d].sid == w.duties[e].sid
      && w.duties[d].body.SessionState? && w.duties[e].body.SessionState?
      && Terminal(w.duties[d].body.state) && Terminal(w.duties[e].body.state)
    ensures j == k
  {
    ReachableTracked(w);
    var d, e := w.trace[j].duty, w.trace[k].duty;
    assert Listed(w, d) && Listed(w, e);
    var sid := w.duties[d].sid;
    assert MovesFit(w, sid);
    var m := w.sess[sid].moves;
    var a :| 0 <= a < |m| && m[a] == d;
    var b :| 0 <= b < |m| && m[b] == e;
    assert a == |m| - 1 && b == |m| - 1;
    assert w.place[d] == Logged(j) && w.place[e] == Logged(k);
  }
}
