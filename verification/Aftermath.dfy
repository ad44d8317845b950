/**
  A session that is over is also shut down: whoever ends it goes on to cancel its context and to take its closers, so
  when nobody is at it any more all it owned has been closed, each once.
 */
module Aftermath {
  import opened Events
  import opened Sessions
  import opened Lifecycle
  import opened Placement
  import opened CloseOrder
  import opened Termination
  import opened DriverOrder
  import opened Jobs

  /** Every terminal setState in the list is followed by the two steps of a shutdown. */
  predicate Followed(code: seq<Instr>)
    decreases |code|
  {
    code == [] ||
    ((code[0].ApplyState? && Terminal(code[0].st) ==>
        Cancel(code[0].sid) in code[1..] && TakeBatch(code[0].sid) in code[1..]) &&
     Followed(code[1..]))
  }

  ghost predicate Holds(w: World, i: Instr) {
    exists t :: 0 <= t < |w.threads| && i in w.threads[t]
  }

  ghost predicate Handled(w: World, s: nat)
    requires s < |w.sess|
  {
    Terminal(w.sess[s].f.state) ==>
      && (w.sess[s].f.cancelled || Holds(w, Cancel(s)))
      && (w.sess[s].f.closed || Holds(w, TakeBatch(s)))
  }

  ghost predicate AllFollowed(w: World) {
    forall t {:trigger w.threads[t]} :: 0 <= t < |w.threads| ==> Followed(w.threads[t])
  }

  ghost predicate AllHandled(w: World) {
    forall s {:trigger Handled(w, s)} :: 0 <= s < |w.sess| ==> Handled(w, s)
  }

  // ---- the code lists ----

  lemma {:induction false} FollowedAppend(a: seq<Instr>, b: seq<Instr>)
    requires Followed(a) && Followed(b)
    ensures Followed(a + b)
    decreases |a|
  {
    if a == [] {
      assert a + b == b;
    } else {
      FollowedAppend(a[1..], b);
      assert (a + b)[1..] == a[1..] + b;
    }
  }

  lemma {:induction false} NothingToFollow(code: seq<Instr>)
    requires forall i :: i in code ==> !(i.ApplyState? && Terminal(i.st))
    ensures Followed(code)
    decreases |code|
  {
    if code != [] {
      assert code[0] in code;
      NothingToFollow(code[1..]);
    }
  }

  lemma EndingFollowed(sid: nat, st: State, detail: string)
    ensures Followed(Ending(sid, st, detail)) && Followed(Fail(sid, detail))
  {
    var code := Ending(sid, st, detail);
    NothingToFollow([Cancel(sid), TakeBatch(sid)]);
    assert code[1..] == [Cancel(sid), TakeBatch(sid)] && code[1] in code[1..] && code[2] in code[1..];
    var failing := Ending(sid, Failed, detail);
    assert failing[1..] == [Cancel(sid), TakeBatch(sid)] && failing[1] in failing[1..] && failing[2] in failing[1..];
    assert Fail(sid, detail)[1..] == failing;
  }

  lemma {:induction false} StopAllFollowed(order: seq<nat>)
    ensures Followed(StopAll(order))
  {
    if order != [] {
      StopAllFollowed(order[1..]);
      EndingFollowed(order[0], Stopped, "");
      FollowedAppend(Stop(order[0]), StopAll(order[1..]));
    }
  }

  lemma PlanFollowed(w: World, i: Instr, ch: Choice)
    ensures Followed(Plan(w, i, ch))
  {
    hide Followed;
    var code := Plan(w, i, ch);
    if forall j :: j in code ==> !(j.ApplyState? && Terminal(j.st)) {
      NothingToFollow(code);
    } else if i.ListDir? {
      EndingFollowed(i.sid, Done, "");
      EndingFollowed(i.sid, Failed, ch.text);
    } else if i.Lookup? {
      EndingFollowed(i.sid, Stopped, "");
    } else if i.Transfer? && code != Fail(i.sid, ch.text) {
      EndingFollowed(i.sid, Done, i.finished);
    } else {
      EndingFollowed(i.sid, Failed, ch.text);
    }
  }

  lemma AddedFollowed(w: World, tid: nat, ch: Choice)
    requires Enabled(w, tid)
    ensures Followed(Added(w, tid, ch))
  {
    hide Followed, Plan;
    var i := w.threads[tid][0];
    if Planned(i) {
      PlannedStep(w, tid, ch);
      PlanFollowed(w, i, ch);
    } else if i.CloseEngine? && Listing(ch.order, |w.sess|) {
      StopAllFollowed(ch.order);
      NothingToFollow([CancelEngine]);
      FollowedAppend(StopAll(ch.order), [CancelEngine]);
    } else {
      NothingToFollow(Added(w, tid, ch));
    }
  }

  // ---- steps ----

  lemma FollowedHead(w: World, tid: nat)
    requires AllFollowed(w) && tid < |w.threads| && w.threads[tid] != []
    ensures Followed(w.threads[tid][1..])
    ensures var i := w.threads[tid][0];
      i.ApplyState? && Terminal(i.st) ==>
        Cancel(i.sid) in w.threads[tid][1..] && TakeBatch(i.sid) in w.threads[tid][1..]
  {
  }

  lemma StillHeld(w: World, w': World, tid: nat, code: seq<Instr>, i: Instr)
    requires tid < |w.threads| && w.threads[tid] != [] && Moved(w, w', tid, code)
    requires Holds(w, i) && i != w.threads[tid][0]
    ensures Holds(w', i)
  {
    var t :| 0 <= t < |w.threads| && i in w.threads[t];
    if t == tid { assert i in w.threads[tid][1..]; }
    assert i in w'.threads[t];
  }

  lemma HeadDone(w: World, tid: nat, ch: Choice, s: nat)
    requires Enabled(w, tid) && s < |w.sess|
    ensures var w', i := Exec(w, tid, ch), w.threads[tid][0];
      s < |w'.sess| && (i == Cancel(s) ==> w'.sess[s].f.cancelled) && (i == TakeBatch(s) ==> w'.sess[s].f.closed)
  {
    ExecKeepsWord(w, tid, ch);
    CountStep(w, tid, ch);
    if w.threads[tid][0] == Cancel(s) { assert s in Cut(Exec(w, tid, ch)); }
  }

  lemma HeldInRest(w: World, tid: nat, code: seq<Instr>, rest: seq<Instr>, i: Instr)
    requires tid < |w.threads| && w.threads[tid] == code + rest && i in rest
    ensures Holds(w, i)
  {
    assert i in w.threads[tid];
  }

  lemma NewIsGoing(w: World, tid: nat, ch: Choice)
    requires Enabled(w, tid)
    ensures forall s :: |w.sess| <= s < |Exec(w, tid, ch).sess| ==> Exec(w, tid, ch).sess[s].f.state == Starting
  {
    hide Plan, StartCode, StopAll, PushTo, Listing, KindOf;
  }

  lemma HandledStep(w: World, tid: nat, ch: Choice, s: nat)
    requires Sound(w) && AllFollowed(w) && AllHandled(w) && Enabled(w, tid) && s < |Exec(w, tid, ch).sess|
    ensures Handled(Exec(w, tid, ch), s)
  {
    hide Sound, Exec, Added, Followed, Holds, Guarded;
    var w', code, head, rest := Exec(w, tid, ch), Added(w, tid, ch), w.threads[tid][0], w.threads[tid][1..];
    SoundStep(w, tid, ch);
    ExecStateStep(w, tid, ch);
    if s < |w.sess| {
      assert Handled(w, s);
      HeadDone(w, tid, ch, s);
      FollowedHead(w, tid);
      MovedHead(w, w', tid, code);
      if Enters(w, head, s) && Terminal(head.st) {
        HeldInRest(w', tid, code, rest, Cancel(s));
        HeldInRest(w', tid, code, rest, TakeBatch(s));
      } else {
        if Holds(w, Cancel(s)) && head != Cancel(s) { StillHeld(w, w', tid, code, Cancel(s)); }
        if Holds(w, TakeBatch(s)) && head != TakeBatch(s) { StillHeld(w, w', tid, code, TakeBatch(s)); }
      }
    } else {
      NewIsGoing(w, tid, ch);
    }
  }

  lemma ExecKeepsHandled(w: World, tid: nat, ch: Choice)
    requires Sound(w) && AllFollowed(w) && AllHandled(w) && Enabled(w, tid)
    ensures AllFollowed(Exec(w, tid, ch)) && AllHandled(Exec(w, tid, ch))
  {
    hide Sound, Exec, Added, Followed, Handled;
    var w', code := Exec(w, tid, ch), Added(w, tid, ch);
    SoundStep(w, tid, ch);
    AddedFollowed(w, tid, ch);
    FollowedHead(w, tid);
    FollowedAppend(code, w.threads[tid][1..]);
    forall t | 0 <= t < |w'.threads| ensures Followed(w'.threads[t]) {
      if t < |w.threads| && t != tid {
        assert Followed(w.threads[t]);
      } else if t >= |w.threads| {
        NothingToFollow(w'.threads[t]);
      }
    }
    forall s | 0 <= s < |w'.sess| ensures Handled(w', s) { HandledStep(w, tid, ch, s); }
  }

  lemma IdleKeepsHandled(w: World, w': World)
    requires AllFollowed(w) && AllHandled(w) && w'.sess == w.sess
    requires w'.threads == w.threads || exists cmd :: w'.threads == w.threads + [CommandCode(cmd)]
    ensures AllFollowed(w') && AllHandled(w')
  {
    forall t | 0 <= t < |w'.threads| ensures Followed(w'.threads[t]) {
      if t < |w.threads| { assert Followed(w.threads[t]); } else { NothingToFollow(w'.threads[t]); }
    }
    forall i | Holds(w, i) ensures Holds(w', i) {
      var t :| 0 <= t < |w.threads| && i in w.threads[t];
      assert i in w'.threads[t];
    }
    forall s | 0 <= s < |w'.sess| ensures Handled(w', s) { assert Handled(w, s); }
  }

  lemma {:induction false} RunKeepsHandled(w: World, labels: seq<Label>)
    requires Sound(w) && AllFollowed(w) && AllHandled(w)
    ensures AllFollowed(Run(w, labels)) && AllHandled(Run(w, labels))
    decreases |labels|
  {
    if labels != [] {
      hide Sound, AllFollowed, AllHandled, Exec;
      var l := labels[0];
      NextKeepsSound(w, l);
      if l.Step? && Enabled(w, l.tid) { ExecKeepsHandled(w, l.tid, l.ch); } else { IdleKeepsHandled(w, Next(w, l)); }
      RunKeepsHandled(Next(w, l), labels[1..]);
    }
  }

  // ---- the results ----

  /** Once a session is over and nobody has its shutdown still to do, it is cancelled and shut down. */
  lemma EndedIsShutDown(w: World, sid: nat)
    requires Reachable(w) && sid < |w.sess| && Terminal(w.sess[sid].f.state)
    requires !Holds(w, Cancel(sid)) && !Holds(w, TakeBatch(sid))
    ensures w.sess[sid].f.cancelled && w.sess[sid].f.closed
  {
    var labels :| Run(INIT, labels) == w;
    InitSound();
    RunKeepsHandled(INIT, labels);
    assert Handled(w, sid);
  }

  /** And everything it owned has been closed exactly once, or some thread is about to close it. */
  lemma NothingIsLeftOpen(w: World, sid: nat, d: nat)
    requires Reachable(w) && sid < |w.sess| && Terminal(w.sess[sid].f.state)
    requires !Holds(w, Cancel(sid)) && !Holds(w, TakeBatch(sid))
    requires d < |w.duties| && w.duties[d] == CloseDuty(sid)
    ensures Times(w.trace, d) + (if Waiting(w, d) then 1 else 0) == 1
  {
    EndedIsShutDown(w, sid);
    EachDutyOnce(w, d);
  }
}
