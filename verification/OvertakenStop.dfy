/** A concrete run in which the push of `stopped` overtakes an earlier push, and the UI never learns of the stop. */
module OvertakenStop {
  import opened Common
  import opened Events
  import opened Sessions
  import opened Lifecycle
  import opened CloseOrder
  import opened Mirror
  import opened Agreement
  import opened ConcreteRuns

  const BEGIN: Instr := ApplyState(0, Starting, "connecting")
  const OPEN: Instr := OpenShare(0, "uploading", "uploaded", 1)

  const F0: Fields := NewFields(Send)
  const F1: Fields := F0.(detail := "connecting")
  const F2: Fields := F0.(state := Stopped)
  const B1: Body := StateBody(0, F1)
  const B2: Body := StateBody(0, F2)

  /** The upload has made its first transition but not pushed it yet. */
  lemma Begun() returns (w: World)
    ensures Looks(w, [Sess(F1, [0], 0, 0)], [[Do(0), OPEN]], [PushDuty(0, B1)], [Pending(0, 2)], [], [])
  {
    assert Run(INIT, []) == INIT;
    var start := Call(StartCmd(SendJob(1)));
    ReachableNext(INIT, start);
    w := Next(INIT, start);
    w := GoNew(w, 0, SendJob(1), []);
    assert StartCode(0, SendJob(1)) + [] == [BEGIN] + [OPEN];
    w := GoApply(w, 0, 0, Starting, "connecting", [OPEN]);
    assert [Do(0)] + [OPEN] == [Do(0), OPEN];
    assert w.sess[0].moves == [0];
  }

  /** The user stops the session at that moment. */
  lemma StopCalled() returns (w: World)
    ensures Looks(w, [Sess(F2, [0, 1], 0, 0)], [[Do(0), OPEN], [Do(1), Cancel(0), TakeBatch(0)]],
                       [PushDuty(0, B1), PushDuty(0, B2)], [Pending(0, 2), Pending(1, 3)], [], [])
  {
    w := Begun();
    var stop := Call(StopCmd(0));
    ReachableNext(w, stop);
    w := Next(w, stop);
    w := GoPlan(w, 1, Lifecycle.Instr.Lookup(0), [], NOPE);
    assert Stop(0) + [] == [ApplyState(0, Stopped, "")] + [Cancel(0), TakeBatch(0)];
    w := GoApply(w, 1, 0, Stopped, "", [Cancel(0), TakeBatch(0)]);
    assert [Do(1)] + [Cancel(0), TakeBatch(0)] == [Do(1), Cancel(0), TakeBatch(0)];
    assert w.sess[0].moves == [0, 1];
  }

  /** The push of `stopped` lands first. */
  lemma StopLands() returns (w: World)
    ensures Looks(w, [Sess(F2, [0, 1], 0, 0)], [[Do(0), OPEN], [Cancel(0), TakeBatch(0)]],
                       [PushDuty(0, B1), PushDuty(0, B2)], [Pending(0, 2), Logged(0)], [Did(1)],
                       [Event(B2, Some(0))])
  {
    w := StopCalled();
    assert w.threads[1] == [Do(1)] + [Cancel(0), TakeBatch(0)];
    w := GoDo(w, 1, 1, [Cancel(0), TakeBatch(0)]);
  }

  lemma Overtaken() returns (w: World)
    ensures Looks(w, [Sess(F2, [0, 1], 0, 0)], [[OPEN], [Cancel(0), TakeBatch(0)]],
                       [PushDuty(0, B1), PushDuty(0, B2)], [Logged(1), Logged(0)], [Did(1), Did(0)],
                       [Event(B2, Some(0)), Event(B1, Some(0))])
  {
    w := StopLands();
    assert w.threads[0] == [Do(0)] + [OPEN];
    w := GoDo(w, 0, 0, [OPEN]);
  }

  /** Both threads run to their end without pushing another state event. */
  lemma StopReturns() returns (w: World)
    ensures Looks(w, [Sess(F2.(cancelled := true, closed := true), [0, 1], 0, 2)], [[OPEN], []],
                       [PushDuty(0, B1), PushDuty(0, B2)], [Logged(1), Logged(0)], [Did(1), Did(0)],
                       [Event(B2, Some(0)), Event(B1, Some(0))])
  {
    w := Overtaken();
    w := GoCancel(w, 1, 0, [TakeBatch(0)]);
    w := GoBatch(w, 1, 0, []);
    assert Closes([]) + [] == [];
  }

  const TAIL: seq<Instr> := [ApplyState(0, Failed, "unreachable"), Cancel(0), TakeBatch(0)]

  lemma UploadFails() returns (w: World)
    ensures Reachable(w) && w.lost == 0 && w.queue.dropped == 0 && w.ui == [] && w.threads == [TAIL, []]
    ensures w.sess == [Sess(F2.(cancelled := true, closed := true), [0, 1], 0, 2)]
    ensures w.place == [Logged(1), Logged(0)]
  {
    w := StopReturns();
    w := GoPlan(w, 0, OPEN, [], NOPE);
    assert Fail(0, "unreachable") + [] == [Emit(Error(0, "unreachable"))] + TAIL;
    w := GoEmit(w, 0, Error(0, "unreachable"), TAIL);
  }

  lemma UploadReturns() returns (w: World)
    ensures Reachable(w) && w.lost == 0 && w.queue.dropped == 0 && w.ui == [] && w.threads == [[], []]
    ensures w.sess == [Sess(F2.(cancelled := true, closed := true), [0, 1], 0, 2)]
    ensures w.place == [Logged(1), Logged(0)]
  {
    w := UploadFails();
    assert w.threads[0] == [ApplyState(0, Failed, "unreachable")] + [Cancel(0), TakeBatch(0)];
    w := GoApply(w, 0, 0, Failed, "unreachable", [Cancel(0), TakeBatch(0)]);
    w := GoCancel(w, 0, 0, [TakeBatch(0)]);
    w := GoBatch(w, 0, 0, []);
  }

  /**
    When everything has returned and every event was polled, the session is stopped and the UI still shows it
    as starting, with its id among the active ones.
   */
  lemma StopCanBeMissed() returns (w: World)
    ensures Reachable(w) && Idle(w) && UpToDate(w, 0) && |w.sess| == 1
    ensures w.sess[0].f.state == Stopped
    ensures 0 in Fold(w.ui).active && !Agrees(w, 0)
  {
    var done := UploadReturns();
    ReachableNext(done, Poll(0));
    w := Next(done, Poll(0));
    assert w.ui == Deliveries(done.queue.events);
    assert w.place[w.sess[0].moves[0]].at > w.place[w.sess[0].moves[1]].at;
    assert !LandedLast(w, 0);
    FinishedAgreesIff(w, 0);
  }
}
