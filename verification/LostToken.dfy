/** A concrete run in which a server is stopped before its goroutine begins, and the UI never shows its token. */
module LostToken {
  import opened Common
  import opened Events
  import opened Sessions
  import opened Lifecycle
  import opened CloseOrder
  import opened Mirror
  import opened Agreement
  import opened ConcreteRuns

  const SETUP: Choice := Choice(true, false, "", "", None, [], 0)
  const START: Choice := Choice(true, false, "tok", "", None, [], 0)

  const RUN: Instr := ApplyState(0, Running, "listening")
  const TELL: Body := TokenReady(0, "tok")

  const F0: Fields := NewFields(Server)
  const F1: Fields := F0.(state := Stopped)
  const F2: Fields := F1.(closers := [1])
  const F3: Fields := F2.(token := "tok")
  const F4: Fields := F3.(closers := [], closed := true, cancelled := true)
  const STOPPED: Body := StateBody(0, F1)

  const CLOSING: seq<Instr> := [Do(0), Cancel(0), TakeBatch(0)]

  lemma Registered() returns (w: World)
    ensures Looks(w, [Sess(F0, [], 0, 0)], [[ServerSetup(0)]], [], [], [], [])
  {
    assert Run(INIT, []) == INIT;
    ReachableNext(INIT, Call(StartCmd(ServeJob)));
    w := Next(INIT, Call(StartCmd(ServeJob)));
    w := GoNew(w, 0, ServeJob, []);
    assert StartCode(0, ServeJob) + [] == [ServerSetup(0)];
  }

  /** The server is stopped at once; neither thread has gone on. */
  lemma StoppedAtOnce() returns (w: World)
    ensures Looks(w, [Sess(F1, [0], 0, 0)], [[ServerSetup(0)], CLOSING], [PushDuty(0, STOPPED)], [Pending(1, 3)], [], [])
  {
    w := Registered();
    ReachableNext(w, Call(StopCmd(0)));
    w := Next(w, Call(StopCmd(0)));
    w := GoPlan(w, 1, Lifecycle.Instr.Lookup(0), [], NOPE);
    assert Stop(0) + [] == [ApplyState(0, Stopped, "")] + [Cancel(0), TakeBatch(0)];
    w := GoApply(w, 1, 0, Stopped, "", [Cancel(0), TakeBatch(0)]);
    assert [Do(0)] + [Cancel(0), TakeBatch(0)] == CLOSING;
    assert w.sess[0].moves == [0];
  }

  /** The server goroutine starts: its setState changes nothing any more, and the server comes up. */
  lemma ServerComesUp() returns (w: World)
    ensures Looks(w, [Sess(F2, [0], 0, 0)], [[StoreToken(0, "tok"), RUN, Probe(0)], CLOSING],
                  [PushDuty(0, STOPPED), CloseDuty(0)], [Pending(1, 3), Held(0, 0)], [], [])
  {
    w := StoppedAtOnce();
    assert w.threads[0] == [ServerSetup(0)] + [];
    w := GoPlan(w, 0, ServerSetup(0), [], SETUP);
    assert w.threads[0] == [ApplyState(0, Starting, "selecting relay")] + [ServerStart(0)];
    w := GoApply(w, 0, 0, Starting, "selecting relay", [ServerStart(0)]);
    assert w.threads[0] == [ServerStart(0)] + [];
    w := GoPlan(w, 0, ServerStart(0), [], START);
    assert w.threads[0] == [Register(0)] + [StoreToken(0, "tok"), RUN, Probe(0)];
    w := GoRegister(w, 0, 0, [StoreToken(0, "tok"), RUN, Probe(0)]);
    assert w.sess[0].f.closers == [1];
  }

  /** Its token is pushed before the push of `stopped`. */
  lemma TokenLands() returns (w: World)
    ensures Looks(w, [Sess(F3, [0], 0, 0)], [[RUN, Probe(0)], CLOSING],
                  [PushDuty(0, STOPPED), CloseDuty(0)], [Pending(1, 3), Held(0, 0)], [Sent(TELL)], [Event(TELL, Some(0))])
  {
    w := ServerComesUp();
    assert w.threads[0] == [StoreToken(0, "tok")] + [RUN, Probe(0)];
    w := GoStore(w, 0, 0, "tok", [RUN, Probe(0)]);
    w := GoEmit(w, 0, TELL, [RUN, Probe(0)]);
  }

  lemma StopLands() returns (w: World)
    ensures Looks(w, [Sess(F3, [0], 0, 0)], [[RUN, Probe(0)], [Cancel(0), TakeBatch(0)]],
                  [PushDuty(0, STOPPED), CloseDuty(0)], [Logged(1), Held(0, 0)], [Sent(TELL), Did(0)],
                  [Event(TELL, Some(0)), Event(STOPPED, Some(0))])
  {
    w := TokenLands();
    assert w.threads[1] == [Do(0)] + [Cancel(0), TakeBatch(0)];
    w := GoDo(w, 1, 0, [Cancel(0), TakeBatch(0)]);
  }

  lemma StopReturns() returns (w: World)
    ensures Looks(w, [Sess(F4, [0], 0, 2)], [[RUN, Probe(0)], []],
                  [PushDuty(0, STOPPED), CloseDuty(0)], [Logged(1), Logged(2)], [Sent(TELL), Did(0), Did(1)],
                  [Event(TELL, Some(0)), Event(STOPPED, Some(0))])
  {
    w := StopLands();
    w := GoCancel(w, 1, 0, [TakeBatch(0)]);
    w := GoBatch(w, 1, 0, []);
    var batch: seq<nat> := [1];
    assert Reverse(batch)[0] == 1 && |Closes(batch)| == 1 && Closes(batch)[0] == Do(1);
    assert Closes(batch) == [Do(1)] && [Do(1)] + [] == [Do(1)];
    assert w.threads[1] == [Do(1)] + [] && w.place[1] == Pending(1, 1);
    w := GoDo(w, 1, 1, []);
  }

  lemma ServerReturns() returns (w: World)
    ensures Looks(w, [Sess(F4, [0], 0, 2)], [[], []],
                  [PushDuty(0, STOPPED), CloseDuty(0)], [Logged(1), Logged(2)], [Sent(TELL), Did(0), Did(1)],
                  [Event(TELL, Some(0)), Event(STOPPED, Some(0))])
  {
    w := StopReturns();
    assert w.threads[0] == [RUN] + [Probe(0)];
    w := GoApply(w, 0, 0, Running, "listening", [Probe(0)]);
    assert w.threads[0] == [Probe(0)] + [];
    assert ContextDone(w, 0);
    w := GoPlan(w, 0, Probe(0), [], NOPE);
    assert [] + [] == w.threads[0];
  }

  /**
    When everything has returned and every event was polled, the session has a token and its row, right in all else,
    shows none.
   */
  lemma TokenCanBeMissed() returns (w: World)
    ensures Reachable(w) && Idle(w) && UpToDate(w, 0) && |w.sess| == 1
    ensures w.sess[0].f.token == "tok" && Agrees(w, 0)
    ensures Fold(w.ui).table[0].token == None && !Mirrors(w, 0)
  {
    var done := ServerReturns();
    ReachableNext(done, Poll(0));
    w := Next(done, Poll(0));
    assert w.ui == Deliveries(done.queue.events);
    AgreesWhenLandedLast(w, 0);
    assert !Heard(w, 0);
    RowToken(w, 0);
  }
}
