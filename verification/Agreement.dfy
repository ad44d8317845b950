/** When the UI's picture of a session is the engine's session: exactly when the right push landed last. */
module Agreement {
  import opened Common
  import opened Events
  import opened Sessions
  import opened Lifecycle
  import opened Placement
  import opened CloseOrder
  import opened StateEvents
  import opened Tokens
  import opened DriverOrder
  import opened TokenDelivery
  import opened Mirror

  predicate IsStateEvent(w: World, k: nat, sid: nat)
    requires k < |w.trace|
  {
    w.trace[k].Did? && w.trace[k].duty < |w.duties| && IsMove(w, w.trace[k].duty, sid)
  }

  /** The state event of the session that landed last among the first n effects. */
  function LastPushed(w: World, sid: nat, n: nat): Option<nat>
    requires n <= |w.trace|
    ensures LastPushed(w, sid, n).Some? ==>
      LastPushed(w, sid, n).value < n && IsStateEvent(w, LastPushed(w, sid, n).value, sid)
  {
    if n == 0 then None
    else if IsStateEvent(w, n - 1, sid) then Some(n - 1)
    else LastPushed(w, sid, n - 1)
  }

  lemma {:induction false} NoLaterPush(w: World, sid: nat, n: nat, k: nat)
    requires k < n <= |w.trace| && IsStateEvent(w, k, sid)
    ensures LastPushed(w, sid, n).Some? && k <= LastPushed(w, sid, n).value
  {
    if k < n - 1 { NoLaterPush(w, sid, n - 1, k); }
  }

  lemma LogPrefix(w: World, n: nat)
    requires 0 < n <= |w.trace|
    ensures LogOf(w.trace[..n], w.duties) ==
            LogOf(w.trace[..n - 1], w.duties) + ItemOf(w.trace[n - 1], w.duties)
  {
    assert w.trace[..n][..n - 1] == w.trace[..n - 1];
  }

  /** What the k-th effect adds to the log, seen from one session. */
  lemma ItemSays(w: World, k: nat, sid: nat)
    requires Tracked(w) && TokensFit(w) && k < |w.trace|
    ensures var item := ItemOf(w.trace[k], w.duties);
      if item == [] then !IsStateEvent(w, k, sid) && !IsTokenEvent(w.trace[k], sid)
      else
        && |item| == 1
        && (item[0].SessionState? && item[0].sid == sid <==> IsStateEvent(w, k, sid))
        && (item[0].TokenReady? && item[0].sid == sid <==> IsTokenEvent(w.trace[k], sid))
        && (IsStateEvent(w, k, sid) ==> item[0] == w.duties[w.trace[k].duty].body)
        && (IsTokenEvent(w.trace[k], sid) ==> item[0] == w.trace[k].body)
  {
    var e := w.trace[k];
    assert Announced(w, k);
    if e.Did? && e.duty < |w.duties| && w.duties[e.duty].PushDuty? {
      assert Listed(w, e.duty);
      var s := w.duties[e.duty].sid;
      assert MovesFit(w, s);
      var i :| 0 <= i < |w.sess[s].moves| && w.sess[s].moves[i] == e.duty;
      assert IsMove(w, e.duty, s);
    }
  }

  lemma LastAppend(log: seq<Body>, item: seq<Body>, sid: nat)
    requires |item| <= 1
    ensures LastState(log + item, sid) ==
      if item != [] && item[0].SessionState? && item[0].sid == sid then Some(item[0]) else LastState(log, sid)
    ensures LastToken(log + item, sid) ==
      if item != [] && item[0].TokenReady? && item[0].sid == sid && LastState(log, sid) != None then Some(item[0].token)
      else LastToken(log, sid)
  {
    if item == [] {
      assert log + item == log;
    } else {
      assert (log + item)[..|log|] == log;
    }
  }

  /** The state event of the session that landed last among the first n effects, as the UI reads it. */
  function LastBody(w: World, sid: nat, n: nat): Option<Body>
    requires n <= |w.trace|
  {
    match LastPushed(w, sid, n) { case None => None case Some(k) => Some(w.duties[w.trace[k].duty].body) }
  }

  lemma LastBodyNext(w: World, sid: nat, n: nat)
    requires 0 < n <= |w.trace|
    ensures LastBody(w, sid, n) ==
            if IsStateEvent(w, n - 1, sid) then Some(w.duties[w.trace[n - 1].duty].body) else LastBody(w, sid, n - 1)
  {
    hide IsStateEvent;
  }

  lemma NoBodyYet(w: World, sid: nat)
    ensures LastBody(w, sid, 0) == None && LastState(LogOf(w.trace[..0], w.duties), sid) == None
  {
  }

  lemma {:induction false} LogShowsLastBody(w: World, sid: nat, n: nat)
    requires Tracked(w) && TokensFit(w) && n <= |w.trace|
    ensures LastState(LogOf(w.trace[..n], w.duties), sid) == LastBody(w, sid, n)
  {
    hide Tracked, TokensFit, LogOf, ItemOf, LastState, LastToken, LastBody, LastPushed, IsStateEvent;
    if n == 0 {
      NoBodyYet(w, sid);
    } else {
      LogPrefix(w, n);
      LogShowsLastBody(w, sid, n - 1);
      ItemSays(w, n - 1, sid);
      LastAppend(LogOf(w.trace[..n - 1], w.duties), ItemOf(w.trace[n - 1], w.duties), sid);
      LastBodyNext(w, sid, n);
    }
  }

  lemma LogShowsLastPushed(w: World, sid: nat, n: nat)
    requires Tracked(w) && TokensFit(w) && n <= |w.trace|
    ensures LastState(LogOf(w.trace[..n], w.duties), sid) ==
      match LastPushed(w, sid, n) { case None => None case Some(k) => Some(w.duties[w.trace[k].duty].body) }
  {
    hide LogOf, LastState, LastPushed, Tracked, TokensFit;
    LogShowsLastBody(w, sid, n);
  }

  /** Everything pushed so far has reached the UI, and the UI has not dismissed the session. */
  ghost predicate UpToDate(w: World, sid: nat) {
    w.lost == 0 && w.queue.events == [] && Dismiss(sid) !in w.ui
  }

  lemma UpToDateShowsLog(w: World, sid: nat)
    requires Reachable(w) && UpToDate(w, sid)
    ensures Shows(Fold(w.ui), LogOf(w.trace, w.duties), sid)
    ensures LastState(LogOf(w.trace, w.duties), sid) ==
      match LastPushed(w, sid, |w.trace|) { case None => None case Some(k) => Some(w.duties[w.trace[k].duty].body) }
    ensures Tracked(w) && Placed(w) && TokensFit(w)
  {
    ReachablePiped(w);
    ReachableTracked(w);
    ReachableTokens(w);
    FoldShowsLog(w.ui, sid);
    assert Delivered(w.ui) + Bodies([]) == Delivered(w.ui);
    LogShowsLastPushed(w, sid, |w.trace|);
    assert w.trace[..|w.trace|] == w.trace;
  }

  /** The push of the session's last transition came after the pushes of all its other transitions. */
  ghost predicate LandedLast(w: World, sid: nat)
    requires sid < |w.sess|
  {
    var m := w.sess[sid].moves;
    && m != []
    && (forall i :: 0 <= i < |m| ==> m[i] < |w.place|)
    && w.place[m[|m| - 1]].Logged?
    && (forall i :: 0 <= i < |m| && w.place[m[i]].Logged? ==> w.place[m[i]].at <= w.place[m[|m| - 1]].at)
  }

  /** Every transition was pushed. */
  ghost predicate AllLanded(w: World, sid: nat)
    requires sid < |w.sess|
  {
    forall i :: 0 <= i < |w.sess[sid].moves| ==>
      w.sess[sid].moves[i] < |w.place| && w.place[w.sess[sid].moves[i]].Logged?
  }

  ghost predicate Agrees(w: World, sid: nat)
    requires sid < |w.sess|
  {
    var u, f := Fold(w.ui), w.sess[sid].f;
    && sid in u.table && u.table[sid].state == f.state && u.table[sid].detail == f.detail
    && (sid in u.active <==> Active(f))
  }

  lemma LastPushedIs(w: World, sid: nat)
    requires Tracked(w) && Placed(w) && sid < |w.sess| && LandedLast(w, sid)
    ensures var m := w.sess[sid].moves;
      LastPushed(w, sid, |w.trace|) == Some(w.place[m[|m| - 1]].at)
  {
    assert MovesFit(w, sid);
    var m := w.sess[sid].moves;
    var d := m[|m| - 1];
    assert Real(w, w.place[d], d);
    assert IsStateEvent(w, w.place[d].at, sid);
    NoLaterPush(w, sid, |w.trace|, w.place[d].at);
    var k := LastPushed(w, sid, |w.trace|).value;
    var e := w.trace[k].duty;
    assert Listed(w, e);
    var i :| 0 <= i < |m| && m[i] == e;
    assert w.place[e] == Logged(k);
  }

  /**
    The picture agrees with the session, state, detail and active id, for every interleaving in which the
    push of its last transition landed last, whatever else happened and however the polls fell.
   */
  lemma AgreesWhenLandedLast(w: World, sid: nat)
    requires Reachable(w) && UpToDate(w, sid) && sid < |w.sess| && LandedLast(w, sid)
    ensures Agrees(w, sid)
  {
    UpToDateShowsLog(w, sid);
    LastPushedIs(w, sid);
    assert MovesFit(w, sid);
    var m := w.sess[sid].moves;
    assert Real(w, w.place[m[|m| - 1]], m[|m| - 1]);
  }

  /** Otherwise the event that landed last is of an earlier transition, and those are never terminal. */
  lemma StaleIsActive(w: World, sid: nat)
    requires Tracked(w) && Placed(w) && sid < |w.sess| && Terminal(w.sess[sid].f.state) && !LandedLast(w, sid)
    requires AllLanded(w, sid)
    ensures var r := LastPushed(w, sid, |w.trace|);
      r.Some? && ActiveState(w.duties[w.trace[r.value].duty].body.state)
  {
    assert MovesFit(w, sid);
    var m := w.sess[sid].moves;
    var last := m[|m| - 1];
    var i :| 0 <= i < |m| && w.place[m[i]].at > w.place[last].at;
    assert Real(w, w.place[m[i]], m[i]);
    assert IsStateEvent(w, w.place[m[i]].at, sid);
    NoLaterPush(w, sid, |w.trace|, w.place[m[i]].at);
    var k := LastPushed(w, sid, |w.trace|).value;
    var e := w.trace[k].duty;
    assert Listed(w, e);
    var j :| 0 <= j < |m| && m[j] == e;
    assert w.place[e] == Logged(k);
    assert j < |m| - 1;
  }

  /**
    Because a push happens after the lock is released, the order can be lost. For a finished session with all
    pushes made, the picture is right exactly when the terminal push landed last; otherwise the session stays
    active in the UI for good.
   */
  lemma FinishedAgreesIff(w: World, sid: nat)
    requires Reachable(w) && UpToDate(w, sid) && sid < |w.sess| && Terminal(w.sess[sid].f.state)
    requires AllLanded(w, sid)
    ensures Agrees(w, sid) <==> LandedLast(w, sid)
    ensures sid in Fold(w.ui).active <==> !LandedLast(w, sid)
  {
    if LandedLast(w, sid) {
      AgreesWhenLandedLast(w, sid);
    } else {
      UpToDateShowsLog(w, sid);
      StaleIsActive(w, sid);
    }
  }

  // ---- the token ----

  lemma OnlyTokenEvent(w: World, sid: nat, k: nat, j: nat)
    requires TokensFit(w) && k < |w.trace| && j < |w.trace|
    requires IsTokenEvent(w.trace[k], sid) && IsTokenEvent(w.trace[j], sid)
    ensures j == k
  {
    assert Announced(w, k);
  }

  /** What the first n effects say about the token announced by effect k. */
  function TokenSoFar(w: World, sid: nat, k: nat, n: nat): Option<string>
    requires n <= |w.trace| && k < |w.trace| && IsTokenEvent(w.trace[k], sid)
  {
    if k < n && LastPushed(w, sid, k) != None then Some(w.trace[k].body.token) else None
  }

  lemma LogShowsTokenStep(w: World, sid: nat, k: nat, n: nat)
    requires Tracked(w) && TokensFit(w) && 0 < n <= |w.trace| && k < |w.trace| && IsTokenEvent(w.trace[k], sid)
    requires LastToken(LogOf(w.trace[..n - 1], w.duties), sid) == TokenSoFar(w, sid, k, n - 1)
    ensures LastToken(LogOf(w.trace[..n], w.duties), sid) == TokenSoFar(w, sid, k, n)
  {
    hide Tracked, TokensFit, LogOf, LastToken, LastState, LastPushed, ItemOf, IsStateEvent;
    LogPrefix(w, n);
    LogShowsLastPushed(w, sid, n - 1);
    ItemSays(w, n - 1, sid);
    LastAppend(LogOf(w.trace[..n - 1], w.duties), ItemOf(w.trace[n - 1], w.duties), sid);
    if IsTokenEvent(w.trace[n - 1], sid) { OnlyTokenEvent(w, sid, k, n - 1); }
  }

  lemma EmptyLog(w: World, sid: nat)
    ensures LogOf(w.trace[..0], w.duties) == [] && LastToken([], sid) == None
  {
  }

  lemma {:induction false} LogShowsToken(w: World, sid: nat, k: nat, n: nat)
    requires Tracked(w) && TokensFit(w) && n <= |w.trace| && k < |w.trace| && IsTokenEvent(w.trace[k], sid)
    ensures LastToken(LogOf(w.trace[..n], w.duties), sid) == TokenSoFar(w, sid, k, n)
  {
    hide Tracked, TokensFit, LogOf, LastToken, LastPushed;
    if n == 0 {
      EmptyLog(w, sid);
    } else {
      LogShowsToken(w, sid, k, n - 1);
      LogShowsTokenStep(w, sid, k, n);
    }
  }

  /** Without a token event there is no token. */
  lemma {:induction false} LogShowsNoToken(w: World, sid: nat, n: nat)
    requires Tracked(w) && TokensFit(w) && n <= |w.trace|
    requires forall k :: 0 <= k < n ==> !IsTokenEvent(w.trace[k], sid)
    ensures LastToken(LogOf(w.trace[..n], w.duties), sid) == None
  {
    if n == 0 {
      assert LogOf(w.trace[..n], w.duties) == [];
    } else {
      hide Tracked, TokensFit, LogOf, LastToken;
      LogPrefix(w, n);
      LogShowsNoToken(w, sid, n - 1);
      ItemSays(w, n - 1, sid);
      LastAppend(LogOf(w.trace[..n - 1], w.duties), ItemOf(w.trace[n - 1], w.duties), sid);
    }
  }

  /** The token event came after some state event of the session. */
  ghost predicate Heard(w: World, sid: nat) {
    exists j, k :: 0 <= j < k < |w.trace| && IsStateEvent(w, j, sid) && IsTokenEvent(w.trace[k], sid)
  }

  /** No token and an empty one look the same, in a list row as in the table. */
  function TokenText(token: Option<string>): string {
    if token == None then "" else token.value
  }

  lemma HeardMeansShown(w: World, sid: nat, k: nat)
    requires Tracked(w) && TokensFit(w) && k < |w.trace| && IsTokenEvent(w.trace[k], sid)
    ensures Heard(w, sid) <==> LastPushed(w, sid, k) != None
  {
    if Heard(w, sid) {
      var j, k' :| 0 <= j < k' < |w.trace| && IsStateEvent(w, j, sid) && IsTokenEvent(w.trace[k'], sid);
      OnlyTokenEvent(w, sid, k, k');
      NoLaterPush(w, sid, k, j);
    }
    if LastPushed(w, sid, k) != None {
      var j := LastPushed(w, sid, k).value;
      assert IsStateEvent(w, j, sid) && IsTokenEvent(w.trace[k], sid);
    }
  }

  lemma NeverHeard(w: World, sid: nat)
    requires forall k :: 0 <= k < |w.trace| ==> !IsTokenEvent(w.trace[k], sid)
    ensures !Heard(w, sid)
  {
  }

  lemma TokenOfEvent(w: World, sid: nat, k: nat)
    requires TokensFit(w) && k < |w.trace| && IsTokenEvent(w.trace[k], sid) && sid < |w.sess|
    ensures w.trace[k].body.token == w.sess[sid].f.token
  {
    assert Announced(w, k);
  }

  /** What the row of any session shows as its token. */
  lemma RowToken(w: World, sid: nat)
    requires Reachable(w) && UpToDate(w, sid) && sid < |w.sess| && sid in Fold(w.ui).table
    ensures Fold(w.ui).table[sid].token == if Heard(w, sid) then Some(w.sess[sid].f.token) else None
  {
    hide Fold, LastToken, LogOf, LastPushed, Tracked, TokensFit, Heard;
    UpToDateShowsLog(w, sid);
    assert w.trace[..|w.trace|] == w.trace;
    if k :| 0 <= k < |w.trace| && IsTokenEvent(w.trace[k], sid) {
      TokenOfEvent(w, sid, k);
      LogShowsToken(w, sid, k, |w.trace|);
      HeardMeansShown(w, sid, k);
    } else {
      LogShowsNoToken(w, sid, |w.trace|);
      NeverHeard(w, sid);
    }
  }

  /**
    The row of a session shows its token exactly when there is none, or when the token event was pushed after some
    state event of the session: a token event for a session the UI does not know yet is dropped and not repeated.
   */
  lemma TokenAgreesIff(w: World, sid: nat)
    requires Reachable(w) && UpToDate(w, sid) && sid < |w.sess| && sid in Fold(w.ui).table
    ensures TokenText(Fold(w.ui).table[sid].token) == w.sess[sid].f.token <==>
            w.sess[sid].f.token == "" || Heard(w, sid)
  {
    RowToken(w, sid);
  }

  /** Unless the session was stopped before its goroutine made a transition, a pushed token event is heard. */
  lemma ToldIsHeard(w: World, sid: nat)
    requires Reachable(w) && sid < |w.sess| && Told(w, sid)
    ensures w.sess[sid].moves != [] && (Steps(w.sess[sid]) > 0 ==> Heard(w, sid))
  {
    ReachableWhole(w);
    var k :| 0 <= k < |w.trace| && IsTokenEvent(w.trace[k], sid);
    assert Timely(w, k) && MovesFit(w, sid);
    if Steps(w.sess[sid]) > 0 {
      var d := w.sess[sid].moves[0];
      assert Real(w, w.place[d], d);
      assert IsStateEvent(w, w.place[d].at, sid);
    }
  }

  // ---- all of it ----

  /** Nothing of the session is still to be pushed: no transition and no token. */
  ghost predicate Settled(w: World, sid: nat)
    requires sid < |w.sess|
  {
    AllLanded(w, sid) && !ToTell(w, sid, w.sess[sid].f.token)
  }

  /** State, detail, active id and token are the engine's. */
  ghost predicate Mirrors(w: World, sid: nat)
    requires sid < |w.sess|
  {
    Agrees(w, sid) && TokenText(Fold(w.ui).table[sid].token) == w.sess[sid].f.token
  }

  /** Until a session is terminal its pushes land in order. */
  lemma LiveLandsInOrder(w: World, sid: nat)
    requires Reachable(w) && sid < |w.sess| && !Terminal(w.sess[sid].f.state) && AllLanded(w, sid)
    ensures LandedLast(w, sid) <==> w.sess[sid].moves != []
  {
    ReachableDriving(w);
    assert InLine(w, sid);
  }

  /** A session that never moved is not in the table. */
  lemma NothingShown(w: World, sid: nat)
    requires Reachable(w) && UpToDate(w, sid) && sid < |w.sess| && w.sess[sid].moves == []
    ensures sid !in Fold(w.ui).table
  {
    UpToDateShowsLog(w, sid);
    forall k: nat | k < |w.trace| ensures !IsStateEvent(w, k, sid) {
      if w.trace[k].Did? && w.trace[k].duty < |w.duties| { assert Listed(w, w.trace[k].duty); }
    }
  }

  /** For every session with all its pushes made, live or finished: agreement is the last push having landed last. */
  lemma AgreesIff(w: World, sid: nat)
    requires Reachable(w) && UpToDate(w, sid) && sid < |w.sess| && AllLanded(w, sid)
    ensures Agrees(w, sid) <==> LandedLast(w, sid)
    ensures !Terminal(w.sess[sid].f.state) && w.sess[sid].moves != [] ==> Agrees(w, sid)
  {
    if Terminal(w.sess[sid].f.state) {
      FinishedAgreesIff(w, sid);
    } else {
      LiveLandsInOrder(w, sid);
      if w.sess[sid].moves != [] { AgreesWhenLandedLast(w, sid); } else { NothingShown(w, sid); }
    }
  }

  /**
    The mirror refines the engine: with everything pushed and polled, the row of any session has its state, detail and
    token, and its id is active as the session is, exactly when its last transition landed last and its token, if it
    has one, was announced after some state event.
   */
  lemma MirrorRefinesEngineIff(w: World, sid: nat)
    requires Reachable(w) && UpToDate(w, sid) && sid < |w.sess| && Settled(w, sid)
    ensures Mirrors(w, sid) <==> LandedLast(w, sid) && (w.sess[sid].f.token == "" || Heard(w, sid))
  {
    AgreesIff(w, sid);
    if Agrees(w, sid) { TokenAgreesIff(w, sid); }
  }

  /** The pushes of the session landed in the order of what they announce: transitions, and the token after the first. */
  ghost predicate PushedInOrder(w: World, sid: nat)
    requires sid < |w.sess|
  {
    var m := w.sess[sid].moves;
    && Settled(w, sid)
    && (forall i, j :: 0 <= i < j < |m| ==> w.place[m[i]].at < w.place[m[j]].at)
    && forall k :: 0 <= k < |w.trace| && IsTokenEvent(w.trace[k], sid) && m != [] ==> w.place[m[0]].at < k
  }

  lemma OrderedIsHeard(w: World, sid: nat)
    requires Reachable(w) && sid < |w.sess| && w.sess[sid].moves != [] && PushedInOrder(w, sid) && Told(w, sid)
    ensures Heard(w, sid)
  {
    ReachableTracked(w);
    var k :| 0 <= k < |w.trace| && IsTokenEvent(w.trace[k], sid);
    assert MovesFit(w, sid);
    var d := w.sess[sid].moves[0];
    assert Real(w, w.place[d], d);
    assert IsStateEvent(w, w.place[d].at, sid);
  }

  /** In particular when the pushes landed in order, and always for a session that is not over. */
  lemma MirrorRefinesEngine(w: World, sid: nat)
    requires Reachable(w) && UpToDate(w, sid) && sid < |w.sess| && w.sess[sid].moves != [] && Settled(w, sid)
    requires PushedInOrder(w, sid) || !Terminal(w.sess[sid].f.state)
    ensures Mirrors(w, sid)
  {
    AgreesIff(w, sid);
    MirrorRefinesEngineIff(w, sid);
    if w.sess[sid].f.token != "" {
      StoredTokenIsTold(w, sid);
      if Terminal(w.sess[sid].f.state) { OrderedIsHeard(w, sid); } else { ToldIsHeard(w, sid); }
    }
  }
}
