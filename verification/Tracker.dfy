/** core/engine/fileshare/server.go: the connection tracker of a file share racing with its Close. */
module Tracker {

  // ---- the object ----

  class Conn {
    var closed: bool

    constructor ()
      ensures !closed
    {
      closed := false;
    }

    method Close()
      modifies this
      ensures closed
    {
      closed := true;
    }
  }

  class Server {
    var conns: set<Conn>
    var done: bool
    var rootClosed: bool

    constructor ()
      ensures conns == {} && !done && !rootClosed
    {
      conns, done, rootClosed := {}, false, false;
    }

    method Track(c: Conn) returns (ok: bool)
      modifies this
      ensures ok == !old(done) && conns == (if ok then old(conns) + {c} else old(conns))
      ensures done == old(done) && rootClosed == old(rootClosed)
    {
      if done { return false; }
      conns := conns + {c};
      ok := true;
    }

    method Untrack(c: Conn)
      modifies this
      ensures conns == old(conns) - {c} && done == old(done) && rootClosed == old(rootClosed)
    {
      conns := conns - {c};
    }

    /** The first Close closes everything tracked and then the root; any other call does nothing. */
    method Close()
      modifies this, conns
      ensures done && conns == old(conns)
      ensures old(done) ==> rootClosed == old(rootClosed) && forall c :: c in conns ==> c.closed == old(c.closed)
      ensures !old(done) ==> rootClosed && forall c :: c in conns ==> c.closed
    {
      if done { return; }
      done := true;
      var batch := conns;
      while batch != {}
        invariant done && conns == old(conns) && batch <= conns && rootClosed == old(rootClosed)
        invariant forall c :: c in conns - batch ==> c.closed
        decreases |batch|
      {
        var c :| c in batch;
        c.Close();
        batch := batch - {c};
      }
      rootClosed := true;
    }
  }

  // ---- all interleavings ----

  /** How far the handler of one connection has come. */
  datatype Phase = Refused | TurnedAway | Serving | Leaving | Gone

  /** `pending` is what the first Close has yet to close; `rootClosed` says that it has returned. */
  datatype Net = Net(phase: map<nat, Phase>, conns: set<nat>, done: bool, pending: set<nat>, closed: set<nat>,
                     rootClosed: bool, lateReturns: nat)

  const START := Net(map[], {}, false, {}, {}, false, 0)

  /** One lock-protected region, or one Close() of a connection, at a time. */
  datatype Step =
    | Arrive(c: nat)
    | RefuseIt(c: nat)
    | SshClose(c: nat)
    | HandlerClose(c: nat)
    | Untrack(c: nat)
    | CloseCall
    | CloseOne(c: nat)
    | CloseRoot

  predicate Enabled(w: Net, s: Step) {
    match s
    case Arrive(c) => c !in w.phase
    case RefuseIt(c) => c in w.phase && w.phase[c] == Refused
    case SshClose(c) => c in w.phase && w.phase[c] == Serving
    case HandlerClose(c) => c in w.phase && w.phase[c] == Serving
    case Untrack(c) => c in w.phase && w.phase[c] == Leaving
    case CloseCall => true
    case CloseOne(c) => c in w.pending
    case CloseRoot => w.done && w.pending == {} && !w.rootClosed
  }

  function After(w: Net, s: Step): Net
    requires Enabled(w, s)
  {
    match s
    case Arrive(c) =>
      if w.done then w.(phase := w.phase[c := Refused])
      else w.(phase := w.phase[c := Serving], conns := w.conns + {c})
    case RefuseIt(c) => w.(phase := w.phase[c := TurnedAway], closed := w.closed + {c})
    case SshClose(c) => w.(closed := w.closed + {c})
    case HandlerClose(c) => w.(phase := w.phase[c := Leaving], closed := w.closed + {c})
    case Untrack(c) => w.(phase := w.phase[c := Gone], conns := w.conns - {c})
    case CloseCall =>
      if w.done then w.(lateReturns := w.lateReturns + 1) else w.(done := true, pending := w.conns)
    case CloseOne(c) => w.(pending := w.pending - {c}, closed := w.closed + {c})
    case CloseRoot => w.(rootClosed := true)
  }

  predicate Runs(w: Net, steps: seq<Step>)
    decreases |steps|
  {
    steps == [] || (Enabled(w, steps[0]) && Runs(After(w, steps[0]), steps[1..]))
  }

  function End(w: Net, steps: seq<Step>): Net
    requires Runs(w, steps)
    decreases |steps|
  {
    if steps == [] then w else End(After(w, steps[0]), steps[1..])
  }

  /** The handler went on to serve the connection. */
  predicate LetIn(w: Net, c: nat) {
    c in w.phase && w.phase[c] in {Serving, Leaving, Gone}
  }

  ghost predicate Tidy(w: Net) {
    && (forall c :: c in w.conns <==> c in w.phase && w.phase[c] in {Serving, Leaving})
    && (forall c :: c in w.phase && w.phase[c] in {TurnedAway, Leaving, Gone} ==> c in w.closed)
    && (w.done ==> forall c :: c in w.conns ==> c in w.pending || c in w.closed)
    && (!w.done ==> w.pending == {} && !w.rootClosed)
    && (w.rootClosed ==> w.done && w.pending == {})
    && (forall c :: c in w.pending ==> LetIn(w, c))
  }

  lemma {:induction false} AlwaysTidy(w: Net, steps: seq<Step>)
    requires Tidy(w) && Runs(w, steps)
    ensures Tidy(End(w, steps))
    decreases |steps|
  {
    if steps != [] { AlwaysTidy(After(w, steps[0]), steps[1..]); }
  }

  lemma {:induction false} Steady(w: Net, steps: seq<Step>)
    requires Runs(w, steps)
    ensures w.done ==> End(w, steps).done
    ensures w.closed <= End(w, steps).closed
    ensures w.done ==> forall c :: LetIn(End(w, steps), c) ==> LetIn(w, c)
    decreases |steps|
  {
    if steps != [] { Steady(After(w, steps[0]), steps[1..]); }
  }

  /** A connection let in but no longer tracked has been closed, however arrivals, hang-ups and Close interleave. */
  lemma GoneIsClosed(steps: seq<Step>, c: nat)
    requires Runs(START, steps) && LetIn(End(START, steps), c) && c !in End(START, steps).conns
    ensures c in End(START, steps).closed
  {
    AlwaysTidy(START, steps);
  }

  /** A connection turned away is closed, and one that is served is tracked, so that Close can find it. */
  lemma TurnedAwayOrTracked(steps: seq<Step>, c: nat)
    requires Runs(START, steps) && c in End(START, steps).phase
    ensures End(START, steps).phase[c] == TurnedAway ==> c in End(START, steps).closed
    ensures End(START, steps).phase[c] == Serving ==> c in End(START, steps).conns
  {
    AlwaysTidy(START, steps);
  }

  lemma {:induction false} RunsOn(w: Net, a: seq<Step>, b: seq<Step>)
    requires Runs(w, a) && Runs(End(w, a), b)
    ensures Runs(w, a + b) && End(w, a + b) == End(End(w, a), b)
    decreases |a|
  {
    if a == [] {
      assert a + b == b;
    } else {
      assert (a + b)[0] == a[0] && (a + b)[1..] == a[1..] + b;
      RunsOn(After(w, a[0]), a[1..], b);
    }
  }

  lemma OneStep(w: Net, s: Step)
    requires Enabled(w, s)
    ensures Runs(w, [s]) && End(w, [s]) == After(w, s)
  {
    assert [s][1..] == [];
  }

  /** The handler of every connection can finish, and then the connection is closed and no longer tracked. */
  lemma HandlerCanFinish(steps: seq<Step>, c: nat) returns (more: seq<Step>)
    requires Runs(START, steps) && c in End(START, steps).phase
    ensures Runs(START, steps + more)
    ensures var w := End(START, steps + more); c in w.closed && c !in w.conns
    ensures var w := End(START, steps + more); c in w.phase && w.phase[c] in {TurnedAway, Gone}
  {
    AlwaysTidy(START, steps);
    var w := End(START, steps);
    more := [];
    match w.phase[c] {
      case Refused =>
        more := [RefuseIt(c)];
        OneStep(w, RefuseIt(c));
      case Serving =>
        more := [HandlerClose(c)] + [Untrack(c)];
        OneStep(w, HandlerClose(c));
        OneStep(End(w, [HandlerClose(c)]), Untrack(c));
        RunsOn(w, [HandlerClose(c)], [Untrack(c)]);
      case Leaving =>
        more := [Untrack(c)];
        OneStep(w, Untrack(c));
      case _ =>
    }
    RunsOn(START, steps, more);
    AlwaysTidy(START, steps + more);
  }

  /** What the first Close took over, one after the other. */
  lemma {:induction false} CloseEach(w: Net, left: nat) returns (more: seq<Step>)
    requires w.done && !w.rootClosed && |w.pending| == left
    ensures Runs(w, more) && End(w, more).rootClosed
    decreases left
  {
    if left == 0 {
      more := [CloseRoot];
    } else {
      var c :| c in w.pending;
      more := CloseEach(After(w, CloseOne(c)), left - 1);
      more := [CloseOne(c)] + more;
    }
  }

  /** A Close that has begun can finish, whatever is still being served. */
  lemma CloseCanFinish(steps: seq<Step>) returns (more: seq<Step>)
    requires Runs(START, steps) && End(START, steps).done
    ensures Runs(START, steps + more) && End(START, steps + more).rootClosed
  {
    var w := End(START, steps);
    if w.rootClosed {
      more := [];
    } else {
      more := CloseEach(w, |w.pending|);
    }
    RunsOn(START, steps, more);
  }

  /** After Close has set `done`, no later run lets a connection in, and nothing closed is reopened. */
  lemma NoneAdmittedAfterDone(before: seq<Step>, later: seq<Step>, c: nat)
    requires Runs(START, before) && End(START, before).done && Runs(End(START, before), later)
    ensures var w := End(START, before);
      && (LetIn(End(w, later), c) ==> LetIn(w, c))
      && (c in w.closed ==> c in End(w, later).closed)
  {
    Steady(End(START, before), later);
  }

  /** Once Close has begun, everything ever let in is closed exactly when what it took over is. */
  lemma AllClosedIff(steps: seq<Step>)
    requires Runs(START, steps) && End(START, steps).done
    ensures var w := End(START, steps);
      (forall c :: LetIn(w, c) ==> c in w.closed) <==> w.pending <= w.closed
  {
    AlwaysTidy(START, steps);
    var w := End(START, steps);
    if forall c :: LetIn(w, c) ==> c in w.closed {
      forall c | c in w.pending ensures c in w.closed { assert LetIn(w, c); }
    }
    if w.pending <= w.closed {
      forall c | LetIn(w, c) ensures c in w.closed { assert c in w.conns || w.phase[c] == Gone; }
    }
  }

  /** The share's root is closed only after every connection ever let in. */
  lemma RootClosedLast(steps: seq<Step>, c: nat)
    requires Runs(START, steps) && End(START, steps).rootClosed && LetIn(End(START, steps), c)
    ensures c in End(START, steps).closed
  {
    AlwaysTidy(START, steps);
    AllClosedIff(steps);
  }

  /** A second Close returns at once, with connections still open. */
  lemma SecondCloseDoesNotWait()
    ensures var steps := [Arrive(7), CloseCall, CloseCall];
      && Runs(START, steps)
      && End(START, steps).lateReturns == 1 && LetIn(End(START, steps), 7) && 7 !in End(START, steps).closed
  {
  }
}
