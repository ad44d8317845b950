/**
  The outcome of every job: whatever else goes on, a session that nobody else ends comes to the state its calls lead
  to. A failed call fails it with the error and an error event, and it is done only after every call succeeded.
 */
module Jobs {
  import opened Common
  import opened Events
  import opened Sessions
  import opened Lifecycle
  import opened Termination
  import opened StateEvents
  import opened DriverOrder
  import opened Stories

  /** The session an instruction works for. */
  function SidOf(i: Instr): Option<nat> {
    match i
    case ApplyState(sid, _, _) => Some(sid)
    case StoreToken(sid, _) => Some(sid)
    case Cancel(sid) => Some(sid)
    case TakeBatch(sid) => Some(sid)
    case Register(sid) => Some(sid)
    case RegisterListener(sid) => Some(sid)
    case GoAccept(sid, _) => Some(sid)
    case Lookup(sid) => Some(sid)
    case OpenShare(sid, _, _, _) => Some(sid)
    case Transfer(sid, _, _) => Some(sid)
    case ListDir(sid) => Some(sid)
    case WarmUp(sid) => Some(sid)
    case Probe(sid) => Some(sid)
    case Accept(sid, _) => Some(sid)
    case ServerSetup(sid) => Some(sid)
    case ServerStart(sid) => Some(sid)
    case _ => None
  }

  /** Calls whose outcome the network decides, and the probe; each is the last instruction of its thread. */
  predicate Blocking(i: Instr) {
    i.OpenShare? || i.Transfer? || i.ListDir? || i.WarmUp? || i.Probe? || i.ServerSetup? || i.ServerStart?
  }

  /** A thread that starts a command or accepts connections holds nothing else. */
  predicate Entry(i: Instr) {
    i.Lookup? || i.NewSession? || i.CloseEngine? || i.Accept?
  }

  ghost predicate Alone(code: seq<Instr>) {
    forall i :: i in code && Entry(i) ==> code == [i]
  }

  // ---- what the thread of a job may still hold ----

  /** What an instruction says about the replies so far. */
  predicate Fits(st: Story, sid: nat, i: Instr, rest: seq<Instr>)
    requires st.Story?
  {
    var job, calls := st.job, st.calls;
    match i
    case ApplyState(s, state, detail) =>
      && s == sid
      && ((state, detail) == Led(job, calls) ||
          (state == Running && rest == [Transfer(sid, FinishedText(job), 0)] &&
           Led(job, calls) == (Done, FinishedText(job))))
    case Do(_) => true
    case Emit(b) => true
    case StoreToken(s, _) => s == sid
    case Cancel(s) => s == sid
    case TakeBatch(s) => s == sid
    case Register(s) => s == sid
    case RegisterListener(s) => s == sid
    case GoAccept(s, _) => s == sid
    case OpenShare(s, verb, finished, n) =>
      && s == sid && calls == [] && rest == [] && finished == FinishedText(job)
      && (job == SendJob(n) || job == RecvJob(n)) && verb == if job.SendJob? then "uploading" else "downloading"
    case Transfer(s, finished, n) =>
      && s == sid && rest == [] && finished == FinishedText(job) && (job.SendJob? || job.RecvJob?)
      && calls != [] && AllOk(calls) && |calls| + n == Needed(job)
    case ListDir(s) => s == sid && rest == [] && job.ListJob? && calls == []
    case WarmUp(s) => s == sid && rest == [] && job.ForwardJob? && calls == []
    case Probe(s) => s == sid && rest == [] && StaysUp(job) && AllOk(calls) && |calls| == Needed(job)
    case ServerSetup(s) => s == sid && rest == [] && job.ServeJob? && calls == []
    case ServerStart(s) => s == sid && rest == [] && job.ServeJob? && AllOk(calls) && |calls| == 1
    case _ => false
  }

  predicate AllFit(st: Story, sid: nat, code: seq<Instr>)
    requires st.Story?
    decreases |code|
  {
    code == [] || (Fits(st, sid, code[0], code[1..]) && AllFit(st, sid, code[1..]))
  }

  /** The state the replies lead to is still to be entered. */
  predicate Due(st: Story, sid: nat, code: seq<Instr>)
    requires st.Story?
  {
    var (state, detail) := Led(st.job, st.calls);
    ApplyState(sid, state, detail) in code || (state == Done && Transfer(sid, detail, 0) in code)
  }

  /** What other threads may hold: they stop the session or, accepting connections, fail it. */
  predicate Foreign(i: Instr, sid: nat) {
    SidOf(i) == Some(sid) ==>
      || i.Lookup? || i.Accept? || i.Cancel? || i.TakeBatch?
      || (i.ApplyState? && ((i.st == Stopped && i.detail == "") || i.st == Failed))
  }

  ghost predicate OthersForeign(w: World, sid: nat)
    requires sid < |w.sess|
  {
    forall t, i :: 0 <= t < |w.threads| && t != w.sess[sid].driver && i in w.threads[t] ==> Foreign(i, sid)
  }

  /** Only the last reply may be a failure. */
  predicate InOrder(st: Story)
    requires st.Story?
  {
    |st.calls| <= Needed(st.job) && forall k :: 0 <= k < |st.calls| - 1 ==> st.calls[k].ok
  }

  /** Who ended the session, if it is over, and what its state then is, unless somebody else ended it. */
  ghost predicate Course(w: World, sid: nat, st: Story)
    requires sid < |w.sess| && st.Story? && w.sess[sid].driver < |w.threads|
  {
    var s := w.sess[sid];
    && (st.ender == None <==> !Terminal(s.f.state))
    && (st.ender == None ==>
          (s.f.state, s.f.detail) == Led(st.job, st.calls) || Due(st, sid, w.threads[s.driver]))
    && (st.ender == Some(s.driver) ==> (s.f.state, s.f.detail) == Led(st.job, st.calls))
    && (st.ender.Some? && st.ender.value != s.driver ==>
          (s.f.state == Stopped && s.f.detail == "") || s.f.state == Failed)
  }

  ghost predicate Going(w: World, sid: nat, st: Story) {
    if sid >= |w.sess| then st == Unborn
    else
      && st.Story? && w.sess[sid].driver < |w.threads|
      && w.sess[sid].f.kind == KindOf(st.job)
      && InOrder(st)
      && AllFit(st, sid, w.threads[w.sess[sid].driver])
      && OthersForeign(w, sid)
      && Course(w, sid, st)
  }

  lemma GoingGives(w: World, sid: nat, st: Story)
    requires sid < |w.sess| && Going(w, sid, st)
    ensures st.Story? && OthersForeign(w, sid) && (st.ender == None <==> !Terminal(w.sess[sid].f.state))
    ensures w.sess[sid].driver < |w.threads|
  {
  }

  ghost predicate AllAlone(w: World) {
    forall t {:trigger w.threads[t]} :: 0 <= t < |w.threads| ==> Alone(w.threads[t])
  }

  // ---- code lists ----

  /** Instructions that fit anywhere in the thread of a job. */
  predicate Free(i: Instr, sid: nat) {
    i.Do? || i.Emit? || (i.GoAccept? && i.sid == sid) || ((i.Cancel? || i.TakeBatch? || i.Register?) && i.sid == sid)
  }

  lemma FitsFirst(st: Story, sid: nat, i: Instr, rest: seq<Instr>)
    requires st.Story? && Fits(st, sid, i, rest) && AllFit(st, sid, rest)
    ensures AllFit(st, sid, [i] + rest)
  {
    assert ([i] + rest)[1..] == rest;
  }

  lemma {:induction false} FreeFirst(st: Story, sid: nat, code: seq<Instr>, rest: seq<Instr>)
    requires st.Story? && AllFit(st, sid, rest) && forall i :: i in code ==> Free(i, sid)
    ensures AllFit(st, sid, code + rest)
    decreases |code|
  {
    if code == [] {
      assert code + rest == rest;
    } else {
      FreeFirst(st, sid, code[1..], rest);
      assert code[0] in code;
      FitsFirst(st, sid, code[0], code[1..] + rest);
      assert code + rest == [code[0]] + (code[1..] + rest);
    }
  }

  // ---- the calls of a job ----

  /** The same job with the same replies. */
  ghost predicate SameCourse(a: Story, b: Story)
    requires a.Story? && b.Story?
  {
    a.job == b.job && a.calls == b.calls
  }

  lemma {:induction false} SameFits(a: Story, b: Story, sid: nat, code: seq<Instr>)
    requires a.Story? && b.Story? && SameCourse(a, b) && AllFit(a, sid, code)
    ensures AllFit(b, sid, code) && (Due(a, sid, code) <==> Due(b, sid, code)) && (InOrder(a) <==> InOrder(b))
    decreases |code|
  {
    if code != [] { SameFits(a, b, sid, code[1..]); }
  }

  lemma FitsOne(st: Story, sid: nat, i: Instr)
    requires st.Story? && Fits(st, sid, i, [])
    ensures AllFit(st, sid, [i])
  {
    FitsFirst(st, sid, i, []);
    assert [i] + [] == [i];
  }

  /** setState and shutdown, for the state the replies lead to. */
  lemma EndingFits(st: Story, sid: nat, state: State, detail: string)
    requires st.Story? && Led(st.job, st.calls) == (state, detail)
    ensures AllFit(st, sid, Ending(sid, state, detail))
    ensures state == Failed ==> AllFit(st, sid, Fail(sid, detail))
  {
    FitsOne(st, sid, TakeBatch(sid));
    FitsFirst(st, sid, Cancel(sid), [TakeBatch(sid)]);
    assert [Cancel(sid)] + [TakeBatch(sid)] == [Cancel(sid), TakeBatch(sid)];
    FitsFirst(st, sid, ApplyState(sid, state, detail), [Cancel(sid), TakeBatch(sid)]);
    assert [ApplyState(sid, state, detail)] + [Cancel(sid), TakeBatch(sid)] == Ending(sid, state, detail);
    if state == Failed {
      FitsFirst(st, sid, Emit(Error(sid, detail)), Ending(sid, state, detail));
      assert [Emit(Error(sid, detail))] + Ending(sid, state, detail) == Fail(sid, detail);
    }
  }

  lemma OpenFits(w: World, i: Instr, ch: Choice, sid: nat, st: Story)
    requires st.Story? && InOrder(st) && i.OpenShare? && Fits(st, sid, i, [])
    ensures InOrder(Answered(w, i, ch, sid, st)) && AllFit(Answered(w, i, ch, sid, st), sid, Plan(w, i, ch))
    ensures Due(Answered(w, i, ch, sid, st), sid, Plan(w, i, ch))
  {
    var next := Answered(w, i, ch, sid, st);
    if ch.ok {
      var go, run := Transfer(sid, i.finished, i.n), ApplyState(sid, Running, i.verb);
      FitsOne(next, sid, go);
      FitsFirst(next, sid, run, [go]);
      FreeFirst(next, sid, [Register(sid), Register(sid)], [run] + [go]);
      assert Plan(w, i, ch) == [Register(sid), Register(sid)] + ([run] + [go]);
      assert run in Plan(w, i, ch) && go in Plan(w, i, ch);
    } else {
      EndingFits(next, sid, Failed, ch.text);
      assert Plan(w, i, ch)[1] in Plan(w, i, ch);
    }
  }

  lemma TransferFits(w: World, i: Instr, ch: Choice, sid: nat, st: Story)
    requires st.Story? && InOrder(st) && i.Transfer? && Fits(st, sid, i, [])
    ensures InOrder(Answered(w, i, ch, sid, st)) && AllFit(Answered(w, i, ch, sid, st), sid, Plan(w, i, ch))
    ensures !ContextDone(w, sid) ==>
              Due(Answered(w, i, ch, sid, st), sid, Plan(w, i, ch)) ||
              (!Due(st, sid, [i]) &&
               Led(Answered(w, i, ch, sid, st).job, Answered(w, i, ch, sid, st).calls) == Led(st.job, st.calls))
  {
    var next, code := Answered(w, i, ch, sid, st), Plan(w, i, ch);
    if ch.other {
      FitsOne(next, sid, i);
      FitsFirst(next, sid, code[0], [i]);
      assert code == [code[0]] + [i] && code[1] in code;
    } else if i.n == 0 {
      EndingFits(next, sid, Done, i.finished);
      assert code == Ending(sid, Done, i.finished) && code[0] in code;
    } else if ch.ok {
      FitsOne(next, sid, Transfer(sid, i.finished, i.n - 1));
      assert code[0] in code;
    } else if !ContextDone(w, sid) {
      EndingFits(next, sid, Failed, ch.text);
      assert code[1] in code;
    }
  }

  lemma ListFits(w: World, i: Instr, ch: Choice, sid: nat, st: Story)
    requires st.Story? && InOrder(st) && i.ListDir? && Fits(st, sid, i, [])
    ensures InOrder(Answered(w, i, ch, sid, st)) && AllFit(Answered(w, i, ch, sid, st), sid, Plan(w, i, ch))
    ensures Due(Answered(w, i, ch, sid, st), sid, Plan(w, i, ch))
  {
    var next, code := Answered(w, i, ch, sid, st), Plan(w, i, ch);
    EndingFits(next, sid, Led(next.job, next.calls).0, Led(next.job, next.calls).1);
    assert code == Ending(sid, Led(next.job, next.calls).0, Led(next.job, next.calls).1) && code[0] in code;
  }

  lemma WarmFits(w: World, i: Instr, ch: Choice, sid: nat, st: Story)
    requires st.Story? && InOrder(st) && i.WarmUp? && Fits(st, sid, i, [])
    ensures InOrder(Answered(w, i, ch, sid, st)) && AllFit(Answered(w, i, ch, sid, st), sid, Plan(w, i, ch))
    ensures !ContextDone(w, sid) ==> Due(Answered(w, i, ch, sid, st), sid, Plan(w, i, ch))
  {
    var next, code := Answered(w, i, ch, sid, st), Plan(w, i, ch);
    if ch.ok {
      FitsOne(next, sid, Probe(sid));
      FitsFirst(next, sid, code[1], [Probe(sid)]);
      FitsFirst(next, sid, code[0], [code[1]] + [Probe(sid)]);
      assert code == [code[0]] + ([code[1]] + [Probe(sid)]) && code[0] in code;
    } else if !ContextDone(w, sid) {
      EndingFits(next, sid, Failed, ch.text);
      assert code[1] in code;
    }
  }

  lemma ProbeFits(w: World, i: Instr, ch: Choice, sid: nat, st: Story)
    requires st.Story? && i.Probe? && Fits(st, sid, i, [])
    ensures SameCourse(Answered(w, i, ch, sid, st), st) && !Due(st, sid, [i])
    ensures AllFit(Answered(w, i, ch, sid, st), sid, Plan(w, i, ch))
  {
    var code := Plan(w, i, ch);
    FitsOne(st, sid, i);
    if |code| == 2 {
      FitsFirst(st, sid, code[0], [i]);
      assert code == [code[0]] + [i];
    }
    SameFits(st, Answered(w, i, ch, sid, st), sid, code);
  }

  lemma SetupFits(w: World, i: Instr, ch: Choice, sid: nat, st: Story)
    requires st.Story? && InOrder(st) && i.ServerSetup? && Fits(st, sid, i, [])
    ensures InOrder(Answered(w, i, ch, sid, st)) && AllFit(Answered(w, i, ch, sid, st), sid, Plan(w, i, ch))
    ensures Due(Answered(w, i, ch, sid, st), sid, Plan(w, i, ch))
  {
    var next, code := Answered(w, i, ch, sid, st), Plan(w, i, ch);
    if ch.ok {
      var first := if ch.other then [Register(sid)] else [];
      var begin := ApplyState(sid, Starting, "selecting relay");
      FitsOne(next, sid, ServerStart(sid));
      FitsFirst(next, sid, begin, [ServerStart(sid)]);
      FreeFirst(next, sid, first, [begin] + [ServerStart(sid)]);
      assert code == first + ([begin] + [ServerStart(sid)]);
      assert begin in code;
    } else {
      EndingFits(next, sid, Failed, ch.text);
      assert code[1] in code;
    }
  }

  lemma StartFits(w: World, i: Instr, ch: Choice, sid: nat, st: Story)
    requires st.Story? && InOrder(st) && i.ServerStart? && Fits(st, sid, i, [])
    ensures InOrder(Answered(w, i, ch, sid, st)) && AllFit(Answered(w, i, ch, sid, st), sid, Plan(w, i, ch))
    ensures Due(Answered(w, i, ch, sid, st), sid, Plan(w, i, ch))
  {
    var next, code := Answered(w, i, ch, sid, st), Plan(w, i, ch);
    if ch.ok {
      FitsOne(next, sid, Probe(sid));
      FitsFirst(next, sid, code[2], [Probe(sid)]);
      FitsFirst(next, sid, code[1], [code[2]] + [Probe(sid)]);
      FitsFirst(next, sid, code[0], [code[1]] + ([code[2]] + [Probe(sid)]));
      assert code == [code[0]] + ([code[1]] + ([code[2]] + [Probe(sid)])) && code[2] in code;
    } else {
      EndingFits(next, sid, Failed, ch.text);
      assert code[1] in code;
    }
  }

  /** One call: the thread goes on as the replies say. */
  lemma CallFits(w: World, i: Instr, ch: Choice, sid: nat, st: Story)
    requires st.Story? && InOrder(st) && Blocking(i) && Fits(st, sid, i, [])
    ensures InOrder(Answered(w, i, ch, sid, st)) && AllFit(Answered(w, i, ch, sid, st), sid, Plan(w, i, ch))
    ensures !ContextDone(w, sid) ==>
              Due(Answered(w, i, ch, sid, st), sid, Plan(w, i, ch)) ||
              (!Due(st, sid, [i]) &&
               Led(Answered(w, i, ch, sid, st).job, Answered(w, i, ch, sid, st).calls) == Led(st.job, st.calls))
    ensures Terminal(Led(st.job, st.calls).0) ==> SameCourse(Answered(w, i, ch, sid, st), st)
  {
    hide AllFit, Due, Plan, ContextDone;
    match i {
      case OpenShare(_, _, _, _) => OpenFits(w, i, ch, sid, st);
      case Transfer(_, _, _) => TransferFits(w, i, ch, sid, st);
      case ListDir(_) => ListFits(w, i, ch, sid, st);
      case WarmUp(_) => WarmFits(w, i, ch, sid, st);
      case Probe(_) => ProbeFits(w, i, ch, sid, st);
      case ServerSetup(_) => SetupFits(w, i, ch, sid, st);
      case ServerStart(_) => StartFits(w, i, ch, sid, st);
    }
  }

  // ---- what a step does to the states ----

  predicate Enters(w: World, i: Instr, s: nat)
    requires s < |w.sess|
  {
    i.ApplyState? && i.sid == s && Moves(w.sess[s].f, i.st, i.detail)
  }

  ghost predicate StateStep(w: World, w': World, tid: nat)
    requires tid < |w.threads| && w.threads[tid] != []
  {
    var i := w.threads[tid][0];
    && |w.sess| <= |w'.sess|
    && (forall s :: 0 <= s < |w.sess| ==>
          (w'.sess[s].f.state, w'.sess[s].f.detail) ==
          if Enters(w, i, s) then (i.st, i.detail) else (w.sess[s].f.state, w.sess[s].f.detail))
    && |w'.sess| == if i.NewSession? && !w.closed then |w.sess| + 1 else |w.sess|
  }

  lemma ApplyStateStep(w: World, tid: nat, ch: Choice)
    requires Enabled(w, tid) && w.threads[tid][0].ApplyState?
    ensures StateStep(w, Exec(w, tid, ch), tid)
  {
  }

  lemma CountStep(w: World, tid: nat, ch: Choice)
    requires Enabled(w, tid)
    ensures |Exec(w, tid, ch).sess| == if w.threads[tid][0].NewSession? && !w.closed then |w.sess| + 1 else |w.sess|
  {
    hide Plan, StartCode, StopAll, PushTo, Listing, KindOf;
  }

  lemma ExecStateStep(w: World, tid: nat, ch: Choice)
    requires Enabled(w, tid)
    ensures StateStep(w, Exec(w, tid, ch), tid)
  {
    if w.threads[tid][0].ApplyState? {
      ApplyStateStep(w, tid, ch);
    } else {
      hide Exec, Moves;
      ExecNoMove(w, tid, ch);
      CountStep(w, tid, ch);
    }
  }

  lemma SoundGives(w: World)
    requires Sound(w)
    ensures Ranged(w) && Flags(w) && DutiesFit(w)
  {
  }

  // ---- entry instructions stay alone ----

  lemma {:induction false} StopAllForeign(order: seq<nat>, sid: nat)
    ensures forall i :: i in StopAll(order) ==> Foreign(i, sid) && !Entry(i)
  {
    if order != [] { StopAllForeign(order[1..], sid); }
  }

  lemma PlanAlone(w: World, i: Instr, ch: Choice)
    requires Planned(i)
    ensures forall j :: j in Plan(w, i, ch) && Entry(j) ==> Plan(w, i, ch) == [j] && i.Accept?
  {
  }

  lemma RestNoEntry(w: World, tid: nat, ch: Choice)
    requires Enabled(w, tid) && !Planned(w.threads[tid][0]) && !w.threads[tid][0].CloseEngine?
    ensures forall j :: j in Added(w, tid, ch) ==> !Entry(j)
  {
  }

  lemma CloseAdds(w: World, tid: nat, ch: Choice)
    requires Enabled(w, tid) && w.threads[tid][0].CloseEngine?
    ensures Added(w, tid, ch) ==
            if Listing(ch.order, |w.sess|) then StopAll(ch.order) + [CancelEngine] else [CloseEngine]
  {
  }

  lemma AddedAlone(w: World, tid: nat, ch: Choice)
    requires Enabled(w, tid) && Alone(w.threads[tid])
    ensures forall i :: i in Added(w, tid, ch) && Entry(i) ==> Added(w, tid, ch) == [i] && w.threads[tid][1..] == []
  {
    hide Plan, AddedByDuty, AddedPlainly;
    var i := w.threads[tid][0];
    assert i in w.threads[tid];
    if Planned(i) {
      PlannedStep(w, tid, ch);
      PlanAlone(w, i, ch);
    } else if i.CloseEngine? {
      CloseAdds(w, tid, ch);
      StopAllForeign(ch.order, 0);
    } else {
      RestNoEntry(w, tid, ch);
    }
  }

  lemma RestHasNoEntry(code: seq<Instr>)
    requires code != [] && Alone(code)
    ensures forall i :: i in code[1..] ==> !Entry(i)
  {
    if |code| > 1 {
      assert forall i :: i in code[1..] ==> i in code && code != [i];
    }
  }

  lemma ExecKeepsAlone(w: World, w': World, tid: nat, ch: Choice)
    requires Enabled(w, tid) && AllAlone(w) && Moved(w, w', tid, Added(w, tid, ch))
    ensures AllAlone(w')
  {
    hide Added, Exec;
    var code, rest := Added(w, tid, ch), w.threads[tid][1..];
    AddedAlone(w, tid, ch);
    RestHasNoEntry(w.threads[tid]);
    forall t | 0 <= t < |w'.threads| ensures Alone(w'.threads[t]) {
      if t == tid {
        forall i | i in w'.threads[tid] && Entry(i) ensures w'.threads[tid] == [i] {
          assert i in code && code + rest == [i] + [];
        }
      } else if t < |w.threads| {
        assert Alone(w.threads[t]);
      }
    }
  }

  // ---- another thread's step ----

  lemma PlanForeign(w: World, i: Instr, ch: Choice, sid: nat)
    requires Planned(i) && Foreign(i, sid)
    ensures forall j :: j in Plan(w, i, ch) ==> Foreign(j, sid)
  {
  }

  lemma AddedForeign(w: World, tid: nat, ch: Choice, sid: nat)
    requires Enabled(w, tid) && sid < |w.sess| && Foreign(w.threads[tid][0], sid)
    ensures forall j :: j in Added(w, tid, ch) ==> Foreign(j, sid)
  {
    var i := w.threads[tid][0];
    if Planned(i) {
      PlannedStep(w, tid, ch);
      PlanForeign(w, i, ch, sid);
    } else if i.CloseEngine? {
      StopAllForeign(ch.order, sid);
    }
  }

  lemma OthersStep(w: World, w': World, tid: nat, ch: Choice, sid: nat)
    requires Enabled(w, tid) && sid < |w.sess| && sid < |w'.sess| && OthersForeign(w, sid)
    requires w'.sess[sid].driver == w.sess[sid].driver && Moved(w, w', tid, Added(w, tid, ch))
    ensures OthersForeign(w', sid)
  {
    hide Added;
    var driver := w.sess[sid].driver;
    forall t, i | 0 <= t < |w'.threads| && t != driver && i in w'.threads[t] ensures Foreign(i, sid) {
      if t == tid {
        assert w.threads[tid][0] in w.threads[tid];
        AddedForeign(w, tid, ch, sid);
        if i !in Added(w, tid, ch) { assert i in w.threads[tid]; }
      } else if t < |w.threads| {
        assert i in w.threads[t];
      }
    }
  }

  lemma ForeignNotes(w: World, tid: nat, ch: Choice, sid: nat, st: Story)
    requires Enabled(w, tid) && st.Story? && Foreign(w.threads[tid][0], sid)
    ensures Noted(w, tid, ch, sid, st).job == st.job && Noted(w, tid, ch, sid, st).calls == st.calls
    ensures Noted(w, tid, ch, sid, st).ender == st.ender && Noted(w, tid, ch, sid, st).paths == st.paths
  {
  }

  lemma HeadForeign(w: World, tid: nat, sid: nat)
    requires Enabled(w, tid) && sid < |w.sess| && OthersForeign(w, sid) && w.sess[sid].driver != tid
    ensures Foreign(w.threads[tid][0], sid)
  {
    assert w.threads[tid][0] in w.threads[tid];
  }

  lemma OtherThreads(w: World, w': World, tid: nat, code: seq<Instr>, t: nat)
    requires tid < |w.threads| && w.threads[tid] != [] && Moved(w, w', tid, code) && t < |w.threads| && t != tid
    ensures t < |w'.threads| && w'.threads[t] == w.threads[t]
  {
  }

  lemma KindStays(w: World, w': World, sid: nat)
    requires Grows(w, w') && sid < |w.sess|
    ensures sid < |w'.sess| && w'.sess[sid].f.kind == w.sess[sid].f.kind
  {
  }

  lemma EnteredByOther(w: World, w': World, tid: nat, sid: nat)
    requires tid < |w.threads| && w.threads[tid] != [] && sid < |w.sess|
    requires StateStep(w, w', tid) && Foreign(w.threads[tid][0], sid)
    ensures var f, f' := w.sess[sid].f, w'.sess[sid].f;
      || (f'.state == f.state && f'.detail == f.detail)
      || (!Terminal(f.state) && ((f'.state == Stopped && f'.detail == "") || f'.state == Failed))
  {
  }

  lemma OtherStep(w: World, tid: nat, ch: Choice, sid: nat, st: Story)
    requires Sound(w) && Enabled(w, tid) && sid < |w.sess| && Going(w, sid, st) && w.sess[sid].driver != tid
    ensures Going(Exec(w, tid, ch), sid, Watch(w, Step(tid, ch), sid, st))
  {
    hide Grows, Moved, Sound, AllFit, Due, InOrder, OthersForeign, Led, Fits, Added, Plan;
    var w', next := Exec(w, tid, ch), Watch(w, Step(tid, ch), sid, st);
    HeadForeign(w, tid, sid);
    SoundStep(w, tid, ch);
    ExecStateStep(w, tid, ch);
    ForeignNotes(w, tid, ch, sid, st);
    OthersStep(w, w', tid, ch, sid);
    OtherThreads(w, w', tid, Added(w, tid, ch), w.sess[sid].driver);
    KindStays(w, w', sid);
    hide Exec, Noted, Foreign;
    SameFits(st, next, sid, w.threads[w.sess[sid].driver]);
    EnteredByOther(w, w', tid, sid);
  }

  // ---- the session's own thread ----

  /** A thread that has to fit holds no entry instruction, and a blocking call only at its end. */
  lemma HeadFits(st: Story, sid: nat, code: seq<Instr>)
    requires st.Story? && code != [] && AllFit(st, sid, code)
    ensures Fits(st, sid, code[0], code[1..]) && AllFit(st, sid, code[1..])
    ensures !Entry(code[0]) && code[0] != CancelEngine
    ensures Blocking(code[0]) ==> code == [code[0]]
  {
  }

  lemma NotedIs(w: World, tid: nat, ch: Choice, sid: nat, st: Story)
    requires Enabled(w, tid) && st.Story? && !w.threads[tid][0].Accept?
    ensures Noted(w, tid, ch, sid, st) == Answered(w, w.threads[tid][0], ch, sid, st)
  {
  }

  lemma CallStep(w: World, tid: nat, ch: Choice, sid: nat, st: Story)
    requires Sound(w) && Enabled(w, tid) && sid < |w.sess| && Going(w, sid, st) && w.sess[sid].driver == tid
    requires Blocking(w.threads[tid][0])
    ensures Going(Exec(w, tid, ch), sid, Watch(w, Step(tid, ch), sid, st))
  {
    hide Grows, Moved, Sound, AllFit, Due, InOrder, OthersForeign, Led, Fits, Plan, SidOf;
    var i, w', next := w.threads[tid][0], Exec(w, tid, ch), Watch(w, Step(tid, ch), sid, st);
    HeadFits(st, sid, w.threads[tid]);
    CallFits(w, i, ch, sid, st);
    SoundGives(w);
    SoundStep(w, tid, ch);
    ExecStateStep(w, tid, ch);
    OthersStep(w, w', tid, ch, sid);
    NotedIs(w, tid, ch, sid, st);
    PlannedStep(w, tid, ch);
    SameFits(Answered(w, i, ch, sid, st), next, sid, Plan(w, i, ch));
    assert w'.threads[tid] == Plan(w, i, ch) + [];
    assert Plan(w, i, ch) + [] == Plan(w, i, ch);
  }

  /** Of the instructions that are no calls, all that a step adds fits anywhere. */
  lemma AddedFree(w: World, tid: nat, ch: Choice, sid: nat, st: Story)
    requires Enabled(w, tid) && st.Story? && Fits(st, sid, w.threads[tid][0], w.threads[tid][1..])
    requires !Blocking(w.threads[tid][0])
    ensures forall j :: j in Added(w, tid, ch) ==> Free(j, sid)
  {
  }

  lemma DueStays(st: Story, sid: nat, code: seq<Instr>, head: Instr, rest: seq<Instr>)
    requires st.Story? && Due(st, sid, [head] + rest) && !head.ApplyState? && !head.Transfer?
    ensures Due(st, sid, code + rest)
  {
  }

  lemma MovedHead(w: World, w': World, tid: nat, code: seq<Instr>)
    requires tid < |w.threads| && w.threads[tid] != [] && Moved(w, w', tid, code)
    ensures tid < |w'.threads| && w'.threads[tid] == code + w.threads[tid][1..]
  {
  }

  /** A step of the session's own thread that leaves its state as it is. */
  lemma QuietCourse(w: World, w': World, tid: nat, sid: nat, st: Story, next: Story)
    requires tid < |w.threads| && w.threads[tid] != [] && sid < |w.sess| && StateStep(w, w', tid)
    requires !w.threads[tid][0].ApplyState? && tid < |w'.threads|
    requires w.sess[sid].driver == tid && w'.sess[sid].driver == tid
    requires st.Story? && next.Story? && SameCourse(st, next) && Course(w, sid, st)
    requires next.ender == Ender(w, w', tid, sid, st.ender)
    requires Due(st, sid, w.threads[tid]) ==> Due(next, sid, w'.threads[tid])
    ensures Course(w', sid, next)
  {
    hide Due, Led;
  }

  lemma QuietStep(w: World, tid: nat, ch: Choice, sid: nat, st: Story)
    requires Sound(w) && Enabled(w, tid) && sid < |w.sess| && Going(w, sid, st) && w.sess[sid].driver == tid
    requires !Blocking(w.threads[tid][0]) && !w.threads[tid][0].ApplyState?
    ensures Going(Exec(w, tid, ch), sid, Watch(w, Step(tid, ch), sid, st))
  {
    hide Grows, Moved, Sound, AllFit, Due, InOrder, OthersForeign, Led, Fits, Plan, SidOf, Added, Course, StateStep;
    hide Exec;
    var i, rest, w', next := w.threads[tid][0], w.threads[tid][1..], Exec(w, tid, ch), Watch(w, Step(tid, ch), sid, st);
    HeadFits(st, sid, w.threads[tid]);
    SoundStep(w, tid, ch);
    ExecStateStep(w, tid, ch);
    OthersStep(w, w', tid, ch, sid);
    NotedIs(w, tid, ch, sid, st);
    AddedFree(w, tid, ch, sid, st);
    FreeFirst(st, sid, Added(w, tid, ch), rest);
    MovedHead(w, w', tid, Added(w, tid, ch));
    KindStays(w, w', sid);
    assert w.threads[tid] == [i] + rest;
    if Due(st, sid, w.threads[tid]) { DueStays(st, sid, Added(w, tid, ch), i, rest); }
    SameFits(st, next, sid, w'.threads[tid]);
    QuietCourse(w, w', tid, sid, st, next);
  }

  lemma ApplyLeads(st: Story, sid: nat, i: Instr, rest: seq<Instr>, code: seq<Instr>)
    requires st.Story? && i.ApplyState? && Fits(st, sid, i, rest)
    ensures (i.st, i.detail) == Led(st.job, st.calls) || (!Terminal(i.st) && Due(st, sid, code + rest))
    ensures i.sid == sid
  {
    if (i.st, i.detail) != Led(st.job, st.calls) {
      assert rest[0] in code + rest;
    }
  }

  lemma StateApplied(w: World, w': World, tid: nat, sid: nat)
    requires tid < |w.threads| && w.threads[tid] != [] && sid < |w.sess| && StateStep(w, w', tid)
    requires w.threads[tid][0].ApplyState? && w.threads[tid][0].sid == sid
    ensures var i, f, f' := w.threads[tid][0], w.sess[sid].f, w'.sess[sid].f;
      if Terminal(f.state) then f'.state == f.state && f'.detail == f.detail
      else f'.state == i.st && f'.detail == i.detail
  {
  }

  lemma ApplyStep(w: World, tid: nat, ch: Choice, sid: nat, st: Story)
    requires Sound(w) && Enabled(w, tid) && sid < |w.sess| && Going(w, sid, st) && w.sess[sid].driver == tid
    requires w.threads[tid][0].ApplyState?
    ensures Going(Exec(w, tid, ch), sid, Watch(w, Step(tid, ch), sid, st))
  {
    hide Grows, Moved, Sound, AllFit, Due, InOrder, OthersForeign, Led, Fits, Plan, SidOf, Added, StateStep;
    var i, rest, w', next := w.threads[tid][0], w.threads[tid][1..], Exec(w, tid, ch), Watch(w, Step(tid, ch), sid, st);
    HeadFits(st, sid, w.threads[tid]);
    SoundStep(w, tid, ch);
    ExecStateStep(w, tid, ch);
    OthersStep(w, w', tid, ch, sid);
    NotedIs(w, tid, ch, sid, st);
    AddedFree(w, tid, ch, sid, st);
    FreeFirst(st, sid, Added(w, tid, ch), rest);
    MovedHead(w, w', tid, Added(w, tid, ch));
    ApplyLeads(st, sid, i, rest, Added(w, tid, ch));
    StateApplied(w, w', tid, sid);
    KindStays(w, w', sid);
    hide Exec;
    SameFits(st, next, sid, w'.threads[tid]);
  }

  // ---- the first step, and all steps ----

  lemma {:induction false} FreeOrListener(st: Story, sid: nat, code: seq<Instr>, rest: seq<Instr>)
    requires st.Story? && AllFit(st, sid, rest)
    requires forall i :: i in code ==> Free(i, sid) || i == RegisterListener(sid)
    ensures AllFit(st, sid, code + rest)
    decreases |code|
  {
    if code == [] {
      assert code + rest == rest;
    } else {
      FreeOrListener(st, sid, code[1..], rest);
      assert code[0] in code;
      FitsFirst(st, sid, code[0], code[1..] + rest);
      assert code + rest == [code[0]] + (code[1..] + rest);
    }
  }

  lemma CodeFits(job: Job, sid: nat)
    ensures AllFit(Story(job, [], [], [], None), sid, StartCode(sid, job))
    ensures Led(job, []) == (Starting, "") || Due(Story(job, [], [], [], None), sid, StartCode(sid, job))
  {
    var st, code := Story(job, [], [], [], None), StartCode(sid, job);
    var n := |code|;
    FitsOne(st, sid, code[n - 1]);
    if n >= 2 {
      FitsFirst(st, sid, code[n - 2], [code[n - 1]]);
      FreeOrListener(st, sid, code[..n - 2], [code[n - 2]] + [code[n - 1]]);
      assert code == code[..n - 2] + ([code[n - 2]] + [code[n - 1]]);
      assert code[n - 2] in code;
    }
  }

  lemma BornStep(w: World, tid: nat, ch: Choice, sid: nat)
    requires Sound(w) && AllAlone(w) && Enabled(w, tid) && sid == |w.sess|
    requires w.threads[tid][0].NewSession? && !w.closed
    ensures Going(Exec(w, tid, ch), sid, Watch(w, Step(tid, ch), sid, Unborn))
  {
    hide AllFit, Due, Led, Fits, StartCode, Sound;
    var i, w' := w.threads[tid][0], Exec(w, tid, ch);
    SoundGives(w);
    assert i in w.threads[tid] && Alone(w.threads[tid]);
    assert w.threads[tid][1..] == [];
    CodeFits(i.job, sid);
    assert w'.threads[tid] == StartCode(sid, i.job) + [] == StartCode(sid, i.job);
    forall t, j | 0 <= t < |w'.threads| && t != tid && j in w'.threads[t] ensures Foreign(j, sid) {
      assert j in w.threads[t] && SidOk(w, j);
    }
  }

  lemma NotYet(w: World, tid: nat, ch: Choice, sid: nat)
    requires Enabled(w, tid) && sid >= |w.sess| && !(w.threads[tid][0].NewSession? && !w.closed && sid == |w.sess|)
    ensures Going(Exec(w, tid, ch), sid, Watch(w, Step(tid, ch), sid, Unborn))
  {
    hide Exec;
    CountStep(w, tid, ch);
  }

  lemma ExecKeepsGoing(w: World, tid: nat, ch: Choice, sid: nat, st: Story)
    requires Sound(w) && AllAlone(w) && Enabled(w, tid) && Going(w, sid, st)
    ensures Going(Exec(w, tid, ch), sid, Watch(w, Step(tid, ch), sid, st))
  {
    if sid >= |w.sess| {
      if w.threads[tid][0].NewSession? && !w.closed && sid == |w.sess| {
        BornStep(w, tid, ch, sid);
      } else {
        NotYet(w, tid, ch, sid);
      }
    } else {
      hide Going, Exec, Watch, Sound;
      if w.sess[sid].driver != tid {
        OtherStep(w, tid, ch, sid, st);
      } else if Blocking(w.threads[tid][0]) {
        CallStep(w, tid, ch, sid, st);
      } else if w.threads[tid][0].ApplyState? {
        ApplyStep(w, tid, ch, sid, st);
      } else {
        QuietStep(w, tid, ch, sid, st);
      }
    }
  }

  lemma IdleKeepsGoing(w: World, w': World, sid: nat, st: Story)
    requires Going(w, sid, st) && AllAlone(w)
    requires w'.sess == w.sess
    requires w'.threads == w.threads || exists cmd :: w'.threads == w.threads + [CommandCode(cmd)]
    ensures Going(w', sid, st) && AllAlone(w')
  {
    hide AllFit, Due, Led;
    forall t | 0 <= t < |w'.threads| ensures Alone(w'.threads[t]) {
      if t < |w.threads| { assert Alone(w.threads[t]); }
    }
    if sid < |w.sess| {
      forall t, i | 0 <= t < |w'.threads| && t != w.sess[sid].driver && i in w'.threads[t] ensures Foreign(i, sid) {
        if t < |w.threads| { assert i in w.threads[t]; }
      }
    }
  }

  lemma NextKeepsGoing(w: World, l: Label, sid: nat, st: Story)
    requires Sound(w) && AllAlone(w) && Going(w, sid, st)
    ensures AllAlone(Next(w, l)) && Going(Next(w, l), sid, Watch(w, l, sid, st))
  {
    hide Sound, AllAlone, Going, Exec, Moved;
    if l.Step? && Enabled(w, l.tid) {
      SoundStep(w, l.tid, l.ch);
      ExecKeepsAlone(w, Next(w, l), l.tid, l.ch);
      ExecKeepsGoing(w, l.tid, l.ch, sid, st);
    } else {
      IdleKeepsGoing(w, Next(w, l), sid, st);
    }
  }

  lemma {:induction false} RunKeepsGoing(w: World, labels: seq<Label>, sid: nat, st: Story)
    requires Sound(w) && AllAlone(w) && Going(w, sid, st)
    ensures Going(Run(w, labels), sid, StoryOf(w, labels, sid, st))
    decreases |labels|
  {
    if labels != [] {
      hide Sound, AllAlone, Going, Exec, Watch;
      NextKeepsSound(w, labels[0]);
      NextKeepsGoing(w, labels[0], sid, st);
      RunKeepsGoing(Next(w, labels[0]), labels[1..], sid, Watch(w, labels[0], sid, st));
    }
  }

  lemma RunGoes(labels: seq<Label>, sid: nat)
    ensures Going(Run(INIT, labels), sid, StoryIn(labels, sid)) && Sound(Run(INIT, labels))
  {
    InitSound();
    RunKeepsGoing(INIT, labels, sid, Unborn);
    RunKeepsSound(INIT, labels);
  }
}
