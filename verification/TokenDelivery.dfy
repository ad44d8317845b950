/**
  A stored token is announced or about to be, and it is announced after the first state event of its session unless
  the session was over before its goroutine made a transition.
 */
module TokenDelivery {
  import opened Common
  import opened Events
  import opened Lifecycle
  import opened Placement
  import opened CloseOrder
  import opened Termination
  import opened StateEvents
  import opened Tokens
  import opened DriverOrder

  /** The token event of the session was pushed. */
  ghost predicate Told(w: World, s: nat) {
    exists k :: 0 <= k < |w.trace| && IsTokenEvent(w.trace[k], s)
  }

  /** Some thread still has to push this token. */
  ghost predicate ToTell(w: World, s: nat, token: string) {
    exists t :: 0 <= t < |w.threads| && Emit(TokenReady(s, token)) in w.threads[t]
  }

  ghost predicate Kept(w: World, s: nat)
    requires s < |w.sess|
  {
    w.sess[s].f.token == "" || Told(w, s) || ToTell(w, s, w.sess[s].f.token)
  }

  /** Instructions that come after the first transition of the goroutine that holds them. */
  function LateSid(i: Instr): Option<nat> {
    if i.ServerSetup? then None else TokenSid(i)
  }

  /** A setState that moves a session still in its initial state. */
  predicate Begins(i: Instr, s: nat) {
    i.ApplyState? && i.sid == s && i.detail != ""
  }

  ghost predicate Began(w: World, code: seq<Instr>) {
    forall k :: 0 <= k < |code| && LateSid(code[k]).Some? ==>
      var s := LateSid(code[k]).value;
      s < |w.sess| && (w.sess[s].moves != [] || exists j :: 0 <= j < k && Begins(code[j], s))
  }

  /** A token event comes after the first transition, and after its push unless that transition was terminal. */
  ghost predicate Timely(w: World, k: nat)
    requires k < |w.trace|
  {
    w.trace[k].Sent? && w.trace[k].body.TokenReady? ==>
      var s := w.trace[k].body.sid;
      && s < |w.sess| && w.sess[s].moves != []
      && (Steps(w.sess[s]) > 0 ==>
            var d := w.sess[s].moves[0]; d < |w.place| && w.place[d].Logged? && w.place[d].at < k)
  }

  ghost predicate Delivering(w: World) {
    && (forall s {:trigger Kept(w, s)} :: 0 <= s < |w.sess| ==> Kept(w, s))
    && (forall t {:trigger w.threads[t]} :: 0 <= t < |w.threads| ==> Began(w, w.threads[t]))
    && (forall k {:trigger Timely(w, k)} :: 0 <= k < |w.trace| ==> Timely(w, k))
  }

  // ---- a stored token is not forgotten ----

  /** What a step does to the tokens, as far as it matters here. */
  ghost predicate TokenStep(w: World, w': World, tid: nat, code: seq<Instr>)
    requires tid < |w.threads| && w.threads[tid] != []
  {
    && Moved(w, w', tid, code) && KeepsTokens(w, w', tid) && TraceStep(w, w', w.threads[tid][0])
    && (w.threads[tid][0].StoreToken? ==> code == [Emit(TokenReady(w.threads[tid][0].sid, w.threads[tid][0].token))])
  }

  lemma KeptStep(w: World, w': World, tid: nat, code: seq<Instr>, s: nat)
    requires tid < |w.threads| && w.threads[tid] != [] && TokenStep(w, w', tid, code)
    requires s < |w'.sess| && (s < |w.sess| ==> Kept(w, s))
    ensures Kept(w', s)
  {
    var head, rest := w.threads[tid][0], w.threads[tid][1..];
    if s < |w.sess| && w'.sess[s].f.token != "" {
      if head.StoreToken? && head.sid == s {
        assert w'.threads[tid][0] == Emit(TokenReady(s, w'.sess[s].f.token));
        assert ToTell(w', s, w'.sess[s].f.token);
      } else if Told(w, s) {
        var k :| 0 <= k < |w.trace| && IsTokenEvent(w.trace[k], s);
        assert w'.trace[k] == w.trace[k];
      } else {
        var i := Emit(TokenReady(s, w.sess[s].f.token));
        var t :| 0 <= t < |w.threads| && i in w.threads[t];
        if t == tid && head == i {
          assert IsTokenEvent(w'.trace[|w.trace|], s);
        } else {
          assert t == tid ==> i in rest;
          assert i in w'.threads[t];
        }
      }
    }
  }

  // ---- the first transition comes first ----

  ghost predicate AddsLate(w: World, code: seq<Instr>, head: Instr) {
    && (forall k :: 0 <= k < |code| && LateSid(code[k]).Some? ==>
          var s := LateSid(code[k]).value;
          s < |w.sess| && (LateSid(head) == Some(s) || exists j :: 0 <= j < k && Begins(code[j], s)))
    && (head.ApplyState? ==> forall k :: 0 <= k < |code| ==> LateSid(code[k]) == None)
  }

  lemma SetupAddsLate(w: World, i: Instr, ch: Choice)
    requires SidOk(w, i) && i.ServerSetup?
    ensures AddsLate(w, Plan(w, i, ch), i)
  {
    var code := Plan(w, i, ch);
    if ch.ok { assert Begins(code[|code| - 2], i.sid); }
  }

  lemma StartAddsLate(w: World, i: Instr, ch: Choice)
    requires SidOk(w, i) && i.ServerStart?
    ensures AddsLate(w, Plan(w, i, ch), i)
  {
  }

  lemma PlanAddsLate(w: World, i: Instr, ch: Choice)
    requires SidOk(w, i)
    ensures AddsLate(w, Plan(w, i, ch), i)
  {
    if i.ServerSetup? {
      SetupAddsLate(w, i, ch);
    } else if i.ServerStart? {
      StartAddsLate(w, i, ch);
    } else {
      PlanSilent(w, i, ch);
    }
  }

  lemma NewAddsNoLate(w: World, tid: nat, ch: Choice)
    requires Enabled(w, tid) && w.threads[tid][0].NewSession?
    ensures AddsLate(w, Added(w, tid, ch), w.threads[tid][0])
  {
  }

  lemma StoreAddsLate(w: World, tid: nat, ch: Choice)
    requires Enabled(w, tid) && w.threads[tid][0].StoreToken?
    ensures AddsLate(w, Added(w, tid, ch), w.threads[tid][0])
  {
  }

  lemma ExecAddsLate(w: World, tid: nat, ch: Choice)
    requires Enabled(w, tid)
    ensures AddsLate(w, Added(w, tid, ch), w.threads[tid][0])
  {
    var i := w.threads[tid][0];
    if Planned(i) {
      PlannedStep(w, tid, ch);
      PlanAddsLate(w, i, ch);
    } else if i.NewSession? {
      NewAddsNoLate(w, tid, ch);
    } else if i.StoreToken? {
      StoreAddsLate(w, tid, ch);
    } else {
      AddedSilent(w, tid, ch);
    }
  }

  /** Transitions are only added, and a setState with a detail of its own moves a session that never moved. */
  ghost predicate MovesOn(w: World, w': World, head: Instr) {
    && |w.sess| <= |w'.sess|
    && (forall s :: 0 <= s < |w.sess| ==> w.sess[s].moves <= w'.sess[s].moves)
    && (forall s :: 0 <= s < |w.sess| && w.sess[s].moves != [] && Steps(w'.sess[s]) > 0 ==> Steps(w.sess[s]) > 0)
    && (forall s :: 0 <= s < |w.sess| && Begins(head, s) ==> w'.sess[s].moves != [])
  }

  lemma LateInCode(w: World, w': World, before: seq<Instr>, code: seq<Instr>, k: nat)
    requires before != [] && Began(w, before) && AddsLate(w, code, before[0]) && MovesOn(w, w', before[0])
    requires k < |code| && LateSid(code[k]).Some?
    ensures var s := LateSid(code[k]).value;
      s < |w'.sess| && (w'.sess[s].moves != [] || exists j :: 0 <= j < k && Begins(code[j], s))
  {
    var s := LateSid(code[k]).value;
    if LateSid(before[0]) == Some(s) { assert w.sess[s].moves != []; }
  }

  lemma LateInRest(w: World, w': World, before: seq<Instr>, code: seq<Instr>, after: seq<Instr>, k: nat)
    requires before != [] && Began(w, before) && MovesOn(w, w', before[0]) && after == code + before[1..]
    requires |code| <= k < |after| && LateSid(after[k]).Some?
    ensures var s := LateSid(after[k]).value;
      s < |w'.sess| && (w'.sess[s].moves != [] || exists j :: 0 <= j < k && Begins(after[j], s))
  {
    var s, i := LateSid(after[k]).value, k - |code| + 1;
    assert before[i] == after[k];
    if w.sess[s].moves == [] {
      var j :| 0 <= j < i && Begins(before[j], s);
      if j > 0 { assert after[j - 1 + |code|] == before[j]; }
    }
  }

  lemma BeganStep(w: World, w': World, tid: nat, code: seq<Instr>)
    requires tid < |w.threads| && w.threads[tid] != [] && Began(w, w.threads[tid])
    requires tid < |w'.threads| && w'.threads[tid] == code + w.threads[tid][1..]
    requires AddsLate(w, code, w.threads[tid][0]) && MovesOn(w, w', w.threads[tid][0])
    ensures Began(w', w'.threads[tid])
  {
    var before, after := w.threads[tid], w'.threads[tid];
    forall k | 0 <= k < |after| && LateSid(after[k]).Some?
      ensures var s := LateSid(after[k]).value;
        s < |w'.sess| && (w'.sess[s].moves != [] || exists j :: 0 <= j < k && Begins(after[j], s))
    {
      if k < |code| {
        LateInCode(w, w', before, code, k);
        if j :| 0 <= j < k && Begins(code[j], LateSid(code[k]).value) { assert after[j] == code[j]; }
      } else {
        LateInRest(w, w', before, code, after, k);
      }
    }
  }

  lemma BeganElsewhere(w: World, w': World, code: seq<Instr>, head: Instr)
    requires Began(w, code) && MovesOn(w, w', head)
    ensures Began(w', code)
  {
    forall k | 0 <= k < |code| && LateSid(code[k]).Some?
      ensures var s := LateSid(code[k]).value;
        s < |w'.sess| && (w'.sess[s].moves != [] || exists j :: 0 <= j < k && Begins(code[j], s))
    {
      var s := LateSid(code[k]).value;
      if w.sess[s].moves != [] { assert w.sess[s].moves <= w'.sess[s].moves; }
    }
  }

  lemma ApplyMovesOn(w: World, tid: nat, rest: seq<Instr>, sid: nat, st: State, detail: string)
    requires Tracked(w) && tid < |w.threads| && sid < |w.sess|
    ensures MovesOn(w, ExecApply(w, tid, rest, sid, st, detail), ApplyState(sid, st, detail))
  {
    assert MovesFit(w, sid);
  }

  lemma ExecMovesOn(w: World, tid: nat, ch: Choice)
    requires Tracked(w) && Enabled(w, tid)
    ensures MovesOn(w, Exec(w, tid, ch), w.threads[tid][0])
  {
    var i := w.threads[tid][0];
    if i.ApplyState? {
      ApplyMovesOn(w, tid, w.threads[tid][1..], i.sid, i.st, i.detail);
    } else {
      ExecNoMove(w, tid, ch);
    }
  }

  // ---- the push of the first transition comes first ----

  lemma TimelyOld(w: World, w': World, tid: nat, k: nat)
    requires Sound(w) && Tracked(w) && tid < |w.threads| && w.threads[tid] != []
    requires k < |w.trace| && Timely(w, k) && k < |w'.trace| && w'.trace[k] == w.trace[k]
    requires MovesOn(w, w', w.threads[tid][0]) && PushesKept(w, w', tid)
    ensures Timely(w', k)
  {
    if w.trace[k].Sent? && w.trace[k].body.TokenReady? {
      var s := w.trace[k].body.sid;
      assert MovesFit(w, s);
      assert w.sess[s].moves <= w'.sess[s].moves && w'.sess[s].moves[0] == w.sess[s].moves[0];
      if Steps(w'.sess[s]) > 0 { NotAgain(w, tid, w.sess[s].moves[0]); }
    }
  }

  lemma FirstPushed(w: World, s: nat, tid: nat)
    requires Placed(w) && s < |w.sess| && InLine(w, s) && Steps(w.sess[s]) > 0
    requires tid < |w.threads| && w.threads[tid] != [] && w.sess[s].driver == tid && !w.threads[tid][0].Do?
    ensures var d := w.sess[s].moves[0]; d < |w.place| && w.place[d].Logged? && w.place[d].at < |w.trace|
  {
    AboutToPush(w, s, tid);
    LoggedBefore(w, w.sess[s].moves[0]);
  }

  lemma TimelyNew(w: World, w': World, tid: nat)
    requires Sound(w) && Tracked(w) && Driving(w) && Delivering(w) && TokensFit(w)
    requires tid < |w.threads| && w.threads[tid] != [] && w.threads[tid][0].Emit? && w.threads[tid][0].body.TokenReady?
    requires w'.trace == w.trace + [Sent(w.threads[tid][0].body)]
    requires MovesOn(w, w', w.threads[tid][0]) && PushesKept(w, w', tid)
    ensures Timely(w', |w.trace|)
  {
    var s := w.threads[tid][0].body.sid;
    assert EmitsOk(w, tid, w.threads[tid]) && TokenSid(w.threads[tid][0]) == Some(s);
    assert Began(w, w.threads[tid]) && LateSid(w.threads[tid][0]) == Some(s);
    assert w.sess[s].moves != [] && w'.sess[s].moves[0] == w.sess[s].moves[0];
    assert MovesFit(w, s) && InLine(w, s);
    if Steps(w'.sess[s]) > 0 {
      FirstPushed(w, s, tid);
    }
  }

  // ---- every step ----

  lemma StoreAdds(w: World, tid: nat, ch: Choice)
    requires Enabled(w, tid) && w.threads[tid][0].StoreToken?
    ensures Added(w, tid, ch) == [Emit(TokenReady(w.threads[tid][0].sid, w.threads[tid][0].token))]
  {
  }

  lemma ExecTokenStep(w: World, tid: nat, ch: Choice)
    requires Sound(w) && Enabled(w, tid)
    ensures TokenStep(w, Exec(w, tid, ch), tid, Added(w, tid, ch))
  {
    hide Exec, KeepsTokens, TraceStep, Moved, Guarded, Placed;
    SoundStep(w, tid, ch);
    ExecKeepsTokens(w, tid, ch);
    if w.threads[tid][0].StoreToken? { StoreAdds(w, tid, ch); }
  }

  ghost predicate Whole(w: World) {
    Sound(w) && Tracked(w) && Driving(w) && TokensFit(w) && Delivering(w)
  }

  lemma AcceptBegan(w: World, code: seq<Instr>)
    requires exists sid, ln :: code == [Accept(sid, ln)]
    ensures Began(w, code)
  {
  }

  lemma ExecThreads(w: World, tid: nat, ch: Choice, t: nat)
    requires Whole(w) && Enabled(w, tid) && t < |Exec(w, tid, ch).threads|
    ensures Began(Exec(w, tid, ch), Exec(w, tid, ch).threads[t])
  {
    hide Exec, Began, AddsLate, MovesOn, Guarded, Placed, Tracked, Driving, TokensFit, Grows;
    var w', code := Exec(w, tid, ch), Added(w, tid, ch);
    SoundStep(w, tid, ch);
    ExecMovesOn(w, tid, ch);
    ExecAddsLate(w, tid, ch);
    if t == tid {
      assert Began(w, w.threads[tid]);
      BeganStep(w, w', tid, code);
    } else if t < |w.threads| {
      assert Began(w, w.threads[t]);
      BeganElsewhere(w, w', w.threads[t], w.threads[tid][0]);
    } else {
      AcceptBegan(w', w'.threads[t]);
    }
  }

  lemma NoToken(w: World, k: nat)
    requires k < |w.trace| && !(w.trace[k].Sent? && w.trace[k].body.TokenReady?)
    ensures Timely(w, k)
  {
  }

  lemma ExecTrace(w: World, tid: nat, ch: Choice, k: nat)
    requires Whole(w) && Enabled(w, tid) && k < |Exec(w, tid, ch).trace|
    ensures Timely(Exec(w, tid, ch), k)
  {
    hide Exec, Timely, MovesOn, PushesKept, Guarded, Placed, Tracked, Driving, TokensFit, Moved, KeepsTokens;
    var w', head := Exec(w, tid, ch), w.threads[tid][0];
    ExecTokenStep(w, tid, ch);
    ExecMovesOn(w, tid, ch);
    ExecPushesKept(w, tid, ch);
    if k < |w.trace| {
      assert Timely(w, k);
      TimelyOld(w, w', tid, k);
    } else if head.Emit? && head.body.TokenReady? {
      TimelyNew(w, w', tid);
    } else {
      NoToken(w', k);
    }
  }

  lemma ExecKeepsDelivering(w: World, tid: nat, ch: Choice)
    requires Whole(w) && Enabled(w, tid)
    ensures Delivering(Exec(w, tid, ch))
  {
    hide Exec, Kept, Began, Timely, TokenStep, Guarded, Placed, Tracked, Driving, TokensFit;
    var w' := Exec(w, tid, ch);
    ExecTokenStep(w, tid, ch);
    forall s | 0 <= s < |w'.sess| ensures Kept(w', s) {
      assert s < |w.sess| ==> Kept(w, s);
      KeptStep(w, w', tid, Added(w, tid, ch), s);
    }
    forall t | 0 <= t < |w'.threads| ensures Began(w', w'.threads[t]) { ExecThreads(w, tid, ch, t); }
    forall k | 0 <= k < |w'.trace| ensures Timely(w', k) { ExecTrace(w, tid, ch, k); }
  }

  // ---- runs ----

  lemma IdleKeepsDelivering(w: World, w': World)
    requires Delivering(w) && w'.sess == w.sess && w'.trace == w.trace && w'.place == w.place
    requires w'.threads == w.threads || exists cmd :: w'.threads == w.threads + [CommandCode(cmd)]
    ensures Delivering(w')
  {
    forall s | 0 <= s < |w'.sess| ensures Kept(w', s) {
      assert Kept(w, s);
      if t :| 0 <= t < |w.threads| && Emit(TokenReady(s, w.sess[s].f.token)) in w.threads[t] {
        assert w'.threads[t] == w.threads[t];
      }
    }
    forall t | 0 <= t < |w'.threads| ensures Began(w', w'.threads[t]) {
      if t < |w.threads| { assert Began(w, w.threads[t]); }
    }
    forall k | 0 <= k < |w'.trace| ensures Timely(w', k) { assert Timely(w, k); }
  }

  lemma NextKeepsDelivering(w: World, l: Label)
    requires Whole(w)
    ensures Delivering(Next(w, l))
  {
    hide Exec, Delivering, Guarded, Placed, Tracked, Driving, TokensFit;
    if l.Step? && Enabled(w, l.tid) { ExecKeepsDelivering(w, l.tid, l.ch); } else { IdleKeepsDelivering(w, Next(w, l)); }
  }

  lemma NextKeepsTokens(w: World, l: Label)
    requires Sound(w) && TokensFit(w)
    ensures TokensFit(Next(w, l))
  {
    RunKeepsTokens(w, [l]);
    assert Run(Next(w, l), [l][1..]) == Next(w, l);
  }

  lemma {:induction false} RunKeepsWhole(w: World, labels: seq<Label>)
    requires Whole(w)
    ensures Whole(Run(w, labels))
    decreases |labels|
  {
    if labels != [] {
      hide Exec, Delivering, Guarded, Placed, Tracked, Driving, TokensFit;
      var l := labels[0];
      NextKeepsSound(w, l);
      NextKeepsTracked(w, l);
      NextKeepsDriving(w, l);
      NextKeepsTokens(w, l);
      NextKeepsDelivering(w, l);
      RunKeepsWhole(Next(w, l), labels[1..]);
    }
  }

  lemma ReachableWhole(w: World)
    requires Reachable(w)
    ensures Whole(w)
  {
    var labels :| Run(INIT, labels) == w;
    InitSound();
    RunKeepsWhole(INIT, labels);
  }

  /** A stored token has been announced or some thread is about to announce it. */
  lemma StoredTokenIsTold(w: World, s: nat)
    requires Reachable(w) && s < |w.sess| && w.sess[s].f.token != ""
    ensures Told(w, s) || ToTell(w, s, w.sess[s].f.token)
  {
    ReachableWhole(w);
    assert Kept(w, s);
  }
}
