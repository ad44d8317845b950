/** A session's token is stored and announced at most once, and what is announced is what is stored. */
module Tokens {
  import opened Common
  import opened Events
  import opened Lifecycle
  import opened Placement
  import opened CloseOrder
  import opened Termination

  /** The session for which an instruction still has a token to store or to announce. */
  function TokenSid(i: Instr): Option<nat> {
    match i
    case ServerSetup(sid) => Some(sid)
    case ServerStart(sid) => Some(sid)
    case StoreToken(sid, _) => Some(sid)
    case Emit(b) => if b.TokenReady? then Some(b.sid) else None
    case _ => None
  }

  /** Emits never fake a state change, and token work sits once, in the session's own goroutine. */
  ghost predicate EmitsOk(w: World, tid: nat, code: seq<Instr>) {
    && (forall k :: 0 <= k < |code| ==> !(code[k].Emit? && code[k].body.SessionState?))
    && (forall k :: 0 <= k < |code| && TokenSid(code[k]).Some? ==>
          var s := TokenSid(code[k]).value;
          s < |w.sess| && w.sess[s].driver == tid &&
          (code[k].Emit? ==> code[k].body.token == w.sess[s].f.token))
    && (forall j, k :: 0 <= j < k < |code| && TokenSid(code[j]).Some? ==> TokenSid(code[j]) != TokenSid(code[k]))
  }

  predicate IsTokenEvent(e: Effect, sid: nat) {
    e.Sent? && e.body.TokenReady? && e.body.sid == sid
  }

  ghost predicate Announced(w: World, k: nat)
    requires k < |w.trace|
  {
    w.trace[k].Sent? ==>
      && !w.trace[k].body.SessionState?
      && (w.trace[k].body.TokenReady? ==>
            var s := w.trace[k].body.sid;
            && s < |w.sess| && w.sess[s].driver < |w.threads|
            && w.trace[k].body.token == w.sess[s].f.token
            && (forall i :: i in w.threads[w.sess[s].driver] ==> TokenSid(i) != Some(s))
            && (forall j :: 0 <= j < |w.trace| && IsTokenEvent(w.trace[j], s) ==> j == k))
  }

  ghost predicate TokensFit(w: World) {
    && (forall tid {:trigger w.threads[tid]} :: 0 <= tid < |w.threads| ==> EmitsOk(w, tid, w.threads[tid]))
    && (forall k {:trigger Announced(w, k)} :: 0 <= k < |w.trace| ==> Announced(w, k))
  }

  /** The code a step adds continues the head's own token work, or starts that of a new session. */
  ghost predicate AddsTokens(w: World, w': World, tid: nat, code: seq<Instr>)
    requires tid < |w.threads| && w.threads[tid] != []
  {
    && EmitsOk(w', tid, code)
    && (w.threads[tid][0].Emit? ==> code == [])
    && forall k :: 0 <= k < |code| && TokenSid(code[k]).Some? ==>
         TokenSid(code[k]) == TokenSid(w.threads[tid][0]) || TokenSid(code[k]).value >= |w.sess|
  }

  /** Only the head's own session may have its token changed, and only before it is announced. */
  ghost predicate KeepsTokens(w: World, w': World, tid: nat)
    requires tid < |w.threads| && w.threads[tid] != []
  {
    && |w.sess| <= |w'.sess|
    && (forall s :: 0 <= s < |w.sess| ==>
          w'.sess[s].driver == w.sess[s].driver &&
          w'.sess[s].f.token == if w.threads[tid][0].StoreToken? && w.threads[tid][0].sid == s
                                then w.threads[tid][0].token else w.sess[s].f.token)
    && forall s :: |w.sess| <= s < |w'.sess| ==> w'.sess[s].f.token == ""
  }

  ghost predicate TraceStep(w: World, w': World, head: Instr) {
    || (w'.trace == w.trace && !head.Emit?)
    || (head.Emit? && w'.trace == w.trace + [Sent(head.body)])
    || (!head.Emit? && exists d :: w'.trace == w.trace + [Did(d)])
  }

  lemma EmitsElsewhere(w: World, w': World, tid: nat, t: nat)
    requires TokensFit(w) && tid < |w.threads| && w.threads[tid] != [] && t < |w.threads| && t != tid
    requires KeepsTokens(w, w', tid)
    ensures EmitsOk(w', t, w.threads[t])
  {
    assert EmitsOk(w, t, w.threads[t]) && EmitsOk(w, tid, w.threads[tid]);
  }

  lemma EmitsHere(w: World, w': World, tid: nat, code: seq<Instr>)
    requires TokensFit(w) && tid < |w.threads| && w.threads[tid] != []
    requires KeepsTokens(w, w', tid) && AddsTokens(w, w', tid, code)
    ensures EmitsOk(w', tid, code + w.threads[tid][1..])
  {
  }

  lemma AnnouncedOld(w: World, w': World, tid: nat, code: seq<Instr>, k: nat)
    requires TokensFit(w) && tid < |w.threads| && w.threads[tid] != []
    requires Moved(w, w', tid, code) && KeepsTokens(w, w', tid) && AddsTokens(w, w', tid, code)
    requires TraceStep(w, w', w.threads[tid][0])
    requires k < |w.trace|
    ensures Announced(w', k)
  {
    var head := w.threads[tid][0];
    assert EmitsOk(w, tid, w.threads[tid]) && Announced(w, k);
    assert forall j :: 0 <= j < |w.trace| ==> w'.trace[j] == w.trace[j];
    if w.trace[k].Sent? && w.trace[k].body.TokenReady? {
      var s := w.trace[k].body.sid;
      var d := w.sess[s].driver;
      assert head in w.threads[tid];
      assert TokenSid(head) != Some(s);
      forall i | i in w'.threads[d] ensures TokenSid(i) != Some(s) {
        if d == tid && i !in code { assert i in w.threads[tid]; }
      }
    }
  }

  lemma AnnouncedNew(w: World, w': World, tid: nat, code: seq<Instr>)
    requires TokensFit(w) && tid < |w.threads| && w.threads[tid] != []
    requires Moved(w, w', tid, code) && KeepsTokens(w, w', tid) && AddsTokens(w, w', tid, code)
    requires TraceStep(w, w', w.threads[tid][0])
    requires |w'.trace| == |w.trace| + 1
    ensures Announced(w', |w.trace|)
  {
    var head, rest := w.threads[tid][0], w.threads[tid][1..];
    assert EmitsOk(w, tid, w.threads[tid]);
    if head.Emit? && head.body.TokenReady? {
      var s := head.body.sid;
      assert TokenSid(head) == Some(s);
      assert w'.threads[tid] == rest by { assert [] + rest == rest; }
      forall i | i in rest ensures TokenSid(i) != Some(s) {
        var j :| 0 <= j < |rest| && rest[j] == i;
        assert w.threads[tid][j + 1] == i;
      }
      forall j | 0 <= j < |w.trace| ensures !IsTokenEvent(w.trace[j], s) {
        assert Announced(w, j);
        assert head in w.threads[tid];
      }
    }
  }

  lemma StepKeepsTokens(w: World, w': World, tid: nat, code: seq<Instr>)
    requires TokensFit(w) && tid < |w.threads| && w.threads[tid] != []
    requires Moved(w, w', tid, code) && KeepsTokens(w, w', tid) && AddsTokens(w, w', tid, code)
    requires TraceStep(w, w', w.threads[tid][0])
    ensures TokensFit(w')
  {
    forall t | 0 <= t < |w'.threads| ensures EmitsOk(w', t, w'.threads[t]) {
      if t == tid {
        EmitsHere(w, w', tid, code);
      } else if t < |w.threads| {
        EmitsElsewhere(w, w', tid, t);
      }
    }
    forall k | 0 <= k < |w'.trace| ensures Announced(w', k) {
      if k < |w.trace| { AnnouncedOld(w, w', tid, code, k); } else { AnnouncedNew(w, w', tid, code); }
    }
  }

  /** Code without token work and without state events of its own. */
  ghost predicate Silent(code: seq<Instr>) {
    forall k :: 0 <= k < |code| ==> TokenSid(code[k]) == None && !(code[k].Emit? && code[k].body.SessionState?)
  }

  lemma {:induction false} StopAllSilent(order: seq<nat>)
    ensures Silent(StopAll(order) + [CancelEngine])
  {
    if order != [] {
      StopAllSilent(order[1..]);
      assert StopAll(order) + [CancelEngine] == Stop(order[0]) + (StopAll(order[1..]) + [CancelEngine]);
    } else {
      assert StopAll(order) + [CancelEngine] == [CancelEngine];
    }
  }

  lemma PlanSilent(w: World, i: Instr, ch: Choice)
    requires !i.ServerSetup? && !i.ServerStart?
    ensures Silent(Plan(w, i, ch))
  {
  }

  lemma AddedSilent(w: World, tid: nat, ch: Choice)
    requires Enabled(w, tid)
    requires var i := w.threads[tid][0];
      (TokenSid(i) == None && !i.NewSession?) || i.Emit?
    ensures Silent(Added(w, tid, ch))
  {
    var i := w.threads[tid][0];
    if Planned(i) {
      PlannedStep(w, tid, ch);
      PlanSilent(w, i, ch);
    } else if i.CloseEngine? {
      StopAllSilent(ch.order);
    }
  }

  lemma SilentAdds(w: World, w': World, tid: nat, code: seq<Instr>)
    requires tid < |w.threads| && w.threads[tid] != [] && Silent(code) && (w.threads[tid][0].Emit? ==> code == [])
    ensures AddsTokens(w, w', tid, code)
  {
  }

  lemma OneLate(w: World, tid: nat, code: seq<Instr>, last: Instr)
    requires Silent(code) && !last.Emit?
    requires TokenSid(last).Some? ==> TokenSid(last).value < |w.sess| && w.sess[TokenSid(last).value].driver == tid
    ensures EmitsOk(w, tid, code + [last])
  {
  }

  lemma SetupPlan(w: World, tid: nat, i: Instr, ch: Choice)
    requires i.ServerSetup? && SidOk(w, i) && w.sess[i.sid].driver == tid
    ensures EmitsOk(w, tid, Plan(w, i, ch))
    ensures forall k :: 0 <= k < |Plan(w, i, ch)| && TokenSid(Plan(w, i, ch)[k]).Some? ==>
              TokenSid(Plan(w, i, ch)[k]) == TokenSid(i)
  {
    hide EmitsOk;
    var first := if ch.other then [Register(i.sid)] else [];
    if ch.ok {
      OneLate(w, tid, first + [ApplyState(i.sid, Starting, "selecting relay")], ServerStart(i.sid));
      assert Plan(w, i, ch) == first + [ApplyState(i.sid, Starting, "selecting relay")] + [ServerStart(i.sid)];
    } else {
      OneLate(w, tid, Fail(i.sid, ch.text)[..3], TakeBatch(i.sid));
      assert Plan(w, i, ch) == Fail(i.sid, ch.text)[..3] + [TakeBatch(i.sid)];
    }
  }

  lemma StartPlan(w: World, tid: nat, i: Instr, ch: Choice)
    requires i.ServerStart? && SidOk(w, i) && w.sess[i.sid].driver == tid
    ensures EmitsOk(w, tid, Plan(w, i, ch))
    ensures forall k :: 0 <= k < |Plan(w, i, ch)| && TokenSid(Plan(w, i, ch)[k]).Some? ==>
              TokenSid(Plan(w, i, ch)[k]) == TokenSid(i)
  {
  }

  lemma ServerPlan(w: World, tid: nat, i: Instr, ch: Choice)
    requires (i.ServerSetup? || i.ServerStart?) && SidOk(w, i) && w.sess[i.sid].driver == tid
    ensures EmitsOk(w, tid, Plan(w, i, ch))
    ensures forall k :: 0 <= k < |Plan(w, i, ch)| && TokenSid(Plan(w, i, ch)[k]).Some? ==>
              TokenSid(Plan(w, i, ch)[k]) == TokenSid(i)
  {
    if i.ServerSetup? { SetupPlan(w, tid, i, ch); } else { StartPlan(w, tid, i, ch); }
  }

  lemma ServerAddsTokens(w: World, tid: nat, ch: Choice)
    requires Enabled(w, tid) && EmitsOk(w, tid, w.threads[tid])
    requires var i := w.threads[tid][0]; i.ServerSetup? || i.ServerStart?
    ensures AddsTokens(w, Exec(w, tid, ch), tid, Added(w, tid, ch))
  {
    var i := w.threads[tid][0];
    PlannedStep(w, tid, ch);
    ServerPlan(w, tid, i, ch);
  }

  lemma StoreAddsTokens(w: World, tid: nat, ch: Choice)
    requires Enabled(w, tid) && EmitsOk(w, tid, w.threads[tid]) && w.threads[tid][0].StoreToken?
    ensures AddsTokens(w, Exec(w, tid, ch), tid, Added(w, tid, ch))
  {
  }

  lemma NewAddsTokens(w: World, tid: nat, ch: Choice)
    requires Enabled(w, tid) && w.threads[tid][0].NewSession?
    ensures AddsTokens(w, Exec(w, tid, ch), tid, Added(w, tid, ch))
  {
    hide StopAll, PushTo, Listing, KindOf;
  }

  lemma ExecAddsTokens(w: World, tid: nat, ch: Choice)
    requires TokensFit(w) && Enabled(w, tid)
    ensures AddsTokens(w, Exec(w, tid, ch), tid, Added(w, tid, ch))
  {
    var i := w.threads[tid][0];
    assert EmitsOk(w, tid, w.threads[tid]);
    if i.ServerSetup? || i.ServerStart? {
      ServerAddsTokens(w, tid, ch);
    } else if i.StoreToken? {
      StoreAddsTokens(w, tid, ch);
    } else if i.NewSession? {
      NewAddsTokens(w, tid, ch);
    } else {
      AddedSilent(w, tid, ch);
      SilentAdds(w, Exec(w, tid, ch), tid, Added(w, tid, ch));
    }
  }

  /** Neither stores nor announces anything. */
  predicate Tokenless(i: Instr) {
    !i.Emit? && !i.StoreToken?
  }

  lemma GotoTokens(w: World, tid: nat, code: seq<Instr>)
    requires tid < |w.threads| && w.threads[tid] != [] && Tokenless(w.threads[tid][0])
    ensures KeepsTokens(w, Goto(w, tid, code), tid) && TraceStep(w, Goto(w, tid, code), w.threads[tid][0])
  {
  }

  lemma ApplyTokens(w: World, tid: nat, rest: seq<Instr>, sid: nat, st: State, detail: string)
    requires tid < |w.threads| && w.threads[tid] != [] && Tokenless(w.threads[tid][0]) && sid < |w.sess|
    ensures var w' := ExecApply(w, tid, rest, sid, st, detail);
      KeepsTokens(w, w', tid) && TraceStep(w, w', w.threads[tid][0])
  {
  }

  lemma DoTokens(w: World, tid: nat, rest: seq<Instr>, d: nat, now: int)
    requires tid < |w.threads| && w.threads[tid] != [] && Tokenless(w.threads[tid][0]) && d < |w.duties| && d < |w.place|
    ensures var w' := ExecDo(w, tid, rest, d, now);
      KeepsTokens(w, w', tid) && TraceStep(w, w', w.threads[tid][0])
  {
    assert ExecDo(w, tid, rest, d, now).trace == w.trace + [Did(d)];
  }

  lemma RegisterTokens(w: World, tid: nat, rest: seq<Instr>, sid: nat)
    requires tid < |w.threads| && w.threads[tid] != [] && Tokenless(w.threads[tid][0]) && sid < |w.sess|
    ensures var w' := ExecRegister(w, tid, rest, sid);
      KeepsTokens(w, w', tid) && TraceStep(w, w', w.threads[tid][0])
  {
  }

  lemma BatchTokens(w: World, tid: nat, rest: seq<Instr>, sid: nat)
    requires tid < |w.threads| && w.threads[tid] != [] && Tokenless(w.threads[tid][0]) && sid < |w.sess|
    ensures var w' := ExecTakeBatch(w, tid, rest, sid);
      KeepsTokens(w, w', tid) && TraceStep(w, w', w.threads[tid][0])
  {
  }

  lemma PlainTokens(w: World, tid: nat, ch: Choice)
    requires Enabled(w, tid) && !Planned(w.threads[tid][0]) && !MovesDuties(w.threads[tid][0])
    ensures var w' := ExecPlain(w, tid, ch);
      KeepsTokens(w, w', tid) && TraceStep(w, w', w.threads[tid][0])
  {
    hide StartCode, StopAll, PushTo, Listing, KindOf;
  }

  lemma ExecKeepsTokens(w: World, tid: nat, ch: Choice)
    requires Enabled(w, tid)
    ensures KeepsTokens(w, Exec(w, tid, ch), tid)
    ensures TraceStep(w, Exec(w, tid, ch), w.threads[tid][0])
  {
    hide KeepsTokens, TraceStep, ExecApply, ExecDo, ExecRegister, ExecTakeBatch, ExecPlain, Plan, Goto;
    var i, rest := w.threads[tid][0], w.threads[tid][1..];
    if Planned(i) {
      GotoTokens(w, tid, Plan(w, i, ch) + rest);
    } else if MovesDuties(i) {
      match i {
        case ApplyState(sid, st, detail) => ApplyTokens(w, tid, rest, sid, st, detail);
        case Do(d) => DoTokens(w, tid, rest, d, ch.now);
        case Register(sid) => RegisterTokens(w, tid, rest, sid);
        case RegisterListener(sid) => RegisterTokens(w, tid, [GoAccept(sid, |w.duties|)] + rest, sid);
        case TakeBatch(sid) => BatchTokens(w, tid, rest, sid);
      }
    } else {
      PlainTokens(w, tid, ch);
    }
  }

  lemma IdleKeepsTokens(w: World, w': World)
    requires TokensFit(w) && Sound(w)
    requires w'.sess == w.sess && w'.trace == w.trace
    requires w'.threads == w.threads || exists cmd :: w'.threads == w.threads + [CommandCode(cmd)]
    ensures TokensFit(w')
  {
    forall t | 0 <= t < |w'.threads| ensures EmitsOk(w', t, w'.threads[t]) {
      if t < |w.threads| { assert EmitsOk(w, t, w.threads[t]); }
    }
    forall k | 0 <= k < |w'.trace| ensures Announced(w', k) {
      assert Announced(w, k);
    }
  }

  lemma {:induction false} RunKeepsTokens(w: World, labels: seq<Label>)
    requires TokensFit(w) && Sound(w)
    ensures TokensFit(Run(w, labels)) && Sound(Run(w, labels))
    decreases |labels|
  {
    if labels != [] {
      var l := labels[0];
      var w' := Next(w, l);
      NextKeepsPlaced(w, l);
      NextKeepsGuarded(w, l);
      if l.Step? && Enabled(w, l.tid) {
        ExecMoved(w, l.tid, l.ch);
        ExecAddsTokens(w, l.tid, l.ch);
        ExecKeepsTokens(w, l.tid, l.ch);
        StepKeepsTokens(w, w', l.tid, Added(w, l.tid, l.ch));
      } else {
        IdleKeepsTokens(w, w');
      }
      RunKeepsTokens(w', labels[1..]);
    }
  }

  lemma ReachableTokens(w: World)
    requires Reachable(w)
    ensures TokensFit(w)
  {
    var labels :| Run(INIT, labels) == w;
    InitSound();
    RunKeepsTokens(INIT, labels);
  }
}
