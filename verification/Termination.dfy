/**
  A cancelled session context implies a terminal session state, and an active session always has a live
  goroutine that drives it. So the early returns on a cancelled context strand no session, and once
  Engine.Close has returned nothing is active and nothing can start.
 */
module Termination {
  import opened Events
  import opened Sessions
  import opened Lifecycle
  import opened Placement
  import opened CloseOrder

  /** A call of setState after which the session is terminal whatever it was before. */
  predicate Ends(i: Instr, sid: nat) {
    i.ApplyState? && i.sid == sid && Terminal(i.st)
  }

  /** The instruction ends the session itself or is a blocking call that still decides how it ends. */
  predicate Decides(i: Instr, sid: nat) {
    || Ends(i, sid)
    || (i.OpenShare? && i.sid == sid) || (i.Transfer? && i.sid == sid) || (i.ListDir? && i.sid == sid)
    || (i.WarmUp? && i.sid == sid)
    || (i.ServerSetup? && i.sid == sid) || (i.ServerStart? && i.sid == sid)
  }

  /** Or it is the path probe, which goes on until the session's context is done. */
  predicate Drives(i: Instr, sid: nat) {
    Decides(i, sid) || i == Probe(sid)
  }

  predicate HasDriver(code: seq<Instr>, sid: nat) {
    exists i :: i in code && Drives(i, sid)
  }

  ghost function Ended(w: World): set<nat> {
    set s: nat | s < |w.sess| && Terminal(w.sess[s].f.state)
  }

  ghost function Cut(w: World): set<nat> {
    set s: nat | s < |w.sess| && w.sess[s].f.cancelled
  }

  // ---- what each instruction list may rely on ----

  /** `ended` and `cut`: the sessions known to be terminal and to be cancelled when the head runs. */
  ghost predicate HeadOk(n: nat, closed: bool, i: Instr, ended: set<nat>, cut: set<nat>) {
    match i
    case Cancel(sid) => sid in ended
    case TakeBatch(sid) => sid in cut
    case CancelEngine => closed && forall s :: 0 <= s < n ==> s in ended
    case _ => true
  }

  ghost function EndedThen(i: Instr, ended: set<nat>): set<nat> {
    if i.ApplyState? && Terminal(i.st) then ended + {i.sid} else ended
  }

  ghost function CutThen(i: Instr, cut: set<nat>): set<nat> {
    if i.Cancel? then cut + {i.sid} else cut
  }

  /** Every cancel in the list comes after a terminal setState, every batch after its cancel. */
  ghost predicate Safe(n: nat, closed: bool, code: seq<Instr>, ended: set<nat>, cut: set<nat>)
    decreases |code|
  {
    code == [] ||
    (HeadOk(n, closed, code[0], ended, cut) &&
     Safe(n, closed, code[1..], EndedThen(code[0], ended), CutThen(code[0], cut)))
  }

  lemma {:induction false} SafeMono(n: nat, closed: bool, n': nat, closed': bool, code: seq<Instr>,
                                    e: set<nat>, c: set<nat>, e': set<nat>, c': set<nat>)
    requires Safe(n, closed, code, e, c) && e <= e' && c <= c'
    requires closed ==> closed' && n' == n
    ensures Safe(n', closed', code, e', c')
    decreases |code|
  {
    if code != [] {
      SafeMono(n, closed, n', closed', code[1..], EndedThen(code[0], e), CutThen(code[0], c),
               EndedThen(code[0], e'), CutThen(code[0], c'));
    }
  }

  lemma {:induction false} SafeAppend(n: nat, closed: bool, a: seq<Instr>, b: seq<Instr>, e: set<nat>, c: set<nat>)
    requires Safe(n, closed, a, e, c) && Safe(n, closed, b, e, c)
    ensures Safe(n, closed, a + b, e, c)
    decreases |a|
  {
    if a == [] {
      assert a + b == b;
    } else {
      SafeMono(n, closed, n, closed, b, e, c, EndedThen(a[0], e), CutThen(a[0], c));
      SafeAppend(n, closed, a[1..], b, EndedThen(a[0], e), CutThen(a[0], c));
      assert (a + b)[1..] == a[1..] + b;
    }
  }

  ghost function Listed(order: seq<nat>): set<nat> {
    set s | s in order
  }

  lemma SafeCons(n: nat, closed: bool, i: Instr, code: seq<Instr>, e: set<nat>, c: set<nat>)
    requires HeadOk(n, closed, i, e, c) && Safe(n, closed, code, EndedThen(i, e), CutThen(i, c))
    ensures Safe(n, closed, [i] + code, e, c)
  {
    assert ([i] + code)[1..] == code;
  }

  lemma StopSafe(n: nat, s: nat, later: seq<Instr>, e: set<nat>, c: set<nat>)
    requires Safe(n, true, later, e + {s}, c + {s})
    ensures Safe(n, true, Stop(s) + later, e, c)
  {
    hide Safe;
    SafeCons(n, true, TakeBatch(s), later, e + {s}, c + {s});
    SafeCons(n, true, Cancel(s), [TakeBatch(s)] + later, e + {s}, c);
    SafeCons(n, true, ApplyState(s, Stopped, ""), [Cancel(s)] + ([TakeBatch(s)] + later), e, c);
    assert Stop(s) + later == [ApplyState(s, Stopped, "")] + ([Cancel(s)] + ([TakeBatch(s)] + later));
  }

  lemma {:induction false} StopAllSafe(n: nat, order: seq<nat>, tail: seq<Instr>, e: set<nat>, c: set<nat>)
    requires Safe(n, true, tail, e + Listed(order), c)
    ensures Safe(n, true, StopAll(order) + tail, e, c)
    decreases |order|
  {
    hide Safe, Stop;
    if order == [] {
      assert StopAll(order) + tail == tail;
      assert e + Listed(order) == e;
    } else {
      var s := order[0];
      assert e + {s} + Listed(order[1..]) == e + Listed(order);
      SafeMono(n, true, n, true, tail, e + Listed(order), c, e + {s} + Listed(order[1..]), c + {s});
      StopAllSafe(n, order[1..], tail, e + {s}, c + {s});
      StopSafe(n, s, StopAll(order[1..]) + tail, e, c);
      assert StopAll(order) + tail == Stop(s) + (StopAll(order[1..]) + tail);
    }
  }

  // ---- the invariant ----

  ghost predicate Ranged(w: World) {
    forall tid, i :: 0 <= tid < |w.threads| && i in w.threads[tid] ==> SidOk(w, i)
  }

  ghost predicate SafeAll(w: World) {
    forall tid :: 0 <= tid < |w.threads| ==> Safe(|w.sess|, w.closed, w.threads[tid], Ended(w), Cut(w))
  }

  ghost predicate Flags(w: World) {
    && (forall s :: 0 <= s < |w.sess| ==>
          && (w.sess[s].f.cancelled ==> Terminal(w.sess[s].f.state))
          && (w.sess[s].f.closed ==> w.sess[s].f.cancelled))
    && (w.cancelled ==> w.closed && forall s :: 0 <= s < |w.sess| ==> Terminal(w.sess[s].f.state))
  }

  ghost predicate Driven(w: World) {
    forall s :: 0 <= s < |w.sess| ==>
      w.sess[s].driver < |w.threads| &&
      (Terminal(w.sess[s].f.state) || HasDriver(w.threads[w.sess[s].driver], s))
  }

  ghost predicate DutiesFit(w: World) {
    |w.place| == |w.duties|
  }

  ghost predicate Guarded(w: World) {
    DutiesFit(w) && Ranged(w) && SafeAll(w) && Flags(w) && Driven(w)
  }

  /** What every step does to the shared state, whoever runs it. */
  ghost predicate Grows(w: World, w': World) {
    && |w.sess| <= |w'.sess| && |w.duties| <= |w'.duties| && |w'.place| == |w'.duties|
    && w'.duties[..|w.duties|] == w.duties
    && (w.closed ==> w'.closed && |w'.sess| == |w.sess|)
    && (w.cancelled ==> w'.cancelled)
    && forall s :: 0 <= s < |w.sess| ==>
         && (Terminal(w.sess[s].f.state) ==>
               w'.sess[s].f.state == w.sess[s].f.state && w'.sess[s].f.detail == w.sess[s].f.detail)
         && (w.sess[s].f.cancelled ==> w'.sess[s].f.cancelled)
         && (w.sess[s].f.closed ==> w'.sess[s].f.closed)
         && w'.sess[s].driver == w.sess[s].driver && w'.sess[s].f.kind == w.sess[s].f.kind
  }

  /** The lists of instructions after a step: one head replaced, at most one new thread that only accepts. */
  ghost predicate Moved(w: World, w': World, tid: nat, code: seq<Instr>)
    requires tid < |w.threads| && w.threads[tid] != []
  {
    && |w.threads| <= |w'.threads| <= |w.threads| + 1
    && w'.threads[tid] == code + w.threads[tid][1..]
    && (forall t :: 0 <= t < |w.threads| && t != tid ==> w'.threads[t] == w.threads[t])
    && (|w'.threads| > |w.threads| ==>
          exists sid, ln :: w'.threads[|w.threads|] == [Accept(sid, ln)] && SidOk(w', Accept(sid, ln)))
  }

  /** What a step owes: the new code is in range and safe, the head kept its word, no session lost its driver. */
  ghost predicate Owes(w: World, w': World, tid: nat, code: seq<Instr>)
    requires tid < |w.threads| && w.threads[tid] != []
  {
    && (forall i :: i in code ==> SidOk(w', i))
    && Safe(|w'.sess|, w'.closed, code, Ended(w'), Cut(w'))
    && EndedThen(w.threads[tid][0], {}) <= Ended(w')
    && CutThen(w.threads[tid][0], {}) <= Cut(w')
    && (forall s :: 0 <= s < |w.sess| && s < |w'.sess| && Drives(w.threads[tid][0], s) ==>
          Terminal(w'.sess[s].f.state) || HasDriver(code, s))
    && (forall s :: |w.sess| <= s < |w'.sess| ==> w'.sess[s].driver == tid && HasDriver(code, s))
  }

  lemma RangedStep(w: World, w': World, tid: nat, code: seq<Instr>)
    requires Guarded(w) && tid < |w.threads| && w.threads[tid] != []
    requires Grows(w, w') && Moved(w, w', tid, code) && Owes(w, w', tid, code)
    ensures Ranged(w')
  {
    forall t, i | 0 <= t < |w'.threads| && i in w'.threads[t] ensures SidOk(w', i) {
      if t == tid {
        if i !in code {
          assert i in w.threads[tid];
          assert SidOk(w, i);
        }
      } else if t < |w.threads| {
        assert i in w.threads[t] && SidOk(w, i);
      }
    }
  }

  lemma SafeStep(w: World, w': World, tid: nat, code: seq<Instr>)
    requires Guarded(w) && tid < |w.threads| && w.threads[tid] != []
    requires Grows(w, w') && Moved(w, w', tid, code) && Owes(w, w', tid, code)
    ensures SafeAll(w')
  {
    var n, n', e, c, e', c' := |w.sess|, |w'.sess|, Ended(w), Cut(w), Ended(w'), Cut(w');
    assert e <= e' && c <= c';
    forall t | 0 <= t < |w'.threads| ensures Safe(n', w'.closed, w'.threads[t], e', c') {
      if t == tid {
        var before := w.threads[tid];
        assert Safe(n, w.closed, before, e, c);
        SafeMono(n, w.closed, n', w'.closed, before[1..], EndedThen(before[0], e), CutThen(before[0], c), e', c');
        SafeAppend(n', w'.closed, code, before[1..], e', c');
      } else if t < |w.threads| {
        assert Safe(n, w.closed, w.threads[t], e, c);
        SafeMono(n, w.closed, n', w'.closed, w.threads[t], e, c, e', c');
      }
    }
  }

  lemma DrivenStep(w: World, w': World, tid: nat, code: seq<Instr>)
    requires Guarded(w) && tid < |w.threads| && w.threads[tid] != []
    requires Grows(w, w') && Moved(w, w', tid, code) && Owes(w, w', tid, code)
    ensures Driven(w')
  {
  }

  // ---- every step ----

  lemma SafeList(n: nat, closed: bool, code: seq<Instr>, e: set<nat>, c: set<nat>)
    requires forall i :: i in code ==> !i.Cancel? && !i.TakeBatch? && !i.CancelEngine?
    ensures Safe(n, closed, code, e, c)
    decreases |code|
  {
    if code != [] { SafeList(n, closed, code[1..], EndedThen(code[0], e), CutThen(code[0], c)); }
  }

  /** setState with a terminal state, then shutdown. */
  function Ending(sid: nat, st: State, detail: string): seq<Instr> {
    [ApplyState(sid, st, detail), Cancel(sid), TakeBatch(sid)]
  }

  lemma EndingSafe(n: nat, closed: bool, sid: nat, st: State, detail: string, e: set<nat>, c: set<nat>)
    requires Terminal(st)
    ensures Safe(n, closed, Ending(sid, st, detail), e, c)
    ensures HasDriver(Ending(sid, st, detail), sid)
  {
    var code, second, third := Ending(sid, st, detail), [Cancel(sid), TakeBatch(sid)], [TakeBatch(sid)];
    assert Safe(n, closed, third, e + {sid}, c + {sid}) by { assert third[1..] == []; }
    assert Safe(n, closed, second, e + {sid}, c) by { assert second[1..] == third; }
    assert code[1..] == second;
    assert code[0] in code;
  }

  lemma FailSafe(n: nat, closed: bool, sid: nat, msg: string, e: set<nat>, c: set<nat>)
    ensures Safe(n, closed, Fail(sid, msg), e, c)
    ensures HasDriver(Fail(sid, msg), sid)
  {
    var code := Fail(sid, msg);
    EndingSafe(n, closed, sid, Failed, msg, e, c);
    assert code[1..] == Ending(sid, Failed, msg);
    assert code[1] in code;
  }

  lemma PlanSafe(w: World, i: Instr, ch: Choice, e: set<nat>, c: set<nat>)
    ensures Safe(|w.sess|, w.closed, Plan(w, i, ch), e, c)
  {
    var n, code := |w.sess|, Plan(w, i, ch);
    hide Safe;
    if forall j :: j in code ==> !j.Cancel? && !j.TakeBatch? && !j.CancelEngine? {
      SafeList(n, w.closed, code, e, c);
    } else if i.ListDir? {
      assert code == Ending(i.sid, Done, "") || code == Ending(i.sid, Failed, ch.text);
      EndingSafe(n, w.closed, i.sid, Done, "", e, c);
      EndingSafe(n, w.closed, i.sid, Failed, ch.text, e, c);
    } else if i.Lookup? {
      assert code == Ending(i.sid, Stopped, "");
      EndingSafe(n, w.closed, i.sid, Stopped, "", e, c);
    } else if i.Transfer? && code != Fail(i.sid, ch.text) {
      assert code == Ending(i.sid, Done, i.finished);
      EndingSafe(n, w.closed, i.sid, Done, i.finished, e, c);
    } else {
      assert code == Fail(i.sid, ch.text);
      FailSafe(n, w.closed, i.sid, ch.text, e, c);
    }
  }

  lemma TransferGoesOn(w: World, i: Instr, ch: Choice, s: nat)
    requires i.Transfer? && i.sid == s && !ContextDone(w, s)
    ensures var code := Plan(w, i, ch);
      code != [] && (Drives(code[|code| - 1], s) || (|code| >= 3 && Drives(code[|code| - 3], s)))
  {
  }

  lemma RestGoesOn(w: World, i: Instr, ch: Choice, s: nat)
    requires Drives(i, s) && !i.ApplyState? && !i.Transfer? && !ContextDone(w, s)
    ensures var code := Plan(w, i, ch);
      code != [] && (Drives(code[|code| - 1], s) || (|code| >= 3 && Drives(code[|code| - 3], s)))
  {
  }

  /** While the context lives, a blocking call leads to another one, or to a terminal setState and a shutdown. */
  lemma PlanGoesOn(w: World, i: Instr, ch: Choice, s: nat)
    requires Drives(i, s) && !i.ApplyState? && !ContextDone(w, s)
    ensures var code := Plan(w, i, ch);
      code != [] && (Drives(code[|code| - 1], s) || (|code| >= 3 && Drives(code[|code| - 3], s)))
  {
    if i.Transfer? { TransferGoesOn(w, i, ch, s); } else { RestGoesOn(w, i, ch, s); }
  }

  lemma DriverAmong(code: seq<Instr>, j: Instr, s: nat)
    requires j in code && Drives(j, s)
    ensures HasDriver(code, s)
  {
  }

  /** A blocking call ends its session, goes on driving it, or returns because the context was cancelled. */
  lemma PlanDrives(w: World, i: Instr, ch: Choice, s: nat)
    requires Flags(w) && s < |w.sess| && Drives(i, s) && !i.ApplyState?
    ensures Terminal(w.sess[s].f.state) || HasDriver(Plan(w, i, ch), s)
  {
    hide HasDriver;
    if !Terminal(w.sess[s].f.state) {
      var code := Plan(w, i, ch);
      assert !ContextDone(w, s);
      PlanGoesOn(w, i, ch, s);
      var j := if Drives(code[|code| - 1], s) then code[|code| - 1] else code[|code| - 3];
      DriverAmong(code, j, s);
    }
  }

  lemma PlanRanged(w: World, i: Instr, ch: Choice)
    requires SidOk(w, i)
    ensures forall j :: j in Plan(w, i, ch) ==> SidOk(w, j)
  {
  }

  lemma ApplyGrows(w: World, tid: nat, rest: seq<Instr>, sid: nat, st: State, detail: string)
    requires DutiesFit(w) && tid < |w.threads| && sid < |w.sess|
    ensures Grows(w, ExecApply(w, tid, rest, sid, st, detail))
  {
  }

  lemma RegisterGrows(w: World, tid: nat, rest: seq<Instr>, sid: nat)
    requires DutiesFit(w) && tid < |w.threads| && sid < |w.sess|
    ensures Grows(w, ExecRegister(w, tid, rest, sid))
  {
  }

  lemma TakeBatchGrows(w: World, tid: nat, rest: seq<Instr>, sid: nat)
    requires DutiesFit(w) && tid < |w.threads| && sid < |w.sess|
    ensures Grows(w, ExecTakeBatch(w, tid, rest, sid))
  {
  }

  lemma PlainGrows(w: World, tid: nat, ch: Choice)
    requires DutiesFit(w) && Enabled(w, tid)
    requires !Planned(w.threads[tid][0]) && !MovesDuties(w.threads[tid][0])
    ensures Grows(w, ExecPlain(w, tid, ch))
  {
    hide StartCode, StopAll, PushTo, Listing, NewFields;
  }

  lemma GotoGrows(w: World, tid: nat, code: seq<Instr>)
    requires DutiesFit(w) && tid < |w.threads|
    ensures Grows(w, Goto(w, tid, code))
  {
  }

  lemma DoGrows(w: World, tid: nat, rest: seq<Instr>, d: nat, now: int)
    requires DutiesFit(w) && tid < |w.threads| && d < |w.duties|
    ensures Grows(w, ExecDo(w, tid, rest, d, now))
  {
  }

  lemma ExecGrows(w: World, tid: nat, ch: Choice)
    requires DutiesFit(w) && Enabled(w, tid)
    ensures Grows(w, Exec(w, tid, ch))
  {
    hide Grows, ExecApply, ExecRegister, ExecTakeBatch, ExecDo, ExecPlain, Goto;
    var i, rest := w.threads[tid][0], w.threads[tid][1..];
    if Planned(i) {
      GotoGrows(w, tid, Plan(w, i, ch) + rest);
    } else if MovesDuties(i) {
      match i {
        case ApplyState(sid, st, detail) => ApplyGrows(w, tid, rest, sid, st, detail);
        case Do(d) => DoGrows(w, tid, rest, d, ch.now);
        case Register(sid) => RegisterGrows(w, tid, rest, sid);
        case RegisterListener(sid) => RegisterGrows(w, tid, [GoAccept(sid, |w.duties|)] + rest, sid);
        case TakeBatch(sid) => TakeBatchGrows(w, tid, rest, sid);
      }
    } else {
      PlainGrows(w, tid, ch);
    }
  }

  lemma RegisterMoved(w: World, tid: nat, sid: nat, code: seq<Instr>)
    requires tid < |w.threads| && w.threads[tid] != [] && sid < |w.sess|
    ensures var w' := ExecRegister(w, tid, code + w.threads[tid][1..], sid);
      Moved(w, w', tid, (if w.sess[sid].f.closed then [Do(|w.duties|)] else []) + code)
  {
    var w' := ExecRegister(w, tid, code + w.threads[tid][1..], sid);
    assert w'.threads[tid] == (if w.sess[sid].f.closed then [Do(|w.duties|)] else []) + code + w.threads[tid][1..];
  }

  lemma PlannedMoved(w: World, tid: nat, ch: Choice)
    requires Enabled(w, tid) && Planned(w.threads[tid][0])
    ensures Moved(w, Exec(w, tid, ch), tid, Added(w, tid, ch))
  {
    hide Plan;
    PlannedStep(w, tid, ch);
  }

  lemma DutyMoved(w: World, tid: nat, ch: Choice)
    requires Enabled(w, tid) && MovesDuties(w.threads[tid][0])
    ensures Moved(w, ExecDuty(w, tid, ch), tid, AddedByDuty(w, tid))
  {
    hide PushTo, SetStateLocked, Moves, StateBody, Handed;
    var i, rest := w.threads[tid][0], w.threads[tid][1..];
    assert [] + rest == rest;
    if i.RegisterListener? {
      RegisterMoved(w, tid, i.sid, [GoAccept(i.sid, |w.duties|)]);
    } else if i.Register? {
      RegisterMoved(w, tid, i.sid, []);
    }
  }

  lemma PlainMoved(w: World, tid: nat, ch: Choice)
    requires Ranged(w) && Enabled(w, tid) && !MovesDuties(w.threads[tid][0]) && !Planned(w.threads[tid][0])
    ensures Moved(w, ExecPlain(w, tid, ch), tid, AddedPlainly(w, tid, ch))
  {
    hide StartCode, StopAll, PushTo, Listing;
    var i, rest, w' := w.threads[tid][0], w.threads[tid][1..], ExecPlain(w, tid, ch);
    assert [] + rest == rest;
    assert w.threads[tid] == [i] + rest;
    if i.GoAccept? {
      assert w'.threads[|w.threads|] == [Accept(i.sid, i.ln)] && SidOk(w', Accept(i.sid, i.ln));
    }
  }

  lemma ExecMoved(w: World, tid: nat, ch: Choice)
    requires Ranged(w) && Enabled(w, tid)
    ensures Moved(w, Exec(w, tid, ch), tid, Added(w, tid, ch))
  {
    hide Plan, ExecDuty, ExecPlain, AddedByDuty, AddedPlainly, Moved;
    if Planned(w.threads[tid][0]) {
      PlannedMoved(w, tid, ch);
    } else if MovesDuties(w.threads[tid][0]) {
      DutyMoved(w, tid, ch);
    } else {
      PlainMoved(w, tid, ch);
    }
  }

  lemma ApplyFlags(w: World, tid: nat, rest: seq<Instr>, sid: nat, st: State, detail: string)
    requires Flags(w) && tid < |w.threads| && sid < |w.sess|
    ensures Flags(ExecApply(w, tid, rest, sid, st, detail))
  {
  }

  lemma RegisterFlags(w: World, tid: nat, rest: seq<Instr>, sid: nat)
    requires Flags(w) && tid < |w.threads| && sid < |w.sess|
    ensures Flags(ExecRegister(w, tid, rest, sid))
  {
  }

  lemma BatchFlags(w: World, tid: nat, rest: seq<Instr>, sid: nat)
    requires Flags(w) && tid < |w.threads| && sid < |w.sess| && sid in Cut(w)
    ensures Flags(ExecTakeBatch(w, tid, rest, sid))
  {
  }

  lemma DoFlags(w: World, tid: nat, rest: seq<Instr>, d: nat, now: int)
    requires Flags(w) && tid < |w.threads| && d < |w.duties| && d < |w.place|
    ensures Flags(ExecDo(w, tid, rest, d, now))
  {
  }

  lemma PlainFlags(w: World, tid: nat, ch: Choice)
    requires Flags(w) && Enabled(w, tid) && !Planned(w.threads[tid][0]) && !MovesDuties(w.threads[tid][0])
    requires HeadOk(|w.sess|, w.closed, w.threads[tid][0], Ended(w), Cut(w))
    ensures Flags(ExecPlain(w, tid, ch))
  {
    if w.threads[tid][0].CancelEngine? {
      forall s | 0 <= s < |w.sess| ensures Terminal(w.sess[s].f.state) { assert s in Ended(w); }
    }
  }

  lemma ExecFlags(w: World, tid: nat, ch: Choice)
    requires Guarded(w) && Enabled(w, tid)
    ensures Flags(Exec(w, tid, ch))
  {
    var i, rest := w.threads[tid][0], w.threads[tid][1..];
    assert Safe(|w.sess|, w.closed, w.threads[tid], Ended(w), Cut(w));
    assert HeadOk(|w.sess|, w.closed, i, Ended(w), Cut(w));
    assert DutiesFit(w) && Flags(w);
    assert Planned(i) ==> Flags(Exec(w, tid, ch));
    hide Flags, Guarded, Safe, ExecApply, ExecDo, ExecRegister, ExecTakeBatch, ExecPlain, Plan;
    if MovesDuties(i) {
      match i {
        case ApplyState(sid, st, detail) => ApplyFlags(w, tid, rest, sid, st, detail);
        case Do(d) => DoFlags(w, tid, rest, d, ch.now);
        case Register(sid) => RegisterFlags(w, tid, rest, sid);
        case RegisterListener(sid) => RegisterFlags(w, tid, [GoAccept(sid, |w.duties|)] + rest, sid);
        case TakeBatch(sid) => BatchFlags(w, tid, rest, sid);
      }
    } else if !Planned(i) {
      PlainFlags(w, tid, ch);
    }
  }

  lemma ExecOwesSafe(w: World, tid: nat, ch: Choice)
    requires Guarded(w) && Enabled(w, tid)
    ensures var w' := Exec(w, tid, ch);
      Safe(|w'.sess|, w'.closed, Added(w, tid, ch), Ended(w'), Cut(w'))
  {
    var i, code, w' := w.threads[tid][0], Added(w, tid, ch), Exec(w, tid, ch);
    var n, e, c := |w'.sess|, Ended(w'), Cut(w');
    if Planned(i) {
      PlannedStep(w, tid, ch);
      PlanSafe(w, i, ch, e, c);
    } else if i.CloseEngine? && Listing(ch.order, |w.sess|) {
      assert Safe(n, true, [CancelEngine], e + Listed(ch.order), c);
      StopAllSafe(n, ch.order, [CancelEngine], e, c);
    } else {
      SafeList(n, w'.closed, code, e, c);
    }
  }

  lemma {:induction false} StopAllRanged(w: World, order: seq<nat>)
    requires forall k :: 0 <= k < |order| ==> order[k] < |w.sess|
    ensures forall i :: i in StopAll(order) ==> SidOk(w, i)
  {
    if order != [] { StopAllRanged(w, order[1..]); }
  }

  lemma BatchRanged(w: World, sid: nat)
    requires Placed(w) && sid < |w.sess|
    ensures forall i :: i in Closes(w.sess[sid].f.closers) ==> SidOk(w, i)
  {
    var batch := w.sess[sid].f.closers;
    forall i | i in Closes(batch) ensures SidOk(w, i) {
      var k :| 0 <= k < |batch| && Closes(batch)[k] == i;
      assert i == Do(Reverse(batch)[k]) && Reverse(batch)[k] == w.sess[sid].f.closers[|batch| - 1 - k];
    }
  }

  lemma RangeGrows(w: World, w': World, code: seq<Instr>)
    requires Grows(w, w') && DutiesFit(w) && forall i :: i in code ==> SidOk(w, i)
    ensures forall i :: i in code ==> SidOk(w', i)
  {
  }

  lemma OwesRangeRest(w: World, tid: nat, ch: Choice)
    requires DutiesFit(w) && Enabled(w, tid)
    requires var i := w.threads[tid][0]; !Planned(i) && !i.CloseEngine? && !i.TakeBatch?
    ensures forall i :: i in Added(w, tid, ch) ==> SidOk(Exec(w, tid, ch), i)
  {
  }

  lemma ExecOwesRange(w: World, tid: nat, ch: Choice)
    requires Placed(w) && Guarded(w) && Enabled(w, tid)
    ensures forall i :: i in Added(w, tid, ch) ==> SidOk(Exec(w, tid, ch), i)
  {
    var i, w' := w.threads[tid][0], Exec(w, tid, ch);
    ExecGrows(w, tid, ch);
    if Planned(i) {
      PlannedStep(w, tid, ch);
      PlanRanged(w, i, ch);
    } else if i.CloseEngine? {
      if Listing(ch.order, |w.sess|) { StopAllRanged(w', ch.order); }
    } else if i.TakeBatch? {
      BatchRanged(w, i.sid);
      if !w.sess[i.sid].f.closed { RangeGrows(w, w', Closes(w.sess[i.sid].f.closers)); }
    } else {
      OwesRangeRest(w, tid, ch);
    }
  }

  lemma ExecOwesDrive(w: World, tid: nat, ch: Choice)
    requires Guarded(w) && Enabled(w, tid)
    ensures var w' := Exec(w, tid, ch);
      && (forall s :: 0 <= s < |w.sess| && Drives(w.threads[tid][0], s) ==>
            s < |w'.sess| && (Terminal(w'.sess[s].f.state) || HasDriver(Added(w, tid, ch), s)))
      && (forall s :: |w.sess| <= s < |w'.sess| ==> w'.sess[s].driver == tid && HasDriver(Added(w, tid, ch), s))
  {
    var i, w', code := w.threads[tid][0], Exec(w, tid, ch), Added(w, tid, ch);
    if Planned(i) {
      PlannedStep(w, tid, ch);
      forall s | 0 <= s < |w.sess| && Drives(i, s)
        ensures s < |w'.sess| && (Terminal(w'.sess[s].f.state) || HasDriver(code, s))
      {
        PlanDrives(w, i, ch, s);
      }
    } else if i.NewSession? && !w.closed {
      assert code[|code| - 1] in code;
      assert Drives(code[|code| - 1], |w.sess|);
    }
  }

  /** A terminal setState leaves its session terminal, a cancel leaves it cancelled. */
  lemma ExecKeepsWord(w: World, tid: nat, ch: Choice)
    requires Enabled(w, tid)
    ensures var w' := Exec(w, tid, ch);
      EndedThen(w.threads[tid][0], {}) <= Ended(w') && CutThen(w.threads[tid][0], {}) <= Cut(w')
  {
  }

  lemma ExecKeepsGuarded(w: World, tid: nat, ch: Choice)
    requires Placed(w) && Guarded(w) && Enabled(w, tid)
    ensures Guarded(Exec(w, tid, ch)) && Grows(w, Exec(w, tid, ch))
  {
    var w', code := Exec(w, tid, ch), Added(w, tid, ch);
    ExecGrows(w, tid, ch);
    ExecMoved(w, tid, ch);
    ExecFlags(w, tid, ch);
    ExecOwesSafe(w, tid, ch);
    ExecOwesRange(w, tid, ch);
    ExecOwesDrive(w, tid, ch);
    ExecKeepsWord(w, tid, ch);
    RangedStep(w, w', tid, code);
    SafeStep(w, w', tid, code);
    DrivenStep(w, w', tid, code);
  }

  lemma CallKeepsGuarded(w: World, cmd: Command)
    requires Guarded(w)
    ensures Guarded(Next(w, Call(cmd)))
  {
    var w' := Next(w, Call(cmd));
    var n, e, c := |w.sess|, Ended(w), Cut(w);
    assert Ended(w') == e && Cut(w') == c;
    forall t | 0 <= t < |w'.threads| ensures Safe(n, w.closed, w'.threads[t], e, c) {
      if t < |w.threads| {
        assert Safe(n, w.closed, w.threads[t], e, c);
      } else {
        SafeList(n, w.closed, CommandCode(cmd), e, c);
      }
    }
    forall t, i | 0 <= t < |w'.threads| && i in w'.threads[t] ensures SidOk(w', i) {
      if t < |w.threads| { assert i in w.threads[t] && SidOk(w, i); }
    }
  }

  lemma NextKeepsGuarded(w: World, l: Label)
    requires Placed(w) && Guarded(w)
    ensures Guarded(Next(w, l)) && Grows(w, Next(w, l))
  {
    match l {
      case Step(tid, ch) => if Enabled(w, tid) { ExecKeepsGuarded(w, tid, ch); }
      case Call(cmd) => CallKeepsGuarded(w, cmd);
      case _ =>
        var w' := Next(w, l);
        assert Ended(w') == Ended(w) && Cut(w') == Cut(w);
        forall t | 0 <= t < |w'.threads| ensures Safe(|w.sess|, w.closed, w'.threads[t], Ended(w), Cut(w)) {
          assert Safe(|w.sess|, w.closed, w.threads[t], Ended(w), Cut(w));
        }
        assert Ranged(w') by {
          forall t, i | 0 <= t < |w'.threads| && i in w'.threads[t] ensures SidOk(w', i) {
            assert i in w.threads[t] && SidOk(w, i);
          }
        }
    }
  }

  ghost predicate Sound(w: World) {
    Placed(w) && Guarded(w)
  }

  lemma GrowsTrans(a: World, b: World, c: World)
    requires Grows(a, b) && Grows(b, c)
    ensures Grows(a, c)
  {
    assert c.duties[..|a.duties|] == c.duties[..|b.duties|][..|a.duties|];
  }

  lemma {:induction false} RunKeepsSound(w: World, labels: seq<Label>)
    requires Sound(w)
    ensures Sound(Run(w, labels)) && Grows(w, Run(w, labels))
    decreases |labels|
  {
    if labels != [] {
      var w' := Next(w, labels[0]);
      NextKeepsPlaced(w, labels[0]);
      NextKeepsGuarded(w, labels[0]);
      RunKeepsSound(w', labels[1..]);
      GrowsTrans(w, w', Run(w, labels));
    }
  }

  lemma InitSound()
    ensures Sound(INIT)
  {
  }

  lemma ReachableSound(w: World)
    requires Reachable(w)
    ensures Sound(w)
  {
    var labels :| Run(INIT, labels) == w;
    InitSound();
    RunKeepsSound(INIT, labels);
  }

  // ---- the results ----

  /** In every interleaving, a session whose context is done is already terminal, also when Engine.Close did it. */
  lemma CancelledImpliesTerminal(w: World, sid: nat)
    requires Reachable(w) && sid < |w.sess| && ContextDone(w, sid)
    ensures Terminal(w.sess[sid].f.state)
  {
    ReachableSound(w);
  }

  /**
    No session is stranded: while it is active, the goroutine in charge of it is alive. It still holds a step that
    ends the session or a blocking call that decides how it ends, or it is the path probe of a connected session,
    which ends nothing itself and returns only when the context is done. A finished goroutine leaves it terminal.
   */
  lemma NoStrandedSession(w: World, sid: nat)
    requires Reachable(w) && sid < |w.sess|
    ensures w.sess[sid].driver < |w.threads|
    ensures Active(w.sess[sid].f) ==>
              || Probe(sid) in w.threads[w.sess[sid].driver]
              || exists i :: i in w.threads[w.sess[sid].driver] && Decides(i, sid)
    ensures w.threads[w.sess[sid].driver] == [] ==> Terminal(w.sess[sid].f.state)
  {
    ReachableSound(w);
  }

  /** The accept loop returns without failing its session only when the session is over. */
  lemma AcceptReturnsWhenOver(w: World, tid: nat, ch: Choice, sid: nat, ln: nat)
    requires Reachable(w) && Enabled(w, tid) && w.threads[tid] == [Accept(sid, ln)]
    requires Exec(w, tid, ch).threads[tid] == []
    ensures Terminal(w.sess[sid].f.state)
  {
    ReachableSound(w);
    PlannedStep(w, tid, ch);
    if !ContextDone(w, sid) {
      ClosedOnlyByShutdown(w, ln);
    }
  }

  /** The path probe returns only when the session is over. */
  lemma ProbeReturnsWhenOver(w: World, tid: nat, ch: Choice, sid: nat)
    requires Reachable(w) && Enabled(w, tid) && w.threads[tid] == [Probe(sid)]
    requires Exec(w, tid, ch).threads[tid] == []
    ensures Terminal(w.sess[sid].f.state)
  {
    ReachableSound(w);
    PlannedStep(w, tid, ch);
  }

  /** A terminal state is final: no later step of any thread changes the state or its detail. */
  lemma TerminalIsSticky(w: World, labels: seq<Label>, sid: nat)
    requires Reachable(w) && sid < |w.sess| && Terminal(w.sess[sid].f.state)
    ensures sid < |Run(w, labels).sess|
    ensures var f := Run(w, labels).sess[sid].f; f.state == w.sess[sid].f.state && f.detail == w.sess[sid].f.detail
  {
    ReachableSound(w);
    RunKeepsSound(w, labels);
  }

  /** What the rest of a thread has promised: the effect is there, or an instruction for it is still to run. */
  ghost predicate Promised(w: World, tid: nat, sid: nat) {
    && tid < |w.threads| && sid < |w.sess|
    && (Terminal(w.sess[sid].f.state) || exists i :: i in w.threads[tid] && Ends(i, sid))
    && (w.sess[sid].f.cancelled || Cancel(sid) in w.threads[tid])
    && (w.sess[sid].f.closed || TakeBatch(sid) in w.threads[tid])
  }

  lemma KeepsPromise(w: World, l: Label, tid: nat, sid: nat)
    requires Sound(w) && Promised(w, tid, sid)
    ensures Promised(Next(w, l), tid, sid)
  {
    var w' := Next(w, l);
    NextKeepsGuarded(w, l);
    if l.Step? && Enabled(w, l.tid) {
      ExecMoved(w, l.tid, l.ch);
      ExecKeepsWord(w, l.tid, l.ch);
      if l.tid == tid {
        var head, rest := w.threads[tid][0], w.threads[tid][1..];
        assert w.threads[tid] == [head] + rest;
        assert forall i :: i in rest ==> i in w'.threads[tid];
        assert head == Cancel(sid) ==> sid in Cut(w');
        assert head == TakeBatch(sid) ==> w'.sess[sid].f.closed;
        assert Ends(head, sid) ==> sid in Ended(w');
        if !Terminal(w.sess[sid].f.state) {
          var i :| i in w.threads[tid] && Ends(i, sid);
          assert i == head || i in w'.threads[tid];
        }
      }
    }
  }

  /** Once a call of stop or fail has returned, its session is terminal, cancelled and shut down. */
  lemma {:induction false} ReturnedMeansStopped(w: World, labels: seq<Label>, tid: nat, sid: nat)
    requires Sound(w) && Promised(w, tid, sid)
    ensures var w' := Run(w, labels);
      && Promised(w', tid, sid)
      && (w'.threads[tid] == [] ==>
            Terminal(w'.sess[sid].f.state) && w'.sess[sid].f.cancelled && w'.sess[sid].f.closed)
    decreases |labels|
  {
    if labels != [] {
      KeepsPromise(w, labels[0], tid, sid);
      NextKeepsPlaced(w, labels[0]);
      NextKeepsGuarded(w, labels[0]);
      ReturnedMeansStopped(Next(w, labels[0]), labels[1..], tid, sid);
    }
  }

  /** No thread is ever stuck: whatever it has to run next can be run. */
  lemma NeverStuck(w: World, tid: nat)
    requires Reachable(w) && tid < |w.threads| && w.threads[tid] != []
    ensures Enabled(w, tid)
  {
    ReachableSound(w);
    assert w.threads[tid][0] in w.threads[tid];
  }

  /** The calls the source makes do promise all three. */
  lemma StopAndFailPromise(w: World, tid: nat, sid: nat, msg: string, rest: seq<Instr>)
    requires tid < |w.threads| && sid < |w.sess|
    requires w.threads[tid] == Stop(sid) + rest || w.threads[tid] == Fail(sid, msg) + rest ||
             w.threads[tid] == Finish(sid, msg) + rest
    ensures Promised(w, tid, sid)
  {
    var code := w.threads[tid];
    assert Ends(code[0], sid) || Ends(code[1], sid);
    assert code[0] in code && code[1] in code && code[2] in code;
    assert code[2] == TakeBatch(sid) || code[3] in code;
  }

  /** A stop command in this thread still has to look its session up, or has promised. */
  ghost predicate Stopping(w: World, tid: nat, sid: nat) {
    tid < |w.threads| && sid < |w.sess| && (w.threads[tid] == [Lookup(sid)] || Promised(w, tid, sid))
  }

  lemma RangedOf(w: World)
    requires Sound(w)
    ensures Ranged(w) && DutiesFit(w)
  {
  }

  lemma KeepsStopping(w: World, l: Label, tid: nat, sid: nat)
    requires Sound(w) && Stopping(w, tid, sid)
    ensures Stopping(Next(w, l), tid, sid)
  {
    var w' := Next(w, l);
    if Promised(w, tid, sid) {
      KeepsPromise(w, l, tid, sid);
    } else if l.Step? && Enabled(w, l.tid) {
      RangedOf(w);
      ExecMoved(w, l.tid, l.ch);
      if l.tid == tid {
        PlannedStep(w, tid, l.ch);
        assert w'.threads[tid] == Stop(sid) + [];
        StopAndFailPromise(w', tid, sid, "", []);
      } else {
        ExecGrows(w, l.tid, l.ch);
      }
    }
  }

  /** A stop command that has returned leaves its session terminal, cancelled and shut down, whatever raced with it. */
  lemma {:induction false} StopCommandStops(w: World, labels: seq<Label>, tid: nat, sid: nat)
    requires Sound(w) && Stopping(w, tid, sid)
    ensures var w' := Run(w, labels);
      && Stopping(w', tid, sid)
      && (w'.threads[tid] == [] ==>
            Terminal(w'.sess[sid].f.state) && w'.sess[sid].f.cancelled && w'.sess[sid].f.closed)
    decreases |labels|
  {
    if labels != [] {
      hide Sound, Stopping, Exec;
      KeepsStopping(w, labels[0], tid, sid);
      NextKeepsPlaced(w, labels[0]);
      NextKeepsGuarded(w, labels[0]);
      StopCommandStops(Next(w, labels[0]), labels[1..], tid, sid);
    }
  }

  /** Calling stop for a registered session is such a command. */
  lemma StopCommandBegins(w: World, sid: nat)
    requires Reachable(w) && sid < |w.sess|
    ensures Sound(Next(w, Call(StopCmd(sid)))) && Stopping(Next(w, Call(StopCmd(sid))), |w.threads|, sid)
  {
    ReachableSound(w);
    NextKeepsPlaced(w, Call(StopCmd(sid)));
    NextKeepsGuarded(w, Call(StopCmd(sid)));
  }

  /** A start command registers a session of its kind, in its first state, unless the engine is closed. */
  lemma StartCommandBegins(w: World, tid: nat, ch: Choice, job: Job)
    requires Enabled(w, tid) && w.threads[tid] == CommandCode(StartCmd(job))
    ensures var w' := Exec(w, tid, ch);
      if w.closed then w'.sess == w.sess
      else
        && |w'.sess| == |w.sess| + 1 && w'.sess[..|w.sess|] == w.sess
        && w'.sess[|w.sess|].f.state == Starting && w'.sess[|w.sess|].driver == tid
        && w'.sess[|w.sess|].f.kind == (match job
              case SendJob(_) => Send
              case RecvJob(_) => Recv
              case ListJob => Recv
              case ForwardJob(k) => k
              case ServeJob => Server)
  {
  }

  /** The call of Engine.Close in this thread still has to cancel the engine's context, or has done so. */
  ghost predicate Closing(w: World, tid: nat) {
    tid < |w.threads| && (w.cancelled || CancelEngine in w.threads[tid] || CloseEngine in w.threads[tid])
  }

  lemma CancelStays(w: World, tid: nat, ch: Choice)
    requires Sound(w) && Enabled(w, tid)
    ensures w.cancelled ==> Exec(w, tid, ch).cancelled
  {
    ExecGrows(w, tid, ch);
  }

  lemma ExecKeepsClosing(w: World, tid: nat, ch: Choice, t: nat)
    requires Sound(w) && Closing(w, t) && Enabled(w, tid)
    ensures Closing(Exec(w, tid, ch), t)
  {
    hide Grows, Guarded, Placed, Plan, StartCode, StopAll;
    var w', head, rest := Exec(w, tid, ch), w.threads[tid][0], w.threads[tid][1..];
    RangedOf(w);
    ExecMoved(w, tid, ch);
    assert w.threads[tid] == [head] + rest;
    if tid == t && head == CloseEngine {
      var code := Added(w, tid, ch);
      assert code[|code| - 1] in w'.threads[tid];
    } else if tid == t && head == CancelEngine {
      assert w'.cancelled;
    } else {
      CancelStays(w, tid, ch);
      if tid == t && !w.cancelled {
        assert CancelEngine in rest || CloseEngine in rest;
      }
    }
  }

  lemma {:induction false} KeepsClosing(w: World, labels: seq<Label>, tid: nat)
    requires Sound(w) && Closing(w, tid)
    ensures Closing(Run(w, labels), tid)
    decreases |labels|
  {
    if labels != [] {
      hide Exec, Guarded, Placed;
      var l := labels[0];
      NextKeepsPlaced(w, l);
      NextKeepsGuarded(w, l);
      if l.Step? && Enabled(w, l.tid) { ExecKeepsClosing(w, l.tid, l.ch, tid); }
      KeepsClosing(Next(w, l), labels[1..], tid);
    }
  }

  /**
    After Engine.Close has returned, whatever else was going on or comes later: every session ever registered
    is terminal and no further one can be registered.
   */
  lemma ClosedForGood(w: World, tid: nat, labels: seq<Label>, more: seq<Label>)
    requires Reachable(w) && tid < |w.threads| && w.threads[tid] == CommandCode(CloseCmd)
    requires tid < |Run(w, labels).threads| && Run(w, labels).threads[tid] == []
    ensures var w1 := Run(w, labels); var w2 := Run(w1, more);
      && |w2.sess| == |w1.sess|
      && forall sid :: 0 <= sid < |w2.sess| ==> Terminal(w2.sess[sid].f.state)
  {
    ReachableSound(w);
    assert CloseEngine in w.threads[tid];
    KeepsClosing(w, labels, tid);
    RunKeepsSound(w, labels);
    RunKeepsSound(Run(w, labels), more);
  }
}
