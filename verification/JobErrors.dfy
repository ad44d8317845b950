/** No session fails silently: its error event is pushed before its state changes, also when an accept loop ends it. */
module JobErrors {
  import opened Common
  import opened Events
  import opened Lifecycle
  import opened Termination
  import opened Tokens
  import opened DriverOrder
  import opened Stories
  import opened Jobs

  /** The error event of this session with this message was pushed. */
  predicate Said(w: World, sid: nat, text: string) {
    Sent(Error(sid, text)) in w.trace
  }

  predicate FailsNow(i: Instr, sid: nat) {
    i.ApplyState? && i.sid == sid && i.st == Failed
  }

  /** Right before a session is failed its error is pushed. */
  predicate WarnedAt(w: World, sid: nat, code: seq<Instr>, k: nat)
    requires k < |code|
  {
    FailsNow(code[k], sid) ==>
      if k == 0 then Said(w, sid, code[k].detail) else code[k - 1] == Emit(Error(sid, code[k].detail))
  }

  ghost predicate WarnedIn(w: World, sid: nat, code: seq<Instr>) {
    forall k :: 0 <= k < |code| ==> WarnedAt(w, sid, code, k)
  }

  ghost predicate Warned(w: World, sid: nat) {
    && (forall t {:trigger w.threads[t]} :: 0 <= t < |w.threads| ==> WarnedIn(w, sid, w.threads[t]))
    && (sid < |w.sess| && w.sess[sid].f.state == Failed ==> Said(w, sid, w.sess[sid].f.detail))
  }

  ghost predicate NoGaps(code: seq<Instr>, sid: nat) {
    forall k :: 0 <= k < |code| && FailsNow(code[k], sid) ==> k > 0 && code[k - 1] == Emit(Error(sid, code[k].detail))
  }

  lemma PlanNoGaps(w: World, i: Instr, ch: Choice, sid: nat)
    requires Planned(i) && i != ListDir(sid)
    ensures NoGaps(Plan(w, i, ch), sid)
  {
  }

  lemma {:induction false} StopAllNoGaps(order: seq<nat>, sid: nat)
    ensures forall i :: i in StopAll(order) ==> !FailsNow(i, sid)
  {
    if order != [] { StopAllNoGaps(order[1..], sid); }
  }

  lemma AddedNoGaps(w: World, tid: nat, ch: Choice, sid: nat)
    requires Enabled(w, tid) && w.threads[tid][0] != ListDir(sid)
    ensures NoGaps(Added(w, tid, ch), sid)
  {
    var i := w.threads[tid][0];
    if Planned(i) {
      PlannedStep(w, tid, ch);
      PlanNoGaps(w, i, ch, sid);
    } else if i.CloseEngine? {
      StopAllNoGaps(ch.order, sid);
    }
  }

  /** What was pushed stays pushed, and a push is one. */
  lemma SaidStays(w: World, w': World, head: Instr, sid: nat, text: string)
    requires TraceStep(w, w', head)
    ensures Said(w, sid, text) ==> Said(w', sid, text)
    ensures head == Emit(Error(sid, text)) ==> Said(w', sid, text)
  {
    assert forall e :: e in w.trace ==> e in w'.trace;
  }

  lemma EmitAddsNothing(w: World, tid: nat, ch: Choice)
    requires Enabled(w, tid) && w.threads[tid][0].Emit?
    ensures Added(w, tid, ch) == []
  {
  }

  lemma WarnedHere(w: World, w': World, tid: nat, ch: Choice, sid: nat)
    requires Enabled(w, tid) && Warned(w, sid) && w.threads[tid][0] != ListDir(sid)
    requires TraceStep(w, w', w.threads[tid][0])
    ensures WarnedIn(w', sid, Added(w, tid, ch) + w.threads[tid][1..])
  {
    hide Added, TraceStep, Said;
    var head, rest, code := w.threads[tid][0], w.threads[tid][1..], Added(w, tid, ch);
    AddedNoGaps(w, tid, ch, sid);
    assert WarnedIn(w, sid, w.threads[tid]);
    forall k | 0 <= k < |code + rest| && FailsNow((code + rest)[k], sid) ensures WarnedAt(w', sid, code + rest, k) {
      if k >= |code| {
        var j := k - |code|;
        assert w.threads[tid][j + 1] == rest[j] && WarnedAt(w, sid, w.threads[tid], j + 1);
        if j == 0 {
          SaidStays(w, w', head, sid, rest[0].detail);
          EmitAddsNothing(w, tid, ch);
        }
      }
    }
  }

  lemma WarnedElsewhere(w: World, w': World, head: Instr, sid: nat, code: seq<Instr>)
    requires WarnedIn(w, sid, code) && TraceStep(w, w', head)
    ensures WarnedIn(w', sid, code)
  {
    hide TraceStep, Said;
    forall k | 0 <= k < |code| ensures WarnedAt(w', sid, code, k) {
      assert WarnedAt(w, sid, code, k);
      if FailsNow(code[k], sid) { SaidStays(w, w', head, sid, code[k].detail); }
    }
  }

  lemma AcceptsOnly(w: World, sid: nat, code: seq<Instr>)
    requires exists s, ln :: code == [Accept(s, ln)]
    ensures WarnedIn(w, sid, code)
  {
  }

  lemma WarnedHead(w: World, tid: nat, sid: nat)
    requires Enabled(w, tid) && Warned(w, sid)
    ensures FailsNow(w.threads[tid][0], sid) ==> Said(w, sid, w.threads[tid][0].detail)
  {
    assert WarnedIn(w, sid, w.threads[tid]) && WarnedAt(w, sid, w.threads[tid], 0);
  }

  /** The steps of all threads but a listing's own keep to this. */
  lemma StepKeepsWarned(w: World, tid: nat, ch: Choice, sid: nat)
    requires Sound(w) && Enabled(w, tid) && Warned(w, sid) && sid < |w.sess| && w.threads[tid][0] != ListDir(sid)
    ensures Warned(Exec(w, tid, ch), sid)
  {
    hide Sound, Grows, Exec, Added, WarnedIn, TraceStep, KeepsTokens, Said;
    var w', head := Exec(w, tid, ch), w.threads[tid][0];
    SoundStep(w, tid, ch);
    ExecStateStep(w, tid, ch);
    ExecKeepsTokens(w, tid, ch);
    forall t | 0 <= t < |w'.threads| ensures WarnedIn(w', sid, w'.threads[t]) {
      if t == tid {
        WarnedHere(w, w', tid, ch, sid);
      } else if t < |w.threads| {
        WarnedElsewhere(w, w', head, sid, w.threads[t]);
      } else {
        AcceptsOnly(w', sid, w'.threads[t]);
      }
    }
    SaidStays(w, w', head, sid, w'.sess[sid].f.detail);
    if Enters(w, head, sid) { WarnedHead(w, tid, sid); }
  }

  lemma NotListing(w: World, tid: nat, sid: nat, st: Story)
    requires Enabled(w, tid) && sid < |w.sess| && Going(w, sid, st) && Reports(st.job)
    ensures w.threads[tid][0] != ListDir(sid)
  {
    hide Led, Due, InOrder;
    if w.sess[sid].driver != tid { HeadForeign(w, tid, sid); }
  }

  lemma StartNeverFails(sid: nat, job: Job)
    ensures forall i :: i in StartCode(sid, job) ==> !FailsNow(i, sid)
  {
  }

  lemma BornWarned(w: World, tid: nat, ch: Choice, sid: nat)
    requires Sound(w) && AllAlone(w) && Enabled(w, tid) && sid == |w.sess|
    requires w.threads[tid][0].NewSession? && !w.closed
    ensures Warned(Exec(w, tid, ch), sid)
  {
    hide Sound, StartCode;
    var i, w' := w.threads[tid][0], Exec(w, tid, ch);
    SoundGives(w);
    assert i in w.threads[tid] && Alone(w.threads[tid]);
    StartNeverFails(sid, i.job);
    assert w'.threads[tid] == StartCode(sid, i.job) + [];
    forall t | 0 <= t < |w'.threads| ensures WarnedIn(w', sid, w'.threads[t]) {
      if t != tid {
        forall k | 0 <= k < |w.threads[t]| ensures !FailsNow(w.threads[t][k], sid) {
          assert w.threads[t][k] in w.threads[t] && SidOk(w, w.threads[t][k]);
        }
      }
    }
  }

  // ---- accept loops ----

  /** The rest of an accept loop that ended: it fails the session with this text, or does nothing. */
  predicate AcceptTail(code: seq<Instr>, sid: nat, text: string) {
    forall i :: i in code ==>
      || i.Do? || i == Emit(Error(sid, text)) || i == ApplyState(sid, Failed, text)
      || i == Cancel(sid) || i == TakeBatch(sid)
  }

  ghost predicate RefusalOk(w: World, sid: nat, st: Story, r: Refusal)
    requires sid < |w.sess| && st.Story?
  {
    var f := w.sess[sid].f;
    && r.tid < |w.threads| && r.tid != w.sess[sid].driver
    && AcceptTail(w.threads[r.tid], sid, r.text)
    && (r.live ==>
          && (Said(w, sid, r.text) || Emit(Error(sid, r.text)) in w.threads[r.tid])
          && (Terminal(f.state) || ApplyState(sid, Failed, r.text) in w.threads[r.tid]))
    && (st.ender == Some(r.tid) ==> f.state == Failed && f.detail == r.text)
  }

  /** Where another thread is about to fail the session, an accept loop ended with that error. */
  ghost predicate Accused(w: World, sid: nat, st: Story)
    requires sid < |w.sess| && st.Story?
  {
    && (forall t, i :: 0 <= t < |w.threads| && t != w.sess[sid].driver && i in w.threads[t] && FailsNow(i, sid) ==>
          exists r :: r in st.refused && r.tid == t && r.text == i.detail)
    && (st.ender.Some? && st.ender.value != w.sess[sid].driver && w.sess[sid].f.state == Failed ==>
          exists r :: r in st.refused && r.tid == st.ender.value && r.text == w.sess[sid].f.detail)
  }

  /** The thread that ended the session accepts no connections. */
  ghost predicate EnderIsThrough(w: World, st: Story)
    requires st.Story?
  {
    st.ender.Some? ==>
      st.ender.value < |w.threads| && forall i :: i in w.threads[st.ender.value] ==> !i.Accept?
  }

  ghost predicate Explained(w: World, sid: nat, st: Story) {
    sid < |w.sess| && st.Story? ==>
      && (Reports(st.job) ==> Warned(w, sid))
      && (forall r :: r in st.refused ==> RefusalOk(w, sid, st, r))
      && Accused(w, sid, st)
      && EnderIsThrough(w, st)
  }

  lemma TailAdds(w: World, tid: nat, ch: Choice, sid: nat, text: string)
    requires Enabled(w, tid) && AcceptTail(w.threads[tid], sid, text)
    ensures AcceptTail(Added(w, tid, ch) + w.threads[tid][1..], sid, text)
  {
    assert w.threads[tid][0] in w.threads[tid];
    forall i | i in Added(w, tid, ch) ensures i.Do? {}
    forall i | i in w.threads[tid][1..] ensures i in w.threads[tid] {}
  }

  lemma TailHead(w: World, tid: nat, sid: nat, text: string)
    requires Enabled(w, tid) && AcceptTail(w.threads[tid], sid, text)
    ensures var i := w.threads[tid][0]; i.ApplyState? && i.sid == sid ==> i == ApplyState(sid, Failed, text)
    ensures !w.threads[tid][0].Accept?
  {
    assert w.threads[tid][0] in w.threads[tid];
  }

  lemma InRest(code: seq<Instr>, i: Instr)
    requires code != [] && i in code && i != code[0]
    ensures i in code[1..]
  {
  }

  /** A loop that ended before keeps its word through a step of its own thread. */
  lemma RefusalHere(w: World, w': World, tid: nat, ch: Choice, sid: nat, st: Story, next: Story, r: Refusal)
    requires Enabled(w, tid) && sid < |w.sess| && sid < |w'.sess| && st.Story? && next.Story?
    requires RefusalOk(w, sid, st, r) && r.tid == tid
    requires Moved(w, w', tid, Added(w, tid, ch)) && StateStep(w, w', tid) && TraceStep(w, w', w.threads[tid][0])
    requires w'.sess[sid].driver == w.sess[sid].driver
    requires st.ender == None <==> !Terminal(w.sess[sid].f.state)
    requires next.ender == Ender(w, w', tid, sid, st.ender)
    ensures RefusalOk(w', sid, next, r)
  {
    hide Added, TraceStep, Said, AcceptTail;
    var head, rest, code := w.threads[tid][0], w.threads[tid][1..], Added(w, tid, ch);
    TailAdds(w, tid, ch, sid, r.text);
    TailHead(w, tid, sid, r.text);
    SaidStays(w, w', head, sid, r.text);
    assert w'.threads[tid] == code + rest;
    var e, a := Emit(Error(sid, r.text)), ApplyState(sid, Failed, r.text);
    if e in w.threads[tid] && e != head { InRest(w.threads[tid], e); }
    if a in w.threads[tid] && a != head { InRest(w.threads[tid], a); }
  }

  lemma RefusalElsewhere(w: World, w': World, tid: nat, ch: Choice, sid: nat, st: Story, next: Story, r: Refusal)
    requires Enabled(w, tid) && sid < |w.sess| && sid < |w'.sess| && st.Story? && next.Story?
    requires RefusalOk(w, sid, st, r) && r.tid != tid
    requires Moved(w, w', tid, Added(w, tid, ch)) && StateStep(w, w', tid) && TraceStep(w, w', w.threads[tid][0])
    requires w'.sess[sid].driver == w.sess[sid].driver
    requires st.ender == None <==> !Terminal(w.sess[sid].f.state)
    requires next.ender == Ender(w, w', tid, sid, st.ender)
    ensures RefusalOk(w', sid, next, r)
  {
    hide Added, TraceStep, Said, AcceptTail;
    SaidStays(w, w', w.threads[tid][0], sid, r.text);
  }

  lemma FailIsTail(sid: nat, text: string)
    ensures AcceptTail(Fail(sid, text), sid, text) && AcceptTail([], sid, text)
    ensures Emit(Error(sid, text)) in Fail(sid, text) && ApplyState(sid, Failed, text) in Fail(sid, text)
  {
    assert Fail(sid, text)[0] == Emit(Error(sid, text)) && Fail(sid, text)[1] == ApplyState(sid, Failed, text);
  }

  /** A loop that ends now. */
  lemma RefusalNew(w: World, w': World, tid: nat, ch: Choice, sid: nat, next: Story, r: Refusal)
    requires Enabled(w, tid) && sid < |w.sess| && sid < |w'.sess| && next.Story? && Alone(w.threads[tid])
    requires w.threads[tid][0].Accept? && w.threads[tid][0].sid == sid && !ch.ok && w.sess[sid].driver != tid
    requires r == Refusal(tid, !ContextDone(w, sid) && !(ch.other && IsClosed(w, w.threads[tid][0].ln)), ch.text)
    requires Moved(w, w', tid, Added(w, tid, ch))
    requires w'.sess[sid].driver == w.sess[sid].driver
    requires next.ender != Some(tid)
    ensures RefusalOk(w', sid, next, r)
  {
    var i := w.threads[tid][0];
    assert i in w.threads[tid];
    PlannedStep(w, tid, ch);
    assert w'.threads[tid] == Plan(w, i, ch) + [] == Plan(w, i, ch);
    FailIsTail(sid, ch.text);
  }

  lemma PlanAccuses(w: World, i: Instr, ch: Choice, sid: nat)
    requires Planned(i) && Foreign(i, sid)
    ensures forall j :: j in Plan(w, i, ch) && FailsNow(j, sid) ==>
              i.Accept? && i.sid == sid && !ch.ok && j.detail == ch.text
  {
  }

  lemma AddedAccuses(w: World, tid: nat, ch: Choice, sid: nat)
    requires Enabled(w, tid) && sid < |w.sess| && Foreign(w.threads[tid][0], sid)
    ensures forall j :: j in Added(w, tid, ch) && FailsNow(j, sid) ==>
              w.threads[tid][0].Accept? && w.threads[tid][0].sid == sid && !ch.ok && j.detail == ch.text
  {
    var i := w.threads[tid][0];
    if Planned(i) {
      PlannedStep(w, tid, ch);
      PlanAccuses(w, i, ch, sid);
    } else if i.CloseEngine? {
      StopAllNoGaps(ch.order, sid);
    }
  }

  lemma NotesRefusal(w: World, tid: nat, ch: Choice, sid: nat, st: Story)
    requires Enabled(w, tid) && st.Story?
    ensures var i, next := w.threads[tid][0], Noted(w, tid, ch, sid, st);
      if i.Accept? && i.sid == sid && !ch.ok then
        next.refused == st.refused +
          [Refusal(tid, !ContextDone(w, sid) && !(ch.other && IsClosed(w, i.ln)), ch.text)]
      else next.refused == st.refused
    ensures Noted(w, tid, ch, sid, st).job == st.job
  {
  }

  lemma AccusedHere(w: World, w': World, tid: nat, ch: Choice, sid: nat, st: Story, next: Story, i: Instr)
    requires Enabled(w, tid) && sid < |w.sess| && st.Story? && next.Story? && Accused(w, sid, st)
    requires tid < |w'.threads| && w'.threads[tid] == Added(w, tid, ch) + w.threads[tid][1..]
    requires OthersForeign(w, sid) && tid != w.sess[sid].driver && i in w'.threads[tid] && FailsNow(i, sid)
    requires next.refused == Noted(w, tid, ch, sid, st).refused
    ensures exists r :: r in next.refused && r.tid == tid && r.text == i.detail
  {
    hide Noted, Added, Foreign;
    NotesRefusal(w, tid, ch, sid, st);
    HeadForeign(w, tid, sid);
    AddedAccuses(w, tid, ch, sid);
    if i in Added(w, tid, ch) {
      var r := next.refused[|next.refused| - 1];
      assert r in next.refused && r.tid == tid && r.text == i.detail;
    } else {
      assert i in w.threads[tid];
      var r :| r in st.refused && r.tid == tid && r.text == i.detail;
      assert r in next.refused;
    }
  }

  lemma AccusedStep(w: World, w': World, tid: nat, ch: Choice, sid: nat, st: Story, next: Story)
    requires Enabled(w, tid) && sid < |w.sess| && sid < |w'.sess| && st.Story? && next.Story?
    requires Accused(w, sid, st) && OthersForeign(w, sid)
    requires Moved(w, w', tid, Added(w, tid, ch)) && StateStep(w, w', tid)
    requires w'.sess[sid].driver == w.sess[sid].driver
    requires st.ender == None <==> !Terminal(w.sess[sid].f.state)
    requires next.ender == Ender(w, w', tid, sid, st.ender)
    requires next.refused == Noted(w, tid, ch, sid, st).refused
    ensures Accused(w', sid, next)
  {
    hide Added, Noted, OthersForeign;
    NotesRefusal(w, tid, ch, sid, st);
    var driver := w.sess[sid].driver;
    assert forall r :: r in st.refused ==> r in next.refused;
    forall t, i | 0 <= t < |w'.threads| && t != driver && i in w'.threads[t] && FailsNow(i, sid)
      ensures exists r :: r in next.refused && r.tid == t && r.text == i.detail
    {
      if t == tid {
        AccusedHere(w, w', tid, ch, sid, st, next, i);
      } else if t < |w.threads| {
        var r :| r in st.refused && r.tid == t && r.text == i.detail;
        assert r in next.refused;
      }
    }
    var head := w.threads[tid][0];
    assert head in w.threads[tid];
    if Enters(w, head, sid) && FailsNow(head, sid) && tid != driver {
      var r :| r in st.refused && r.tid == tid && r.text == head.detail;
      assert r in next.refused;
    }
  }

  lemma NotDriver(w: World, tid: nat, sid: nat, st: Story)
    requires Enabled(w, tid) && sid < |w.sess| && Going(w, sid, st) && w.threads[tid][0].Accept?
    ensures w.sess[sid].driver != tid
  {
    hide Led, Due, InOrder;
  }

  lemma RefusalStep(w: World, w': World, tid: nat, ch: Choice, sid: nat, st: Story, next: Story, r: Refusal)
    requires AllAlone(w) && Enabled(w, tid) && sid < |w.sess| && sid < |w'.sess| && Going(w, sid, st) && next.Story?
    requires st.Story? && EnderIsThrough(w, st)
    requires forall r :: r in st.refused ==> RefusalOk(w, sid, st, r)
    requires Moved(w, w', tid, Added(w, tid, ch)) && StateStep(w, w', tid) && TraceStep(w, w', w.threads[tid][0])
    requires w'.sess[sid].driver == w.sess[sid].driver
    requires next.ender == Ender(w, w', tid, sid, st.ender)
    requires next.refused == Noted(w, tid, ch, sid, st).refused && r in next.refused
    ensures RefusalOk(w', sid, next, r)
  {
    hide Added, Noted, Going, RefusalOk, TraceStep, Moved;
    GoingGives(w, sid, st);
    NotesRefusal(w, tid, ch, sid, st);
    if r in st.refused {
      if r.tid == tid {
        RefusalHere(w, w', tid, ch, sid, st, next, r);
      } else {
        RefusalElsewhere(w, w', tid, ch, sid, st, next, r);
      }
    } else {
      NotDriver(w, tid, sid, st);
      assert Alone(w.threads[tid]);
      assert w.threads[tid][0] in w.threads[tid];
      RefusalNew(w, w', tid, ch, sid, next, r);
    }
  }

  lemma AcceptKept(w: World, tid: nat, ch: Choice)
    requires Enabled(w, tid)
    ensures forall j :: j in Added(w, tid, ch) && j.Accept? ==> w.threads[tid][0].Accept?
  {
    var i := w.threads[tid][0];
    if Planned(i) {
      PlannedStep(w, tid, ch);
    } else if i.CloseEngine? {
      StopAllForeign(ch.order, 0);
    }
  }

  lemma EnderStep(w: World, w': World, tid: nat, ch: Choice, sid: nat, st: Story, next: Story)
    requires AllAlone(w) && Enabled(w, tid) && sid < |w.sess| && st.Story? && next.Story? && EnderIsThrough(w, st)
    requires Moved(w, w', tid, Added(w, tid, ch)) && StateStep(w, w', tid)
    requires next.ender == Ender(w, w', tid, sid, st.ender)
    ensures EnderIsThrough(w', next)
  {
    hide Added;
    AcceptKept(w, tid, ch);
    var head, rest := w.threads[tid][0], w.threads[tid][1..];
    assert Alone(w.threads[tid]) && head in w.threads[tid];
    RestHasNoEntry(w.threads[tid]);
    if st.ender == Some(tid) { assert !head.Accept?; }
    forall i | next.ender == Some(tid) && i in w'.threads[tid] ensures !i.Accept? {
      assert i in rest ==> !Entry(i);
    }
  }

  lemma ExecKeepsExplained(w: World, tid: nat, ch: Choice, sid: nat, st: Story)
    requires Sound(w) && AllAlone(w) && Enabled(w, tid) && sid < |w.sess| && Going(w, sid, st) && Explained(w, sid, st)
    ensures Explained(Exec(w, tid, ch), sid, Watch(w, Step(tid, ch), sid, st))
  {
    hide Sound, AllAlone, Going, Exec, Added, Noted, Warned, RefusalOk, Accused, Grows, Moved, StateStep, KeepsTokens;
    hide TraceStep;
    var w', next := Exec(w, tid, ch), Watch(w, Step(tid, ch), sid, st);
    GoingGives(w, sid, st);
    SoundStep(w, tid, ch);
    ExecStateStep(w, tid, ch);
    ExecKeepsTokens(w, tid, ch);
    NotesRefusal(w, tid, ch, sid, st);
    if Reports(st.job) {
      NotListing(w, tid, sid, st);
      StepKeepsWarned(w, tid, ch, sid);
    }
    forall r | r in next.refused ensures RefusalOk(w', sid, next, r) {
      RefusalStep(w, w', tid, ch, sid, st, next, r);
    }
    AccusedStep(w, w', tid, ch, sid, st, next);
    EnderStep(w, w', tid, ch, sid, st, next);
  }

  lemma BornExplained(w: World, tid: nat, ch: Choice, sid: nat)
    requires Sound(w) && AllAlone(w) && Enabled(w, tid) && sid == |w.sess|
    requires w.threads[tid][0].NewSession? && !w.closed
    ensures Explained(Exec(w, tid, ch), sid, Watch(w, Step(tid, ch), sid, Unborn))
  {
    hide Sound, Warned, StartCode;
    SoundGives(w);
    BornWarned(w, tid, ch, sid);
    var w' := Exec(w, tid, ch);
    forall t, i | 0 <= t < |w'.threads| && t != tid && i in w'.threads[t] ensures !FailsNow(i, sid) {
      assert i in w.threads[t] && SidOk(w, i);
    }
  }

  lemma IdleKeepsExplained(w: World, w': World, sid: nat, st: Story)
    requires Explained(w, sid, st) && Going(w, sid, st)
    requires w'.sess == w.sess && w'.trace == w.trace
    requires w'.threads == w.threads || exists cmd :: w'.threads == w.threads + [CommandCode(cmd)]
    ensures Explained(w', sid, st)
  {
    hide Going;
    if sid < |w.sess| && st.Story? {
      GoingGives(w, sid, st);
      forall t | 0 <= t < |w'.threads| && Reports(st.job) ensures WarnedIn(w', sid, w'.threads[t]) {
        if t < |w.threads| {
          assert WarnedIn(w, sid, w.threads[t]);
          forall k | 0 <= k < |w.threads[t]| ensures WarnedAt(w', sid, w.threads[t], k) {
            assert WarnedAt(w, sid, w.threads[t], k);
          }
        }
      }
      forall r | r in st.refused ensures RefusalOk(w', sid, st, r) { assert RefusalOk(w, sid, st, r); }
      forall t, i | 0 <= t < |w'.threads| && t != w.sess[sid].driver && i in w'.threads[t] && FailsNow(i, sid)
        ensures exists r :: r in st.refused && r.tid == t && r.text == i.detail
      {
        assert t < |w.threads| && i in w.threads[t];
      }
    }
  }

  lemma NeverBorn(w: World, l: Label, sid: nat)
    requires l.Step? && Enabled(w, l.tid) && sid >= |w.sess|
    requires !(w.threads[l.tid][0].NewSession? && !w.closed && sid == |w.sess|)
    ensures Explained(Next(w, l), sid, Watch(w, l, sid, Unborn))
  {
  }

  lemma NextKeepsExplained(w: World, l: Label, sid: nat, st: Story)
    requires Sound(w) && AllAlone(w) && Going(w, sid, st) && Explained(w, sid, st)
    ensures Explained(Next(w, l), sid, Watch(w, l, sid, st))
  {
    hide Sound, AllAlone, Exec, Explained;
    if l.Step? && Enabled(w, l.tid) {
      if sid < |w.sess| {
        ExecKeepsExplained(w, l.tid, l.ch, sid, st);
      } else if w.threads[l.tid][0].NewSession? && !w.closed && sid == |w.sess| {
        BornExplained(w, l.tid, l.ch, sid);
      } else {
        NeverBorn(w, l, sid);
      }
    } else {
      IdleKeepsExplained(w, Next(w, l), sid, st);
    }
  }

  lemma {:induction false} RunKeepsExplained(w: World, labels: seq<Label>, sid: nat, st: Story)
    requires Sound(w) && AllAlone(w) && Going(w, sid, st) && Explained(w, sid, st)
    ensures Explained(Run(w, labels), sid, StoryOf(w, labels, sid, st))
    decreases |labels|
  {
    if labels != [] {
      hide Sound, AllAlone, Going, Explained, Exec, Watch;
      NextKeepsSound(w, labels[0]);
      NextKeepsGoing(w, labels[0], sid, st);
      NextKeepsExplained(w, labels[0], sid, st);
      RunKeepsExplained(Next(w, labels[0]), labels[1..], sid, Watch(w, labels[0], sid, st));
    }
  }

  lemma RunIsExplained(labels: seq<Label>, sid: nat)
    ensures Explained(Run(INIT, labels), sid, StoryIn(labels, sid))
  {
    InitSound();
    RunKeepsExplained(INIT, labels, sid, Unborn);
  }
}
