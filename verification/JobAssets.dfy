/**
  What a job opens belongs to its session: every connection, client, share and listener is registered to be closed,
  the token of a server is the one its start gave, and a forward accepts connections on its listener.
 */
module JobAssets {
  import opened Events
  import opened Lifecycle
  import opened CloseOrder
  import opened Termination
  import opened Tokens
  import opened DriverOrder
  import opened Stories
  import opened Jobs

  // ---- what a job owns, read off its replies ----

  /** How many closers: client and connection of a transfer, client and listener of a forward, share and server. */
  function Owned(job: Job, calls: seq<Reply>): nat {
    match job
    case SendJob(_) => if calls != [] && calls[0].ok then 2 else 0
    case RecvJob(_) => if calls != [] && calls[0].ok then 2 else 0
    case ListJob => 0
    case ForwardJob(_) => 2
    case ServeJob =>
      (if |calls| >= 1 && calls[0].ok && calls[0].extra then 1 else 0) + (if |calls| >= 2 && calls[1].ok then 1 else 0)
  }

  /** The token: what the successful start of the server gave. */
  function TokenLed(job: Job, calls: seq<Reply>): string {
    if job.ServeJob? && |calls| == 2 && calls[1].ok then calls[1].text else ""
  }

  /** The closers ever registered with a session. */
  function Closers(duties: seq<Duty>, sid: nat): nat {
    if duties == [] then 0
    else Closers(duties[..|duties| - 1], sid) + if duties[|duties| - 1] == CloseDuty(sid) then 1 else 0
  }

  predicate Registers(i: Instr, sid: nat) {
    i == Register(sid) || i == RegisterListener(sid)
  }

  function ToRegister(code: seq<Instr>, sid: nat): nat
    decreases |code|
  {
    if code == [] then 0 else (if Registers(code[0], sid) then 1 else 0) + ToRegister(code[1..], sid)
  }

  ghost predicate Listens(w: World, sid: nat, st: Story, code: seq<Instr>)
    requires st.Story?
  {
    st.job.ForwardJob? && st.job.kind != Socks ==>
      || RegisterListener(sid) in code
      || (exists ln :: GoAccept(sid, ln) in code)
      || (exists t, ln :: 0 <= t < |w.threads| && Accept(sid, ln) in w.threads[t])
      || st.refused != []
  }

  ghost predicate Equipped(w: World, sid: nat, st: Story) {
    sid < |w.sess| && st.Story? && w.sess[sid].driver < |w.threads| ==>
      var code := w.threads[w.sess[sid].driver];
      && Closers(w.duties, sid) + ToRegister(code, sid) == Owned(st.job, st.calls)
      && (forall tok :: StoreToken(sid, tok) in code ==> tok == TokenLed(st.job, st.calls))
      && (w.sess[sid].f.token == TokenLed(st.job, st.calls) ||
          (w.sess[sid].f.token == "" && StoreToken(sid, TokenLed(st.job, st.calls)) in code))
      && Listens(w, sid, st, code)
      && forall p :: p in st.paths ==> p.Path? && p.sid == sid && (Sent(p) in w.trace || Emit(p) in code)
  }

  // ---- counting ----

  lemma {:induction false} ToRegisterAppend(a: seq<Instr>, b: seq<Instr>, sid: nat)
    ensures ToRegister(a + b, sid) == ToRegister(a, sid) + ToRegister(b, sid)
    decreases |a|
  {
    if a == [] {
      assert a + b == b;
    } else {
      assert (a + b)[1..] == a[1..] + b;
      ToRegisterAppend(a[1..], b, sid);
    }
  }

  lemma {:induction false} NoneToRegister(code: seq<Instr>, sid: nat)
    requires forall i :: i in code ==> !Registers(i, sid)
    ensures ToRegister(code, sid) == 0
    decreases |code|
  {
    if code != [] {
      assert code[0] in code;
      NoneToRegister(code[1..], sid);
    }
  }

  lemma OneMoreCloser(duties: seq<Duty>, d: Duty, sid: nat)
    ensures Closers(duties + [d], sid) == Closers(duties, sid) + if d == CloseDuty(sid) then 1 else 0
  {
    assert (duties + [d])[..|duties|] == duties;
  }

  lemma {:induction false} NoClosersYet(duties: seq<Duty>, sid: nat)
    requires forall k :: 0 <= k < |duties| ==> duties[k] != CloseDuty(sid)
    ensures Closers(duties, sid) == 0
  {
    if duties != [] { NoClosersYet(duties[..|duties| - 1], sid); }
  }

  /** At most one duty is created: a closer by a registration, a push by a transition. */
  ghost predicate DutyStep(w: World, w': World, head: Instr) {
    || (w'.duties == w.duties && forall s :: !Registers(head, s))
    || (exists s, body :: w'.duties == w.duties + [PushDuty(s, body)] && forall s' :: !Registers(head, s'))
    || (exists s :: w'.duties == w.duties + [CloseDuty(s)] && Registers(head, s))
  }

  lemma RegisterDuty(w: World, tid: nat, rest: seq<Instr>, sid: nat)
    requires tid < |w.threads| && sid < |w.sess|
    ensures ExecRegister(w, tid, rest, sid).duties == w.duties + [CloseDuty(sid)]
  {
  }

  lemma ExecDutyStep(w: World, tid: nat, ch: Choice)
    requires Enabled(w, tid)
    ensures DutyStep(w, Exec(w, tid, ch), w.threads[tid][0])
  {
    hide Plan, StartCode, StopAll, PushTo, Listing, KindOf, ExecRegister;
    var i, w' := w.threads[tid][0], Exec(w, tid, ch);
    if i.Register? {
      RegisterDuty(w, tid, w.threads[tid][1..], i.sid);
      assert Registers(i, i.sid);
    } else if i.RegisterListener? {
      RegisterDuty(w, tid, [GoAccept(i.sid, |w.duties|)] + w.threads[tid][1..], i.sid);
      assert Registers(i, i.sid);
    }
  }

  lemma ClosersStep(w: World, w': World, head: Instr, sid: nat)
    requires DutyStep(w, w', head)
    ensures Closers(w'.duties, sid) == Closers(w.duties, sid) + if Registers(head, sid) then 1 else 0
  {
    if w'.duties != w.duties {
      OneMoreCloser(w.duties, w'.duties[|w.duties|], sid);
    }
  }

  // ---- the code a step adds ----

  lemma AddedRegistersNone(w: World, tid: nat, ch: Choice, sid: nat, st: Story)
    requires Enabled(w, tid) && st.Story? && Fits(st, sid, w.threads[tid][0], w.threads[tid][1..])
    requires !Blocking(w.threads[tid][0])
    ensures forall j :: j in Added(w, tid, ch) ==> !Registers(j, sid) && !j.StoreToken?
  {
  }

  lemma {:induction false} RegistersFirst(code: seq<Instr>, n: nat, sid: nat)
    requires n <= |code| && (forall k :: 0 <= k < n ==> Registers(code[k], sid))
    requires forall i :: i in code[n..] ==> !Registers(i, sid)
    ensures ToRegister(code, sid) == n
    decreases n
  {
    if n == 0 {
      assert code[0..] == code;
      NoneToRegister(code, sid);
    } else {
      assert code[1..][n - 1..] == code[n..];
      RegistersFirst(code[1..], n - 1, sid);
    }
  }

  lemma OpenRegisters(w: World, i: Instr, ch: Choice, sid: nat)
    requires i.OpenShare? && i.sid == sid
    ensures ToRegister(Plan(w, i, ch), sid) == if ch.ok then 2 else 0
  {
    RegistersFirst(Plan(w, i, ch), if ch.ok then 2 else 0, sid);
  }

  lemma SetupRegisters(w: World, i: Instr, ch: Choice, sid: nat)
    requires i == ServerSetup(sid)
    ensures ToRegister(Plan(w, i, ch), sid) == if ch.ok && ch.other then 1 else 0
  {
    RegistersFirst(Plan(w, i, ch), if ch.ok && ch.other then 1 else 0, sid);
  }

  lemma StartRegisters(w: World, i: Instr, ch: Choice, sid: nat)
    requires i == ServerStart(sid)
    ensures ToRegister(Plan(w, i, ch), sid) == if ch.ok then 1 else 0
  {
    RegistersFirst(Plan(w, i, ch), if ch.ok then 1 else 0, sid);
  }

  lemma RestRegisterNone(w: World, i: Instr, ch: Choice, sid: nat)
    requires i.Transfer? || i.ListDir? || i.WarmUp? || i.Probe?
    ensures ToRegister(Plan(w, i, ch), sid) == 0
  {
    NoneToRegister(Plan(w, i, ch), sid);
  }

  /** A call adds exactly the registrations of what it opened. */
  lemma PlanRegisters(w: World, i: Instr, ch: Choice, sid: nat, st: Story)
    requires st.Story? && InOrder(st) && Blocking(i) && Fits(st, sid, i, [])
    ensures var next := Answered(w, i, ch, sid, st);
      Owned(next.job, next.calls) == Owned(st.job, st.calls) + ToRegister(Plan(w, i, ch), sid)
  {
    hide Plan, ToRegister, Led, ContextDone;
    match i {
      case OpenShare(_, _, _, _) => OpenRegisters(w, i, ch, sid);
      case ServerSetup(_) => SetupRegisters(w, i, ch, sid);
      case ServerStart(_) => StartRegisters(w, i, ch, sid);
      case _ => RestRegisterNone(w, i, ch, sid);
    }
  }

  lemma PlanStores(w: World, i: Instr, ch: Choice, sid: nat, st: Story)
    requires st.Story? && InOrder(st) && Blocking(i) && Fits(st, sid, i, [])
    ensures var next := Answered(w, i, ch, sid, st);
      && (forall tok :: StoreToken(sid, tok) in Plan(w, i, ch) ==> tok == TokenLed(next.job, next.calls))
      && (TokenLed(next.job, next.calls) == TokenLed(st.job, st.calls) ||
          (TokenLed(st.job, st.calls) == "" && StoreToken(sid, TokenLed(next.job, next.calls)) in Plan(w, i, ch)))
  {
    var code := Plan(w, i, ch);
    if i.ServerStart? && ch.ok { assert code[1] in code; }
  }

  // ---- steps ----

  lemma GoAcceptStarts(w: World, tid: nat, ch: Choice)
    requires Enabled(w, tid) && w.threads[tid][0].GoAccept?
    ensures var w', i := Exec(w, tid, ch), w.threads[tid][0];
      |w'.threads| == |w.threads| + 1 && w'.threads[|w.threads|] == [Accept(i.sid, i.ln)]
  {
  }

  lemma AcceptStays(w: World, tid: nat, ch: Choice)
    requires Enabled(w, tid) && w.threads[tid][0].Accept? && ch.ok
    ensures Added(w, tid, ch) == [w.threads[tid][0]]
  {
  }

  lemma ListenerAccepts(w: World, tid: nat, ch: Choice)
    requires Enabled(w, tid) && w.threads[tid][0].RegisterListener?
    ensures GoAccept(w.threads[tid][0].sid, |w.duties|) in Added(w, tid, ch)
  {
  }

  /** Somebody accepts the connections of the session. */
  ghost predicate Accepting(w: World, sid: nat) {
    exists t, ln :: 0 <= t < |w.threads| && Accept(sid, ln) in w.threads[t]
  }

  lemma AcceptingStep(w: World, w': World, tid: nat, ch: Choice, sid: nat, st: Story)
    requires Enabled(w, tid) && st.Story? && Accepting(w, sid) && Moved(w, w', tid, Added(w, tid, ch))
    ensures Accepting(w', sid) || Noted(w, tid, ch, sid, st).refused != []
  {
    hide Added, Moved;
    var t, ln :| 0 <= t < |w.threads| && Accept(sid, ln) in w.threads[t];
    var i, head := Accept(sid, ln), w.threads[tid][0];
    if t != tid {
      OtherThreads(w, w', tid, Added(w, tid, ch), t);
      assert i in w'.threads[t];
    } else {
      MovedHead(w, w', tid, Added(w, tid, ch));
      if head != i {
        assert w.threads[tid] == [head] + w.threads[tid][1..];
        assert i in w'.threads[tid];
      } else if ch.ok {
        AcceptStays(w, tid, ch);
        assert i in w'.threads[tid];
      }
    }
  }

  lemma StoryKept(w: World, tid: nat, ch: Choice, sid: nat, st: Story)
    requires Enabled(w, tid) && st.Story?
    ensures var next := Watch(w, Step(tid, ch), sid, st);
      && next.Story? && next.job == st.job && next.calls == Noted(w, tid, ch, sid, st).calls
      && next.paths == Noted(w, tid, ch, sid, st).paths
      && next.refused == Noted(w, tid, ch, sid, st).refused
      && (st.refused != [] ==> next.refused != [])
  {
    hide Exec;
  }

  lemma OwnListens(w: World, tid: nat, ch: Choice, sid: nat, st: Story)
    requires Sound(w) && Enabled(w, tid) && sid < |w.sess| && Going(w, sid, st) && w.sess[sid].driver == tid
    requires RegisterListener(sid) in w.threads[tid] || exists ln :: GoAccept(sid, ln) in w.threads[tid]
    ensures var w', all := Exec(w, tid, ch), Added(w, tid, ch) + w.threads[tid][1..];
      RegisterListener(sid) in all || (exists ln :: GoAccept(sid, ln) in all) || Accepting(w', sid)
  {
    hide Sound, Going, Exec, Added;
    var head, rest, w' := w.threads[tid][0], w.threads[tid][1..], Exec(w, tid, ch);
    assert w.threads[tid] == [head] + rest;
    if head == RegisterListener(sid) {
      ListenerAccepts(w, tid, ch);
    } else if head.GoAccept? && head.sid == sid {
      GoAcceptStarts(w, tid, ch);
      assert Accept(sid, head.ln) in w'.threads[|w.threads|];
    }
  }

  lemma ListensStep(w: World, tid: nat, ch: Choice, sid: nat, st: Story)
    requires Sound(w) && Enabled(w, tid) && sid < |w.sess| && Going(w, sid, st)
    requires Listens(w, sid, st, w.threads[w.sess[sid].driver])
    ensures var w', next := Exec(w, tid, ch), Watch(w, Step(tid, ch), sid, st);
      w.sess[sid].driver < |w'.threads| && Listens(w', sid, next, w'.threads[w.sess[sid].driver])
  {
    hide Sound, Going, Exec, Added, Moved, Grows, Noted;
    var w', next := Exec(w, tid, ch), Watch(w, Step(tid, ch), sid, st);
    var driver, code := w.sess[sid].driver, Added(w, tid, ch);
    GoingGives(w, sid, st);
    SoundStep(w, tid, ch);
    StoryKept(w, tid, ch, sid, st);
    if Accepting(w, sid) { AcceptingStep(w, w', tid, ch, sid, st); }
    if driver != tid {
      OtherThreads(w, w', tid, code, driver);
    } else {
      MovedHead(w, w', tid, code);
      if RegisterListener(sid) in w.threads[tid] || exists ln :: GoAccept(sid, ln) in w.threads[tid] {
        OwnListens(w, tid, ch, sid, st);
      }
    }
  }

  lemma TraceGrows(w: World, w': World, head: Instr)
    requires TraceStep(w, w', head)
    ensures forall e :: e in w.trace ==> e in w'.trace
  {
  }

  lemma TokenKept(w: World, w': World, tid: nat, sid: nat)
    requires tid < |w.threads| && w.threads[tid] != [] && KeepsTokens(w, w', tid) && sid < |w.sess|
    ensures var head := w.threads[tid][0];
      sid < |w'.sess| &&
      w'.sess[sid].f.token == if head.StoreToken? && head.sid == sid then head.token else w.sess[sid].f.token
  {
  }

  lemma OtherEquipped(w: World, tid: nat, ch: Choice, sid: nat, st: Story)
    requires Sound(w) && Enabled(w, tid) && sid < |w.sess| && Going(w, sid, st) && Equipped(w, sid, st)
    requires w.sess[sid].driver != tid
    ensures Equipped(Exec(w, tid, ch), sid, Watch(w, Step(tid, ch), sid, st))
  {
    hide Sound, Exec, Added, Moved, Grows, Watch, Listens, KeepsTokens, AllFit, InOrder, Course, Fits, Noted;
    hide Owned, TokenLed, ToRegister, Closers, DutyStep;
    var w', head := Exec(w, tid, ch), w.threads[tid][0];
    SoundStep(w, tid, ch);
    ExecDutyStep(w, tid, ch);
    ExecKeepsTokens(w, tid, ch);
    HeadForeign(w, tid, sid);
    ClosersStep(w, w', head, sid);
    OtherThreads(w, w', tid, Added(w, tid, ch), w.sess[sid].driver);
    ForeignNotes(w, tid, ch, sid, st);
    StoryKept(w, tid, ch, sid, st);
    ListensStep(w, tid, ch, sid, st);
    TokenKept(w, w', tid, sid);
    assert forall e :: e in w.trace ==> e in w'.trace by { TraceGrows(w, w', head); }
  }

  /** What was to be told is told, or still is to be. */
  lemma TellStep(w: World, w': World, tid: nat, code: seq<Instr>, p: Body)
    requires tid < |w.threads| && w.threads[tid] != [] && TraceStep(w, w', w.threads[tid][0])
    requires Sent(p) in w.trace || Emit(p) in w.threads[tid]
    ensures Sent(p) in w'.trace || Emit(p) in code + w.threads[tid][1..]
  {
    assert forall e :: e in w.trace ==> e in w'.trace;
    if Emit(p) in w.threads[tid] && Emit(p) != w.threads[tid][0] {
      assert w.threads[tid] == [w.threads[tid][0]] + w.threads[tid][1..];
    }
  }

  lemma FoundIsAdded(w: World, i: Instr, sid: nat, ch: Choice)
    ensures forall p :: p in Found(w, i, sid, ch) ==> p.Path? && p.sid == sid && Emit(p) in Plan(w, i, ch)
  {
    if i == WarmUp(sid) && ch.ok {
      assert Plan(w, i, ch)[1] in Plan(w, i, ch);
    } else if i == Probe(sid) && ch.other && (ch.ok || !ContextDone(w, sid)) {
      assert Plan(w, i, ch)[0] in Plan(w, i, ch);
    }
  }

  lemma CallEquipped(w: World, tid: nat, ch: Choice, sid: nat, st: Story)
    requires Sound(w) && Enabled(w, tid) && sid < |w.sess| && Going(w, sid, st) && Equipped(w, sid, st)
    requires w.sess[sid].driver == tid && Blocking(w.threads[tid][0])
    ensures Equipped(Exec(w, tid, ch), sid, Watch(w, Step(tid, ch), sid, st))
  {
    hide Sound, Exec, Added, Moved, Grows, Watch, Listens, KeepsTokens, AllFit, InOrder, Course, Fits, Plan, Noted;
    hide Owned, TokenLed;
    var w', i := Exec(w, tid, ch), w.threads[tid][0];
    HeadFits(st, sid, w.threads[tid]);
    SoundStep(w, tid, ch);
    ExecDutyStep(w, tid, ch);
    ExecKeepsTokens(w, tid, ch);
    ClosersStep(w, w', i, sid);
    PlannedStep(w, tid, ch);
    assert w'.threads[tid] == Plan(w, i, ch) + [] == Plan(w, i, ch);
    NotedIs(w, tid, ch, sid, st);
    StoryKept(w, tid, ch, sid, st);
    ListensStep(w, tid, ch, sid, st);
    PlanRegisters(w, i, ch, sid, st);
    PlanStores(w, i, ch, sid, st);
    TokenKept(w, w', tid, sid);
    NoneToRegister(w.threads[tid], sid);
    FoundIsAdded(w, i, sid, ch);
    forall p | p in st.paths ensures Sent(p) in w'.trace || Emit(p) in w'.threads[tid] {
      TellStep(w, w', tid, Plan(w, i, ch), p);
    }
  }

  lemma QuietAnswer(w: World, i: Instr, ch: Choice, sid: nat, st: Story)
    requires st.Story? && !Blocking(i)
    ensures Answered(w, i, ch, sid, st).calls == st.calls && Answered(w, i, ch, sid, st).paths == st.paths
  {
  }

  lemma OwnEquipped(w: World, tid: nat, ch: Choice, sid: nat, st: Story)
    requires Sound(w) && Enabled(w, tid) && sid < |w.sess| && Going(w, sid, st) && Equipped(w, sid, st)
    requires w.sess[sid].driver == tid && !Blocking(w.threads[tid][0])
    ensures Equipped(Exec(w, tid, ch), sid, Watch(w, Step(tid, ch), sid, st))
  {
    hide Sound, Exec, Added, Moved, Grows, Watch, Listens, KeepsTokens, AllFit, InOrder, Course, Fits, Noted;
    hide Owned, TokenLed;
    var w', i, rest, code := Exec(w, tid, ch), w.threads[tid][0], w.threads[tid][1..], Added(w, tid, ch);
    HeadFits(st, sid, w.threads[tid]);
    SoundStep(w, tid, ch);
    ExecDutyStep(w, tid, ch);
    ExecKeepsTokens(w, tid, ch);
    ClosersStep(w, w', i, sid);
    MovedHead(w, w', tid, code);
    NotedIs(w, tid, ch, sid, st);
    QuietAnswer(w, i, ch, sid, st);
    StoryKept(w, tid, ch, sid, st);
    ListensStep(w, tid, ch, sid, st);
    AddedRegistersNone(w, tid, ch, sid, st);
    NoneToRegister(code, sid);
    ToRegisterAppend(code, rest, sid);
    assert w.threads[tid] == [i] + rest;
    TokenKept(w, w', tid, sid);
    forall tok | StoreToken(sid, tok) in w'.threads[tid] ensures tok == TokenLed(st.job, st.calls) {
      assert StoreToken(sid, tok) in rest;
    }
    forall p | p in st.paths ensures Sent(p) in w'.trace || Emit(p) in w'.threads[tid] {
      TellStep(w, w', tid, code, p);
    }
  }

  lemma CodeRegisters(sid: nat, job: Job)
    ensures var code := StartCode(sid, job);
      && ToRegister(code, sid) == Owned(job, []) && (forall tok :: StoreToken(sid, tok) !in code)
      && (job.ForwardJob? && job.kind != Socks ==> RegisterListener(sid) in code)
  {
    var code := StartCode(sid, job);
    RegistersFirst(code, if job.ForwardJob? then 2 else 0, sid);
    if job.ForwardJob? { assert code[1] in code; }
  }

  lemma NoneRegistered(w: World, sid: nat)
    requires Ordered(w) && sid >= |w.sess|
    ensures Closers(w.duties, sid) == 0
  {
    forall k | 0 <= k < |w.duties| ensures w.duties[k] != CloseDuty(sid) { assert HeldOpen(w, k); }
    NoClosersYet(w.duties, sid);
  }

  lemma BornEquipped(w: World, tid: nat, ch: Choice, sid: nat)
    requires Sound(w) && Ordered(w) && AllAlone(w) && Enabled(w, tid) && sid == |w.sess|
    requires w.threads[tid][0].NewSession? && !w.closed
    ensures Equipped(Exec(w, tid, ch), sid, Watch(w, Step(tid, ch), sid, Unborn))
  {
    hide Sound, Ordered, StartCode, ToRegister, Closers, Owned;
    var i, w' := w.threads[tid][0], Exec(w, tid, ch);
    assert i in w.threads[tid] && Alone(w.threads[tid]);
    NoneRegistered(w, sid);
    CodeRegisters(sid, i.job);
    assert w'.threads[tid] == StartCode(sid, i.job) + [] == StartCode(sid, i.job);
  }

  lemma NotEquipped(w: World, tid: nat, ch: Choice, sid: nat)
    requires Enabled(w, tid) && sid >= |w.sess|
    requires !(w.threads[tid][0].NewSession? && !w.closed && sid == |w.sess|)
    ensures Equipped(Exec(w, tid, ch), sid, Watch(w, Step(tid, ch), sid, Unborn))
  {
    hide Exec;
  }

  lemma ExecKeepsEquipped(w: World, tid: nat, ch: Choice, sid: nat, st: Story)
    requires Sound(w) && Ordered(w) && AllAlone(w) && Enabled(w, tid) && Going(w, sid, st) && Equipped(w, sid, st)
    ensures Equipped(Exec(w, tid, ch), sid, Watch(w, Step(tid, ch), sid, st))
  {
    hide Sound, Ordered, AllAlone, Exec, Equipped;
    if sid < |w.sess| {
      if w.sess[sid].driver != tid {
        OtherEquipped(w, tid, ch, sid, st);
      } else if Blocking(w.threads[tid][0]) {
        CallEquipped(w, tid, ch, sid, st);
      } else {
        OwnEquipped(w, tid, ch, sid, st);
      }
    } else if w.threads[tid][0].NewSession? && !w.closed && sid == |w.sess| {
      BornEquipped(w, tid, ch, sid);
    } else {
      NotEquipped(w, tid, ch, sid);
    }
  }

  lemma IdleEquipped(w: World, w': World, sid: nat, st: Story)
    requires Equipped(w, sid, st) && Going(w, sid, st)
    requires w'.sess == w.sess && w'.duties == w.duties && w'.trace == w.trace
    requires w'.threads == w.threads || exists cmd :: w'.threads == w.threads + [CommandCode(cmd)]
    ensures Equipped(w', sid, st)
  {
    hide Going;
    if sid < |w.sess| {
      GoingGives(w, sid, st);
      if t, ln :| 0 <= t < |w.threads| && Accept(sid, ln) in w.threads[t] {
        assert Accept(sid, ln) in w'.threads[t];
      }
    }
  }

  lemma NextKeepsBoth(w: World, l: Label)
    requires Sound(w) && Ordered(w)
    ensures Sound(Next(w, l)) && Ordered(Next(w, l))
  {
    NextKeepsSound(w, l);
    NextKeepsOrdered(w, l);
  }

  lemma {:induction false} RunKeepsEquipped(w: World, labels: seq<Label>, sid: nat, st: Story)
    requires Sound(w) && Ordered(w) && AllAlone(w) && Going(w, sid, st) && Equipped(w, sid, st)
    ensures Equipped(Run(w, labels), sid, StoryOf(w, labels, sid, st))
    decreases |labels|
  {
    if labels != [] {
      hide Sound, Ordered, AllAlone, Going, Equipped, Exec;
      var l := labels[0];
      NextKeepsBoth(w, l);
      NextKeepsGoing(w, l, sid, st);
      if l.Step? && Enabled(w, l.tid) {
        ExecKeepsEquipped(w, l.tid, l.ch, sid, st);
      } else {
        IdleEquipped(w, Next(w, l), sid, st);
      }
      RunKeepsEquipped(Next(w, l), labels[1..], sid, Watch(w, l, sid, st));
    }
  }

  lemma RunIsEquipped(labels: seq<Label>, sid: nat)
    ensures Equipped(Run(INIT, labels), sid, StoryIn(labels, sid))
    ensures Going(Run(INIT, labels), sid, StoryIn(labels, sid))
  {
    InitSound();
    RunKeepsEquipped(INIT, labels, sid, Unborn);
    RunGoes(labels, sid);
  }

  // ---- the results ----

  lemma AllRegistered(st: Story, sid: nat, code: seq<Instr>)
    requires st.Story? && (code == [] || (Blocking(code[0]) && AllFit(st, sid, code)))
    ensures ToRegister(code, sid) == 0 && forall tok :: StoreToken(sid, tok) !in code
    ensures forall p :: Emit(p) !in code
    ensures forall ln :: GoAccept(sid, ln) !in code
    ensures RegisterListener(sid) !in code
  {
    if code != [] { assert code[1..] == []; }
  }

  /**
    When the goroutine of a job waits in a call or has returned, exactly what its calls opened is registered with the
    session. By EachDutyOnce each of these is closed exactly once after the session is over.
   */
  lemma WhatIsOpenedIsOwned(labels: seq<Label>, sid: nat)
    requires sid < |Run(INIT, labels).sess| && Run(INIT, labels).sess[sid].driver < |Run(INIT, labels).threads|
    requires var code := Run(INIT, labels).threads[Run(INIT, labels).sess[sid].driver]; code == [] || Blocking(code[0])
    ensures var w, st := Run(INIT, labels), StoryIn(labels, sid);
      && st.Story? && Closers(w.duties, sid) == Owned(st.job, st.calls)
      && w.sess[sid].f.token == TokenLed(st.job, st.calls)
      && (st.job.ForwardJob? && st.job.kind != Socks ==> Accepting(w, sid) || st.refused != [])
  {
    RunIsEquipped(labels, sid);
    var w, st := Run(INIT, labels), StoryIn(labels, sid);
    AllRegistered(st, sid, w.threads[w.sess[sid].driver]);
  }

  /** And every path its warm-up or its probe found worth reporting has been pushed, as it was found. */
  lemma PathsAreTold(labels: seq<Label>, sid: nat)
    requires sid < |Run(INIT, labels).sess| && Run(INIT, labels).sess[sid].driver < |Run(INIT, labels).threads|
    requires var code := Run(INIT, labels).threads[Run(INIT, labels).sess[sid].driver]; code == [] || Blocking(code[0])
    ensures StoryIn(labels, sid).Story?
    ensures forall p :: p in StoryIn(labels, sid).paths ==> Sent(p) in Run(INIT, labels).trace
  {
    RunIsEquipped(labels, sid);
    var w, st := Run(INIT, labels), StoryIn(labels, sid);
    AllRegistered(st, sid, w.threads[w.sess[sid].driver]);
  }
}
