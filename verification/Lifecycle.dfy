/**
  core/engine/engine.go, session.go, files.go, forward.go, server.go: every goroutine of the engine as one
  transition system. A thread is the list of instructions it still has to run; one step runs the first
  instruction of one thread. Each lock-protected region, each Close call and each Push is one instruction,
  so a run of labels is an arbitrary interleaving of arbitrarily many threads.
 */
module Lifecycle {
  import opened Common
  import opened Events
  import opened Sessions

  /** Work that a lock-protected region leaves to be done after the lock is released. */
  datatype Duty = CloseDuty(sid: nat) | PushDuty(sid: nat, body: Body)

  /** Where a duty is: kept by a session, waiting in a thread with `left` instructions to go, or done. */
  datatype Place = Held(sid: nat, idx: nat) | Pending(tid: nat, left: nat) | Logged(at: nat)

  /** Effects outside the locks, in the order they happen. */
  datatype Effect = Did(duty: nat) | Sent(body: Body)

  datatype Job = SendJob(n: nat) | RecvJob(n: nat) | ListJob | ForwardJob(kind: Kind) | ServeJob

  datatype Instr =
    // single steps of session.go and engine.go
    | ApplyState(sid: nat, st: State, detail: string)
    | Do(duty: nat)
    | Emit(body: Body)
    | StoreToken(sid: nat, token: string)
    | Cancel(sid: nat)
    | TakeBatch(sid: nat)
    | Register(sid: nat)
    | RegisterListener(sid: nat)
    | GoAccept(sid: nat, ln: nat)
    | Lookup(sid: nat)
    | NewSession(job: Job)
    | CloseEngine
    | CancelEngine
    // calls whose outcome the network decides
    | OpenShare(sid: nat, verb: string, finished: string, n: nat)
    | Transfer(sid: nat, finished: string, n: nat)
    | ListDir(sid: nat)
    | WarmUp(sid: nat)
    | Probe(sid: nat)
    | Accept(sid: nat, ln: nat)
    | ServerSetup(sid: nat)
    | ServerStart(sid: nat)

  /** `moves` are the duties to push its state events; `cut` counts the duties created before its shutdown. */
  datatype Sess = Sess(f: Fields, moves: seq<nat>, driver: nat, cut: nat)

  /** What the UI process did: received an event from a poll, or dismissed a finished session. */
  datatype UiAct = Deliver(ev: Event) | Dismiss(sid: nat)

  datatype World = World(
    closed: bool, cancelled: bool, sess: seq<Sess>, threads: seq<seq<Instr>>,
    duties: seq<Duty>, place: seq<Place>, trace: seq<Effect>,
    queue: Queue, lost: nat, ui: seq<UiAct>)

  const INIT: World := World(false, false, [], [], [], [], [], EMPTY, 0, [])

  /** How the outside world resolves one step: success, texts, kind of path and peers, map iteration order, time. */
  datatype Choice = Choice(ok: bool, other: bool, text: string, via: string, peers: Option<nat>, order: seq<nat>,
                           now: int)

  datatype Command = StopCmd(sid: nat) | CloseCmd | StartCmd(job: Job) | SayCmd(body: Body)

  datatype Label = Step(tid: nat, ch: Choice) | Call(cmd: Command) | Poll(now: int) | DismissIt(sid: nat)

  // ---- the routines of the source as instruction lists ----

  function Stop(sid: nat): seq<Instr> {
    [ApplyState(sid, Stopped, ""), Cancel(sid), TakeBatch(sid)]
  }

  function Fail(sid: nat, msg: string): seq<Instr> {
    [Emit(Error(sid, msg)), ApplyState(sid, Failed, msg), Cancel(sid), TakeBatch(sid)]
  }

  function Finish(sid: nat, detail: string): seq<Instr> {
    [ApplyState(sid, Done, detail), Cancel(sid), TakeBatch(sid)]
  }

  function StopAll(order: seq<nat>): seq<Instr> {
    if order == [] then [] else Stop(order[0]) + StopAll(order[1..])
  }

  function KindOf(job: Job): Kind {
    match job
    case SendJob(_) => Send
    case RecvJob(_) => Recv
    case ListJob => Recv
    case ForwardJob(k) => k
    case ServeJob => Server
  }

  /** What the starting command runs once the session is registered, up to and including its goroutine. */
  function StartCode(sid: nat, job: Job): seq<Instr> {
    match job
    case SendJob(n) => [ApplyState(sid, Starting, "connecting"), OpenShare(sid, "uploading", "uploaded", n)]
    case RecvJob(n) => [ApplyState(sid, Starting, "connecting"), OpenShare(sid, "downloading", "downloaded", n)]
    case ListJob => [ListDir(sid)]
    case ForwardJob(k) =>
      [Register(sid), if k == Socks then Register(sid) else RegisterListener(sid),
       ApplyState(sid, Starting, "connecting"), WarmUp(sid)]
    case ServeJob => [ServerSetup(sid)]
  }

  function CommandCode(cmd: Command): seq<Instr> {
    match cmd
    case StopCmd(sid) => [Lookup(sid)]
    case CloseCmd => [CloseEngine]
    case StartCmd(job) => [NewSession(job)]
    case SayCmd(body) => if body.SessionState? || body.TokenReady? then [] else [Emit(body)]
  }

  /** A session's context is cancelled by its own shutdown or by the engine's parent context. */
  predicate ContextDone(w: World, sid: nat) {
    w.cancelled || (sid < |w.sess| && w.sess[sid].f.cancelled)
  }

  predicate IsClosed(w: World, duty: nat) {
    Did(duty) in w.trace
  }

  /** The instructions that replace one whose outcome is decided outside the session. */
  function Plan(w: World, i: Instr, ch: Choice): seq<Instr> {
    match i
    case OpenShare(sid, verb, finished, n) =>
      if ch.ok then [Register(sid), Register(sid), ApplyState(sid, Running, verb), Transfer(sid, finished, n)]
      else Fail(sid, ch.text)
    case Transfer(sid, finished, n) =>
      if ch.other then [Emit(Progress(sid, ch.text, 0, 0, false)), Transfer(sid, finished, n)]
      else if n == 0 then Finish(sid, finished)
      else if ch.ok then [Transfer(sid, finished, n - 1)]
      else if ContextDone(w, sid) then []
      else Fail(sid, ch.text)
    case ListDir(sid) =>
      if ch.ok then Finish(sid, "")
      else [ApplyState(sid, Failed, ch.text), Cancel(sid), TakeBatch(sid)]
    case WarmUp(sid) =>
      if ch.ok then [ApplyState(sid, Running, "connected via " + ch.text), Emit(Path(sid, ch.via, ch.text, None)),
                     Probe(sid)]
      else if ContextDone(w, sid) then []
      else Fail(sid, ch.text)
    case Probe(sid) =>
      if ContextDone(w, sid) && !ch.ok then []
      else if ch.other then [Emit(Path(sid, ch.via, ch.text, ch.peers)), Probe(sid)]
      else [Probe(sid)]
    case Accept(sid, ln) =>
      if ch.ok then [Accept(sid, ln)]
      else if ContextDone(w, sid) || (ch.other && IsClosed(w, ln)) then []
      else Fail(sid, ch.text)
    case ServerSetup(sid) =>
      if !ch.ok then Fail(sid, ch.text)
      else (if ch.other then [Register(sid)] else []) + [ApplyState(sid, Starting, "selecting relay"), ServerStart(sid)]
    case ServerStart(sid) =>
      if ch.ok then [Register(sid), StoreToken(sid, ch.text), ApplyState(sid, Running, "listening"), Probe(sid)]
      else Fail(sid, ch.text)
    case Lookup(sid) => if sid < |w.sess| then Stop(sid) else []
    case _ => []
  }

  // ---- the steps ----

  function Goto(w: World, tid: nat, code: seq<Instr>): World
    requires tid < |w.threads|
  {
    w.(threads := w.threads[tid := code])
  }

  /** A push into the shared event queue. */
  function Push(w: World, body: Body, now: int): World {
    var q := PushTo(w.queue, Event(body, Some(now)));
    w.(queue := q, lost := if q.dropped > w.queue.dropped then w.lost + q.dropped - w.queue.dropped else w.lost)
  }

  function ExecApply(w: World, tid: nat, rest: seq<Instr>, sid: nat, st: State, detail: string): World
    requires tid < |w.threads| && sid < |w.sess|
  {
    var s := w.sess[sid];
    var f := SetStateLocked(s.f, st, detail);
    if !Moves(s.f, st, detail) then Goto(w, tid, rest)
    else
      var d := |w.duties|;
      Goto(w, tid, [Do(d)] + rest).(
        sess := w.sess[sid := s.(f := f, moves := s.moves + [d])],
        duties := w.duties + [PushDuty(sid, StateBody(sid, f))],
        place := w.place + [Pending(tid, |rest| + 1)])
  }

  function ExecDo(w: World, tid: nat, rest: seq<Instr>, d: nat, now: int): World
    requires tid < |w.threads| && d < |w.duties| && d < |w.place|
  {
    var w1 := Goto(w, tid, rest).(trace := w.trace + [Did(d)], place := w.place[d := Logged(|w.trace|)]);
    if w.duties[d].PushDuty? then Push(w1, w.duties[d].body, now) else w1
  }

  function ExecEmit(w: World, tid: nat, rest: seq<Instr>, body: Body, now: int): World
    requires tid < |w.threads|
  {
    Push(Goto(w, tid, rest).(trace := w.trace + [Sent(body)]), body, now)
  }

  function ExecRegister(w: World, tid: nat, rest: seq<Instr>, sid: nat): World
    requires tid < |w.threads| && sid < |w.sess|
  {
    var s, d := w.sess[sid], |w.duties|;
    var w1 := w.(sess := w.sess[sid := s.(f := AddCloserLocked(s.f, d))], duties := w.duties + [CloseDuty(sid)]);
    if s.f.closed then Goto(w1, tid, [Do(d)] + rest).(place := w.place + [Pending(tid, |rest| + 1)])
    else Goto(w1, tid, rest).(place := w.place + [Held(sid, |s.f.closers|)])
  }

  function Closes(batch: seq<nat>): seq<Instr> {
    seq(|batch|, i requires 0 <= i < |batch| => Do(Reverse(batch)[i]))
  }

  function Handed(p: Place, sid: nat, tid: nat, after: nat): Place {
    if p.Held? && p.sid == sid then Pending(tid, after + 1 + p.idx) else p
  }

  function ExecTakeBatch(w: World, tid: nat, rest: seq<Instr>, sid: nat): World
    requires tid < |w.threads| && sid < |w.sess|
  {
    var s := w.sess[sid];
    if s.f.closed then Goto(w, tid, rest)
    else
      var (f, batch) := ShutdownLocked(s.f);
      Goto(w, tid, Closes(batch) + rest).(
        sess := w.sess[sid := s.(f := f, cut := |w.duties|)],
        place := seq(|w.place|, d requires 0 <= d < |w.place| => Handed(w.place[d], sid, tid, |rest|)))
  }

  function ExecNewSession(w: World, tid: nat, rest: seq<Instr>, job: Job): World
    requires tid < |w.threads|
  {
    if w.closed then Goto(w, tid, rest)
    else Goto(w, tid, StartCode(|w.sess|, job) + rest).(
           sess := w.sess + [Sess(NewFields(KindOf(job)), [], tid, 0)])
  }

  /** The order in which Close meets the sessions is the map's, so it is any order that misses none. */
  predicate Listing(order: seq<nat>, n: nat) {
    && (forall i :: 0 <= i < |order| ==> order[i] < n)
    && (forall s :: 0 <= s < n ==> s in order)
  }

  function ExecCloseEngine(w: World, tid: nat, rest: seq<Instr>, order: seq<nat>): World
    requires tid < |w.threads|
  {
    if Listing(order, |w.sess|) then Goto(w, tid, StopAll(order) + [CancelEngine] + rest).(closed := true) else w
  }

  predicate SidOk(w: World, i: Instr) {
    match i
    case ApplyState(sid, _, _) => sid < |w.sess|
    case Do(d) => d < |w.duties| && d < |w.place|
    case StoreToken(sid, _) => sid < |w.sess|
    case Cancel(sid) => sid < |w.sess|
    case TakeBatch(sid) => sid < |w.sess|
    case Register(sid) => sid < |w.sess|
    case RegisterListener(sid) => sid < |w.sess|
    case GoAccept(sid, ln) => sid < |w.sess| && ln < |w.duties| && w.duties[ln] == CloseDuty(sid)
    case OpenShare(sid, _, _, _) => sid < |w.sess|
    case Transfer(sid, _, _) => sid < |w.sess|
    case ListDir(sid) => sid < |w.sess|
    case WarmUp(sid) => sid < |w.sess|
    case Probe(sid) => sid < |w.sess|
    case Accept(sid, ln) => sid < |w.sess| && ln < |w.duties| && w.duties[ln] == CloseDuty(sid)
    case ServerSetup(sid) => sid < |w.sess|
    case ServerStart(sid) => sid < |w.sess|
    case _ => true
  }

  predicate Enabled(w: World, tid: nat) {
    tid < |w.threads| && w.threads[tid] != [] && SidOk(w, w.threads[tid][0])
  }

  /** Instructions that create, hand over or perform a duty. */
  predicate MovesDuties(i: Instr) {
    i.ApplyState? || i.Do? || i.Register? || i.RegisterListener? || i.TakeBatch?
  }

  /** Instructions that only choose what comes next: the shared state is left as it is. */
  predicate Planned(i: Instr) {
    || i.OpenShare? || i.Transfer? || i.ListDir? || i.WarmUp? || i.Probe? || i.Accept?
    || i.ServerSetup? || i.ServerStart? || i.Lookup?
  }

  function ExecDuty(w: World, tid: nat, ch: Choice): World
    requires Enabled(w, tid) && MovesDuties(w.threads[tid][0])
  {
    var rest := w.threads[tid][1..];
    match w.threads[tid][0]
    case ApplyState(sid, st, detail) => ExecApply(w, tid, rest, sid, st, detail)
    case Do(d) => ExecDo(w, tid, rest, d, ch.now)
    case TakeBatch(sid) => ExecTakeBatch(w, tid, rest, sid)
    case Register(sid) => ExecRegister(w, tid, rest, sid)
    case RegisterListener(sid) => ExecRegister(w, tid, [GoAccept(sid, |w.duties|)] + rest, sid)
  }

  function ExecPlain(w: World, tid: nat, ch: Choice): World
    requires Enabled(w, tid) && !MovesDuties(w.threads[tid][0]) && !Planned(w.threads[tid][0])
  {
    var rest := w.threads[tid][1..];
    match w.threads[tid][0]
    case Emit(body) => ExecEmit(w, tid, rest, body, ch.now)
    case StoreToken(sid, token) =>
      Goto(w, tid, [Emit(TokenReady(sid, token))] + rest).(
        sess := w.sess[sid := w.sess[sid].(f := w.sess[sid].f.(token := token))])
    case Cancel(sid) =>
      Goto(w, tid, rest).(sess := w.sess[sid := w.sess[sid].(f := w.sess[sid].f.(cancelled := true))])
    case GoAccept(sid, ln) => Goto(w, tid, rest).(threads := w.threads[tid := rest] + [[Accept(sid, ln)]])
    case NewSession(job) => ExecNewSession(w, tid, rest, job)
    case CloseEngine => ExecCloseEngine(w, tid, rest, ch.order)
    case CancelEngine => Goto(w, tid, rest).(cancelled := true)
  }

  function Exec(w: World, tid: nat, ch: Choice): World
    requires Enabled(w, tid)
  {
    var i := w.threads[tid][0];
    if Planned(i) then Goto(w, tid, Plan(w, i, ch) + w.threads[tid][1..])
    else if MovesDuties(i) then ExecDuty(w, tid, ch)
    else ExecPlain(w, tid, ch)
  }

  function AddedByDuty(w: World, tid: nat): seq<Instr>
    requires Enabled(w, tid) && MovesDuties(w.threads[tid][0])
  {
    match w.threads[tid][0]
    case ApplyState(sid, st, detail) => if Moves(w.sess[sid].f, st, detail) then [Do(|w.duties|)] else []
    case Do(_) => []
    case TakeBatch(sid) => Closes(ShutdownLocked(w.sess[sid].f).1)
    case Register(sid) => if w.sess[sid].f.closed then [Do(|w.duties|)] else []
    case RegisterListener(sid) =>
      (if w.sess[sid].f.closed then [Do(|w.duties|)] else []) + [GoAccept(sid, |w.duties|)]
  }

  function AddedPlainly(w: World, tid: nat, ch: Choice): seq<Instr>
    requires Enabled(w, tid) && !MovesDuties(w.threads[tid][0]) && !Planned(w.threads[tid][0])
  {
    match w.threads[tid][0]
    case StoreToken(sid, token) => [Emit(TokenReady(sid, token))]
    case NewSession(job) => if w.closed then [] else StartCode(|w.sess|, job)
    case CloseEngine => if Listing(ch.order, |w.sess|) then StopAll(ch.order) + [CancelEngine] else [CloseEngine]
    case Emit(_) => []
    case Cancel(_) => []
    case GoAccept(_, _) => []
    case CancelEngine => []
  }

  /** The instructions a step puts in place of the head of its thread. */
  function Added(w: World, tid: nat, ch: Choice): seq<Instr>
    requires Enabled(w, tid)
  {
    var i := w.threads[tid][0];
    if Planned(i) then Plan(w, i, ch)
    else if MovesDuties(i) then AddedByDuty(w, tid)
    else AddedPlainly(w, tid, ch)
  }

  lemma PlannedStep(w: World, tid: nat, ch: Choice)
    requires Enabled(w, tid) && Planned(w.threads[tid][0])
    ensures Added(w, tid, ch) == Plan(w, w.threads[tid][0], ch)
    ensures Exec(w, tid, ch) == w.(threads := w.threads[tid := Added(w, tid, ch) + w.threads[tid][1..]])
  {
  }

  function Deliveries(evs: seq<Event>): seq<UiAct> {
    seq(|evs|, i requires 0 <= i < |evs| => Deliver(evs[i]))
  }

  function Next(w: World, l: Label): World {
    match l
    case Step(tid, ch) => if Enabled(w, tid) then Exec(w, tid, ch) else w
    case Call(cmd) => w.(threads := w.threads + [CommandCode(cmd)])
    case Poll(now) => w.(queue := DrainOf(w.queue, now).1, ui := w.ui + Deliveries(DrainOf(w.queue, now).0))
    case DismissIt(sid) => w.(ui := w.ui + [Dismiss(sid)])
  }

  function Run(w: World, labels: seq<Label>): World
    decreases |labels|
  {
    if labels == [] then w else Run(Next(w, labels[0]), labels[1..])
  }
}
