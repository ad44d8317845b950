/**
  What an observer of a run notes about one session, and what the job it was started for promises: how the calls of
  the job ended, in order, decides the state the session must come to.
 */
module Stories {
  import opened Common
  import opened Events
  import opened Lifecycle

  /** How one call of a job ended; `live`: the session's context was not done then. */
  datatype Reply = Reply(ok: bool, extra: bool, live: bool, text: string)

  /** An accept loop that ended; `live`: neither was the context done nor the listener closed. */
  datatype Refusal = Refusal(tid: nat, live: bool, text: string)

  /**
    The job, the replies so far, the paths to its peer that were found, the accept loops that ended, and the thread
    that made the session terminal.
   */
  datatype Story =
    Unborn | Story(job: Job, calls: seq<Reply>, paths: seq<Body>, refused: seq<Refusal>, ender: Option<nat>)

  // ---- what is noted ----

  /** This step ends a call of the session's job: opening the share, one transfer, and so on. */
  predicate EndsCall(i: Instr, sid: nat, ch: Choice) {
    || i == ListDir(sid) || i == WarmUp(sid) || i == ServerSetup(sid) || i == ServerStart(sid)
    || (i.OpenShare? && i.sid == sid)
    || (i.Transfer? && i.sid == sid && i.n > 0 && !ch.other)
  }

  /** A path worth reporting: the one the first connection takes, and each that a probe finds changed or due. */
  function Found(w: World, i: Instr, sid: nat, ch: Choice): seq<Body> {
    if i == WarmUp(sid) && ch.ok then [Path(sid, ch.via, ch.text, None)]
    else if i == Probe(sid) && ch.other && (ch.ok || !ContextDone(w, sid)) then [Path(sid, ch.via, ch.text, ch.peers)]
    else []
  }

  /** What a call or the probe of the session's own job adds. */
  function Answered(w: World, i: Instr, ch: Choice, sid: nat, st: Story): Story
    requires st.Story?
  {
    var told := st.(paths := st.paths + Found(w, i, sid, ch));
    if EndsCall(i, sid, ch) then told.(calls := st.calls + [Reply(ch.ok, ch.other, !ContextDone(w, sid), ch.text)])
    else told
  }

  function Noted(w: World, tid: nat, ch: Choice, sid: nat, st: Story): Story
    requires Enabled(w, tid) && st.Story?
  {
    var i := w.threads[tid][0];
    if EndsCall(i, sid, ch) || i == Probe(sid) then Answered(w, i, ch, sid, st)
    else if i.Accept? && i.sid == sid && !ch.ok then
      st.(refused := st.refused + [Refusal(tid, !ContextDone(w, sid) && !(ch.other && IsClosed(w, i.ln)), ch.text)])
    else st
  }

  function Ender(w: World, w': World, tid: nat, sid: nat, before: Option<nat>): Option<nat> {
    if sid < |w.sess| && sid < |w'.sess| && !Terminal(w.sess[sid].f.state) && Terminal(w'.sess[sid].f.state)
    then Some(tid) else before
  }

  function Watch(w: World, l: Label, sid: nat, st: Story): Story {
    match l
    case Step(tid, ch) =>
      if !Enabled(w, tid) then st
      else if st.Unborn? then
        if w.threads[tid][0].NewSession? && !w.closed && |w.sess| == sid
        then Story(w.threads[tid][0].job, [], [], [], None) else st
      else
        var next := Noted(w, tid, ch, sid, st);
        next.(ender := Ender(w, Exec(w, tid, ch), tid, sid, st.ender))
    case _ => st
  }

  function StoryOf(w: World, labels: seq<Label>, sid: nat, st: Story): Story
    decreases |labels|
  {
    if labels == [] then st else StoryOf(Next(w, labels[0]), labels[1..], sid, Watch(w, labels[0], sid, st))
  }

  /** The story of a session in a run from the beginning. */
  function StoryIn(labels: seq<Label>, sid: nat): Story {
    StoryOf(INIT, labels, sid, Unborn)
  }

  // ---- what a job promises ----

  predicate AllOk(calls: seq<Reply>) {
    forall k :: 0 <= k < |calls| ==> calls[k].ok
  }

  /** Servers and forwards stay up; the other jobs end by themselves. */
  predicate StaysUp(job: Job) {
    job.ForwardJob? || job.ServeJob?
  }

  /** How many calls must succeed until the job is over or up. */
  function Needed(job: Job): nat {
    match job
    case SendJob(n) => n + 1
    case RecvJob(n) => n + 1
    case ListJob => 1
    case ForwardJob(_) => 1
    case ServeJob => 2
  }

  function FinishedText(job: Job): string {
    match job
    case SendJob(_) => "uploaded"
    case RecvJob(_) => "downloaded"
    case _ => ""
  }

  /** The state shown after this many successful calls. */
  function Stage(job: Job, calls: seq<Reply>): (State, string) {
    match job
    case SendJob(n) =>
      if |calls| == 0 then (Starting, "connecting")
      else if |calls| <= n then (Running, "uploading") else (Done, "uploaded")
    case RecvJob(n) =>
      if |calls| == 0 then (Starting, "connecting")
      else if |calls| <= n then (Running, "downloading") else (Done, "downloaded")
    case ListJob => if |calls| == 0 then (Starting, "") else (Done, "")
    case ForwardJob(_) => if |calls| == 0 then (Starting, "connecting") else (Running, "connected via " + calls[0].text)
    case ServeJob =>
      if |calls| == 0 then (Starting, "")
      else if |calls| == 1 then (Starting, "selecting relay") else (Running, "listening")
  }

  /** The state the calls lead to: the first that failed decides, and nothing is called after it. */
  function Led(job: Job, calls: seq<Reply>): (State, string) {
    if calls != [] && !calls[|calls| - 1].ok then (Failed, calls[|calls| - 1].text) else Stage(job, calls)
  }

  /** The error event of a failure. Listing reports its error to the caller instead. */
  predicate Reports(job: Job) {
    !job.ListJob?
  }
}
