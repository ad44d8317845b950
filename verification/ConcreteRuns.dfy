/** Concrete runs, step by step: what the next instruction of a thread does to a reachable world. */
module ConcreteRuns {
  import opened Common
  import opened Events
  import opened Lifecycle
  import opened CloseOrder

  lemma {:induction false} RunSnoc(w: World, labels: seq<Label>, l: Label)
    ensures Run(w, labels + [l]) == Next(Run(w, labels), l)
    decreases |labels|
  {
    if labels == [] {
      assert labels + [l] == [l];
      assert Run(Next(w, l), [l][1..]) == Next(w, l);
    } else {
      assert (labels + [l])[1..] == labels[1..] + [l];
      RunSnoc(Next(w, labels[0]), labels[1..], l);
    }
  }

  lemma ReachableNext(w: World, l: Label)
    requires Reachable(w)
    ensures Reachable(Next(w, l))
  {
    var labels :| Run(INIT, labels) == w;
    RunSnoc(INIT, labels, l);
  }

  const NOPE: Choice := Choice(false, false, "unreachable", "", None, [], 0)

  /** A step of a thread whose first instruction is known. */
  lemma Go(w: World, tid: nat, head: Instr, rest: seq<Instr>, ch: Choice) returns (w': World)
    requires Reachable(w) && tid < |w.threads| && w.threads[tid] == [head] + rest && SidOk(w, head)
    ensures Reachable(w') && w' == Next(w, Step(tid, ch)) && w' == Exec(w, tid, ch)
    ensures w.threads[tid][0] == head && w.threads[tid][1..] == rest
  {
    w' := Next(w, Step(tid, ch));
    ReachableNext(w, Step(tid, ch));
  }

  lemma GoDo(w: World, tid: nat, d: nat, rest: seq<Instr>) returns (w': World)
    requires Reachable(w) && tid < |w.threads| && w.threads[tid] == [Do(d)] + rest && SidOk(w, Do(d))
    ensures Reachable(w') && w' == ExecDo(w, tid, rest, d, 0)
  {
    hide ExecDo;
    w' := Go(w, tid, Do(d), rest, NOPE);
  }

  lemma GoApply(w: World, tid: nat, sid: nat, st: State, detail: string, rest: seq<Instr>) returns (w': World)
    requires Reachable(w) && tid < |w.threads| && w.threads[tid] == [ApplyState(sid, st, detail)] + rest && sid < |w.sess|
    ensures Reachable(w') && w' == ExecApply(w, tid, rest, sid, st, detail)
  {
    hide ExecApply;
    w' := Go(w, tid, ApplyState(sid, st, detail), rest, NOPE);
  }

  lemma GoBatch(w: World, tid: nat, sid: nat, rest: seq<Instr>) returns (w': World)
    requires Reachable(w) && tid < |w.threads| && w.threads[tid] == [TakeBatch(sid)] + rest && sid < |w.sess|
    ensures Reachable(w') && w' == ExecTakeBatch(w, tid, rest, sid)
  {
    hide ExecTakeBatch;
    w' := Go(w, tid, TakeBatch(sid), rest, NOPE);
  }

  lemma GoCancel(w: World, tid: nat, sid: nat, rest: seq<Instr>) returns (w': World)
    requires Reachable(w) && tid < |w.threads| && w.threads[tid] == [Cancel(sid)] + rest && sid < |w.sess|
    ensures Reachable(w')
    ensures w' == Goto(w, tid, rest).(sess := w.sess[sid := w.sess[sid].(f := w.sess[sid].f.(cancelled := true))])
  {
    w' := Go(w, tid, Cancel(sid), rest, NOPE);
  }

  lemma GoEmit(w: World, tid: nat, body: Body, rest: seq<Instr>) returns (w': World)
    requires Reachable(w) && tid < |w.threads| && w.threads[tid] == [Emit(body)] + rest
    ensures Reachable(w') && w' == ExecEmit(w, tid, rest, body, 0)
  {
    hide ExecEmit;
    w' := Go(w, tid, Emit(body), rest, NOPE);
  }

  lemma GoNew(w: World, tid: nat, job: Job, rest: seq<Instr>) returns (w': World)
    requires Reachable(w) && tid < |w.threads| && w.threads[tid] == [NewSession(job)] + rest
    ensures Reachable(w') && w' == ExecNewSession(w, tid, rest, job)
  {
    hide ExecNewSession;
    w' := Go(w, tid, NewSession(job), rest, NOPE);
  }

  lemma GoPlan(w: World, tid: nat, head: Instr, rest: seq<Instr>, ch: Choice) returns (w': World)
    requires Reachable(w) && tid < |w.threads| && w.threads[tid] == [head] + rest && SidOk(w, head) && Planned(head)
    ensures Reachable(w') && w' == Goto(w, tid, Plan(w, head, ch) + rest)
  {
    hide Plan;
    w' := Go(w, tid, head, rest, ch);
  }

  lemma GoRegister(w: World, tid: nat, sid: nat, rest: seq<Instr>) returns (w': World)
    requires Reachable(w) && tid < |w.threads| && w.threads[tid] == [Register(sid)] + rest && sid < |w.sess|
    ensures Reachable(w') && w' == ExecRegister(w, tid, rest, sid)
  {
    hide ExecRegister;
    w' := Go(w, tid, Register(sid), rest, NOPE);
  }

  lemma GoStore(w: World, tid: nat, sid: nat, token: string, rest: seq<Instr>) returns (w': World)
    requires Reachable(w) && tid < |w.threads| && w.threads[tid] == [StoreToken(sid, token)] + rest && sid < |w.sess|
    ensures Reachable(w')
    ensures w' == Goto(w, tid, [Emit(TokenReady(sid, token))] + rest).(
              sess := w.sess[sid := w.sess[sid].(f := w.sess[sid].f.(token := token))])
  {
    w' := Go(w, tid, StoreToken(sid, token), rest, NOPE);
  }

  /** The fields of a world in which nothing was lost and nothing polled yet. */
  ghost predicate Looks(w: World, sess: seq<Sess>, threads: seq<seq<Instr>>, duties: seq<Duty>, place: seq<Place>,
                        trace: seq<Effect>, events: seq<Event>) {
    && Reachable(w) && !w.closed && !w.cancelled && w.lost == 0 && w.ui == [] && w.queue.dropped == 0
    && w.sess == sess && w.threads == threads && w.duties == duties && w.place == place && w.trace == trace
    && w.queue.events == events
  }
}
