/** What the jobs come to, for every run: the outcome is read off the replies of the job's calls alone. */
module JobResults {
  import opened Common
  import opened Events
  import opened Lifecycle
  import opened CloseOrder
  import opened Termination
  import opened Stories
  import opened Jobs
  import opened JobErrors

  /** Nobody but the session's own goroutine has ended it, if it is over. */
  ghost predicate OwnEnd(w: World, sid: nat, st: Story)
    requires sid < |w.sess| && st.Story?
  {
    st.ender == None || st.ender == Some(w.sess[sid].driver)
  }

  /** The goroutine has nothing more to say about the state: it has returned, or only watches the path. */
  ghost predicate Quiet(w: World, sid: nat)
    requires sid < |w.sess|
  {
    w.sess[sid].driver < |w.threads| &&
    (w.threads[w.sess[sid].driver] == [] || w.threads[w.sess[sid].driver] == [Probe(sid)])
  }

  /** Every session has a story, of a job of its kind, whose calls were made one after the other. */
  lemma HasStory(labels: seq<Label>, sid: nat)
    requires sid < |Run(INIT, labels).sess|
    ensures var w, st := Run(INIT, labels), StoryIn(labels, sid);
      && st.Story? && w.sess[sid].f.kind == KindOf(st.job)
      && |st.calls| <= Needed(st.job) && (forall k :: 0 <= k < |st.calls| - 1 ==> st.calls[k].ok)
      && (st.ender == None <==> !Terminal(w.sess[sid].f.state))
  {
    RunGoes(labels, sid);
  }

  /**
    The session's state and detail are what its replies lead to, in every interleaving, unless another thread ended
    it; and then it was stopped, or an accept loop failed it with its error.
   */
  lemma StateIsLed(labels: seq<Label>, sid: nat)
    requires sid < |Run(INIT, labels).sess|
    ensures StoryIn(labels, sid).Story?
    ensures var w, st := Run(INIT, labels), StoryIn(labels, sid);
      var f := w.sess[sid].f;
      && (OwnEnd(w, sid, st) && (Quiet(w, sid) || Terminal(f.state)) ==> (f.state, f.detail) == Led(st.job, st.calls))
      && (!OwnEnd(w, sid, st) ==>
            || (f.state == Stopped && f.detail == "")
            || (f.state == Failed && exists r :: r in st.refused && r.tid == st.ender.value && r.text == f.detail))
  {
    RunGoes(labels, sid);
    RunIsExplained(labels, sid);
  }

  /** A session that failed had its error pushed, with the text its detail shows; only a listing tells its caller. */
  lemma FailureIsTold(labels: seq<Label>, sid: nat)
    requires sid < |Run(INIT, labels).sess| && Run(INIT, labels).sess[sid].f.state == Failed
    ensures StoryIn(labels, sid).Story?
    ensures !StoryIn(labels, sid).job.ListJob? ==>
              Sent(Error(sid, Run(INIT, labels).sess[sid].f.detail)) in Run(INIT, labels).trace
  {
    RunGoes(labels, sid);
    RunIsExplained(labels, sid);
  }

  /**
    A failed call fails its job: once the goroutine has returned and unless another thread ended the session before,
    the state is failed, with the error as its detail, and for all but listings the error was pushed.
   */
  lemma FailedCallFails(labels: seq<Label>, sid: nat, k: nat)
    requires sid < |Run(INIT, labels).sess| && StoryIn(labels, sid).Story?
    requires k < |StoryIn(labels, sid).calls| && !StoryIn(labels, sid).calls[k].ok
    requires OwnEnd(Run(INIT, labels), sid, StoryIn(labels, sid)) && Quiet(Run(INIT, labels), sid)
    ensures var w, st := Run(INIT, labels), StoryIn(labels, sid);
      && k == |st.calls| - 1
      && w.sess[sid].f.state == Failed && w.sess[sid].f.detail == st.calls[k].text
      && (!st.job.ListJob? ==> Sent(Error(sid, st.calls[k].text)) in w.trace)
  {
    HasStory(labels, sid);
    StateIsLed(labels, sid);
    FailureIsTold(labels, sid);
  }

  /** A session is done only by its own goroutine, after every call of a job that ends succeeded: all n transfers. */
  lemma DoneMeansAllDone(labels: seq<Label>, sid: nat)
    requires sid < |Run(INIT, labels).sess| && Run(INIT, labels).sess[sid].f.state == Done
    ensures var w, st := Run(INIT, labels), StoryIn(labels, sid);
      && st.Story? && !StaysUp(st.job) && st.ender == Some(w.sess[sid].driver)
      && |st.calls| == Needed(st.job) && AllOk(st.calls)
      && w.sess[sid].f.detail == FinishedText(st.job)
  {
    HasStory(labels, sid);
    StateIsLed(labels, sid);
  }

  /** And when they all succeeded and nobody stopped it, it is done; a server or forward is running. */
  lemma AllDoneMeansDone(labels: seq<Label>, sid: nat)
    requires sid < |Run(INIT, labels).sess| && StoryIn(labels, sid).Story?
    requires AllOk(StoryIn(labels, sid).calls) && |StoryIn(labels, sid).calls| == Needed(StoryIn(labels, sid).job)
    requires OwnEnd(Run(INIT, labels), sid, StoryIn(labels, sid)) && Quiet(Run(INIT, labels), sid)
    ensures var st := StoryIn(labels, sid);
      Run(INIT, labels).sess[sid].f.state == if StaysUp(st.job) then Running else Done
  {
    StateIsLed(labels, sid);
  }

  /** A goroutine that has returned made all its calls, or the last one failed, or somebody else ended the session. */
  lemma ReturnedIsOver(labels: seq<Label>, sid: nat)
    requires sid < |Run(INIT, labels).sess|
    requires Run(INIT, labels).sess[sid].driver < |Run(INIT, labels).threads|
    requires Run(INIT, labels).threads[Run(INIT, labels).sess[sid].driver] == []
    ensures var w, st := Run(INIT, labels), StoryIn(labels, sid);
      && st.Story?
      && (OwnEnd(w, sid, st) ==>
            || (st.calls != [] && !st.calls[|st.calls| - 1].ok)
            || (!StaysUp(st.job) && |st.calls| == Needed(st.job) && AllOk(st.calls)))
  {
    HasStory(labels, sid);
    StateIsLed(labels, sid);
    RunGoes(labels, sid);
    assert Reachable(Run(INIT, labels));
    NoStrandedSession(Run(INIT, labels), sid);
  }

  /**
    An accept loop that ends while the session lives and its listener is open fails the session: the error is pushed,
    the session is over when that thread has returned, and failed with that error unless another thread came first.
   */
  lemma AcceptFails(labels: seq<Label>, sid: nat, r: Refusal)
    requires sid < |Run(INIT, labels).sess| && StoryIn(labels, sid).Story?
    requires r in StoryIn(labels, sid).refused && r.live
    ensures var w, st := Run(INIT, labels), StoryIn(labels, sid);
      && r.tid < |w.threads|
      && (w.threads[r.tid] == [] ==>
            && Terminal(w.sess[sid].f.state) && Sent(Error(sid, r.text)) in w.trace
            && (st.ender == Some(r.tid) ==> w.sess[sid].f.state == Failed && w.sess[sid].f.detail == r.text))
  {
    RunIsExplained(labels, sid);
    var w, st := Run(INIT, labels), StoryIn(labels, sid);
    assert RefusalOk(w, sid, st, r);
  }
}
