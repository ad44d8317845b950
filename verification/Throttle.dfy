/** core/engine/files.go: at most one progress event per file every 100 ms, and always the last one. */
module Throttle {
  import opened Common
  import opened Events

  /** One progress callback and the clock, in nanoseconds, read under the lock. */
  datatype Call = Call(file: string, bytes: int, total: int, done: bool, now: nat)

  const LIMIT: nat := 100_000_000

  predicate Lets(last: map<string, nat>, c: Call) {
    c.done || c.file !in last || c.now - last[c.file] >= LIMIT
  }

  function Noted(last: map<string, nat>, c: Call): map<string, nat> {
    if !Lets(last, c) then last
    else if c.done then last - {c.file}
    else last[c.file := c.now]
  }

  /** The `last` map after a sequence of callbacks. */
  function LastAfter(calls: seq<Call>): map<string, nat> {
    if calls == [] then map[] else Noted(LastAfter(calls[..|calls| - 1]), calls[|calls| - 1])
  }

  predicate Emitted(calls: seq<Call>, i: nat)
    requires i < |calls|
  {
    Lets(LastAfter(calls[..i]), calls[i])
  }

  class ProgressEmitter {
    const sid: nat
    var last: map<string, nat>
    ghost var calls: seq<Call>

    ghost predicate Valid()
      reads this
    {
      last == LastAfter(calls)
    }

    constructor (sid: nat)
      ensures Valid() && calls == [] && this.sid == sid
    {
      this.sid, last, calls := sid, map[], [];
    }

    /** The event that is pushed, if any: it says of the file what the callback said. */
    method Report(c: Call) returns (pushed: Option<Body>)
      requires Valid()
      modifies this
      ensures Valid() && calls == old(calls) + [c]
      ensures pushed ==
        if Emitted(calls, |calls| - 1) then Some(Progress(sid, c.file, c.bytes, c.total, c.done)) else None
    {
      ghost var before := calls;
      calls := calls + [c];
      assert calls[..|calls| - 1] == before;
      if !c.done && c.file in last && c.now - last[c.file] < LIMIT {
        return None;
      }
      if c.done {
        last := last - {c.file};
      } else {
        last := last[c.file := c.now];
      }
      pushed := Some(Progress(sid, c.file, c.bytes, c.total, c.done));
    }
  }

  /** The callback at i is the latest one of its file that was pushed. */
  ghost predicate Latest(calls: seq<Call>, i: nat, f: string) {
    && i < |calls| && calls[i].file == f && Emitted(calls, i)
    && forall k :: i < k < |calls| && calls[k].file == f ==> !Emitted(calls, k)
  }

  lemma EmittedPrefix(calls: seq<Call>, n: nat, i: nat)
    requires i < n <= |calls|
    ensures Emitted(calls[..n], i) == Emitted(calls, i)
  {
    assert calls[..n][..i] == calls[..i];
  }

  /** A callback of another file, or one held back, leaves the latest pushed one as it is. */
  lemma LatestStays(calls: seq<Call>, i: nat, f: string)
    requires calls != [] && !(calls[|calls| - 1].file == f && Emitted(calls, |calls| - 1))
    ensures Latest(calls, i, f) <==> Latest(calls[..|calls| - 1], i, f)
  {
    var n := |calls| - 1;
    var front := calls[..n];
    forall j: nat | j < n ensures Emitted(front, j) == Emitted(calls, j) { EmittedPrefix(calls, n, j); }
    hide Emitted;
    if Latest(front, i, f) {
      forall k | i < k < |calls| && calls[k].file == f ensures !Emitted(calls, k) {
        assert k < n ==> front[k] == calls[k];
      }
    }
  }

  lemma LatestIsNew(calls: seq<Call>, i: nat, f: string)
    requires calls != [] && calls[|calls| - 1].file == f && Emitted(calls, |calls| - 1)
    ensures Latest(calls, i, f) <==> i == |calls| - 1
  {
    hide Emitted;
  }

  lemma LatestInside(calls: seq<Call>, i: nat, f: string)
    requires Latest(calls, i, f)
    ensures i < |calls|
  {
  }

  lemma LastNext(calls: seq<Call>, f: string)
    requires calls != []
    ensures var n := |calls| - 1; var last, before := LastAfter(calls), LastAfter(calls[..n]);
      if calls[n].file == f && Emitted(calls, n) then
        (f in last <==> !calls[n].done) && (f in last ==> last[f] == calls[n].now)
      else (f in last <==> f in before) && (f in last ==> last[f] == before[f])
  {
  }

  /** The map holds exactly the files whose latest pushed event was not the final one, with its time. */
  lemma {:induction false} LastIsLatest(calls: seq<Call>, f: string)
    ensures f in LastAfter(calls) <==> exists i: nat :: Latest(calls, i, f) && !calls[i].done
    ensures forall i: nat :: Latest(calls, i, f) && !calls[i].done ==>
              f in LastAfter(calls) && LastAfter(calls)[f] == calls[i].now
  {
    if calls != [] {
      var n := |calls| - 1;
      LastIsLatest(calls[..n], f);
      LastNext(calls, f);
      hide Latest, LastAfter;
      if calls[n].file == f && Emitted(calls, n) {
        forall i: nat { LatestIsNew(calls, i, f); }
      } else {
        forall i: nat ensures Latest(calls, i, f) <==> Latest(calls[..n], i, f) { LatestStays(calls, i, f); }
        forall i: nat | Latest(calls, i, f) ensures i < n && calls[..n][i] == calls[i] { LatestInside(calls[..n], i, f); }
      }
    }
  }

  /** The clock is read under the lock, so it never falls from one callback to the next. */
  ghost predicate Timed(calls: seq<Call>) {
    forall i, j :: 0 <= i <= j < |calls| ==> calls[i].now <= calls[j].now
  }

  predicate Between(calls: seq<Call>, i: nat, j: nat, f: string) {
    i < j <= |calls| && forall k :: i < k < j && calls[k].file == f ==> !calls[k].done
  }

  /**
    A callback is held back exactly when it is not a final one and a pushed one of the same file, not followed by
    a final one, is under 100 ms old. In particular every final one is pushed.
   */
  lemma HeldBackIff(calls: seq<Call>, j: nat)
    requires j < |calls|
    ensures !Emitted(calls, j) <==>
            && !calls[j].done
            && exists i: nat :: i < j && Latest(calls[..j], i, calls[j].file) && !calls[i].done &&
                 calls[j].now - calls[i].now < LIMIT
  {
    var f := calls[j].file;
    LastIsLatest(calls[..j], f);
    if !Emitted(calls, j) {
      var i: nat :| Latest(calls[..j], i, f) && !calls[..j][i].done;
      assert calls[..j][i] == calls[i];
    }
  }

  /** Two pushed callbacks of one file with no final one between them are at least 100 ms apart. */
  lemma {:induction false} SpacedOut(calls: seq<Call>, i: nat, j: nat)
    requires Timed(calls) && i < j < |calls|
    requires calls[i].file == calls[j].file && !calls[i].done && !calls[j].done
    requires Emitted(calls, i) && Emitted(calls, j) && Between(calls, i, j, calls[i].file)
    ensures calls[j].now - calls[i].now >= LIMIT
    decreases j - i
  {
    var f := calls[i].file;
    var front := calls[..j];
    LastIsLatest(front, f);
    if m: nat :| i < m < j && calls[m].file == f && Emitted(calls, m) {
      SpacedOut(calls, m, j);
    } else {
      EmittedPrefix(calls, j, i);
      forall k: nat | i < k < j && front[k].file == f ensures !Emitted(front, k) { EmittedPrefix(calls, j, k); }
      assert Latest(front, i, f);
    }
  }
}
