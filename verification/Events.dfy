/** core/engine/events.go: the bounded event queue between engine goroutines and the UI poll. */
module Events {
  import opened Common

  datatype State = Starting | Running | Done | Stopped | Failed

  predicate Terminal(s: State) {
    s == Done || s == Stopped || s == Failed
  }

  predicate ActiveState(s: State) {
    s == Starting || s == Running
  }

  datatype Kind = Server | Forward | Socks | Send | Recv | Ssh

  /** What an event says. Sessions are named by their number in order of registration. */
  datatype Body =
    | SessionState(sid: nat, kind: Kind, state: State, detail: string, info: map<string, string>)
    | TokenReady(sid: nat, token: string)
    | Log(msg: string)
    | Progress(sid: nat, file: string, bytes: int, total: int, done: bool)
    | Path(sid: nat, via: string, detail: string, peers: Option<nat>)
    | Error(sid: nat, message: string)

  datatype Event = Event(body: Body, ts: Option<int>)

  const MAX_QUEUED: nat := 5000

  /** Push stamps an event only when it carries no time of its own. */
  function Stamp(e: Event, now: int): (r: Event)
    ensures r.body == e.body && r.ts.Some? && (e.ts.Some? ==> r == e) && (e.ts == None ==> r.ts.value == now)
  {
    if e.ts == None then e.(ts := Some(now)) else e
  }

  function Notice(now: int): Event {
    Event(Log("event queue overflow; some events were dropped"), Some(now))
  }

  // ---- the queue as a value ----

  datatype Queue = Queue(events: seq<Event>, dropped: nat)

  const EMPTY: Queue := Queue([], 0)

  function PushTo(q: Queue, e: Event): Queue {
    var n := if |q.events| >= MAX_QUEUED then |q.events| / 2 else 0;
    Queue(q.events[n..] + [e], q.dropped + n)
  }

  function DrainOf(q: Queue, now: int): (seq<Event>, Queue) {
    if |q.events| == 0 then ([], q)
    else ((if q.dropped > 0 then [Notice(now)] else []) + q.events, EMPTY)
  }

  /** How many of n pushes since the last drain are lost: none up to 5000, then 2500 with every 2500th push. */
  function Overflow(n: nat): (d: nat)
    ensures d <= n && n - d <= 5000
    ensures n <= 5000 ==> d == 0
    ensures n > 5000 ==> n - d >= 2501 && d % 2500 == 0
  {
    if n <= 2501 then 0 else (n - 2501) / 2500 * 2500
  }

  /**
    The queue refines an unbounded log: with `since` everything pushed after the last drain, it holds
    the suffix that `dropped` leaves, never more than MAX_QUEUED events, and once something was
    dropped at least the newest MAX_QUEUED / 2 + 1. What is lost follows from the number of pushes alone.
   */
  ghost predicate Faithful(q: Queue, since: seq<Event>) {
    && q.dropped <= |since|
    && q.dropped == Overflow(|since|)
    && q.events == since[q.dropped..]
    && |q.events| <= MAX_QUEUED
    && (q.dropped > 0 ==> |q.events| > MAX_QUEUED / 2)
  }

  lemma PushKeepsFaithful(q: Queue, since: seq<Event>, e: Event)
    requires Faithful(q, since)
    ensures Faithful(PushTo(q, e), since + [e])
  {
  }

  /** What a drain returns, said in terms of the pushes it follows: the notice heads it iff it lost some. */
  ghost predicate BatchOf(batch: seq<Event>, since: seq<Event>, lost: nat, now: int) {
    && lost <= |since|
    && lost == Overflow(|since|)
    && |since| - lost <= MAX_QUEUED
    && (lost > 0 ==> |since| - lost > MAX_QUEUED / 2)
    && batch == (if lost > 0 then [Notice(now)] else []) + since[lost..]
  }

  /** In particular the early return on an empty queue never hides a non-zero drop count. */
  lemma DrainReturnsTheLog(q: Queue, since: seq<Event>, now: int)
    requires Faithful(q, since)
    ensures BatchOf(DrainOf(q, now).0, since, q.dropped, now)
    ensures Faithful(DrainOf(q, now).1, [])
    ensures DrainOf(q, now).1 == EMPTY
  {
  }

  // ---- whole runs of pushes and drains ----

  datatype Op = PushOp(e: Event) | DrainOp(now: int)

  /** `batches[i]` is what drain i returned, `sinces[i]` what was pushed before it and after drain i - 1. */
  datatype History = History(q: Queue, since: seq<Event>, batches: seq<seq<Event>>, sinces: seq<seq<Event>>,
                             losses: seq<nat>, nows: seq<int>, pushed: nat)

  function After(h: History, op: Op): History {
    match op
    case PushOp(e) => h.(q := PushTo(h.q, e), since := h.since + [e], pushed := h.pushed + 1)
    case DrainOp(now) =>
      h.(q := DrainOf(h.q, now).1, since := [], batches := h.batches + [DrainOf(h.q, now).0],
         sinces := h.sinces + [h.since], losses := h.losses + [h.q.dropped], nows := h.nows + [now])
  }

  function RunQueue(ops: seq<Op>): History {
    if ops == [] then History(EMPTY, [], [], [], [], [], 0)
    else After(RunQueue(ops[..|ops| - 1]), ops[|ops| - 1])
  }

  function Sum(xs: seq<nat>): nat {
    if xs == [] then 0 else Sum(xs[..|xs| - 1]) + xs[|xs| - 1]
  }

  /** Log events handed out by the drains, the overflow notices not counted. */
  function Returned(sinces: seq<seq<Event>>, losses: seq<nat>): int
    requires |sinces| == |losses|
  {
    if sinces == [] then 0
    else
      var n := |sinces| - 1;
      Returned(sinces[..n], losses[..n]) + |sinces[n]| - losses[n]
  }

  ghost predicate Ledger(h: History) {
    && Faithful(h.q, h.since)
    && |h.batches| == |h.sinces| == |h.losses| == |h.nows|
    && (forall i :: 0 <= i < |h.batches| ==> BatchOf(h.batches[i], h.sinces[i], h.losses[i], h.nows[i]))
    && h.pushed == Returned(h.sinces, h.losses) + Sum(h.losses) + h.q.dropped + |h.q.events|
  }

  lemma AfterKeepsLedger(h: History, op: Op)
    requires Ledger(h)
    ensures Ledger(After(h, op))
  {
    match op {
      case PushOp(e) => PushKeepsFaithful(h.q, h.since, e);
      case DrainOp(now) =>
        var k := After(h, op);
        DrainReturnsTheLog(h.q, h.since, now);
        assert k.sinces[..|h.sinces|] == h.sinces && k.losses[..|h.losses|] == h.losses;
    }
  }

  /** For every run: each batch is the log since the drain before it, and no push goes unaccounted for. */
  lemma {:induction false} QueueRefinesLog(ops: seq<Op>)
    ensures Ledger(RunQueue(ops))
  {
    if ops != [] {
      var n := |ops| - 1;
      QueueRefinesLog(ops[..n]);
      AfterKeepsLedger(RunQueue(ops[..n]), ops[n]);
    }
  }

  /**
    Up to 5000 pushes after a drain the queue is the log; the next one leaves exactly the newest 2501, and the
    next drain is headed by the notice.
   */
  lemma LostOnlyFrom5001(ops: seq<Op>, now: int)
    ensures var h := RunQueue(ops);
      && (|h.since| <= 5000 ==> h.q == Queue(h.since, 0))
      && (|h.since| == 5001 ==> h.q == Queue(h.since[2500..], 2500) && DrainOf(h.q, now).0[0] == Notice(now))
      && (|h.since| > 5000 ==> h.q.dropped > 0 && h.q.events == h.since[Overflow(|h.since|)..])
  {
    QueueRefinesLog(ops);
  }

  // ---- the queue as the program keeps it: a buffer compacted in place ----

  class EventQueue {
    var buf: array<Event>
    var len: nat
    var dropped: nat
    /** Everything pushed since the last drain. */
    ghost var since: seq<Event>

    ghost predicate Valid()
      reads this, buf
    {
      && len <= buf.Length
      && Faithful(View(), since)
    }

    ghost function View(): Queue
      reads this, buf
      requires len <= buf.Length
    {
      Queue(buf[..len], dropped)
    }

    constructor ()
      ensures Valid() && View() == EMPTY && since == []
      ensures fresh(buf)
    {
      buf := new Event[0];
      len, dropped, since := 0, 0, [];
    }

    /** Appends an event; a full queue first moves its newer half to the front of the same buffer. */
    method Push(ev: Event, now: int)
      requires Valid()
      modifies this, buf
      ensures Valid()
      ensures View() == PushTo(old(View()), Stamp(ev, now))
      ensures since == old(since) + [Stamp(ev, now)]
      ensures dropped == Overflow(|since|) && View().events == since[dropped..]
      ensures buf == old(buf) || fresh(buf)
    {
      PushKeepsFaithful(View(), since, Stamp(ev, now));
      since := since + [Stamp(ev, now)];
      if len >= MAX_QUEUED {
        var n := len / 2;
        dropped := dropped + n;
        forall i | 0 <= i < len - n { buf[i] := buf[n + i]; }
        len := len - n;
        assert buf[..len] == old(View()).events[n..];
      }
      Append(Stamp(ev, now));
    }

    /** The built-in append: it writes in place when the buffer has room and reallocates otherwise. */
    method Append(e: Event)
      requires len <= buf.Length
      modifies this`buf, this`len, buf
      ensures len <= buf.Length
      ensures buf[..len] == old(buf[..len]) + [e]
      ensures buf == old(buf) || fresh(buf)
    {
      if len == buf.Length {
        var bigger := new Event[2 * len + 1];
        forall i | 0 <= i < len { bigger[i] := buf[i]; }
        buf := bigger;
      }
      buf[len] := e;
      len := len + 1;
    }

    /** Swaps the buffer out. The caller owns what is returned: no later push writes into it. */
    method Drain(now: int) returns (out: array?<Event>, n: nat)
      requires Valid()
      modifies this
      ensures Valid() && since == [] && (buf == old(buf) || fresh(buf))
      ensures out == null ==> n == 0
      ensures out != null ==> n <= out.Length && out != buf && fresh(buf)
      ensures (if out == null then [] else out[..n]) == DrainOf(old(View()), now).0
      ensures View() == DrainOf(old(View()), now).1
      ensures BatchOf(if out == null then [] else out[..n], old(since), old(dropped), now)
    {
      DrainReturnsTheLog(View(), since, now);
      since := [];
      if len == 0 {
        return null, 0;
      }
      out, n := buf, len;
      buf, len := new Event[64], 0;
      if dropped > 0 {
        var headed := new Event[n + 1];
        headed[0] := Notice(now);
        forall i | 0 <= i < n { headed[i + 1] := out[i]; }
        assert headed[..n + 1] == [Notice(now)] + out[..n];
        out, n := headed, n + 1;
        dropped := 0;
      }
    }

    method Len() returns (n: nat)
      requires Valid()
      ensures n == |View().events|
    {
      n := len;
    }
  }

  /** Pushes made one after the other. What the frame leaves out stays as it is: any batch drained before. */
  method Burst(q: EventQueue, evs: seq<Event>, now: int)
    requires q.Valid()
    modifies q, q.buf
    ensures q.Valid()
    ensures |q.since| == old(|q.since|) + |evs| && old(q.since) <= q.since
    ensures forall i :: 0 <= i < |evs| ==> q.since[old(|q.since|) + i] == Stamp(evs[i], now)
  {
    hide Faithful, PushTo;
    for k := 0 to |evs|
      invariant q.Valid() && (q.buf == old(q.buf) || fresh(q.buf))
      invariant |q.since| == old(|q.since|) + k && old(q.since) <= q.since
      invariant forall i :: 0 <= i < k ==> q.since[old(|q.since|) + i] == Stamp(evs[i], now)
    {
      q.Push(evs[k], now);
    }
  }

  /** A drained batch outlives any burst of pushes that follows it. */
  method PollThenBurst(q: EventQueue, evs: seq<Event>, now: int) returns (out: array?<Event>, n: nat)
    requires q.Valid()
    modifies q, q.buf
    ensures q.Valid() && |q.since| == |evs|
    ensures out != null ==> n <= out.Length
    ensures BatchOf(if out == null then [] else out[..n], old(q.since), old(q.dropped), now)
  {
    out, n := q.Drain(now);
    Burst(q, evs, now);
  }
}
