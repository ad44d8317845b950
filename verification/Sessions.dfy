/** core/engine/session.go: one session. Each function below is the work of one lock-protected region. */
module Sessions {
  import opened Common
  import opened Events

  /** What a session's mutex guards, and whether its own context was cancelled. Closers are named by number. */
  datatype Fields = Fields(
    kind: Kind, state: State, detail: string, token: string, info: map<string, string>,
    closers: seq<nat>, closed: bool, cancelled: bool)

  function NewFields(kind: Kind): Fields {
    Fields(kind, Starting, "", "", map[], [], false, false)
  }

  predicate Active(f: Fields) {
    ActiveState(f.state)
  }

  /** Terminal states are sticky, and repeating the current state and detail is no transition. */
  predicate Moves(f: Fields, st: State, detail: string) {
    !(f.state == st && f.detail == detail) && !Terminal(f.state)
  }

  function SetStateLocked(f: Fields, st: State, detail: string): Fields {
    if Moves(f, st, detail) then f.(state := st, detail := detail) else f
  }

  function StateBody(sid: nat, f: Fields): Body {
    SessionState(sid, f.kind, f.state, f.detail, f.info)
  }

  /** The batch to close is handed out once: to the first shutdown that gets the lock. */
  function ShutdownLocked(f: Fields): (Fields, seq<nat>) {
    if f.closed then (f, []) else (f.(closed := true, closers := []), f.closers)
  }

  /** A closer that arrives after the shutdown is not kept: the caller closes it itself. */
  function AddCloserLocked(f: Fields, c: nat): Fields {
    if f.closed then f else f.(closers := f.closers + [c])
  }

  function Reverse<T>(s: seq<T>): seq<T> {
    seq(|s|, i requires 0 <= i < |s| => s[|s| - 1 - i])
  }

  class Session {
    const sid: nat
    const kind: Kind
    const created: int
    const events: EventQueue
    var state: State
    var detail: string
    var token: string
    var info: map<string, string>
    var closers: seq<nat>
    var closed: bool
    var cancelled: bool
    var ready: bool
    /** The Close calls made so far on what the session owns. */
    var closeCalls: seq<nat>

    ghost function View(): Fields
      reads this
    {
      Fields(kind, state, detail, token, info, closers, closed, cancelled)
    }

    constructor (sid: nat, kind: Kind, created: int, events: EventQueue)
      ensures View() == NewFields(kind) && !ready && closeCalls == []
      ensures this.sid == sid && this.created == created && this.events == events
    {
      this.sid, this.kind, this.created, this.events := sid, kind, created, events;
      state, detail, token, info := Starting, "", "", map[];
      closers, closed, cancelled, ready, closeCalls := [], false, false, false, [];
    }

    method MarkReady()
      modifies this`ready
      ensures ready
    {
      ready := true;
    }

    method SetInfo(k: string, v: string)
      modifies this`info
      ensures View() == old(View()).(info := old(info)[k := v])
    {
      info := info[k := v];
    }

    method AddCloser(c: nat)
      modifies this`closers, this`closeCalls
      ensures View() == AddCloserLocked(old(View()), c)
      ensures closeCalls == if closed then old(closeCalls) + [c] else old(closeCalls)
    {
      if closed {
        closeCalls := closeCalls + [c];
        return;
      }
      closers := closers + [c];
    }

    method SetState(st: State, text: string, now: int)
      requires events.Valid()
      modifies this`state, this`detail, events, events.buf
      ensures events.Valid() && (events.buf == old(events.buf) || fresh(events.buf))
      ensures View() == SetStateLocked(old(View()), st, text)
      ensures events.since == old(events.since) +
        (if Moves(old(View()), st, text) then [Event(StateBody(sid, View()), Some(now))] else [])
    {
      hide Faithful, Overflow, PushTo;
      if state == st && detail == text {
        return;
      }
      if state == Stopped || state == Failed || state == Done {
        return;
      }
      state, detail := st, text;
      events.Push(Event(SessionState(sid, kind, state, detail, info), None), now);
    }

    method SetToken(tok: string, now: int)
      requires events.Valid()
      modifies this`token, events, events.buf
      ensures events.Valid() && (events.buf == old(events.buf) || fresh(events.buf))
      ensures View() == old(View()).(token := tok)
      ensures events.since == old(events.since) + [Event(TokenReady(sid, tok), Some(now))]
    {
      hide Faithful, Overflow, PushTo;
      token := tok;
      events.Push(Event(TokenReady(sid, tok), None), now);
    }

    /** Listeners go before the server or client they depend on: reverse registration order. */
    method Shutdown()
      modifies this`cancelled, this`closed, this`closers, this`closeCalls
      ensures View() == ShutdownLocked(old(View())).0.(cancelled := true)
      ensures closeCalls == old(closeCalls) + Reverse(ShutdownLocked(old(View())).1)
    {
      cancelled := true;
      if closed {
        assert Reverse<nat>([]) == [];
        return;
      }
      closed := true;
      var batch := closers;
      closers := [];
      for i := |batch| downto 0
        invariant View() == ShutdownLocked(old(View())).0.(cancelled := true)
        invariant closeCalls == old(closeCalls) + Reverse(batch)[..|batch| - i]
      {
        closeCalls := closeCalls + [batch[i]];
      }
    }

    method Stop(now: int)
      requires events.Valid()
      modifies this, events, events.buf
      ensures events.Valid() && (events.buf == old(events.buf) || fresh(events.buf))
      ensures View() == ShutdownLocked(SetStateLocked(old(View()), Stopped, "")).0.(cancelled := true)
      ensures Terminal(state) && cancelled && closed && ready == old(ready)
      ensures closeCalls == old(closeCalls) + Reverse(ShutdownLocked(old(View())).1)
      ensures events.since == old(events.since) +
        (if Moves(old(View()), Stopped, "") then [Event(StateBody(sid, View()), Some(now))] else [])
    {
      hide Faithful, Overflow, PushTo;
      SetState(Stopped, "", now);
      Shutdown();
    }

    method Fail(msg: string, now: int)
      requires events.Valid()
      modifies this, events, events.buf
      ensures events.Valid() && (events.buf == old(events.buf) || fresh(events.buf))
      ensures View() == ShutdownLocked(SetStateLocked(old(View()), Failed, msg)).0.(cancelled := true)
      ensures Terminal(state) && cancelled && closed && ready == old(ready)
      ensures closeCalls == old(closeCalls) + Reverse(ShutdownLocked(old(View())).1)
      ensures events.since == old(events.since) + [Event(Error(sid, msg), Some(now))] +
        (if Moves(old(View()), Failed, msg) then [Event(StateBody(sid, View()), Some(now))] else [])
    {
      hide Faithful, Overflow, PushTo;
      events.Push(Event(Error(sid, msg), None), now);
      SetState(Failed, msg, now);
      Shutdown();
    }

    method IsActive() returns (b: bool)
      ensures b == ActiveState(state)
    {
      b := state == Starting || state == Running;
    }
  }
}
