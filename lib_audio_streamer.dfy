/**
 * The WebSocket client of src/lib/audioStreamer.ts: a `connect` whose
 * promise is settled once by whichever of open, error or a 5 s timeout
 * comes first, a guarded `send`, and a `disconnect` that lets the server
 * finish after `end_stream`. Network events are method calls made by the
 * environment, each naming the socket it happens on.
 */
module LibAudioStreamer {
  import opened Types
  import opened Wrappers
  import opened Socket

  const ConnectTimeoutMs: nat := 5000
  const EndStreamCloseDelayMs: nat := 500
  const TimeoutReason: string := "Connection timeout"
  const FailedReason: string := "WebSocket connection failed"

  /** The events that race to settle a `connect` promise. */
  datatype ConnectEvent = Opened | Errored | TimedOut

  /** How a `connect` promise ends. */
  datatype Outcome = Resolved | Rejected(reason: string)

  /** The outcome an event settles a still-pending promise with. */
  function OutcomeOf(e: ConnectEvent): Outcome {
    match e
    case Opened => Resolved
    case Errored => Rejected(FailedReason)
    case TimedOut => Rejected(TimeoutReason)
  }

  /** One `connect` call: its local `settled` flag, the promise's fate, and whether its timer is still armed. */
  datatype Attempt = Attempt(settled: bool, outcome: Option<Outcome>, timerArmed: bool)

  /** A fresh attempt: pending, with the 5000 ms timer armed. */
  function Fresh(): Attempt {
    Attempt(false, None, true)
  }

  /** Settled exactly when the promise has its fate, and the timer armed exactly while pending. */
  predicate AttemptOk(a: Attempt) {
    (a.settled <==> a.outcome.Some?) && (a.timerArmed <==> !a.settled)
  }

  /**
   * Each of the three handlers: when not yet settled, settle, clear the timer
   * (or it has just fired) and settle the promise; otherwise do nothing.
   */
  function Settle(a: Attempt, e: ConnectEvent): (r: Attempt)
    ensures a.settled ==> r == a
    ensures !a.settled ==> r.settled && r.outcome == Some(OutcomeOf(e)) && !r.timerArmed
  {
    if a.settled then a else Attempt(true, Some(OutcomeOf(e)), false)
  }

  /** The attempt after a run of events, in order. */
  function Run(a: Attempt, es: seq<ConnectEvent>): Attempt
    decreases |es|
  {
    if es == [] then a else Run(Settle(a, es[0]), es[1..])
  }

  lemma SettleOk(a: Attempt, e: ConnectEvent)
    requires AttemptOk(a)
    ensures AttemptOk(Settle(a, e))
  {
  }

  /** Once settled, no later event changes anything. */
  lemma {:induction false} RunSettled(a: Attempt, es: seq<ConnectEvent>)
    requires a.settled
    ensures Run(a, es) == a
    decreases |es|
  {
    if es != [] {
      RunSettled(Settle(a, es[0]), es[1..]);
    }
  }

  /** The promise settles exactly once, with the outcome of the first event to arrive. */
  lemma {:induction false} FirstEventWins(es: seq<ConnectEvent>)
    requires es != []
    ensures Run(Fresh(), es).outcome == Some(OutcomeOf(es[0]))
    ensures AttemptOk(Run(Fresh(), es)) && !Run(Fresh(), es).timerArmed
  {
    RunSettled(Settle(Fresh(), es[0]), es[1..]);
  }

  /** The streamer's state: `this.ws`, every socket it created, their attempts, what it wrote, pending close timers. */
  datatype Conn = Conn(
    ws: Option<SocketId>,
    sockets: map<SocketId, ReadyState>,
    attempts: map<SocketId, Attempt>,
    nextSocket: nat,
    hasHandler: bool,
    sent: seq<Sent>,
    closeTimers: nat)

  /** `this.ws` is only ever a socket whose own `connect` resolved. */
  predicate Inv(c: Conn) {
    && c.attempts.Keys == c.sockets.Keys
    && (forall id :: id in c.sockets ==> id < c.nextSocket)
    && (forall id :: id in c.attempts ==> AttemptOk(c.attempts[id]))
    && (c.ws.Some? ==> c.ws.value in c.attempts && c.attempts[c.ws.value].outcome == Some(Resolved))
  }

  function Initial(): Conn {
    Conn(None, map[], map[], 0, false, [], 0)
  }

  /** The `isConnected` getter. */
  predicate IsConnected(c: Conn) {
    c.ws.Some? && c.ws.value in c.sockets && c.sockets[c.ws.value] == Open
  }

  /**
   * `connect`: close the current socket if any (without forgetting it; its
   * close event does that), keep the handler, open a new socket with a
   * fresh attempt.
   */
  function AfterConnect(c: Conn, hasHandler: bool): Conn
    requires Inv(c)
  {
    var sockets := if c.ws.Some? then c.sockets[c.ws.value := AfterClose(c.sockets[c.ws.value])] else c.sockets;
    c.(sockets := sockets[c.nextSocket := Connecting], attempts := c.attempts[c.nextSocket := Fresh()],
       nextSocket := c.nextSocket + 1, hasHandler := hasHandler)
  }

  /** `onopen` of socket `id`: the socket is open; a pending attempt resolves and the socket becomes `this.ws`. */
  function AfterOpen(c: Conn, id: SocketId): Conn
    requires id in c.attempts && id in c.sockets
  {
    var a := c.attempts[id];
    var c1 := c.(sockets := c.sockets[id := Open]);
    if a.settled then c1
    else c1.(attempts := c.attempts[id := Settle(a, Opened)], ws := Some(id))
  }

  /** `onerror` of socket `id`: a pending attempt rejects. */
  function AfterError(c: Conn, id: SocketId): Conn
    requires id in c.attempts
  {
    c.(attempts := c.attempts[id := Settle(c.attempts[id], Errored)])
  }

  /** The timer of attempt `id` fires: a pending attempt closes its socket and rejects. */
  function AfterTimeout(c: Conn, id: SocketId): Conn
    requires id in c.attempts && id in c.sockets
  {
    var a := c.attempts[id];
    if a.settled then c
    else c.(attempts := c.attempts[id := Settle(a, TimedOut)], sockets := c.sockets[id := AfterClose(c.sockets[id])])
  }

  /** `onclose` of socket `id` as written: whichever socket closes, `this.ws` is cleared. */
  function AfterCloseEventAsWritten(c: Conn, id: SocketId): Conn
    requires id in c.sockets
  {
    c.(sockets := c.sockets[id := Closed], ws := None)
  }

  /** `onclose` of socket `id`, clearing `this.ws` only when it is that socket. */
  function AfterCloseEvent(c: Conn, id: SocketId): Conn
    requires id in c.sockets
  {
    c.(sockets := c.sockets[id := Closed], ws := if c.ws == Some(id) then None else c.ws)
  }

  /** `send`: one `audio_chunk` message on the open current socket, nothing otherwise. */
  function AfterSend(c: Conn, chunk: AudioChunk): Conn {
    if IsConnected(c) then c.(sent := c.sent + [Sent(c.ws.value, ChunkMessage(chunk))]) else c
  }

  /**
   * `disconnect`: nothing without a socket; on an open one, `end_stream` and
   * a 500 ms close timer; otherwise close and forget it at once.
   */
  function AfterDisconnect(c: Conn): Conn
    requires Inv(c)
  {
    if c.ws.None? then c
    else if c.sockets[c.ws.value] == Open then
      c.(sent := c.sent + [Sent(c.ws.value, EndStream)], closeTimers := c.closeTimers + 1)
    else c.(sockets := c.sockets[c.ws.value := AfterClose(c.sockets[c.ws.value])], ws := None)
  }

  /** The 500 ms timer of `disconnect`: close and forget whatever `this.ws` is by then. */
  function AfterCloseTimer(c: Conn): Conn
    requires Inv(c) && c.closeTimers > 0
  {
    var c1 := c.(closeTimers := c.closeTimers - 1);
    if c.ws.None? then c1
    else c1.(sockets := c.sockets[c.ws.value := AfterClose(c.sockets[c.ws.value])], ws := None)
  }

  lemma InitialOk()
    ensures Inv(Initial()) && !IsConnected(Initial())
  {
  }

  /** `connect` adds one pending socket, keeps the current one, and closes it. */
  lemma ConnectOk(c: Conn, hasHandler: bool)
    requires Inv(c)
    ensures var r := AfterConnect(c, hasHandler);
            Inv(r) && r.ws == c.ws && r.sent == c.sent && r.nextSocket == c.nextSocket + 1 &&
            r.sockets[c.nextSocket] == Connecting && r.attempts[c.nextSocket] == Fresh() &&
            !IsConnected(r) && c.nextSocket !in c.sockets
  {
  }

  /** An open event makes `this.ws` that socket exactly when its attempt was still pending. */
  lemma OpenOk(c: Conn, id: SocketId)
    requires Inv(c) && id in c.sockets
    ensures var r := AfterOpen(c, id);
            Inv(r) && r.sent == c.sent &&
            (r.ws == Some(id) <==> !c.attempts[id].settled || c.ws == Some(id)) &&
            (!c.attempts[id].settled ==> IsConnected(r) && r.attempts[id].outcome == Some(Resolved))
  {
  }

  lemma ErrorOk(c: Conn, id: SocketId)
    requires Inv(c) && id in c.sockets
    ensures var r := AfterError(c, id);
            Inv(r) && r.ws == c.ws && r.sockets == c.sockets &&
            (!c.attempts[id].settled ==> r.attempts[id].outcome == Some(Rejected(FailedReason)))
  {
    SettleOk(c.attempts[id], Errored);
  }

  /** The timeout rejects a pending attempt and closes its socket, which is never `this.ws`. */
  lemma TimeoutOk(c: Conn, id: SocketId)
    requires Inv(c) && id in c.sockets
    ensures var r := AfterTimeout(c, id);
            Inv(r) && r.ws == c.ws && r.sent == c.sent &&
            (!c.attempts[id].settled ==>
               r.attempts[id].outcome == Some(Rejected(TimeoutReason)) && c.ws != Some(id) &&
               r.sockets[id] != Open)
  {
    SettleOk(c.attempts[id], TimedOut);
  }

  /** The close handler as written: the socket is closed and nothing is current afterwards. */
  lemma CloseEventAsWrittenOk(c: Conn, id: SocketId, chunk: AudioChunk)
    requires Inv(c) && id in c.sockets
    ensures var r := AfterCloseEventAsWritten(c, id);
            Inv(r) && r.sockets[id] == Closed && r.ws.None? && r.sent == c.sent && AfterSend(r, chunk) == r
  {
  }

  /** The guarded close handler: the socket is closed, and another socket's close keeps `this.ws`. */
  lemma CloseEventOk(c: Conn, id: SocketId)
    requires Inv(c) && id in c.sockets
    ensures var r := AfterCloseEvent(c, id);
            Inv(r) && r.sockets[id] == Closed && (c.ws != Some(id) ==> r.ws == c.ws)
  {
  }

  /** A chunk goes out exactly when connected, on the current socket, as its `audio_chunk` message. */
  lemma SendOk(c: Conn, chunk: AudioChunk)
    requires Inv(c)
    ensures var r := AfterSend(c, chunk);
            Inv(r) && r.ws == c.ws && r.sockets == c.sockets &&
            (IsConnected(c) <==> |r.sent| == |c.sent| + 1) &&
            (IsConnected(c) ==> r.sent[|c.sent|] == Sent(c.ws.value, ChunkMessage(chunk))) &&
            r.sent[..|c.sent|] == c.sent
  {
  }

  /** On an open socket `end_stream` is its last message; on any other, the socket is closed and forgotten. */
  lemma DisconnectOk(c: Conn)
    requires Inv(c)
    ensures var r := AfterDisconnect(c);
            Inv(r) && r.sent[..|c.sent|] == c.sent &&
            (c.ws.None? ==> r == c) &&
            (IsConnected(c) ==> r.ws == c.ws && r.sent == c.sent + [Sent(c.ws.value, EndStream)] &&
                                r.closeTimers == c.closeTimers + 1) &&
            (c.ws.Some? && !IsConnected(c) ==> r.ws.None? && r.sent == c.sent &&
                                               r.sockets[c.ws.value] != Open)
  {
  }

  /** After the close timer nothing is current and nothing can be sent. */
  lemma CloseTimerOk(c: Conn, chunk: AudioChunk)
    requires Inv(c) && c.closeTimers > 0
    ensures var r := AfterCloseTimer(c);
            Inv(r) && r.ws.None? && !IsConnected(r) && AfterSend(r, chunk) == r
  {
  }

  /**
   * `connect` on a connected streamer, then the new socket opens before the
   * old one finishes closing: when the old socket's close event arrives,
   * the code as written forgets the new, open socket, and every later `send`
   * is dropped.
   */
  lemma StaleCloseForgetsNewSocket()
    ensures var c0 := AfterOpen(AfterConnect(Initial(), true), 0);
            var c1 := AfterOpen(AfterConnect(c0, true), 1);
            IsConnected(c1) && c1.ws == Some(1) &&
            var asWritten := AfterCloseEventAsWritten(c1, 0);
            asWritten.sockets[1] == Open && !IsConnected(asWritten) &&
            AfterSend(asWritten, AudioChunk([], 0, 0.0)).sent == asWritten.sent &&
            IsConnected(AfterCloseEvent(c1, 0))
  {
  }

  /** With the guarded close handler, a socket that is not current never disturbs the current one. */
  lemma CloseOfOtherSocketKeepsCurrent(c: Conn, id: SocketId)
    requires Inv(c) && id in c.sockets && c.ws != Some(id)
    ensures IsConnected(AfterCloseEvent(c, id)) <==> IsConnected(c)
  {
  }

  /** The streamer object; its state is `Model()`. */
  class AudioStreamer {
    var ws: Option<SocketId>
    var sockets: map<SocketId, ReadyState>
    var attempts: map<SocketId, Attempt>
    var nextSocket: nat
    var hasHandler: bool
    var sent: seq<Sent>
    var closeTimers: nat

    ghost function Model(): Conn
      reads this
    {
      Conn(ws, sockets, attempts, nextSocket, hasHandler, sent, closeTimers)
    }

    ghost predicate Valid()
      reads this
    {
      Inv(Model())
    }

    constructor ()
      ensures Valid() && Model() == Initial()
    {
      ws, sockets, attempts, nextSocket := None, map[], map[], 0;
      hasHandler, sent, closeTimers := false, [], 0;
    }

    /** The `isConnected` getter. */
    function Connected(): (b: bool)
      reads this
      ensures b <==> IsConnected(Model())
    {
      ws.Some? && ws.value in sockets && sockets[ws.value] == Open
    }

    /** `connect(url, onMessage)`: returns the new socket, whose attempt decides the promise. */
    method Connect(handler: bool) returns (id: SocketId)
      requires Valid()
      modifies this
      ensures Valid() && Model() == AfterConnect(old(Model()), handler) && id == old(nextSocket)
    {
      ConnectOk(Model(), handler);
      if ws.Some? {
        sockets := sockets[ws.value := AfterClose(sockets[ws.value])];
      }
      hasHandler := handler;
      id := nextSocket;
      sockets, attempts, nextSocket := sockets[id := Connecting], attempts[id := Fresh()], nextSocket + 1;
    }

    method OnOpen(id: SocketId)
      requires Valid() && id in sockets && sockets[id] == Connecting
      modifies this
      ensures Valid() && Model() == AfterOpen(old(Model()), id)
    {
      OpenOk(Model(), id);
      sockets := sockets[id := Open];
      if !attempts[id].settled {
        attempts, ws := attempts[id := Settle(attempts[id], Opened)], Some(id);
      }
    }

    method OnError(id: SocketId)
      requires Valid() && id in sockets
      modifies this
      ensures Valid() && Model() == AfterError(old(Model()), id)
    {
      ErrorOk(Model(), id);
      attempts := attempts[id := Settle(attempts[id], Errored)];
    }

    /** The 5000 ms timer of attempt `id`; a cleared timer never fires. */
    method OnTimeout(id: SocketId)
      requires Valid() && id in attempts && attempts[id].timerArmed
      modifies this
      ensures Valid() && Model() == AfterTimeout(old(Model()), id)
    {
      TimeoutOk(Model(), id);
      if !attempts[id].settled {
        attempts, sockets := attempts[id := Settle(attempts[id], TimedOut)], sockets[id := AfterClose(sockets[id])];
      }
    }

    /**
     * `onclose` of any socket this streamer made clears `this.ws`, as the
     * handler does; `AfterCloseEvent` is the guarded form it should have.
     */
    method OnClose(id: SocketId)
      requires Valid() && id in sockets
      modifies this
      ensures Valid() && Model() == AfterCloseEventAsWritten(old(Model()), id)
    {
      CloseEventAsWrittenOk(Model(), id, AudioChunk([], 0, 0.0));
      sockets, ws := sockets[id := Closed], None;
    }

    /**
     * `onmessage` on any of its sockets: a payload that failed to parse
     * (`None`) is dropped; a parsed one goes to the handler if there is one.
     */
    method OnMessage(id: SocketId, payload: Option<ServerMessage>) returns (delivered: Option<ServerMessage>)
      ensures delivered == Deliver(payload, hasHandler)
    {
      delivered := Deliver(payload, hasHandler);
    }

    method Send(chunk: AudioChunk)
      requires Valid()
      modifies this
      ensures Valid() && Model() == AfterSend(old(Model()), chunk)
    {
      SendOk(Model(), chunk);
      if !Connected() {
        return;
      }
      sent := sent + [Sent(ws.value, ChunkMessage(chunk))];
    }

    method Disconnect()
      requires Valid()
      modifies this
      ensures Valid() && Model() == AfterDisconnect(old(Model()))
    {
      DisconnectOk(Model());
      if ws.None? {
        return;
      }
      if sockets[ws.value] == Open {
        sent, closeTimers := sent + [Sent(ws.value, EndStream)], closeTimers + 1;
      } else {
        sockets, ws := sockets[ws.value := AfterClose(sockets[ws.value])], None;
      }
    }

    /** The 500 ms timer armed by `disconnect`. */
    method OnCloseTimer()
      requires Valid() && closeTimers > 0
      modifies this
      ensures Valid() && Model() == AfterCloseTimer(old(Model()))
    {
      CloseTimerOk(Model(), AudioChunk([], 0, 0.0));
      closeTimers := closeTimers - 1;
      if ws.Some? {
        sockets, ws := sockets[ws.value := AfterClose(sockets[ws.value])], None;
      }
    }
  }
}
