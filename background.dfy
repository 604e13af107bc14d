/**
 * The service worker of src/background.ts: the one confirmed/partial
 * caption pair kept from server messages, the connection and capture flags,
 * and the messages the worker sends to the extension and to the captured tab.
 */
module Background {
  import opened Types
  import opened Wrappers
  import opened Socket
  import LibAudioStreamer

  const ConfirmedKind: string := "confirmed_translation"
  const PartialKind: string := "partial_translation"
  const TranscriptKind: string := "partial"
  const ErrorKind: string := "error"
  const ServerErrorFallback: string := "Server error"

  /** The captions shown in the tab: `confirmedKorean` and `partialKorean`. */
  datatype Captions = Captions(confirmed: string, partial: string)

  /** Messages to the rest of the extension (`chrome.runtime.sendMessage`). */
  datatype RuntimeMessage =
    | ConfirmedTranslation(text: string)
    | PartialTranslation(text: string)
    | Transcript(text: string)
    | ServerError(message: string)
    | WsConnected
    | WsError(error: string)
    | WsDisconnected
    | StopOffscreenCapture
    | CaptureStopped

  /** Messages to the captured tab (`chrome.tabs.sendMessage`). */
  datatype TabMessage = ShowCaption(confirmed: string, partial: string) | RemoveCaption

  datatype Outbound = ToRuntime(runtime: RuntimeMessage) | ToTab(tab: int, message: TabMessage)

  /** JavaScript's `value || fallback` on an optional string: an absent or empty value gives the fallback. */
  function Or(value: Option<string>, fallback: string): (s: string)
    ensures value.Some? && value.value != [] ==> s == value.value
    ensures value.None? || value.value == [] ==> s == fallback
  {
    if value.Some? && value.value != [] then value.value else fallback
  }

  /** `if (activeTabId)`: null and 0 are falsy. */
  predicate Truthy(tab: Option<int>) {
    tab.Some? && tab.value != 0
  }

  /** `sendCaptionToTab` and `removeCaptionFromTab`: a message to the tab when there is one. */
  function ToActiveTab(tab: Option<int>, m: TabMessage): (out: seq<Outbound>)
    ensures Truthy(tab) ==> out == [ToTab(tab.value, m)]
    ensures !Truthy(tab) ==> out == []
  {
    if Truthy(tab) then [ToTab(tab.value, m)] else []
  }

  /**
   * The message callback's effect on the captions: a confirmed translation
   * replaces the confirmed text and clears the partial one, a partial
   * translation replaces only the partial text, every other message leaves
   * both alone.
   */
  function Reduce(c: Captions, m: ServerMessage): (r: Captions)
    ensures r.confirmed != c.confirmed ==> m.kind == ConfirmedKind
    ensures r.partial != c.partial ==> m.kind == ConfirmedKind || m.kind == PartialKind
  {
    if m.kind == ConfirmedKind then Captions(Or(m.text, ""), "")
    else if m.kind == PartialKind then c.(partial := Or(m.text, ""))
    else c
  }

  /** What the callback sends for one message, given the captions it leaves behind. */
  function Effects(c: Captions, m: ServerMessage, tab: Option<int>): seq<Outbound> {
    var r := Reduce(c, m);
    if m.kind == ConfirmedKind then
      [ToRuntime(ConfirmedTranslation(r.confirmed))] + ToActiveTab(tab, ShowCaption(r.confirmed, ""))
    else if m.kind == PartialKind then
      [ToRuntime(PartialTranslation(r.partial))] + ToActiveTab(tab, ShowCaption(r.confirmed, r.partial))
    else if m.kind == TranscriptKind then [ToRuntime(Transcript(Or(m.text, "")))]
    else if m.kind == ErrorKind then [ToRuntime(ServerError(Or(m.message, ServerErrorFallback)))]
    else []
  }

  /** The tab is only ever shown the captions the callback has just stored, and only when there is a tab. */
  lemma ShownCaptionIsState(c: Captions, m: ServerMessage, tab: Option<int>)
    ensures var out := Effects(c, m, tab);
            var r := Reduce(c, m);
            forall i :: 0 <= i < |out| && out[i].ToTab? ==>
              Truthy(tab) && out[i] == ToTab(tab.value, ShowCaption(r.confirmed, r.partial))
  {
  }

  /** A caption message always reaches the tab when there is one; other kinds never do. */
  lemma CaptionReachesTab(c: Captions, m: ServerMessage, tab: Option<int>)
    ensures var out := Effects(c, m, tab);
            (exists i :: 0 <= i < |out| && out[i].ToTab?) <==>
              Truthy(tab) && (m.kind == ConfirmedKind || m.kind == PartialKind)
  {
    var out := Effects(c, m, tab);
    if Truthy(tab) && (m.kind == ConfirmedKind || m.kind == PartialKind) {
      assert out[1].ToTab?;
    }
  }

  /** The captions after a run of messages, in order. */
  function ReduceAll(c: Captions, ms: seq<ServerMessage>): Captions
    decreases |ms|
  {
    if ms == [] then c else ReduceAll(Reduce(c, ms[0]), ms[1..])
  }

  predicate IsCaption(m: ServerMessage) {
    m.kind == ConfirmedKind || m.kind == PartialKind
  }

  /** The last message of kind `confirmed_translation`, if any. */
  function LastConfirmed(ms: seq<ServerMessage>): Option<ServerMessage>
    decreases |ms|
  {
    if ms == [] then None
    else if ms[|ms| - 1].kind == ConfirmedKind then Some(ms[|ms| - 1])
    else LastConfirmed(ms[..|ms| - 1])
  }

  /** The last caption message (confirmed or partial translation), if any. */
  function LastCaption(ms: seq<ServerMessage>): Option<ServerMessage>
    decreases |ms|
  {
    if ms == [] then None
    else if IsCaption(ms[|ms| - 1]) then Some(ms[|ms| - 1])
    else LastCaption(ms[..|ms| - 1])
  }

  /** The captions as the last caption messages determine them, independent of the order of processing. */
  function Expected(c: Captions, ms: seq<ServerMessage>): Captions {
    var confirmed := match LastConfirmed(ms)
      case None => c.confirmed
      case Some(m) => Or(m.text, "");
    var partial := match LastCaption(ms)
      case None => c.partial
      case Some(m) => if m.kind == ConfirmedKind then "" else Or(m.text, "");
    Captions(confirmed, partial)
  }

  /** Processing one more message moves the expected captions by exactly one `Reduce`. */
  lemma ExpectedSnoc(c: Captions, ms: seq<ServerMessage>, m: ServerMessage)
    ensures Expected(c, ms + [m]) == Reduce(Expected(c, ms), m)
  {
    var ms' := ms + [m];
    assert ms'[..|ms'| - 1] == ms;
  }

  lemma {:induction false} ReduceAllSnoc(c: Captions, ms: seq<ServerMessage>, m: ServerMessage)
    ensures ReduceAll(c, ms + [m]) == Reduce(ReduceAll(c, ms), m)
    decreases |ms|
  {
    if ms == [] {
      assert [m][1..] == [];
    } else {
      ReduceAllSnoc(Reduce(c, ms[0]), ms[1..], m);
      assert (ms + [m])[1..] == ms[1..] + [m];
    }
  }

  /**
   * The confirmed caption is the text of the last confirmed translation;
   * the partial one is the text of the last partial translation unless a
   * confirmed translation came after it, and then it is empty.
   */
  lemma {:induction false} ReduceAllIsExpected(c: Captions, ms: seq<ServerMessage>)
    ensures ReduceAll(c, ms) == Expected(c, ms)
    decreases |ms|
  {
    if ms != [] {
      var init := ms[..|ms| - 1];
      var m := ms[|ms| - 1];
      assert ms == init + [m];
      ReduceAllIsExpected(c, init);
      ReduceAllSnoc(c, init, m);
      ExpectedSnoc(c, init, m);
    }
  }

  /**
   * The connection bookkeeping of the worker, by value: the `isConnected`
   * flag, which streamer `streamer` holds (streamers are numbered in the
   * order `connectWebSocket` makes them), and how many have been made.
   */
  datatype Link = Link(isConnected: bool, streamer: Option<nat>, made: nat)

  /** The events that move the flag and the streamer slot. */
  datatype LinkEvent = Start | Opened(from: nat) | Failed(from: nat) | Stop

  function NoLink(): Link {
    Link(false, None, 0)
  }

  /** `connectWebSocket` up to its `await`: nothing while connected; otherwise the next streamer takes the slot. */
  function StartConnect(l: Link): (r: Link)
    ensures l.isConnected ==> r == l
    ensures !l.isConnected ==> r.streamer == Some(l.made) && r.made == l.made + 1 && !r.isConnected
  {
    if l.isConnected then l else l.(streamer := Some(l.made), made := l.made + 1)
  }

  /** The continuation of `connectWebSocket` as written: the flag follows whichever streamer settled. */
  function SettledAsWritten(l: Link, from: nat, open: bool): Link {
    l.(isConnected := open)
  }

  /**
   * The continuation guarded by the streamer it awaited: only the streamer
   * still in the slot decides the flag; a superseded one is ignored.
   */
  function SettledGuarded(l: Link, from: nat, open: bool): Link {
    if l.streamer == Some(from) then l.(isConnected := open) else l
  }

  /** `disconnectWebSocket`: only with a streamer that is connected. */
  function DisconnectLink(l: Link): (r: Link)
    ensures l.streamer.Some? && l.isConnected ==> !r.isConnected && r.streamer.None?
    ensures !(l.streamer.Some? && l.isConnected) ==> r == l
  {
    if l.streamer.Some? && l.isConnected then l.(isConnected := false, streamer := None) else l
  }

  function StepAsWritten(l: Link, e: LinkEvent): Link {
    match e
    case Start => StartConnect(l)
    case Opened(from) => SettledAsWritten(l, from, true)
    case Failed(from) => SettledAsWritten(l, from, false)
    case Stop => DisconnectLink(l)
  }

  function StepGuarded(l: Link, e: LinkEvent): Link {
    match e
    case Start => StartConnect(l)
    case Opened(from) => SettledGuarded(l, from, true)
    case Failed(from) => SettledGuarded(l, from, false)
    case Stop => DisconnectLink(l)
  }

  function RunAsWritten(l: Link, es: seq<LinkEvent>): Link
    decreases |es|
  {
    if es == [] then l else RunAsWritten(StepAsWritten(l, es[0]), es[1..])
  }

  function RunGuarded(l: Link, es: seq<LinkEvent>): Link
    decreases |es|
  {
    if es == [] then l else RunGuarded(StepGuarded(l, es[0]), es[1..])
  }

  /** Whenever the worker counts itself connected, it holds a streamer that `disconnectWebSocket` can close. */
  predicate Linked(l: Link) {
    l.isConnected ==> l.streamer.Some?
  }

  /**
   * Two `START_CAPTURE`s before the first connect settles, the first socket
   * opens, `STOP_CAPTURE`, then the second socket opens: as written, the
   * worker counts itself connected with no streamer. From then on starting
   * answers "already connected" and stopping does nothing, so it stays so.
   */
  lemma StrandedConnection(more: seq<LinkEvent>)
    requires forall k :: 0 <= k < |more| ==> more[k] == Start || more[k] == Stop
    ensures var l := RunAsWritten(NoLink(), [Start, Start, Opened(0), Stop, Opened(1)]);
            l.isConnected && l.streamer.None? && !Linked(l) && RunAsWritten(l, more) == l
  {
    var l := Link(true, None, 2);
    StuckStays(l, more);
  }

  /** Neither starting nor stopping moves a worker that is connected without a streamer. */
  lemma {:induction false} StuckStays(l: Link, more: seq<LinkEvent>)
    requires l.isConnected && l.streamer.None?
    requires forall k :: 0 <= k < |more| ==> more[k] == Start || more[k] == Stop
    ensures RunAsWritten(l, more) == l
    decreases |more|
  {
    if more != [] {
      assert StepAsWritten(l, more[0]) == l;
      StuckStays(l, more[1..]);
    }
  }

  /** With the guarded continuation, every step keeps the worker linked, and stopping always disconnects. */
  lemma GuardedStepOk(l: Link, e: LinkEvent)
    requires Linked(l)
    ensures Linked(StepGuarded(l, e))
    ensures e == Stop ==> !StepGuarded(l, e).isConnected
    ensures e.Opened? || e.Failed? ==>
              StepGuarded(l, e).isConnected != l.isConnected ==> l.streamer == Some(e.from)
  {
  }

  /** With the guarded continuation, every run of events from the start keeps the worker linked. */
  lemma {:induction false} GuardedRunLinked(l: Link, es: seq<LinkEvent>)
    requires Linked(l)
    ensures Linked(RunGuarded(l, es))
    decreases |es|
  {
    if es != [] {
      GuardedStepOk(l, es[0]);
      GuardedRunLinked(StepGuarded(l, es[0]), es[1..]);
    }
  }

  /** The service worker's module-level state. */
  class ServiceWorker {
    var confirmed: string
    var partial: string
    var isConnected: bool
    var isCapturing: bool
    var streamer: LibAudioStreamer.AudioStreamer?
    var activeTabId: Option<int>
    /** Every message sent so far, in order. */
    var outbox: seq<Outbound>
    /** The number of the streamer in `streamer`, in the order they were made. */
    ghost var slot: Option<nat>
    /** How many streamers `connectWebSocket` has made. */
    ghost var made: nat

    /** The connection bookkeeping as the value `Link` steps. */
    ghost function Connection(): Link
      reads this
    {
      Link(isConnected, slot, made)
    }

    /**
     * A sound streamer, numbered exactly when there is one. The worker may
     * count itself connected with no streamer (see `StrandedConnection`),
     * so that is not excluded.
     */
    ghost predicate Valid()
      reads this, streamer
    {
      && (streamer != null ==> streamer.Valid())
      && (streamer == null <==> slot.None?)
    }

    constructor ()
      ensures Valid() && confirmed == "" && partial == "" && !isConnected && !isCapturing
      ensures streamer == null && activeTabId.None? && outbox == [] && Connection() == NoLink()
    {
      confirmed, partial, isConnected, isCapturing := "", "", false, false;
      streamer, activeTabId, outbox := null, None, [];
      slot, made := None, 0;
    }

    /** `START_CAPTURE` records the queried tab's id before connecting. */
    method SetActiveTab(id: int)
      modifies this
      ensures activeTabId == Some(id)
      ensures confirmed == old(confirmed) && partial == old(partial) && isConnected == old(isConnected)
      ensures isCapturing == old(isCapturing) && streamer == old(streamer) && outbox == old(outbox)
      ensures Connection() == old(Connection())
    {
      activeTabId := Some(id);
    }

    /**
     * `connectWebSocket` up to its `await`: nothing while connected;
     * otherwise clear the captions, make a new streamer and start its
     * connect, whose socket is returned.
     */
    method ConnectWebSocket() returns (attempt: Option<SocketId>)
      requires Valid()
      modifies this
      ensures Valid() && isConnected == old(isConnected) && outbox == old(outbox)
      ensures activeTabId == old(activeTabId) && isCapturing == old(isCapturing)
      ensures Connection() == StartConnect(old(Connection()))
      ensures old(isConnected) ==> confirmed == old(confirmed) && partial == old(partial) &&
                                   streamer == old(streamer) && attempt.None?
      ensures !old(isConnected) ==> confirmed == "" && partial == "" && streamer != null && fresh(streamer) &&
                                    attempt == Some(0) &&
                                    streamer.Model() == LibAudioStreamer.AfterConnect(LibAudioStreamer.Initial(), true)
    {
      if isConnected {
        return None;
      }
      confirmed, partial := "", "";
      var s := new LibAudioStreamer.AudioStreamer();
      var id := s.Connect(true);
      streamer := s;
      slot, made := Some(made), made + 1;
      attempt := Some(id);
    }

    /**
     * The rest of `connectWebSocket`, once the connect promise settles:
     * connected and `WS_CONNECTED`, or not connected and `WS_ERROR` with
     * `String(error)`. It sets the flag whichever streamer is in the slot
     * by then, as `SettledAsWritten` does.
     */
    method OnConnectSettled(ghost from: nat, outcome: LibAudioStreamer.Outcome)
      requires Valid()
      modifies this
      ensures Valid() && isConnected == outcome.Resolved?
      ensures outcome.Resolved? ==> outbox == old(outbox) + [ToRuntime(WsConnected)]
      ensures outcome.Rejected? ==> outbox == old(outbox) + [ToRuntime(WsError("Error: " + outcome.reason))]
      ensures confirmed == old(confirmed) && partial == old(partial) && streamer == old(streamer)
      ensures activeTabId == old(activeTabId) && isCapturing == old(isCapturing)
      ensures Connection() == SettledAsWritten(old(Connection()), from, outcome.Resolved?)
    {
      if outcome.Resolved? {
        isConnected := true;
        outbox := outbox + [ToRuntime(WsConnected)];
      } else {
        isConnected := false;
        outbox := outbox + [ToRuntime(WsError("Error: " + outcome.reason))];
      }
    }

    /** The message callback handed to `streamer.connect`. */
    method OnServerMessage(m: ServerMessage)
      requires Valid()
      modifies this
      ensures Valid()
      ensures Captions(confirmed, partial) == Reduce(Captions(old(confirmed), old(partial)), m)
      ensures outbox == old(outbox) + Effects(Captions(old(confirmed), old(partial)), m, activeTabId)
      ensures isConnected == old(isConnected) && streamer == old(streamer) && activeTabId == old(activeTabId)
      ensures isCapturing == old(isCapturing) && Connection() == old(Connection())
    {
      var before := Captions(confirmed, partial);
      if m.kind == ConfirmedKind {
        confirmed := Or(m.text, "");
        partial := "";
        outbox := outbox + [ToRuntime(ConfirmedTranslation(confirmed))];
        outbox := outbox + ToActiveTab(activeTabId, ShowCaption(confirmed, ""));
      }
      if m.kind == PartialKind {
        partial := Or(m.text, "");
        outbox := outbox + [ToRuntime(PartialTranslation(partial))];
        outbox := outbox + ToActiveTab(activeTabId, ShowCaption(confirmed, partial));
      }
      if m.kind == TranscriptKind {
        outbox := outbox + [ToRuntime(Transcript(Or(m.text, "")))];
      }
      if m.kind == ErrorKind {
        outbox := outbox + [ToRuntime(ServerError(Or(m.message, ServerErrorFallback)))];
      }
    }

    /** `disconnectWebSocket`: only with a streamer that is connected. */
    method DisconnectWebSocket()
      requires Valid()
      modifies this, streamer
      ensures Valid()
      ensures old(streamer) != null && old(isConnected) ==>
                !isConnected && streamer == null && outbox == old(outbox) + [ToRuntime(WsDisconnected)] &&
                old(streamer).Valid() &&
                old(streamer).Model() == LibAudioStreamer.AfterDisconnect(old(streamer.Model()))
      ensures !(old(streamer) != null && old(isConnected)) ==>
                isConnected == old(isConnected) && streamer == old(streamer) && outbox == old(outbox) &&
                (streamer != null ==> streamer.Model() == old(streamer.Model()))
      ensures confirmed == old(confirmed) && partial == old(partial) && activeTabId == old(activeTabId)
      ensures isCapturing == old(isCapturing) && Connection() == DisconnectLink(old(Connection()))
    {
      if streamer != null && isConnected {
        streamer.Disconnect();
        isConnected := false;
        streamer, slot := null, None;
        outbox := outbox + [ToRuntime(WsDisconnected)];
      }
    }

    /**
     * The `STOP_CAPTURE` branch: stop the offscreen capture, disconnect,
     * remove the caption from the tab, forget the tab; the response is
     * always success.
     */
    method StopCapture() returns (success: bool)
      requires Valid()
      modifies this, streamer
      ensures Valid() && success && !isCapturing && activeTabId.None?
      ensures isConnected <==> old(isConnected) && old(streamer) == null
      ensures old(streamer) != null && old(isConnected) ==>
                streamer == null && old(streamer).Valid() &&
                old(streamer).Model() == LibAudioStreamer.AfterDisconnect(old(streamer.Model()))
      ensures !(old(streamer) != null && old(isConnected)) ==>
                streamer == old(streamer) && (streamer != null ==> streamer.Model() == old(streamer.Model()))
      ensures outbox == old(outbox) + [ToRuntime(StopOffscreenCapture)] +
                        (if old(streamer) != null && old(isConnected) then [ToRuntime(WsDisconnected)] else []) +
                        ToActiveTab(old(activeTabId), RemoveCaption) + [ToRuntime(CaptureStopped)]
      ensures confirmed == old(confirmed) && partial == old(partial) && Connection() == DisconnectLink(old(Connection()))
    {
      outbox := outbox + [ToRuntime(StopOffscreenCapture)];
      isCapturing := false;
      DisconnectWebSocket();
      outbox := outbox + ToActiveTab(activeTabId, RemoveCaption);
      activeTabId := None;
      outbox := outbox + [ToRuntime(CaptureStopped)];
      success := true;
    }

    /**
     * The `AUDIO_CHUNK` branch: with a connected streamer, the chunk's
     * numbers become an Int16Array and go to `send`; otherwise it is dropped.
     */
    method AudioChunkMessage(pcm: seq<int>, chunkIndex: int, durationMs: real)
      requires Valid()
      modifies streamer
      ensures Valid()
      ensures streamer != null && isConnected ==>
                streamer.Model() == LibAudioStreamer.AfterSend(old(streamer.Model()),
                                      AudioChunk(seq(|pcm|, i requires 0 <= i < |pcm| => ToInt16(pcm[i])), chunkIndex, durationMs))
      ensures !(streamer != null && isConnected) && streamer != null ==> streamer.Model() == old(streamer.Model())
    {
      if streamer != null && isConnected {
        var chunk := AudioChunk(seq(|pcm|, i requires 0 <= i < |pcm| => ToInt16(pcm[i])), chunkIndex, durationMs);
        streamer.Send(chunk);
      }
    }
  }
}
