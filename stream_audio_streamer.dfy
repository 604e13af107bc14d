/**
 * The WebSocket client of src/stream/audioStreamer.ts: `connect` adopts the
 * new socket at once and waits for it to open (no timeout, no rejection),
 * `send` builds the binary string with an explicit loop, and `disconnect`
 * closes 100 ms after `end_stream`.
 */
module StreamAudioStreamer {
  import opened Types
  import opened Wrappers
  import opened Socket
  import Base64

  const EndStreamCloseDelayMs: nat := 100

  /**
   * `binary += String.fromCharCode(uint8Array[i])` for each byte in order:
   * the same string as `Array.from(bytes, String.fromCharCode).join("")`.
   */
  method BinaryString(bytes: seq<Base64.Byte>) returns (binary: string)
    ensures binary == Base64.ByteString(bytes)
  {
    binary := "";
    var i := 0;
    while i < |bytes|
      invariant 0 <= i <= |bytes|
      invariant binary == Base64.ByteString(bytes[..i])
    {
      binary := binary + [bytes[i] as char];
      i := i + 1;
    }
    assert bytes[..i] == bytes;
  }

  /** The streamer object. */
  class AudioStreamer {
    var ws: Option<SocketId>
    var sockets: map<SocketId, ReadyState>
    var nextSocket: nat
    var hasHandler: bool
    /** The sockets whose `connect` promise has resolved. */
    var resolved: set<SocketId>
    var sent: seq<Sent>
    var closeTimers: nat

    ghost predicate Valid()
      reads this
    {
      && (ws.Some? ==> ws.value in sockets)
      && (forall id :: id in sockets ==> id < nextSocket)
      && resolved <= sockets.Keys
    }

    constructor ()
      ensures Valid() && ws.None? && sockets == map[] && resolved == {} && sent == [] && closeTimers == 0
      ensures nextSocket == 0 && !hasHandler
    {
      ws, sockets, nextSocket, hasHandler := None, map[], 0, false;
      resolved, sent, closeTimers := {}, [], 0;
    }

    /** `connect`: the new socket becomes `this.ws` at once; any earlier socket is left as it is. */
    method Connect(handler: bool) returns (id: SocketId)
      requires Valid()
      modifies this
      ensures Valid() && id == old(nextSocket) && id !in old(sockets)
      ensures ws == Some(id) && sockets == old(sockets)[id := Connecting] && hasHandler == handler
      ensures nextSocket == old(nextSocket) + 1
      ensures resolved == old(resolved) && sent == old(sent) && closeTimers == old(closeTimers)
    {
      id := nextSocket;
      ws, sockets, nextSocket, hasHandler := Some(id), sockets[id := Connecting], nextSocket + 1, handler;
    }

    /** `onopen`: the socket opens and its `connect` resolves. */
    method OnOpen(id: SocketId)
      requires Valid() && id in sockets && sockets[id] == Connecting
      modifies this
      ensures Valid() && sockets == old(sockets)[id := Open] && resolved == old(resolved) + {id}
      ensures ws == old(ws) && sent == old(sent) && closeTimers == old(closeTimers)
      ensures nextSocket == old(nextSocket) && hasHandler == old(hasHandler)
    {
      sockets, resolved := sockets[id := Open], resolved + {id};
    }

    /** `onerror` only logs: no promise is rejected and nothing changes. */
    method OnError(id: SocketId)
      requires Valid() && id in sockets
      modifies this
      ensures Valid() && unchanged(this)
    {
    }

    /** `onclose` only logs: the socket is closed but stays `this.ws`. */
    method OnClose(id: SocketId)
      requires Valid() && id in sockets
      modifies this
      ensures Valid() && ws == old(ws) && sockets == old(sockets)[id := Closed] && resolved == old(resolved)
      ensures sent == old(sent) && closeTimers == old(closeTimers)
      ensures nextSocket == old(nextSocket) && hasHandler == old(hasHandler)
    {
      sockets := sockets[id := Closed];
    }

    /** `onmessage`: a payload that failed to parse is dropped; a parsed one goes to the handler if set. */
    method OnMessage(id: SocketId, payload: Option<ServerMessage>) returns (delivered: Option<ServerMessage>)
      ensures delivered == Deliver(payload, hasHandler)
    {
      delivered := Deliver(payload, hasHandler);
    }

    /**
     * `send`: on an open socket, the `audio_chunk` message; the payload is
     * the very message the other streamer sends for the same chunk.
     */
    method Send(chunk: AudioChunk)
      requires Valid()
      modifies this
      ensures Valid() && ws == old(ws) && sockets == old(sockets) && closeTimers == old(closeTimers)
      ensures ws.Some? && sockets[ws.value] == Open ==> sent == old(sent) + [Sent(ws.value, ChunkMessage(chunk))]
      ensures !(ws.Some? && sockets[ws.value] == Open) ==> sent == old(sent)
      ensures resolved == old(resolved) && nextSocket == old(nextSocket) && hasHandler == old(hasHandler)
    {
      if ws.None? || sockets[ws.value] != Open {
        return;
      }
      var bytes := Base64.PcmBytes(chunk.pcm);
      var binary := BinaryString(bytes);
      Base64.BtoaOfByteString(bytes);
      var audioBase64 := Base64.Btoa(binary).value;
      sent := sent + [Sent(ws.value, AudioChunkMessage(audioBase64, chunk.chunkIndex, chunk.durationMs))];
    }

    /**
     * `disconnect`: on an open socket, `end_stream` and a 100 ms close timer;
     * on any other socket, close and forget it; without one, nothing.
     */
    method Disconnect()
      requires Valid()
      modifies this
      ensures Valid()
      ensures old(ws).Some? && old(sockets)[old(ws).value] == Open ==>
                ws == old(ws) && sockets == old(sockets) && sent == old(sent) + [Sent(ws.value, EndStream)] &&
                closeTimers == old(closeTimers) + 1
      ensures old(ws).Some? && old(sockets)[old(ws).value] != Open ==>
                ws.None? && sockets == old(sockets)[old(ws).value := AfterClose(old(sockets)[old(ws).value])] &&
                sent == old(sent) && closeTimers == old(closeTimers)
      ensures old(ws).None? ==> ws.None? && sockets == old(sockets) && sent == old(sent) && closeTimers == old(closeTimers)
      ensures resolved == old(resolved) && nextSocket == old(nextSocket) && hasHandler == old(hasHandler)
    {
      if ws.Some? && sockets[ws.value] == Open {
        sent, closeTimers := sent + [Sent(ws.value, EndStream)], closeTimers + 1;
      } else if ws.Some? {
        sockets, ws := sockets[ws.value := AfterClose(sockets[ws.value])], None;
      }
    }

    /** The 100 ms timer armed by `disconnect`: close and forget whatever `this.ws` is by then. */
    method OnCloseTimer()
      requires Valid() && closeTimers > 0
      modifies this
      ensures Valid() && ws.None? && closeTimers == old(closeTimers) - 1 && sent == old(sent)
      ensures old(ws).Some? ==> sockets == old(sockets)[old(ws).value := AfterClose(old(sockets)[old(ws).value])]
      ensures old(ws).None? ==> sockets == old(sockets)
      ensures resolved == old(resolved) && nextSocket == old(nextSocket) && hasHandler == old(hasHandler)
    {
      closeTimers := closeTimers - 1;
      if ws.Some? {
        sockets, ws := sockets[ws.value := AfterClose(sockets[ws.value])], None;
      }
    }
  }
}
