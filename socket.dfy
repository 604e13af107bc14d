/**
 * What both transports share: WebSocket ready states, the JSON messages the
 * client writes, and the server messages the caption logic reads.
 */
module Socket {
  import opened Types
  import opened Wrappers
  import Base64

  /** A WebSocket object, by identity. */
  type SocketId = nat

  /** `WebSocket.readyState`. */
  datatype ReadyState = Connecting | Open | Closing | Closed

  /** `ws.close()`: a socket not yet closing starts its closing handshake; otherwise nothing happens. */
  function AfterClose(r: ReadyState): (r': ReadyState)
    ensures r' != Connecting && r' != Open
    ensures r == Closing || r == Closed ==> r' == r
  {
    if r == Connecting || r == Open then Closing else r
  }

  /** A JSON message the client sends; key order is not part of the model. */
  datatype Outgoing =
    | AudioChunkMessage(audioBase64: seq<char>, chunkIndex: int, durationMs: real)
    | EndStream

  /** A message written on a particular socket. */
  datatype Sent = Sent(socket: SocketId, message: Outgoing)

  /** The `audio_chunk` message for a chunk: its index and duration, and its PCM in base64. */
  function ChunkMessage(chunk: AudioChunk): (m: Outgoing)
    ensures m.AudioChunkMessage? && m.chunkIndex == chunk.chunkIndex && m.durationMs == chunk.durationMs
    ensures Base64.Decode(m.audioBase64) == Some(Base64.PcmBytes(chunk.pcm))
  {
    AudioChunkMessage(Base64.Int16ArrayToBase64(chunk.pcm), chunk.chunkIndex, chunk.durationMs)
  }

  /**
   * A parsed server message: its `type`, and its `text` and `message`
   * fields when they are present strings.
   */
  datatype ServerMessage = ServerMessage(kind: string, text: Option<string>, message: Option<string>)

  /**
   * The `onmessage` handler of either client: a payload that failed to
   * parse (`None`) is dropped; a parsed one reaches the handler unchanged
   * when there is one.
   */
  function Deliver(payload: Option<ServerMessage>, hasHandler: bool): (delivered: Option<ServerMessage>)
    ensures delivered.Some? <==> payload.Some? && hasHandler
    ensures delivered.Some? ==> delivered == payload
  {
    if hasHandler then payload else None
  }
}
