# Typingo core, modelled in Dafny

Typingo is a browser extension that captures a tab's audio and streams it
to a speech-translation server. It shows the translated captions over the
page and can hold the page's videos back so that they line up with the
captions. This project models five pieces of its logic and proves
properties of them:

- **Audio chunker** (`audio_worklet.dfy`, `archived_worklet.dfy`, `pcm.dfy`).
  - The live AudioWorklet averages 48 kHz frames three at a time into
    16 kHz samples, mixing stereo down to mono first.
  - It fills a 16000-slot buffer and posts a chunk of 16-bit PCM with a
    running index once the write cursor reaches the configured target.
  - The earlier fixed-size worklet reads one channel only. It posts chunks
    of exactly 5120 samples, stamped with an audio-clock start time.
- **Word diff** (`diff_words.dfy`).
  - Both texts are split into words, and a dynamic-programming table gives
    a longest common subsequence of the two word lists.
  - A greedy scan then marks each new word as unchanged or added.
  - The methods follow the source's loops and are proved to compute the
    specification functions. The unchanged words are proved to form a
    longest common subsequence.
- **Video delay** (`video_delay.dfy`).
  - A `DelayedVideoInstance` keeps a bounded pool of textures, and each
    captured frame gets a promotion timer.
  - Its render loop shows the first frame during warm-up and the promoted
    frame afterwards.
  - A `VideoDelayer` keeps one instance and one pending frame callback per
    video.
  - Only the bookkeeping is modelled. Textures are handles, and clock
    readings and timer firings are parameters and method calls.
- **Service worker** (`background.dfy`).
  - The confirmed/partial caption pair is updated by server messages.
  - The connection and capture flags are kept alongside it.
  - The messages the worker sends to the extension and to the captured tab
    are recorded in order.
- **Transport** (`lib_audio_streamer.dfy`, `stream_audio_streamer.dfy`, `socket.dfy`, `base64.dfy`).
  - Two WebSocket clients are modelled. One has a connect promise that
    settles once, on open, error or a 5 s timeout; the other's connect
    never rejects.
  - Both guard `send`, and both send `end_stream` before closing.
  - The payload is the PCM buffer's bytes in memory order, encoded as
    base64 per section 4 of RFC 4648. A decoder is proved to give the bytes
    back, and the two clients are proved to send the same string.

The state-changing code is written as classes whose fields are the
source's fields. Each method is proved against a step function on a record
of that state (`Model()`), and the invariants each step preserves are
proved as lemmas about those functions. Network events, timers,
`performance.now()` and `document.hidden` are parameters or calls made by
the environment. The classes follow the code as written, including the two defects under
"## Findings"; the corrected steps are functions beside them, with the
property they restore proved.

## Model

| member | source | states |
|---|---|---|
| Types.ToInt16 | src/background.ts:190-191 | A number stored into an Int16Array element keeps its value modulo 2^16, in the signed 16-bit range; an in-range value is stored unchanged |
| Pcm.Clamp | public/audioWorklet.js:69 | The clamped sample lies in [-1, 1], equals the input inside that range and the nearer bound outside it |
| Pcm.JsRound | public/audioWorklet.js:70 | `Math.round` gives the integer within half a unit of its argument, rounding halves up |
| Pcm.Quantize | public/audioWorklet.js:69-70 | Every PCM value lies in [-32767, 32767] |
| Pcm.QuantizeAnchors | public/audioWorklet.js:66-71 | 1.0 maps to 32767, 0 to 0 and -1.0 to -32767, so -32768 is never produced |
| Pcm.QuantizeSaturates | public/audioWorklet.js:69-70 | Samples beyond full scale saturate to +/-32767 instead of wrapping |
| Pcm.QuantizeMonotone | src/archieve/audioWorklet.ts:79-80 | A larger sample never gives a smaller PCM value |
| Pcm.DecimateDropsTail | public/audioWorklet.js:41 | A block of n frames gives floor(n/3) samples; the 1 or 2 trailing frames are dropped, not carried into the next block |
| Pcm.StereoMatchesMono | public/audioWorklet.js:44-53 | With equal left and right channels, the stereo mix-down gives the same samples as the mono path |
| AudioWorklet.PcmOf | public/audioWorklet.js:66-71 | A chunk's PCM has one value per buffered sample, each within [-32767, 32767] |
| AudioWorklet.InitialSeconds | public/audioWorklet.js:9 | A missing or zero configured duration falls back to 0.32 s; any other value is kept |
| AudioWorklet.FeedKeepsPosted | public/audioWorklet.js:55-59 | Writing samples never changes the threshold or the stamped duration, and never alters chunks already posted |
| AudioWorklet.FeedIndexed | public/audioWorklet.js:14 | Chunk indices start at 0 and grow by one per chunk, with no gaps |
| AudioWorklet.FeedChunkLengths | public/audioWorklet.js:55-59 | No chunk is shorter than the threshold in force or empty; from a settled state every chunk has exactly the threshold's length |
| AudioWorklet.RetargetDoesNotReslice | public/audioWorklet.js:27-30 | For every state and every new duration, the next write after a retarget posts everything buffered plus that sample as one chunk, with the new duration, exactly when the new target is at most that many samples, however far below it the target is; otherwise nothing is posted |
| AudioWorklet.AudioProcessor.constructor | public/audioWorklet.js:5-14 | The processor starts empty with index 0 and the threshold of the configured or default duration (5120 samples, 320 ms) |
| AudioWorklet.AudioProcessor.SetChunkDuration | public/audioWorklet.js:27-30 | Only the threshold and the stamped duration change; buffered samples and the cursor are kept |
| AudioWorklet.AudioProcessor.OnMessage | public/audioWorklet.js:17-22 | A SET_CHUNK_DURATION message retargets the processor; any other message changes nothing |
| AudioWorklet.AudioProcessor.Process | public/audioWorklet.js:32-63 | Without a first input or channel nothing changes; otherwise the block's floor(n/3) box-filtered samples are written in order; the call always returns true |
| AudioWorklet.AudioProcessor.WriteSample | public/audioWorklet.js:55-59 | One sample is buffered (a write past slot 16000 is dropped), then a chunk is posted once the cursor reaches the threshold |
| AudioWorklet.AudioProcessor.SendChunk | public/audioWorklet.js:65-83 | Posts the quantised buffer with the current index and duration, then bumps the index and empties the buffer |
| ArchivedWorklet.FeedTimed | src/archieve/audioWorklet.ts:52-69 | Fewer than 5120 samples stay buffered, so the 10240-slot buffer is never overrun; chunk k holds exactly 5120 samples, starts at origin + 320k ms and lasts 320 ms |
| ArchivedWorklet.AudioWorkletProcessorImpl.constructor | src/archieve/audioWorklet.ts:26-32 | The processor starts empty with its start time at the audio clock's reading |
| ArchivedWorklet.AudioWorkletProcessorImpl.Process | src/archieve/audioWorklet.ts:34-73 | Without input nothing changes; otherwise only channel 0 is box-filtered and written, any second channel is ignored, and the call returns true |
| ArchivedWorklet.AudioWorkletProcessorImpl.WriteSample | src/archieve/audioWorklet.ts:50-69 | One sample is buffered; at 5120 the first 5120 samples are posted with the current start time, which then advances by 320 ms |
| ArchivedWorklet.AudioWorkletProcessorImpl.FloatToPcm16 | src/archieve/audioWorklet.ts:75-83 | The output has the input's length, and each value is the clamped sample scaled by 0x7fff and rounded, within [-32767, 32767] |
| DiffWords.FirstWord | src/lib/diffWords.ts:57-58 | The first token of a text with a non-space character is a non-empty run of non-whitespace |
| DiffWords.AfterFirstWord | src/lib/diffWords.ts:57-58 | What follows the first token is shorter than the text and starts with whitespace or is empty |
| DiffWords.WordsAreWords | src/lib/diffWords.ts:57-58 | Splitting on whitespace and dropping empty strings yields only non-empty words without whitespace |
| DiffWords.WordsSplit | src/lib/diffWords.ts:57-58 | Splitting text joined at a whitespace character gives the words of each side, in order |
| DiffWords.WordsOfSpace | src/lib/diffWords.ts:57-58 | A text of whitespace only has no words |
| DiffWords.WordsOfWord | src/lib/diffWords.ts:57-58 | A single word splits into itself |
| DiffWords.WordsAfterSpace | src/lib/diffWords.ts:57-58 | Leading whitespace does not change the words |
| DiffWords.LcsStep | src/lib/diffWords.ts:24-28 | The table recurrence: a matching last word extends the diagonal entry by one, otherwise the larger neighbour is kept |
| DiffWords.BacktrackIsCommon | src/lib/diffWords.ts:37-47 | The backtracked sequence is a subsequence of both word lists and its length is the table's final entry |
| DiffWords.LcsIsLongest | src/lib/diffWords.ts:22-30 | No common subsequence is longer than the table's entry, so `dp[i][j]` is the length of a longest common subsequence of the prefixes |
| DiffWords.LcsSymmetric | src/lib/diffWords.ts:22-30 | The LCS length does not depend on which list is the first |
| DiffWords.LcsOfSelf | src/lib/diffWords.ts:22-30 | A list's LCS with itself is the whole list |
| DiffWords.BacktrackStep | src/lib/diffWords.ts:38-46 | Each backtracking step keeps a matching word, otherwise moves up when the upper entry is strictly larger and left otherwise |
| DiffWords.Greedy | src/lib/diffWords.ts:71-76 | The greedy scan gives one mark per new word |
| DiffWords.GreedyMatchesAll | src/lib/diffWords.ts:68-76 | When the LCS is a subsequence of the new words, the greedy scan marks exactly its words, in order, and misses none |
| DiffWords.GreedyExhausted | src/lib/diffWords.ts:71 | Once the new words or the LCS run out, no further word is marked |
| DiffWords.DiffIsLcs | src/lib/diffWords.ts:56-83 | One entry per new word with its text in order; the unchanged words form a common subsequence of both word lists of maximal length; without old words every word is added |
| DiffWords.DiffOfSame | src/lib/diffWords.ts:56-83 | Diffing a text against itself marks every word unchanged |
| DiffWords.DiffAppendWord | src/lib/diffWords.ts:56-83 | Appending one word to a text marks the old words unchanged and only the new word added |
| DiffWords.DiffCatSat | src/lib/diffWords.ts:56-83 | "the cat sat" against "the cat sat here" marks the three old words unchanged and only "here" added |
| DiffWords.DiffThreePlusOne | src/lib/diffWords.ts:56-83 | Three words against the same three words and one more: only the fourth is added |
| DiffWords.FillRow | src/lib/diffWords.ts:23-29 | The inner loop fills row i with the LCS lengths of the prefixes and leaves every other row alone |
| DiffWords.FillTable | src/lib/diffWords.ts:18-30 | After the fill loops every `dp[i][j]` is the LCS length of `a[..i]` and `b[..j]` |
| DiffWords.FindLcs | src/lib/diffWords.ts:13-50 | `findLCS` returns the backtracked sequence: a common subsequence of both lists whose length is the LCS length |
| DiffWords.MarkPositions | src/lib/diffWords.ts:68-76 | The marking loop puts position i in the set exactly when the greedy scan marks new word i |
| DiffWords.LabelPositions | src/lib/diffWords.ts:79-82 | The result has one entry per new word |
| DiffWords.LabelPositionsIsLabel | src/lib/diffWords.ts:79-82 | Labelling by the position set is labelling by the greedy marks |
| DiffWords.ComputeDiff | src/lib/diffWords.ts:56-83 | `diffWords` computes the specified diff, including the early return when the old text has no words |
| Base64.Char | src/lib/audioStreamer.ts:109 | Every 6-bit value maps to a character of the RFC 4648 alphabet |
| Base64.Value | src/lib/audioStreamer.ts:109 | Decoding an alphabet character inverts the alphabet map |
| Base64.ValueOfChar | src/lib/audioStreamer.ts:109 | The alphabet map is injective: decoding its character gives the 6-bit value back |
| Base64.Encode | src/lib/audioStreamer.ts:109 | The encoding of n bytes has 4 * ceil(n/3) characters |
| Base64.Decode | src/lib/audioStreamer.ts:109 | A decodable string has a length that is a multiple of 4 |
| Base64.DecodeEncode | src/lib/audioStreamer.ts:109 | Decoding the encoding of any byte string gives the bytes back |
| Base64.EncodeAlphabet | src/lib/audioStreamer.ts:109 | Every output character is in the alphabet, except padding `=` in the last two positions |
| Base64.Int16Bytes | src/lib/audioStreamer.ts:106 | Each Int16 element occupies two bytes of the buffer |
| Base64.Int16OfBytes | src/lib/audioStreamer.ts:106 | The two little-endian bytes of an element read back as that element |
| Base64.PcmBytes | src/lib/audioStreamer.ts:106 | The byte view of n elements has 2n bytes |
| Base64.PcmOfBytes | src/lib/audioStreamer.ts:106 | Reading an even number of bytes as Int16 elements gives half as many elements |
| Base64.PcmBytesAt | src/lib/audioStreamer.ts:106 | Bytes 2i and 2i+1 of the view are element i's bytes, in memory order |
| Base64.PcmOfPcmBytes | src/lib/audioStreamer.ts:106 | Reading the byte view back as Int16 elements gives the original elements |
| Base64.ByteString | src/lib/audioStreamer.ts:108 | The binary string has one character per byte |
| Base64.CharCodes | src/lib/audioStreamer.ts:109 | A string of characters below 256 has one byte per character |
| Base64.Btoa | src/lib/audioStreamer.ts:109 | `btoa` succeeds exactly when every character is below 256 |
| Base64.BtoaOfByteString | src/lib/audioStreamer.ts:108-109 | `btoa` of a byte string is the RFC 4648 encoding of those bytes |
| Base64.Int16ArrayToBase64 | src/lib/audioStreamer.ts:105-110 | The payload decodes to the buffer's bytes in memory order and has 4 * ceil(2n/3) characters |
| Base64.PayloadRoundTrip | src/lib/audioStreamer.ts:105-110 | Decoding the payload and reading it as Int16 gives the original PCM |
| Socket.AfterClose | src/lib/audioStreamer.ts:13 | After `close()` the socket is neither connecting nor open; a closing or closed socket is left as it is |
| Socket.ChunkMessage | src/lib/audioStreamer.ts:73-80 | The `audio_chunk` message copies the chunk's index and duration, and its base64 field decodes to the PCM bytes |
| Socket.Deliver | src/lib/audioStreamer.ts:58-66 | A payload is passed on exactly when it parsed and a handler is set, and then unchanged |
| LibAudioStreamer.Settle | src/lib/audioStreamer.ts:26-51 | A settled attempt ignores every event; a pending one settles with that event's outcome and its timer is disarmed |
| LibAudioStreamer.SettleOk | src/lib/audioStreamer.ts:20-51 | The settled flag, the promise's fate and the armed timer stay consistent |
| LibAudioStreamer.RunSettled | src/lib/audioStreamer.ts:27-50 | Once settled, no later event changes the attempt |
| LibAudioStreamer.FirstEventWins | src/lib/audioStreamer.ts:18-51 | The promise settles exactly once, with the outcome of the first of open, error and timeout, and the timer ends disarmed |
| LibAudioStreamer.InitialOk | src/lib/audioStreamer.ts:6-8 | A new streamer has no socket and is not connected |
| LibAudioStreamer.ConnectOk | src/lib/audioStreamer.ts:10-19 | `connect` closes the current socket without forgetting it and adds one pending socket with an armed timer; the streamer is not connected meanwhile |
| LibAudioStreamer.OpenOk | src/lib/audioStreamer.ts:34-42 | An open event makes its socket `this.ws` exactly when its attempt was still pending, and then the streamer is connected and the attempt resolved |
| LibAudioStreamer.ErrorOk | src/lib/audioStreamer.ts:44-51 | An error before open rejects with "WebSocket connection failed" and changes no socket |
| LibAudioStreamer.TimeoutOk | src/lib/audioStreamer.ts:26-32 | A timeout before open rejects with "Connection timeout" and closes that socket, which is never `this.ws` |
| LibAudioStreamer.CloseEventAsWrittenOk | src/lib/audioStreamer.ts:53-56 | The close handler as written keeps the invariant, marks the socket closed and leaves nothing current, so a later `send` writes nothing |
| LibAudioStreamer.CloseEventOk | src/lib/audioStreamer.ts:53-56 | A close event marks the socket closed and, with the guarded handler, leaves another current socket alone |
| LibAudioStreamer.SendOk | src/lib/audioStreamer.ts:70-81 | A chunk is written exactly when connected, on the current socket, as its `audio_chunk` message; earlier messages are untouched |
| LibAudioStreamer.DisconnectOk | src/lib/audioStreamer.ts:83-99 | Without a socket nothing happens; on an open one `end_stream` is written and a close timer armed; on any other the socket is closed and forgotten at once |
| LibAudioStreamer.CloseTimerOk | src/lib/audioStreamer.ts:91-94 | After the 500 ms timer nothing is current and a later `send` writes nothing |
| LibAudioStreamer.StaleCloseForgetsNewSocket | src/lib/audioStreamer.ts:53-56 | As written, the close event of a replaced socket clears `this.ws` even though the new socket is open, and later chunks are dropped |
| LibAudioStreamer.CloseOfOtherSocketKeepsCurrent | src/lib/audioStreamer.ts:53-56 | With the close handler guarded by socket identity, closing another socket never changes whether the streamer is connected |
| LibAudioStreamer.AudioStreamer.constructor | src/lib/audioStreamer.ts:6-8 | The streamer starts with no socket, no handler and nothing sent |
| LibAudioStreamer.AudioStreamer.Connected | src/lib/audioStreamer.ts:101-103 | `isConnected` holds exactly when the current socket is open |
| LibAudioStreamer.AudioStreamer.Connect | src/lib/audioStreamer.ts:10-68 | `Model()` moves by `AfterConnect` (close the current socket, add a pending one with its timer armed, keep the handler) and the new socket is returned |
| LibAudioStreamer.AudioStreamer.OnOpen | src/lib/audioStreamer.ts:34-42 | `Model()` moves by `AfterOpen`: the socket opens, and a pending attempt resolves and makes it `this.ws` |
| LibAudioStreamer.AudioStreamer.OnError | src/lib/audioStreamer.ts:44-51 | `Model()` moves by `AfterError`: a pending attempt rejects |
| LibAudioStreamer.AudioStreamer.OnTimeout | src/lib/audioStreamer.ts:26-32 | `Model()` moves by `AfterTimeout`: a pending attempt rejects and its socket is closed |
| LibAudioStreamer.AudioStreamer.OnClose | src/lib/audioStreamer.ts:53-56 | `Model()` moves by `AfterCloseEventAsWritten`: the socket is closed and `this.ws` cleared, whichever socket it was |
| LibAudioStreamer.AudioStreamer.OnMessage | src/lib/audioStreamer.ts:58-66 | Delivers as `Socket.Deliver` with the handler kept by the last `connect` |
| LibAudioStreamer.AudioStreamer.Send | src/lib/audioStreamer.ts:70-81 | `Model()` moves by `AfterSend`: one `audio_chunk` message on the open current socket, nothing otherwise |
| LibAudioStreamer.AudioStreamer.Disconnect | src/lib/audioStreamer.ts:83-99 | `Model()` moves by `AfterDisconnect`: nothing without a socket, `end_stream` and a close timer on an open one, otherwise close and forget |
| LibAudioStreamer.AudioStreamer.OnCloseTimer | src/lib/audioStreamer.ts:91-94 | `Model()` moves by `AfterCloseTimer`: whatever socket is current is closed and forgotten |
| StreamAudioStreamer.BinaryString | src/stream/audioStreamer.ts:43-47 | The loop-built binary string equals the `Array.from(...).join("")` string of the other client |
| StreamAudioStreamer.AudioStreamer.constructor | src/stream/audioStreamer.ts:2-4 | The streamer starts with no socket, no handler, nothing resolved and nothing sent |
| StreamAudioStreamer.AudioStreamer.Connect | src/stream/audioStreamer.ts:6-9 | The new socket becomes `this.ws` at once; earlier sockets are left open and nothing resolves yet |
| StreamAudioStreamer.AudioStreamer.OnOpen | src/stream/audioStreamer.ts:32-34 | The socket opens and its `connect` resolves; every other method states `resolved` unchanged, so only an open event resolves |
| StreamAudioStreamer.AudioStreamer.OnError | src/stream/audioStreamer.ts:24-26 | An error rejects nothing and changes no field |
| StreamAudioStreamer.AudioStreamer.OnClose | src/stream/audioStreamer.ts:28-30 | A close event leaves `this.ws` as it is |
| StreamAudioStreamer.AudioStreamer.OnMessage | src/stream/audioStreamer.ts:11-22 | Delivers as `Socket.Deliver`, the same rule as the other client |
| StreamAudioStreamer.AudioStreamer.Send | src/stream/audioStreamer.ts:39-59 | On an open socket the message sent is exactly the one the other client sends for the chunk; otherwise nothing is sent |
| StreamAudioStreamer.AudioStreamer.Disconnect | src/stream/audioStreamer.ts:61-80 | On an open socket `end_stream` is written and a 100 ms timer armed; otherwise an existing socket is closed and forgotten |
| StreamAudioStreamer.AudioStreamer.OnCloseTimer | src/stream/audioStreamer.ts:69-75 | The timer closes and forgets whatever socket is current by then |
| Background.Or | src/background.ts:92 | JavaScript's "or" fallback keeps a present non-empty text and gives the fallback for an absent or empty one |
| Background.ToActiveTab | src/background.ts:52-68 | A caption message goes to the tab only when `activeTabId` is truthy |
| Background.Reduce | src/background.ts:90-111 | Only a confirmed translation changes the confirmed caption; only confirmed or partial translations change the partial one |
| Background.ShownCaptionIsState | src/background.ts:91-102 | The tab is only ever shown the caption pair just stored |
| Background.CaptionReachesTab | src/background.ts:90-111 | A message reaches the tab exactly when there is a tab and the message is a confirmed or partial translation |
| Background.ReduceAllIsExpected | src/background.ts:90-111 | After any run of messages the confirmed caption is the last confirmed text, and the partial one is the last partial text unless a confirmed one came after it |
| Background.ServiceWorker.constructor | src/background.ts:6-9 | No streamer, not connected, not capturing, no tab, empty captions |
| Background.ServiceWorker.SetActiveTab | src/background.ts:147 | Only the active tab id changes |
| Background.ServiceWorker.ConnectWebSocket | src/background.ts:77-90 | The tab, the capture flag, the connected flag and the messages are kept, and the bookkeeping moves by `StartConnect`. While connected nothing else changes. Otherwise the captions are cleared and a fresh streamer holds `AfterConnect(Initial(), true)` |
| Background.ServiceWorker.OnConnectSettled | src/background.ts:113-121 | A resolved connect sets the flag and reports WS_CONNECTED; a rejected one clears it and reports WS_ERROR with `String(error)`; this happens whichever streamer is in the slot by then, or none (`SettledAsWritten`); the tab and the capture flag are kept |
| Background.ServiceWorker.OnServerMessage | src/background.ts:90-111 | The captions move by one `Reduce`, exactly the messages of that kind are sent, and the connection, tab and capture flag are kept |
| Background.ServiceWorker.DisconnectWebSocket | src/background.ts:124-134 | Only with a streamer that is connected: it disconnects, drops it, clears the flag and reports WS_DISCONNECTED; otherwise nothing changes |
| Background.ServiceWorker.StopCapture | src/background.ts:176-186 | Capture stops, a connected streamer takes its `disconnect` step and is dropped, the caption is removed from the tab, the tab is forgotten and the reply is success; the worker stays connected exactly when it was connected with no streamer |
| Background.ServiceWorker.AudioChunkMessage | src/background.ts:188-198 | A chunk is handed to `send`, as Int16 values, only when a streamer exists and the worker is connected |
| Background.StartConnect | src/background.ts:77-88 | While connected nothing changes; otherwise the next streamer takes the slot and the worker is not yet connected |
| Background.DisconnectLink | src/background.ts:124-134 | A connected worker with a streamer ends disconnected with no streamer; otherwise nothing changes |
| Background.StrandedConnection | src/background.ts:77-134 | Start, start, the first socket opens, stop, the second opens: as written the worker is connected with no streamer, and no run of starts and stops changes that |
| Background.StuckStays | src/background.ts:78-130 | A worker connected with no streamer is a fixed point of starting and stopping |
| Background.GuardedStepOk | src/background.ts:113-130 | With the continuation guarded by its streamer, every step keeps "connected implies a streamer", stopping always disconnects, and only the streamer in the slot moves the flag |
| Background.GuardedRunLinked | src/background.ts:77-134 | With the guarded continuation, every run of starts, settlements and stops keeps "connected implies a streamer" |
| VideoDelay.InitialPoolOk | src/lib/videoDelay.ts:143-154 | The pool starts with exactly four spare textures and none in use |
| VideoDelay.AcquireOk | src/lib/videoDelay.ts:156-172 | `getTexture` returns a texture that was not in use and is now, never a deleted one, and keeps the pool sound |
| VideoDelay.ReleaseOk | src/lib/videoDelay.ts:174-182 | `returnTexture` ignores a texture not in use, otherwise it leaves the used set; spares stay at most four and disjoint from used ones |
| VideoDelay.AcquireReleaseRoundTrip | src/lib/videoDelay.ts:156-182 | Taking a spare texture and returning it restores the pool |
| VideoDelay.Without | src/lib/videoDelay.ts:337 | Filtering keeps exactly the ids other than the removed one |
| VideoDelay.WithoutNoDup | src/lib/videoDelay.ts:337 | Filtering a list without duplicates leaves none |
| VideoDelay.PromotionDelay | src/lib/videoDelay.ts:332-342 | The promotion delay is never negative |
| VideoDelay.PromotionDue | src/lib/videoDelay.ts:331-346 | A frame is promoted 2 ms before it is `delay` old, or at once if it is already that old |
| VideoDelay.CreatedOk | src/lib/videoDelay.ts:46-64 | A new instance is sound and leaks nothing; with a context it holds four textures and, with video data, draws its first frame |
| VideoDelay.ResetOk | src/lib/videoDelay.ts:307-318 | Returning from a hidden tab replaces the first frame with a texture no other live frame holds |
| VideoDelay.ScheduleOk | src/lib/videoDelay.ts:331-346 | Arming a promotion adds its frame to the live ones and keeps the instance sound |
| VideoDelay.CapturedOk | src/lib/videoDelay.ts:243-255 | A captured frame's texture is in use and held by no live frame; a failed upload keeps the texture in use |
| VideoDelay.CaptureOk | src/lib/videoDelay.ts:300-325 | One capture-loop run keeps the instance sound and leaks no texture unless the upload throws |
| VideoDelay.PromotedOk | src/lib/videoDelay.ts:335-341 | A promotion keeps the instance sound and drops the old delayed frame's texture from the live set |
| VideoDelay.FireOk | src/lib/videoDelay.ts:335-341 | A live promotion moves its frame into `delayedFrame`, removes its id, and returns the old delayed texture to the pool |
| VideoDelay.VisibilityOk | src/lib/videoDelay.ts:192-195 | The listener only changes the visibility flags, and a hidden tab is remembered |
| VideoDelay.StopOk | src/lib/videoDelay.ts:350-355 | After `stop` nothing is pending, and a promotion firing afterwards changes nothing |
| VideoDelay.CleanupOk | src/lib/videoDelay.ts:382-418 | The cleanup deletes every texture still known and leaves none in use or spare |
| VideoDelay.RenderWarmUp | src/lib/videoDelay.ts:289-291 | During warm-up only the first frame is drawn and `lastDrawnTimestamp` is kept |
| VideoDelay.RenderAfterWarmUp | src/lib/videoDelay.ts:292-295 | After warm-up the delayed frame is drawn exactly when it is less than 34 ms older than the last drawn one, so `lastDrawnTimestamp` never drops by 34 ms or more |
| VideoDelay.RenderOk | src/lib/videoDelay.ts:281-297 | The render loop changes only the draw log and `lastDrawnTimestamp` |
| VideoDelay.DelayedVideoInstance.constructor | src/lib/videoDelay.ts:46-64 | Builds the specified new instance, sound and leak-free |
| VideoDelay.DelayedVideoInstance.CreateTextures | src/lib/videoDelay.ts:143-154 | The loop creates the four initial textures |
| VideoDelay.DelayedVideoInstance.GetTexture | src/lib/videoDelay.ts:156-172 | The pool moves by `Acquire` (pop a spare, or make a fresh handle) and nothing else changes |
| VideoDelay.DelayedVideoInstance.ReturnTexture | src/lib/videoDelay.ts:174-182 | The pool moves by `Release` (ignore an unused handle, push below four spares, delete otherwise) and nothing else changes |
| VideoDelay.DelayedVideoInstance.DrawFrame | src/lib/videoDelay.ts:257-275 | Draws only with a context and a texture not deleted |
| VideoDelay.DelayedVideoInstance.CaptureInitialFrame | src/lib/videoDelay.ts:231-241 | With a context and video data, takes a texture as the first frame and draws it |
| VideoDelay.DelayedVideoInstance.RenderTick | src/lib/videoDelay.ts:281-297 | `Model()` moves by `AfterRender` and the instance stays sound |
| VideoDelay.DelayedVideoInstance.CaptureFrame | src/lib/videoDelay.ts:243-255 | `Model()` and the frame are those of `Captured`, including a thrown upload |
| VideoDelay.DelayedVideoInstance.ScheduleFrameDelay | src/lib/videoDelay.ts:331-346 | Arms one promotion with the specified delay and records its id |
| VideoDelay.DelayedVideoInstance.ResetInitialFrame | src/lib/videoDelay.ts:307-318 | `Model()` moves by `AfterReset`: the first texture is returned, a new one captured, and the clock restarted |
| VideoDelay.DelayedVideoInstance.CaptureTick | src/lib/videoDelay.ts:300-325 | `Model()` moves by `AfterCapture`, keeps the instance sound, and leaks nothing unless the upload throws |
| VideoDelay.DelayedVideoInstance.FireTimeout | src/lib/videoDelay.ts:334-343 | `Model()` moves by `AfterFire` and the instance stays sound |
| VideoDelay.DelayedVideoInstance.Promote | src/lib/videoDelay.ts:336-340 | `Model()` moves by `AfterFire` for a live timer |
| VideoDelay.DelayedVideoInstance.OnVisibilityChange | src/lib/videoDelay.ts:192-195 | `Model()` moves by `AfterVisibility`: only the two visibility flags change |
| VideoDelay.DelayedVideoInstance.Stop | src/lib/videoDelay.ts:350-381 | `Model()` moves by `AfterStop` and a sound instance stays sound |
| VideoDelay.DelayedVideoInstance.Cleanup | src/lib/videoDelay.ts:382-418 | `Model()` moves by `AfterCleanup` and the instance stays sound |
| VideoDelay.DelayedVideoInstance.DeleteTextures | src/lib/videoDelay.ts:383-416 | With a context, every known texture is deleted and the pool and frames are emptied; without one only the timer count drops |
| VideoDelay.VideoDelayer.constructor | src/lib/videoDelay.ts:424-429 | Inactive, with the default 5000 ms delay and no instances or callbacks |
| VideoDelay.VideoDelayer.Setup | src/lib/videoDelay.ts:476-486 | Registers one frame callback for the video when the browser supports it |
| VideoDelay.VideoDelayer.WaitForFrame | src/lib/videoDelay.ts:473-498 | A video already delayed or waiting, or any video while inactive, is left alone; otherwise it waits for a frame and gets listeners |
| VideoDelay.VideoDelayer.Start | src/lib/videoDelay.ts:431-451 | Keeps the previous delay unless one is given; when frame callbacks are supported every page video ends up delayed or waiting; callbacks already registered are kept; listeners only grow, by page videos, and every page video ends up delayed, waiting or listened to |
| VideoDelay.VideoDelayer.OnVideosAdded | src/lib/videoDelay.ts:436-445 | Nothing happens unless observing. Otherwise the instances, the delay and existing callbacks are kept, new callbacks and listeners are only for the added videos, and while active each added video ends up delayed, waiting (when frame callbacks are supported) or listened to |
| VideoDelay.VideoDelayer.DelayVideo | src/lib/videoDelay.ts:500-504 | At most one instance per video, and none while inactive; a new instance is created with the current delay, and the delay, callbacks, listeners and observer are kept |
| VideoDelay.VideoDelayer.OnFrameCallback | src/lib/videoDelay.ts:479-483 | The callback is forgotten, and an instance is made only for a playing video while active: the other instances are kept and the new one is `Created` with the current delay; the delay, listeners and observer are kept |
| VideoDelay.VideoDelayer.OnPlay | src/lib/videoDelay.ts:490-494 | A playing video with listeners that is neither delayed nor waiting is set up again, adding exactly its callback when frame callbacks are supported; otherwise callbacks are kept; the delay, listeners and observer are always kept |
| VideoDelay.VideoDelayer.Stop | src/lib/videoDelay.ts:453-471 | Inactive, callbacks and instances cleared, the delay and listeners kept, and every former instance stopped with nothing pending |

## Left out

- WebGL calls, shaders, the canvas and its sizing, the ResizeObserver, and the 17 ms opacity timers are left out. Texture handles are numbers; the context is a flag plus the set of deleted handles, and `gl.isTexture` is "not deleted".
- The `requestAnimationFrame` and `setTimeout` scheduling is left out. Each loop run is a method call with the clock reading passed in, and each timer firing is a call; a cleared timer is never called.
- A promotion timer that fires after `stop` finds its entry gone, because `stop` clears the timers it cancels, so the source's `active` check in the callback is never reached in the model.
- The first frame's timestamp and `startTime` come from separate `performance.now()` readings in the source; the model uses one reading for both.
- Float32 storage and float arithmetic are not modelled: samples are reals, and `Math.round` is floor(x + 0.5).
- A NaN or non-numeric chunk duration is not modelled; durations are reals.
- `AudioWorklet.AudioProcessor.constructor`: the configured duration is an optional real, so only "missing" and 0 are falsy; NaN is not.
- The `console` logging is left out.
- Network I/O is an input. Socket events are method calls naming their socket, and a payload that fails to parse is `None`.
- JSON text and key order are not modelled: messages are records.
- Both clients run on a little-endian host, so the Int16Array buffer's bytes are low byte first.
- `btoa` is specified by section 4 of RFC 4648 together with its rejection of characters above 255.
- The rest of `START_CAPTURE` (tab query, offscreen document, tab capture) is left out, and so is the `isCapturing = true` it sets; only its recording of the tab id is modelled.
- `closeOffscreenDocument` in `STOP_CAPTURE` is a Chrome API call and is left out.
- The `throw error` that `connectWebSocket` rethrows reaches only `START_CAPTURE`, which is left out.
- `Background.ServiceWorker.AudioChunkMessage`: the chunk's numbers are integers; truncation of fractional values by `new Int16Array` is not modelled.
- Messages the worker sends are recorded in order; delivery failures (the `.catch(() => {})` calls) are not modelled.
- `VideoDelay.VideoDelayer.Stop`: for each instance it states only that it is inactive with no pending promotion; the full new state of each instance is stated by `DelayedVideoInstance.Stop`.
- Each instance's own soundness is kept by its own methods and is not part of the delayer's invariant.
- The `play`/`loadstart` listeners are a set of videos: a second listener on the same video finds its callback already recorded and does nothing, so one entry per video loses nothing but the listener objects themselves.
- The `"requestVideoFrameCallback" in video` test is one flag for the whole page.
- `VideoDelay.DelayedVideoInstance.CaptureInitialFrame`: the upload at videoDelay.ts:237 is outside any `try`. If it throws, the source's constructor throws and `delayVideo` records no instance; the model always completes the capture (`AfterInitialCapture`), so that failure is not captured.
- `VideoDelay.DelayedVideoInstance.ResetInitialFrame`: the upload at videoDelay.ts:314 is outside any `try`. If it throws after the old first texture was returned (:310) and a new one taken (:311), the source keeps `initialFrame` on a spare texture, leaks the new one and keeps `startTime`; the model always completes the reset (`AfterReset`, `ResetOk`), so that unsound state is not captured.

## Findings

| source | as written | input that shows it | evidently intended | confidence | as-written member | corrected member |
|---|---|---|---|---|---|---|
| src/lib/audioStreamer.ts:53-56 | every socket's close handler clears `this.ws`, even a replaced socket's | `connect`, open, `connect` again, the new socket opens, then the first socket's close event arrives: `this.ws` is cleared while the new socket is open, and every later `send` is dropped. The service worker makes a fresh streamer for every connect (background.ts:88), so it never reaches this; the defect is latent in the class | clear `this.ws` only when the closing socket is the current one | medium, not executed | LibAudioStreamer.AfterCloseEventAsWritten, LibAudioStreamer.StaleCloseForgetsNewSocket | LibAudioStreamer.AfterCloseEvent, LibAudioStreamer.CloseOfOtherSocketKeepsCurrent |
| src/background.ts:113-121 | the continuation of `connectWebSocket` sets `isConnected` whichever streamer it awaited, even one already replaced | two `START_CAPTURE`s before the first connect settles, the first socket opens, `STOP_CAPTURE` (the second streamer's `disconnect` does nothing yet, the slot is cleared), then the second socket opens: `isConnected` is true with no streamer, so starting answers "already connected", chunks are dropped and stopping does nothing, for good | set the flag only while `streamer` is still the one whose connect settled | medium, not executed | Background.SettledAsWritten, Background.StrandedConnection | Background.SettledGuarded, Background.GuardedRunLinked |
