/**
 * The live AudioWorklet chunker (public/audioWorklet.js, class AudioProcessor).
 *
 * It decimates 48 kHz input 3:1 into a 16000-slot float buffer, and when the
 * write cursor reaches the target it posts the buffered samples as one chunk
 * of 16-bit PCM with a running chunk index. The pure part of the model is the
 * record `Chunker` with the step functions `Push`/`Feed`; the class below
 * keeps the source's fields and is proved to follow them.
 *
 * The buffer has 16000 slots whatever the target is. A write at a cursor
 * past the end is dropped by the Float32Array, and reading such a slot gives
 * `undefined`, which turns into NaN and is stored into the Int16Array as 0.
 * `PcmOf` spells that out.
 */
module AudioWorklet {
  import opened Wrappers
  import opened Pcm

  /** `new Float32Array(16000)`: one second at 16 kHz. */
  const BufferSlots: nat := 16000

  /** The output rate in samples per second. */
  const OutputRate: int := 16000

  /** Default chunk length in seconds when none (or 0) is configured. */
  const DefaultChunkSeconds: real := 0.32

  /** The message posted to the main thread for one chunk. */
  datatype ChunkMessage = ChunkMessage(pcm: seq<int>, chunkIndex: nat, durationMs: real)

  /** Messages the worklet's port understands. */
  datatype PortMessage = SetChunkDuration(chunkDurationSec: real) | OtherMessage

  /**
   * The state of the processor: the samples written since the last chunk (in
   * order; the cursor `writeIndex` is their count), the next chunk index, the
   * threshold, the duration stamped on chunks, and every chunk posted so far.
   */
  datatype Chunker = Chunker(
    pending: seq<real>,
    chunkIndex: nat,
    targetSamples: int,
    durationMs: real,
    posted: seq<ChunkMessage>)

  /** `Math.floor(16000 * seconds)`. */
  function TargetFor(seconds: real): int {
    (OutputRate as real * seconds).Floor
  }

  /** The PCM of a chunk: slot `i` is quantised, slots past the buffer read as 0. */
  function PcmOf(samples: seq<real>): (pcm: seq<int>)
    ensures |pcm| == |samples|
    ensures forall i :: 0 <= i < |pcm| ==> -PcmScale <= pcm[i] <= PcmScale
  {
    seq(|samples|, i requires 0 <= i < |samples| => if i < BufferSlots then Quantize(samples[i]) else 0)
  }

  /** `sendChunk`: post what is buffered, bump the index, reset the cursor. */
  function Emit(s: Chunker): Chunker {
    s.(pending := [],
       chunkIndex := s.chunkIndex + 1,
       posted := s.posted + [ChunkMessage(PcmOf(s.pending), s.chunkIndex, s.durationMs)])
  }

  /** Writing one sample, then emitting if the cursor has reached the target. */
  function Push(s: Chunker, x: real): Chunker {
    var t := s.(pending := s.pending + [x]);
    if |t.pending| >= t.targetSamples then Emit(t) else t
  }

  /** Writing samples one after another. */
  function Feed(s: Chunker, xs: seq<real>): Chunker
    decreases |xs|
  {
    if xs == [] then s else Push(Feed(s, xs[..|xs| - 1]), xs[|xs| - 1])
  }

  /** `setChunkDuration`: only the threshold and the stamped duration change. */
  function Retarget(s: Chunker, seconds: real): Chunker {
    s.(targetSamples := TargetFor(seconds), durationMs := seconds * 1000.0)
  }

  /** The constructor's fallback: a missing or zero duration means 0.32 s. */
  function InitialSeconds(option: Option<real>): (seconds: real)
    ensures seconds != 0.0
    ensures option.Some? && option.value != 0.0 ==> seconds == option.value
    ensures option.None? || option.value == 0.0 ==> seconds == DefaultChunkSeconds
  {
    if option.Some? && option.value != 0.0 then option.value else DefaultChunkSeconds
  }

  /** Chunks posted so far carry the indices 0, 1, 2, ... and the counter is their number. */
  ghost predicate Indexed(s: Chunker) {
    |s.posted| == s.chunkIndex && forall k :: 0 <= k < |s.posted| ==> s.posted[k].chunkIndex == k
  }

  /** Nothing is left buffered that the threshold should already have flushed. */
  ghost predicate Settled(s: Chunker) {
    s.pending == [] || |s.pending| < s.targetSamples
  }

  /** The length every chunk has under a fixed threshold: the target, but at least one sample. */
  function ChunkLength(targetSamples: int): nat {
    if targetSamples < 1 then 1 else targetSamples
  }

  lemma {:induction false} FeedKeepsPosted(s: Chunker, xs: seq<real>)
    ensures Feed(s, xs).targetSamples == s.targetSamples && Feed(s, xs).durationMs == s.durationMs
    ensures |s.posted| <= |Feed(s, xs).posted| && Feed(s, xs).posted[..|s.posted|] == s.posted
    decreases |xs|
  {
    if xs != [] {
      FeedKeepsPosted(s, xs[..|xs| - 1]);
    }
  }

  /** Chunk indices start at 0 and grow by exactly one per chunk, with no gaps. */
  lemma {:induction false} FeedIndexed(s: Chunker, xs: seq<real>)
    requires Indexed(s)
    ensures Indexed(Feed(s, xs))
    decreases |xs|
  {
    if xs != [] {
      FeedIndexed(s, xs[..|xs| - 1]);
    }
  }

  /**
   * A chunk is never shorter than the threshold in force, and never empty.
   * When nothing overdue is buffered, every chunk has exactly `ChunkLength`
   * samples and the state stays settled.
   */
  lemma {:induction false} FeedChunkLengths(s: Chunker, xs: seq<real>)
    ensures var t := Feed(s, xs);
            forall k :: |s.posted| <= k < |t.posted| ==>
              |t.posted[k].pcm| >= s.targetSamples && |t.posted[k].pcm| >= 1
    ensures Settled(s) ==>
              var t := Feed(s, xs);
              Settled(t) &&
              forall k :: |s.posted| <= k < |t.posted| ==> |t.posted[k].pcm| == ChunkLength(s.targetSamples)
    decreases |xs|
  {
    if xs != [] {
      var u := Feed(s, xs[..|xs| - 1]);
      FeedChunkLengths(s, xs[..|xs| - 1]);
      FeedKeepsPosted(s, xs[..|xs| - 1]);
      assert Feed(s, xs) == Push(u, xs[|xs| - 1]);
    }
  }

  /**
   * Changing the threshold does not re-slice what is buffered: the next
   * write posts everything pending plus that sample as one chunk exactly
   * when the new target is at most that many samples, however far below it
   * the target has dropped; otherwise nothing is posted.
   */
  lemma RetargetDoesNotReslice(s: Chunker, seconds: real, x: real)
    ensures var t := Push(Retarget(s, seconds), x);
            (TargetFor(seconds) <= |s.pending| + 1 ==>
               t.posted == s.posted + [ChunkMessage(PcmOf(s.pending + [x]), s.chunkIndex, seconds * 1000.0)] &&
               t.pending == [] && t.chunkIndex == s.chunkIndex + 1) &&
            (TargetFor(seconds) > |s.pending| + 1 ==> t.posted == s.posted && t.pending == s.pending + [x])
  {
  }

  class AudioProcessor {
    var buffer: array<real>
    var writeIndex: nat
    var chunkIndex: nat
    var targetSamples: int
    var chunkDurationMs: real
    /** Everything `port.postMessage` has been given, in order. */
    var posted: seq<ChunkMessage>
    /** The samples written since the last chunk, including dropped ones. */
    ghost var pending: seq<real>

    ghost predicate Valid()
      reads this, buffer
    {
      buffer.Length == BufferSlots &&
      writeIndex == |pending| &&
      forall i :: 0 <= i < writeIndex && i < BufferSlots ==> buffer[i] == pending[i]
    }

    ghost function Model(): Chunker
      reads this
    {
      Chunker(pending, chunkIndex, targetSamples, chunkDurationMs, posted)
    }

    constructor (chunkDurationSec: Option<real>)
      ensures Valid() && fresh(buffer)
      ensures Model() == Retarget(Chunker([], 0, 0, 0.0, []), InitialSeconds(chunkDurationSec))
      ensures chunkDurationSec.None? ==> targetSamples == 5120 && chunkDurationMs == 320.0
    {
      var seconds := if chunkDurationSec.Some? && chunkDurationSec.value != 0.0
                     then chunkDurationSec.value else DefaultChunkSeconds;
      targetSamples := TargetFor(seconds);
      chunkDurationMs := seconds * 1000.0;
      buffer := new real[BufferSlots](_ => 0.0);
      writeIndex := 0;
      chunkIndex := 0;
      posted := [];
      pending := [];
    }

    method SetChunkDuration(seconds: real)
      requires Valid()
      modifies this
      ensures Valid() && buffer == old(buffer)
      ensures Model() == Retarget(old(Model()), seconds)
    {
      targetSamples := TargetFor(seconds);
      chunkDurationMs := seconds * 1000.0;
    }

    /** The port's `onmessage` handler: only SET_CHUNK_DURATION is acted on. */
    method OnMessage(msg: PortMessage)
      requires Valid()
      modifies this
      ensures Valid() && buffer == old(buffer)
      ensures Model() == if msg.SetChunkDuration? then Retarget(old(Model()), msg.chunkDurationSec) else old(Model())
    {
      if msg.SetChunkDuration? {
        SetChunkDuration(msg.chunkDurationSec);
      }
    }

    /**
     * `process(inputs, ...)`: `inputs[0]` holds the channels of the first input.
     * Without a first input or first channel nothing changes; otherwise every
     * box-filtered sample of the block is written in turn.
     */
    method Process(inputs: seq<seq<seq<real>>>) returns (keepAlive: bool)
      requires Valid()
      requires |inputs| > 0 && |inputs[0]| > 1 ==> |inputs[0][1]| == |inputs[0][0]|
      modifies this, buffer
      ensures Valid() && buffer == old(buffer)
      ensures keepAlive
      ensures |inputs| == 0 || |inputs[0]| == 0 ==> Model() == old(Model())
      ensures |inputs| > 0 && |inputs[0]| > 0 ==>
                var right := if |inputs[0]| > 1 then Some(inputs[0][1]) else None;
                |Decimate(inputs[0][0], right)| == |inputs[0][0]| / 3 &&
                Model() == Feed(old(Model()), Decimate(inputs[0][0], right))
    {
      keepAlive := true;
      if |inputs| == 0 || |inputs[0]| == 0 {
        return;
      }
      var left := inputs[0][0];
      var right := if |inputs[0]| > 1 then Some(inputs[0][1]) else None;
      ghost var start := Model();
      ghost var samples := Decimate(left, right);
      var i := 0;
      while i < |left| - 2
        invariant 0 <= i <= |left| || i == 0
        invariant i % 3 == 0
        invariant Valid() && buffer == old(buffer)
        invariant Model() == Feed(start, samples[..i / 3])
      {
        var sample;
        if right.Some? {
          var r := right.value;
          var mono0 := (left[i] + r[i]) / 2.0;
          var mono1 := (left[i + 1] + r[i + 1]) / 2.0;
          var mono2 := (left[i + 2] + r[i + 2]) / 2.0;
          sample := (mono0 + mono1 + mono2) / 3.0;
        } else {
          sample := (left[i] + left[i + 1] + left[i + 2]) / 3.0;
        }
        assert sample == samples[i / 3];
        assert samples[..(i + 3) / 3] == samples[..i / 3] + [sample];
        WriteSample(sample);
        i := i + 3;
      }
      assert i / 3 == |left| / 3;
      assert samples[..i / 3] == samples;
    }

    /** `this.buffer[this.writeIndex++] = sample`, then `sendChunk` once the target is reached. */
    method WriteSample(sample: real)
      requires Valid()
      modifies this, buffer
      ensures Valid() && buffer == old(buffer)
      ensures Model() == Push(old(Model()), sample)
    {
      if writeIndex < buffer.Length {
        buffer[writeIndex] := sample;
      }
      writeIndex := writeIndex + 1;
      pending := pending + [sample];
      if writeIndex >= targetSamples {
        SendChunk();
      }
    }

    /** `sendChunk`: quantise the buffered samples into a fresh Int16Array and post it. */
    method SendChunk()
      requires Valid()
      modifies this
      ensures Valid() && buffer == old(buffer)
      ensures Model() == Emit(old(Model()))
    {
      var pcm := new int[writeIndex];
      var i := 0;
      while i < writeIndex
        invariant 0 <= i <= writeIndex == pcm.Length
        invariant Valid() && buffer == old(buffer) && Model() == old(Model())
        invariant forall k :: 0 <= k < i ==> pcm[k] == PcmOf(pending)[k]
      {
        // Past the buffer's end the read is undefined, and NaN is stored as 0.
        pcm[i] := if i < buffer.Length then Quantize(buffer[i]) else 0;
        i := i + 1;
      }
      assert pcm[..] == PcmOf(pending);
      posted := posted + [ChunkMessage(pcm[..], chunkIndex, chunkDurationMs)];
      chunkIndex := chunkIndex + 1;
      writeIndex := 0;
      pending := [];
    }
  }
}
