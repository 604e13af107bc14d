/**
 * The earlier fixed-size worklet (src/archieve/audioWorklet.ts, class
 * AudioWorkletProcessorImpl). It reads channel 0 of input 0 only, keeps a
 * buffer twice the chunk size, and posts chunks of exactly 5120 samples
 * (320 ms at 16 kHz) stamped with an audio-clock start time that advances
 * by 320 ms per chunk.
 */
module ArchivedWorklet {
  import opened Wrappers
  import opened Pcm

  /** `16000 * 0.32`, which is exactly 5120 in double precision. */
  const TargetSamples: nat := 5120

  /** The buffer holds twice the target. */
  const BufferSlots: nat := 2 * TargetSamples

  /** The fixed duration, in ms, stamped on every chunk and added to the start time. */
  const ChunkMs: int := 320

  /** The AudioChunk the processor posts. */
  datatype TimedChunk = TimedChunk(pcm: seq<int>, startTimeMs: real, durationMs: int)

  /** The samples written since the last chunk, the start time of the next chunk, the chunks posted. */
  datatype Chunker = Chunker(pending: seq<real>, startTime: real, posted: seq<TimedChunk>)

  /** Element-wise `floatToPCM16`, as a specification. */
  function PcmAll(samples: seq<real>): seq<int> {
    seq(|samples|, i requires 0 <= i < |samples| => Quantize(samples[i]))
  }

  /** Writing one sample; at the target the chunk is posted and the clock advances. */
  function Push(s: Chunker, x: real): Chunker {
    var p := s.pending + [x];
    if |p| >= TargetSamples then
      Chunker([], s.startTime + ChunkMs as real,
               s.posted + [TimedChunk(PcmAll(p[..TargetSamples]), s.startTime, ChunkMs)])
    else
      s.(pending := p)
  }

  function Feed(s: Chunker, xs: seq<real>): Chunker
    decreases |xs|
  {
    if xs == [] then s else Push(Feed(s, xs[..|xs| - 1]), xs[|xs| - 1])
  }

  /**
   * The chunker's invariant relative to the clock reading `origin` taken at
   * construction: fewer than a chunk's worth buffered, every chunk full, and
   * chunk k starting at origin + 320 k.
   */
  ghost predicate Timed(s: Chunker, origin: real) {
    |s.pending| < TargetSamples &&
    s.startTime == origin + (ChunkMs * |s.posted|) as real &&
    forall k :: 0 <= k < |s.posted| ==>
      |s.posted[k].pcm| == TargetSamples &&
      s.posted[k].startTimeMs == origin + (ChunkMs * k) as real &&
      s.posted[k].durationMs == ChunkMs
  }

  /** Every chunk holds exactly 5120 samples, and chunk k starts 320 k ms after the first. */
  lemma {:induction false} FeedTimed(s: Chunker, origin: real, xs: seq<real>)
    requires Timed(s, origin)
    ensures Timed(Feed(s, xs), origin)
    decreases |xs|
  {
    if xs != [] {
      FeedTimed(s, origin, xs[..|xs| - 1]);
    }
  }

  class AudioWorkletProcessorImpl {
    var buffer: array<real>
    var writeIndex: nat
    var startTime: real
    var posted: seq<TimedChunk>
    ghost var pending: seq<real>

    ghost predicate Valid()
      reads this, buffer
    {
      buffer.Length == BufferSlots &&
      writeIndex == |pending| < TargetSamples &&
      forall i :: 0 <= i < writeIndex ==> buffer[i] == pending[i]
    }

    ghost function Model(): Chunker
      reads this
    {
      Chunker(pending, startTime, posted)
    }

    /** `currentTimeMs` is the audio clock `currentTime * 1000` at construction. */
    constructor (currentTimeMs: real)
      ensures Valid() && fresh(buffer)
      ensures Model() == Chunker([], currentTimeMs, []) && Timed(Model(), currentTimeMs)
    {
      buffer := new real[BufferSlots](_ => 0.0);
      writeIndex := 0;
      startTime := currentTimeMs;
      posted := [];
      pending := [];
    }

    /**
     * `process(inputs, ...)`: without a first input or first channel nothing
     * changes; otherwise channel 0 alone is box-filtered and written.
     */
    method Process(inputs: seq<seq<seq<real>>>) returns (keepAlive: bool)
      requires Valid()
      modifies this, buffer
      ensures Valid() && buffer == old(buffer)
      ensures keepAlive
      ensures |inputs| == 0 || |inputs[0]| == 0 ==> Model() == old(Model())
      ensures |inputs| > 0 && |inputs[0]| > 0 ==>
                Model() == Feed(old(Model()), Decimate(inputs[0][0], None))
    {
      keepAlive := true;
      if |inputs| == 0 || |inputs[0]| == 0 {
        return;
      }
      var input := inputs[0][0];
      ghost var start := Model();
      ghost var samples := Decimate(input, None);
      var i := 0;
      while i < |input| - 2
        invariant 0 <= i <= |input| || i == 0
        invariant i % 3 == 0
        invariant Valid() && buffer == old(buffer)
        invariant Model() == Feed(start, samples[..i / 3])
      {
        var sample := (input[i] + input[i + 1] + input[i + 2]) / 3.0;
        assert sample == samples[i / 3];
        assert samples[..(i + 3) / 3] == samples[..i / 3] + [sample];
        WriteSample(sample);
        i := i + 3;
      }
      assert i / 3 == |input| / 3;
      assert samples[..i / 3] == samples;
    }

    /** `this.buffer[this.writeIndex++] = sample`, then a chunk once the target is reached. */
    method WriteSample(sample: real)
      requires Valid()
      modifies this, buffer
      ensures Valid() && buffer == old(buffer)
      ensures Model() == Push(old(Model()), sample)
    {
      buffer[writeIndex] := sample;
      writeIndex := writeIndex + 1;
      pending := pending + [sample];
      if writeIndex >= TargetSamples {
        assert buffer[..TargetSamples] == pending[..TargetSamples];
        var pcm16 := FloatToPcm16(buffer[..TargetSamples]);
        posted := posted + [TimedChunk(pcm16, startTime, ChunkMs)];
        startTime := startTime + ChunkMs as real;
        writeIndex := 0;
        pending := [];
      }
    }

    /** `floatToPCM16`: same length, each sample clamped, scaled by 0x7fff and rounded. */
    static method FloatToPcm16(float32: seq<real>) returns (out: seq<int>)
      ensures |out| == |float32|
      ensures forall i :: 0 <= i < |out| ==> out[i] == JsRound(Clamp(float32[i]) * 32767.0)
      ensures forall i :: 0 <= i < |out| ==> -PcmScale <= out[i] <= PcmScale
      ensures out == PcmAll(float32)
    {
      var a := new int[|float32|];
      var i := 0;
      while i < |float32|
        invariant 0 <= i <= |float32|
        invariant forall k :: 0 <= k < i ==> a[k] == Quantize(float32[k])
      {
        var clamped := if float32[i] > 1.0 then 1.0 else if float32[i] < -1.0 then -1.0 else float32[i];
        a[i] := JsRound(clamped * 32767.0);
        i := i + 1;
      }
      out := a[..];
    }
  }
}
