/**
 * Sample arithmetic shared by both audio worklets: the 3:1 box filter that
 * takes 48 kHz frames to 16 kHz samples, and the saturating conversion of a
 * floating-point sample to 16-bit PCM, `Math.round(clamp(x, -1, 1) * 0x7fff)`.
 *
 * Samples are modelled as `real`; the rounding of float32/float64 storage is
 * not modelled.
 */
module Pcm {
  import opened Wrappers

  /** The scale factor 0x7fff applied to a clamped sample. */
  const PcmScale: int := 32767

  /** `Math.max(-1, Math.min(1, x))`. */
  function Clamp(x: real): (c: real)
    ensures -1.0 <= c <= 1.0
    ensures -1.0 <= x <= 1.0 ==> c == x
    ensures x > 1.0 ==> c == 1.0
    ensures x < -1.0 ==> c == -1.0
  {
    if x > 1.0 then 1.0 else if x < -1.0 then -1.0 else x
  }

  /** JavaScript's `Math.round`: the nearest integer, halves rounded up. */
  function JsRound(x: real): (n: int)
    ensures x - 0.5 < n as real <= x + 0.5
  {
    (x + 0.5).Floor
  }

  /** One float sample as a 16-bit PCM value. */
  function Quantize(x: real): (q: int)
    ensures -PcmScale <= q <= PcmScale
  {
    JsRound(Clamp(x) * 32767.0)
  }

  /** Full scale maps to +/-32767 and silence to 0; -32768 is never produced. */
  lemma QuantizeAnchors()
    ensures Quantize(1.0) == 32767
    ensures Quantize(0.0) == 0
    ensures Quantize(-1.0) == -32767
  {
  }

  /** Out-of-range samples saturate rather than wrap. */
  lemma QuantizeSaturates(x: real)
    ensures x >= 1.0 ==> Quantize(x) == 32767
    ensures x <= -1.0 ==> Quantize(x) == -32767
  {
  }

  /** A louder sample never yields a smaller PCM value. */
  lemma QuantizeMonotone(x: real, y: real)
    requires x <= y
    ensures Quantize(x) <= Quantize(y)
  {
    assert Clamp(x) <= Clamp(y);
  }

  /** The mono value of frame `i`: `(L + R) / 2` for stereo input, `L` for mono. */
  function Frame(left: seq<real>, right: Option<seq<real>>, i: nat): real
    requires i < |left|
    requires right.Some? ==> |right.value| == |left|
  {
    if right.Some? then (left[i] + right.value[i]) / 2.0 else left[i]
  }

  /** Output sample `k`: the mean of the mono values of frames 3k, 3k+1, 3k+2. */
  function BoxSample(left: seq<real>, right: Option<seq<real>>, k: nat): real
    requires 3 * k + 2 < |left|
    requires right.Some? ==> |right.value| == |left|
  {
    (Frame(left, right, 3 * k) + Frame(left, right, 3 * k + 1) + Frame(left, right, 3 * k + 2)) / 3.0
  }

  /** The 16 kHz samples a block of 48 kHz frames yields: one per complete group of three. */
  function Decimate(left: seq<real>, right: Option<seq<real>>): seq<real>
    requires right.Some? ==> |right.value| == |left|
  {
    seq(|left| / 3, k requires 0 <= k < |left| / 3 => BoxSample(left, right, k))
  }

  /**
   * The one or two frames after the last complete group are discarded, not
   * carried into the next block: the block gives the same samples without them.
   */
  lemma DecimateDropsTail(left: seq<real>, right: Option<seq<real>>)
    requires right.Some? ==> |right.value| == |left|
    ensures var n := 3 * (|left| / 3);
            var r := if right.Some? then Some(right.value[..n]) else None;
            Decimate(left, right) == Decimate(left[..n], r)
  {
  }

  /** A stereo block whose two channels are equal gives the same samples as its left channel alone. */
  lemma StereoMatchesMono(left: seq<real>)
    ensures Decimate(left, Some(left)) == Decimate(left, None)
  {
    forall k | 0 <= k < |left| / 3
      ensures BoxSample(left, Some(left), k) == BoxSample(left, None, k)
    {
    }
  }
}
