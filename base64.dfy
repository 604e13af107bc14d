/**
 * The audio payload encoding of both transports: an Int16Array's bytes in
 * memory order (little-endian), turned into a binary string of one char per
 * byte and passed to `btoa`, which is the base64 encoding of section 4 of
 * RFC 4648 (standard alphabet, `=` padding).
 */
module Base64 {
  import opened Types
  import opened Wrappers

  /** A Uint8Array element. */
  type Byte = x: int | 0 <= x < 256

  /** A value one base64 character stands for. */
  type Sextet = x: int | 0 <= x < 64

  /** The character of the standard alphabet (Table 1 of RFC 4648) for `v`. */
  function Char(v: Sextet): (c: char)
    ensures IsBase64Char(c)
  {
    if v < 26 then ('A' as int + v) as char
    else if v < 52 then ('a' as int + (v - 26)) as char
    else if v < 62 then ('0' as int + (v - 52)) as char
    else if v == 62 then '+'
    else '/'
  }

  predicate IsBase64Char(c: char) {
    'A' <= c <= 'Z' || 'a' <= c <= 'z' || '0' <= c <= '9' || c == '+' || c == '/'
  }

  /** The value of an alphabet character: the inverse of `Char`. */
  function Value(c: char): (v: Sextet)
    requires IsBase64Char(c)
    ensures Char(v) == c
  {
    if 'A' <= c <= 'Z' then c as int - 'A' as int
    else if 'a' <= c <= 'z' then c as int - 'a' as int + 26
    else if '0' <= c <= '9' then c as int - '0' as int + 52
    else if c == '+' then 62
    else 63
  }

  lemma ValueOfChar(v: Sextet)
    ensures Value(Char(v)) == v
  {
  }

  /** Three bytes as four characters: the 24 bits cut into four 6-bit groups, most significant first. */
  function Quantum(b0: Byte, b1: Byte, b2: Byte): seq<char> {
    [Char(b0 / 4), Char((b0 % 4) * 16 + b1 / 16), Char((b1 % 16) * 4 + b2 / 64), Char(b2 % 64)]
  }

  /**
   * Section 4 of RFC 4648: whole 3-byte groups become 4 characters; a final
   * single byte becomes 2 characters and `==`, a final pair 3 characters and `=`.
   */
  function Encode(b: seq<Byte>): (s: seq<char>)
    ensures |s| == 4 * ((|b| + 2) / 3)
    decreases |b|
  {
    if |b| >= 3 then
      assert (|b| + 2) / 3 == (|b| - 3 + 2) / 3 + 1;
      Quantum(b[0], b[1], b[2]) + Encode(b[3..])
    else if |b| == 2 then Quantum(b[0], b[1], 0)[..3] + "="
    else if |b| == 1 then Quantum(b[0], 0, 0)[..2] + "=="
    else []
  }

  /** Four alphabet characters back to three bytes. */
  function Unquantum(c0: Sextet, c1: Sextet, c2: Sextet, c3: Sextet): seq<Byte> {
    [c0 * 4 + c1 / 16, (c1 % 16) * 16 + c2 / 4, (c2 % 4) * 64 + c3]
  }

  /**
   * The decoder of section 4 of RFC 4648: the length must be a multiple of
   * 4, padding may only end the last group, and every other character must
   * be in the alphabet; anything else is rejected.
   */
  function Decode(s: seq<char>): (r: Option<seq<Byte>>)
    ensures r.Some? ==> |s| % 4 == 0
    decreases |s|
  {
    if |s| == 0 then Some([])
    else if |s| < 4 then None
    else if !(IsBase64Char(s[0]) && IsBase64Char(s[1])) then None
    else if |s| == 4 && s[2] == '=' && s[3] == '=' then
      Some(Unquantum(Value(s[0]), Value(s[1]), 0, 0)[..1])
    else if !IsBase64Char(s[2]) then None
    else if |s| == 4 && s[3] == '=' then
      Some(Unquantum(Value(s[0]), Value(s[1]), Value(s[2]), 0)[..2])
    else if !IsBase64Char(s[3]) then None
    else match Decode(s[4..])
      case None => None
      case Some(rest) => Some(Unquantum(Value(s[0]), Value(s[1]), Value(s[2]), Value(s[3])) + rest)
  }

  /** `16 * hi + lo` with `lo < 16` splits back into `hi` and `lo`. */
  lemma Split16(hi: nat, lo: nat)
    requires lo < 16
    ensures (hi * 16 + lo) / 16 == hi && (hi * 16 + lo) % 16 == lo
  {
  }

  /** `4 * hi + lo` with `lo < 4` splits back into `hi` and `lo`. */
  lemma Split4(hi: nat, lo: nat)
    requires lo < 4
    ensures (hi * 4 + lo) / 4 == hi && (hi * 4 + lo) % 4 == lo
  {
  }

  lemma UnquantumOfQuantum(b0: Byte, b1: Byte, b2: Byte)
    ensures var q := Quantum(b0, b1, b2);
            Unquantum(Value(q[0]), Value(q[1]), Value(q[2]), Value(q[3])) == [b0, b1, b2]
  {
    var c0, c1, c2, c3 := b0 / 4, (b0 % 4) * 16 + b1 / 16, (b1 % 16) * 4 + b2 / 64, b2 % 64;
    ValueOfChar(c0);
    ValueOfChar(c1);
    ValueOfChar(c2);
    ValueOfChar(c3);
    Split16(b0 % 4, b1 / 16);
    Split4(b1 % 16, b2 / 64);
    assert c0 * 4 + c1 / 16 == b0;
    assert (c1 % 16) * 16 + c2 / 4 == b1;
    assert (c2 % 4) * 64 + c3 == b2;
  }

  /** A final pair of bytes: three characters and one `=`. */
  lemma DecodeEncodePair(b: seq<Byte>)
    requires |b| == 2
    ensures Decode(Encode(b)) == Some(b)
  {
    var s := Encode(b);
    var q := Quantum(b[0], b[1], 0);
    UnquantumOfQuantum(b[0], b[1], 0);
    assert s == [q[0], q[1], q[2], '='];
    assert Value(q[3]) == 0 && IsBase64Char(q[2]);
    assert Unquantum(Value(q[0]), Value(q[1]), Value(q[2]), 0) == [b[0], b[1], 0];
    assert Decode(s) == Some(Unquantum(Value(q[0]), Value(q[1]), Value(q[2]), 0)[..2]);
    assert b == [b[0], b[1], 0][..2];
  }

  /** A final single byte: two characters and `==`. */
  lemma DecodeEncodeSingle(b: seq<Byte>)
    requires |b| == 1
    ensures Decode(Encode(b)) == Some(b)
  {
    var q := Quantum(b[0], 0, 0);
    UnquantumOfQuantum(b[0], 0, 0);
    assert Value(q[0]) * 4 + Value(q[1]) / 16 == b[0];
    DecodeTwoPads(b[0], q);
    assert b == [b[0]];
  }

  /** A last group with two `=`: one byte, from the first two characters. */
  lemma DecodeTwoPads(x: Byte, q: seq<char>)
    requires |q| == 4 && IsBase64Char(q[0]) && IsBase64Char(q[1])
    requires Value(q[0]) * 4 + Value(q[1]) / 16 == x
    ensures Decode(q[..2] + "==") == Some([x])
  {
    var s := q[..2] + "==";
    assert s[0] == q[0] && s[1] == q[1] && s[2] == '=' && s[3] == '=';
    assert Unquantum(Value(q[0]), Value(q[1]), 0, 0)[..1] == [x];
  }

  /** A whole leading group decodes back to its three bytes, in front of whatever the rest decodes to. */
  lemma DecodeEncodeQuantum(b: seq<Byte>)
    requires |b| >= 3 && Decode(Encode(b[3..])) == Some(b[3..])
    ensures Decode(Encode(b)) == Some(b)
  {
    EncodeGroup(b);
    DecodeAppendQuantum(b[0], b[1], b[2], Encode(b[3..]), b[3..]);
    GroupAndRest(b);
  }


  lemma EncodeGroup(b: seq<Byte>)
    requires |b| >= 3
    ensures Encode(b) == Quantum(b[0], b[1], b[2]) + Encode(b[3..])
  {
  }

  lemma GroupAndRest(b: seq<Byte>)
    requires |b| >= 3
    ensures [b[0], b[1], b[2]] + b[3..] == b
  {
  }

  lemma DecodeAppendQuantum(b0: Byte, b1: Byte, b2: Byte, t: seq<char>, rest: seq<Byte>)
    requires Decode(t) == Some(rest)
    ensures Decode(Quantum(b0, b1, b2) + t) == Some([b0, b1, b2] + rest)
  {
    var q := Quantum(b0, b1, b2);
    var s := q + t;
    assert s[0] == q[0] && s[1] == q[1] && s[2] == q[2] && s[3] == q[3] && s[4..] == t;
    DecodeGroup(s);
    UnquantumOfQuantum(b0, b1, b2);
  }

  /** Four alphabet characters decode to their three bytes, in front of whatever the rest decodes to. */
  lemma DecodeGroup(s: seq<char>)
    requires |s| >= 4 && IsBase64Char(s[0]) && IsBase64Char(s[1]) && IsBase64Char(s[2]) && IsBase64Char(s[3])
    ensures Decode(s) == match Decode(s[4..])
      case None => None
      case Some(rest) => Some(Unquantum(Value(s[0]), Value(s[1]), Value(s[2]), Value(s[3])) + rest)
  {
  }

  /** Decoding an encoding gives the bytes back. */
  lemma {:induction false} DecodeEncode(b: seq<Byte>)
    ensures Decode(Encode(b)) == Some(b)
    decreases |b|
  {
    if |b| >= 3 {
      DecodeEncode(b[3..]);
      DecodeEncodeQuantum(b);
    } else if |b| == 2 {
      DecodeEncodePair(b);
    } else if |b| == 1 {
      DecodeEncodeSingle(b);
    }
  }

  /** Every character of an encoding is in the alphabet, except the trailing padding. */
  lemma {:induction false} EncodeAlphabet(b: seq<Byte>)
    ensures var s := Encode(b);
            forall i :: 0 <= i < |s| ==> IsBase64Char(s[i]) || (s[i] == '=' && i >= |s| - 2)
    decreases |b|
  {
    if |b| >= 3 {
      EncodeAlphabet(b[3..]);
      var s := Encode(b);
      forall i | 0 <= i < |s|
        ensures IsBase64Char(s[i]) || (s[i] == '=' && i >= |s| - 2)
      {
        if i >= 4 {
          assert s[i] == Encode(b[3..])[i - 4];
        }
      }
    }
  }

  /** The two bytes an Int16Array element occupies, least significant first. */
  function Int16Bytes(x: Int16): (b: seq<Byte>)
    ensures |b| == 2
  {
    var u := x % 65536;
    [u % 256, u / 256]
  }

  /** Reading two bytes back as an Int16Array element. */
  function Int16Of(lo: Byte, hi: Byte): Int16 {
    ToInt16(lo + 256 * hi)
  }

  lemma Int16OfBytes(x: Int16)
    ensures Int16Of(Int16Bytes(x)[0], Int16Bytes(x)[1]) == x
  {
    var u := x % 65536;
    assert u % 256 + 256 * (u / 256) == u;
    if x >= 0 {
      assert u == x;
    } else {
      assert u == x + 65536;
      assert (u + 32768) % 65536 == x + 32768;
    }
  }

  /** `new Uint8Array(pcm.buffer)`: every element's bytes, in element order. */
  function PcmBytes(pcm: seq<Int16>): (b: seq<Byte>)
    ensures |b| == 2 * |pcm|
  {
    if pcm == [] then [] else Int16Bytes(pcm[0]) + PcmBytes(pcm[1..])
  }

  /** The Int16Array view of a buffer of even length. */
  function PcmOfBytes(b: seq<Byte>): (pcm: seq<Int16>)
    requires |b| % 2 == 0
    ensures |pcm| == |b| / 2
  {
    if b == [] then [] else [Int16Of(b[0], b[1])] + PcmOfBytes(b[2..])
  }

  /** Element `i` lives in bytes `2i` and `2i + 1`. */
  lemma {:induction false} PcmBytesAt(pcm: seq<Int16>, i: nat)
    requires i < |pcm|
    ensures PcmBytes(pcm)[2 * i..2 * i + 2] == Int16Bytes(pcm[i])
  {
    if i > 0 {
      PcmBytesAt(pcm[1..], i - 1);
      assert PcmBytes(pcm)[2 * i..2 * i + 2] == PcmBytes(pcm[1..])[2 * (i - 1)..2 * (i - 1) + 2];
    }
  }

  /** Viewing the bytes as an Int16Array again gives the same samples. */
  lemma {:induction false} PcmOfPcmBytes(pcm: seq<Int16>)
    ensures PcmOfBytes(PcmBytes(pcm)) == pcm
  {
    if pcm != [] {
      var b := PcmBytes(pcm);
      Int16OfBytes(pcm[0]);
      PcmOfPcmBytes(pcm[1..]);
      assert b[2..] == PcmBytes(pcm[1..]);
      assert pcm == [pcm[0]] + pcm[1..];
    }
  }

  /** `Array.from(bytes, (byte) => String.fromCharCode(byte)).join("")`. */
  function ByteString(b: seq<Byte>): (s: seq<char>)
    ensures |s| == |b|
  {
    seq(|b|, i requires 0 <= i < |b| => b[i] as char)
  }

  /** A string every char of which has a code below 256 (a "binary string"). */
  predicate IsBinary(s: seq<char>) {
    forall i :: 0 <= i < |s| ==> s[i] as int < 256
  }

  function CharCodes(s: seq<char>): (b: seq<Byte>)
    requires IsBinary(s)
    ensures |b| == |s|
  {
    seq(|s|, i requires 0 <= i < |s| => s[i] as int)
  }

  /** `btoa`: base64 of the char codes, or an `InvalidCharacterError` for a char above 255. */
  function Btoa(s: seq<char>): (r: Option<seq<char>>)
    ensures r.Some? <==> IsBinary(s)
  {
    if IsBinary(s) then Some(Encode(CharCodes(s))) else None
  }

  /** A binary string built from bytes never makes `btoa` throw, and encodes those bytes. */
  lemma BtoaOfByteString(b: seq<Byte>)
    ensures Btoa(ByteString(b)) == Some(Encode(b))
  {
    assert CharCodes(ByteString(b)) == b;
  }

  /** `int16ArrayToBase64`: the base64 text whose decoding is exactly the buffer's bytes. */
  function Int16ArrayToBase64(pcm: seq<Int16>): (r: seq<char>)
    ensures Decode(r) == Some(PcmBytes(pcm))
    ensures |r| == 4 * ((2 * |pcm| + 2) / 3)
  {
    BtoaOfByteString(PcmBytes(pcm));
    DecodeEncode(PcmBytes(pcm));
    Btoa(ByteString(PcmBytes(pcm))).value
  }

  /** The transport's payload decodes to the very samples that were sent. */
  lemma PayloadRoundTrip(pcm: seq<Int16>)
    ensures var r := Decode(Int16ArrayToBase64(pcm));
            r.Some? && |r.value| % 2 == 0 && PcmOfBytes(r.value) == pcm
  {
    PcmOfPcmBytes(pcm);
  }
}
