/**
 * Shared record types of the extension (src/lib/types.ts) and the
 * Int16Array element conversion used when PCM travels between contexts.
 */
module Types {

  const Int16Min: int := -32768
  const Int16Max: int := 32767

  /** A value an Int16Array element can hold. */
  type Int16 = x: int | Int16Min <= x <= Int16Max

  /** A chunk of 16 kHz mono PCM as it travels to the transport. */
  datatype AudioChunk = AudioChunk(pcm: seq<Int16>, chunkIndex: int, durationMs: real)

  /**
   * Storing an integer into an Int16Array element (ECMAScript ToInt16):
   * the value is taken modulo 2^16 into the signed range.
   */
  function ToInt16(x: int): (v: Int16)
    ensures (v - x) % 65536 == 0
    ensures Int16Min <= x <= Int16Max ==> v == x
  {
    (x + 32768) % 65536 - 32768
  }
}
