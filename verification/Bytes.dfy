/** Bytes, 16-bit words and the little vocabulary every other module shares. */
module Bytes {

  type byte = x: int | 0 <= x < 0x100
  type u16 = x: int | 0 <= x < 0x1_0000
  type bytes = seq<byte>

  /** A QUuid; NULL_UUID is the null one. */
  type Uuid = nat

  const NULL_UUID: Uuid := 0

  datatype Option<+T> = None | Some(value: T)

  /** Chunks of a byte stream in order of arrival, glued together. */
  function Concat(chunks: seq<bytes>): bytes {
    if chunks == [] then [] else Concat(chunks[..|chunks| - 1]) + chunks[|chunks| - 1]
  }

  lemma Associates(a: bytes, b: bytes, c: bytes)
    ensures (a + b) + c == a + (b + c)
  {
  }
}
