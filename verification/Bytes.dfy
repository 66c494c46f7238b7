/** Bytes and the fixed-width numbers stored in them. */
module Bytes {
  /** Sizes, counts and lengths are `uint32_t` values. */
  const UINT32: nat := 0x1_0000_0000

  type byte = x: int | 0 <= x < 256

  type Bytes = seq<byte>

  predicate AllZero(b: Bytes) {
    forall i | 0 <= i < |b| :: b[i] == 0
  }

  function Zeros(n: nat): (b: Bytes)
    ensures |b| == n && AllZero(b)
  {
    seq(n, i => 0)
  }
}
