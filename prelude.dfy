/** Machine integer types, byte strings and Option, shared by every module. */
module Prelude {

  const U64_LIMIT: int := 0x1_0000_0000_0000_0000

  /** Rust's `u8`, `u64` and `u128`. */
  type u8 = x: int | 0 <= x < 0x100
  type u64 = x: int | 0 <= x < U64_LIMIT
  type u128 = x: int | 0 <= x < 0x1_0000_0000_0000_0000_0000_0000_0000_0000

  type byte = x: int | 0 <= x < 0x100
  type Bytes = seq<byte>

  datatype Option<+T> = None | Some(value: T)

  /** `k` copies of `x`: the shape of a trace of identical events. */
  function Repeat<T>(x: T, k: nat): (r: seq<T>)
    ensures |r| == k

  {
    if k == 0 then [] else Repeat(x, k - 1) + [x]
  }
}
