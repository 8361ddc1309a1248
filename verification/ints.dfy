/** The fixed-width integer types of the source, as ranges of the unbounded `int`. */
module Ints {

  const U64_LIMIT: int := 0x1_0000_0000_0000_0000
  const I64_MIN: int := -0x8000_0000_0000_0000
  const I64_LIMIT: int := 0x8000_0000_0000_0000

  /** Rust's `u64`. */
  type U64 = n: int | 0 <= n < 0x1_0000_0000_0000_0000

  /** Rust's `i64`. */
  type I64 = n: int | -0x8000_0000_0000_0000 <= n < 0x8000_0000_0000_0000

  /** Rust's `x as u64` for an `i64` `x`: the same 64 bits read as unsigned. */
  function I64AsU64(x: I64): (r: U64)
    ensures (r - x) % U64_LIMIT == 0
    ensures x >= 0 ==> r == x
  {
    if x < 0 then x + U64_LIMIT else x
  }
}
