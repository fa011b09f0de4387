/**
 * Fixed-width integer types of the host ABI, as subsets of Dafny's
 * unbounded `int`. Arithmetic on them never wraps: every operation that
 * could leave the range carries a precondition instead.
 */
module Ints {
  const U32_LIMIT: int := 0x1_0000_0000
  const I64_MIN: int := -0x8000_0000_0000_0000
  const I64_LIMIT: int := 0x8000_0000_0000_0000
  const U64_LIMIT: int := 0x1_0000_0000_0000_0000

  /** Rust `u8`, one byte of guest memory. */
  type u8 = x: int | 0 <= x < 0x100

  /** Rust `u32`. */
  type u32 = x: int | 0 <= x < U32_LIMIT

  /** Rust `i32`, the result type of the mocked imports. */
  type i32 = x: int | -0x8000_0000 <= x < 0x8000_0000

  /** Rust `i64`, the payload of `Value::I64`. */
  type i64 = x: int | I64_MIN <= x < I64_LIMIT

  /** Rust `u64`, the result of `f64::to_bits`. */
  type u64 = x: int | 0 <= x < U64_LIMIT

  /** True when `x` is representable as a `u32`, i.e. a `u32` addition producing it does not overflow. */
  predicate FitsU32(x: int) {
    0 <= x < U32_LIMIT
  }

  /**
   * The cast `x as i64` from `u64`: the same 64 bits read in two's
   * complement, so the value is kept modulo 2^64.
   */
  function ReinterpretU64AsI64(x: u64): (r: i64)
    ensures (r as int - x as int) % U64_LIMIT == 0
    ensures x < I64_LIMIT ==> r as int == x as int
  {
    if x < I64_LIMIT then x as int else x as int - U64_LIMIT
  }
}
