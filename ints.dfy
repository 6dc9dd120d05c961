/** Fixed-width integer types of the Rust examples. Arithmetic on these
    newtypes is range-checked by Dafny, which matches a debug build of Rust,
    where i32 overflow panics instead of wrapping. */
module Ints {

  const I32_MIN: int := -0x8000_0000
  const I32_MAX: int := 0x7fff_ffff

  /** Rust's `i32`. */
  newtype Int32 = x: int | -0x8000_0000 <= x <= 0x7fff_ffff

  /** Rust's `u32`. */
  newtype UInt32 = x: int | 0 <= x <= 0xffff_ffff

  /** The mathematical value `x` fits in an `i32`. */
  predicate InI32(x: int) {
    I32_MIN <= x <= I32_MAX
  }
}
