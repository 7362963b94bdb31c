/** The fixed-width integer types of the Rust side, with clamping and the
    saturating operations the source uses. */
module Ints {
  const U8_MAX: int := 0xFF
  const U16_MAX: int := 0xFFFF
  const U32_MAX: int := 0xFFFF_FFFF
  const U64_MAX: int := 0xFFFF_FFFF_FFFF_FFFF
  const U128_MAX: int := 0xFFFF_FFFF_FFFF_FFFF_FFFF_FFFF_FFFF_FFFF
  /** `usize` on the 64-bit desktop targets the application ships for. */
  const USIZE_MAX: int := U64_MAX

  type u8 = x: int | 0 <= x <= U8_MAX
  type u16 = x: int | 0 <= x <= U16_MAX
  type u32 = x: int | 0 <= x <= U32_MAX
  type u64 = x: int | 0 <= x <= U64_MAX
  type u128 = x: int | 0 <= x <= U128_MAX
  type usize = x: int | 0 <= x <= USIZE_MAX

  const I16_MIN: int := -0x8000
  const I16_MAX: int := 0x7FFF
  type i16 = x: int | I16_MIN <= x <= I16_MAX

  function Min(a: int, b: int): int { if a <= b then a else b }
  function Max(a: int, b: int): int { if a >= b then a else b }

  /** `Ord::clamp(lo, hi)` for `lo <= hi`. */
  function Clamp(x: int, lo: int, hi: int): (r: int)
    requires lo <= hi
    ensures lo <= r <= hi
    ensures lo <= x <= hi ==> r == x
    ensures x < lo ==> r == lo
    ensures x > hi ==> r == hi
  {
    if x < lo then lo else if x > hi then hi else x
  }

  /** `usize::saturating_mul`. */
  function SaturatingMulUsize(a: usize, b: usize): (r: usize)
    ensures a * b <= USIZE_MAX ==> r == a * b
    ensures a * b > USIZE_MAX ==> r == USIZE_MAX
  {
    if a * b <= USIZE_MAX then a * b else USIZE_MAX
  }

  /** `u64::saturating_add(1)`. */
  function SaturatingIncU64(a: u64): (r: u64)
    ensures a < U64_MAX ==> r == a + 1
    ensures a == U64_MAX ==> r == U64_MAX
  {
    if a < U64_MAX then a + 1 else U64_MAX
  }
}
