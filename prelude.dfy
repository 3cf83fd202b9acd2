/** Option, the only failure-compatible wrapper the model needs. */
module Wrappers {
  datatype Option<+T> = None | Some(value: T)
}

/** Fixed-width unsigned integers of the source, and the casts it applies to them. */
module Ints {
  const U8_BOUND: nat := 0x100
  const U16_BOUND: nat := 0x1_0000
  const U64_BOUND: nat := 0x1_0000_0000_0000_0000

  type u8 = x: nat | x < U8_BOUND
  type u16 = x: nat | x < U16_BOUND
  type u64 = x: nat | x < U64_BOUND

  /** `as u8` applied to a wider unsigned integer keeps the low eight bits. */
  function WrapU8(x: nat): (r: u8)
    ensures x < U8_BOUND ==> r == x
    ensures (x - r) % U8_BOUND == 0
  {
    x % U8_BOUND
  }

  /** `as u8` applied to a non-negative float saturates at the top of the range. */
  function SaturateU8(x: nat): (r: u8)
    ensures r <= x
    ensures r == x || r == U8_BOUND - 1
  {
    if x < U8_BOUND then x else U8_BOUND - 1
  }

  /** `as u16` applied to a non-negative float saturates at the top of the range. */
  function SaturateU16(x: nat): (r: u16)
    ensures r <= x
    ensures r == x || r == U16_BOUND - 1
  {
    if x < U16_BOUND then x else U16_BOUND - 1
  }
}
