/** Fixed-width integer types and the Option wrapper shared by every module of the model. */
module Basics {

  /** C++ `uint8_t`. */
  newtype u8 = x: int | 0 <= x < 0x100

  /** C++ `uint32_t`. */
  newtype u32 = x: int | 0 <= x < 0x1_0000_0000

  const U32_MODULUS: int := 0x1_0000_0000

  /** The value an unsigned 32-bit expression takes after wrap-around. */
  function WrapU32(x: int): (r: u32)
    ensures 0 <= x < U32_MODULUS ==> r as int == x
    ensures (r as int - x) % U32_MODULUS == 0
  {
    (x % U32_MODULUS) as u32
  }

  function MaxU32(a: u32, b: u32): (r: u32)
    ensures r >= a && r >= b
    ensures r == a || r == b
  {
    if a < b then b else a
  }

  function MinU8(a: u8, b: u8): (r: u8)
    ensures r <= a && r <= b
    ensures r == a || r == b
  {
    if b < a then b else a
  }

  datatype Option<+T> = None | Some(value: T)

  /** A pair of 32-bit dimensions (`uint2`). */
  datatype Dims = Dims(x: u32, y: u32)
}
