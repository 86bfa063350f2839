/** Machine words, and small arithmetic shared by the modules. */
module Numbers {

  const UINT32_MODULUS := 0x1_0000_0000

  type UInt32 = x: int | 0 <= x < UINT32_MODULUS

  type UInt8 = x: int | 0 <= x < 256

  /** C's conversion of an `int` to `uint8_t`. */
  function Byte(x: int): UInt8 {
    x % 256
  }

  function Min(x: int, y: int): int {
    if x <= y then x else y
  }

  function Max(x: int, y: int): int {
    if x <= y then y else x
  }
}
