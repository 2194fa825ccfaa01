/** The fixed-width C integer types the converter works with, and the
    conversions between them that wrap around (two's complement, as the
    Windows compilers implement them). */
module Primitives {

  /** `unsigned char`, `BYTE`, `UCHAR`, `std::uint8_t`. */
  type Byte = x: int | 0 <= x < 0x100

  /** `USHORT`, `WORD`. */
  type UInt16 = x: int | 0 <= x < 0x1_0000

  /** `short`, `SHORT`. */
  type Int16 = x: int | -0x8000 <= x < 0x8000

  /** `LONG`. */
  type Int32 = x: int | -0x8000_0000 <= x < 0x8000_0000

  /** `DWORD`. */
  type UInt32 = x: int | 0 <= x < 0x1_0000_0000

  /** Conversion of any integer to `short`: the unique 16-bit signed value
      congruent to it modulo 2^16. */
  function ToShort(x: int): (r: Int16)
    ensures (r - x) % 0x1_0000 == 0
    ensures -0x8000 <= x < 0x8000 ==> r == x
  {
    var m := x % 0x1_0000;
    if m < 0x8000 then m else m - 0x1_0000
  }

  /** Conversion of any integer to `unsigned char`: the unique byte
      congruent to it modulo 2^8. */
  function ToByte(x: int): (r: Byte)
    ensures (r - x) % 0x100 == 0
    ensures 0 <= x < 0x100 ==> r == x
  {
    x % 0x100
  }

  /** 2^n, the value of the single bit at position n. */
  function Pow2(n: nat): (r: nat)
    ensures r >= 1
  {
    if n == 0 then 1 else 2 * Pow2(n - 1)
  }
}
