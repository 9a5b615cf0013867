/** C integer widths used by the firmware, and the conversions between them written out. */
module CTypes {

  type uint8 = x: int | 0 <= x < 0x100
  type uint16 = x: int | 0 <= x < 0x1_0000
  type uint32 = x: int | 0 <= x < 0x1_0000_0000

  /** Conversion of an integer value to `int8_t` (two's complement wrap-around). */
  function Int8(x: int): (r: int)
    ensures -0x80 <= r < 0x80
    ensures (x - r) % 0x100 == 0
    ensures -0x80 <= x < 0x80 ==> r == x
  {
    (x + 0x80) % 0x100 - 0x80
  }

  /** Conversion of an integer value to `uint8_t` (reduction modulo 2^8). */
  function Uint8(x: int): (r: uint8)
    ensures (x - r) % 0x100 == 0
    ensures 0 <= x < 0x100 ==> r == x
  {
    x % 0x100
  }

  /** Conversion of an integer value to `uint32_t` (reduction modulo 2^32). */
  function Uint32(x: int): (r: uint32)
    ensures (x - r) % 0x1_0000_0000 == 0
    ensures 0 <= x < 0x1_0000_0000 ==> r == x
  {
    x % 0x1_0000_0000
  }
}
