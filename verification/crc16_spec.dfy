/**
 * The bitwise CRC-16 that the MCP251XFD platform glue supplies to the driver
 * (`crc16_cms`, present twice: src/can.c and src/drivers/mcp251xfd/platform.c), as a pure
 * specification: a left fold of a per-byte step over the data.
 *
 * The parameters in the code (reflected polynomial 0xA001, i.e. 0x8005 bit-reversed, initial
 * value 0xFFFF, no final xor) are those of the catalogued CRC-16/MODBUS algorithm, whose check
 * value over the ASCII string "123456789" is 0x4B37; `ModbusCheckValue` proves that value.
 */
module Crc16Spec {

  /** Initial value of the accumulator. */
  const Init: bv16 := 0xFFFF

  /** The polynomial 0x8005 in reflected (LSB-first) form. */
  const ReflectedPoly: bv16 := 0xA001

  /** One pass of the inner loop: shift right, and xor in the polynomial when the low bit was set. */
  function ShiftStep(crc: bv16): bv16
  {
    if crc & 0x0001 != 0 then (crc >> 1) ^ ReflectedPoly else crc >> 1
  }

  /** `k` passes of the inner loop. */
  function Shifts(crc: bv16, k: nat): bv16
  {
    if k == 0 then crc else ShiftStep(Shifts(crc, k - 1))
  }

  /** The per-byte step: xor the byte into the low half, then eight shift passes. */
  function ByteStep(crc: bv16, b: bv8): bv16
  {
    Shifts(crc ^ (b as bv16), 8)
  }

  /** The eight passes of the inner loop written out. */
  lemma ByteStepUnrolled(crc: bv16, b: bv8)
    ensures ByteStep(crc, b) == ShiftStep(ShiftStep(ShiftStep(ShiftStep(
              ShiftStep(ShiftStep(ShiftStep(ShiftStep(crc ^ (b as bv16)))))))))
  {
    var x := crc ^ (b as bv16);
    assert Shifts(x, 1) == ShiftStep(x);
    assert Shifts(x, 2) == ShiftStep(ShiftStep(x));
    assert Shifts(x, 3) == ShiftStep(Shifts(x, 2));
    assert Shifts(x, 4) == ShiftStep(Shifts(x, 3));
    assert Shifts(x, 5) == ShiftStep(Shifts(x, 4));
    assert Shifts(x, 6) == ShiftStep(Shifts(x, 5));
    assert Shifts(x, 7) == ShiftStep(Shifts(x, 6));
  }

  /** The left fold of `ByteStep` over `data`, starting from accumulator `crc`. */
  function Fold(crc: bv16, data: seq<bv8>): bv16
    decreases |data|
  {
    if data == [] then crc else Fold(ByteStep(crc, data[0]), data[1..])
  }

  /** The CRC of a whole buffer. */
  function Crc(data: seq<bv8>): bv16
  {
    Fold(Init, data)
  }

  /** The CRC of an empty buffer is the initial value 0xFFFF (no final xor). */
  lemma CrcEmpty()
    ensures Crc([]) == 0xFFFF
  {
  }

  /** One more byte is one more step from the accumulator reached so far. */
  lemma {:induction false} FoldSnoc(crc: bv16, data: seq<bv8>, b: bv8)
    ensures Fold(crc, data + [b]) == ByteStep(Fold(crc, data), b)
    decreases |data|
  {
    if data != [] {
      assert (data + [b])[1..] == data[1..] + [b];
      FoldSnoc(ByteStep(crc, data[0]), data[1..], b);
    }
  }

  /** Incremental computation: the CRC of `a + b` continues the fold over `b` from the state after `a`. */
  lemma {:induction false} FoldAppend(crc: bv16, a: seq<bv8>, b: seq<bv8>)
    ensures Fold(crc, a + b) == Fold(Fold(crc, a), b)
    decreases |a|
  {
    if a != [] {
      assert (a + b)[1..] == a[1..] + b;
      FoldAppend(ByteStep(crc, a[0]), a[1..], b);
    } else {
      assert a + b == b;
    }
  }

  /** The catalogued CRC-16/MODBUS check value: the CRC of ASCII "123456789" is 0x4B37. */
  lemma ModbusCheckValue()
    ensures Crc([0x31, 0x32, 0x33, 0x34, 0x35, 0x36, 0x37, 0x38, 0x39]) == 0x4B37
  {
    var s: seq<bv8> := [0x31, 0x32, 0x33, 0x34, 0x35, 0x36, 0x37, 0x38, 0x39];
    assert ByteStep(0xFFFF, 0x31) == 0x947E by { ByteStepUnrolled(0xFFFF, 0x31); }
    assert ByteStep(0x947E, 0x32) == 0xF595 by { ByteStepUnrolled(0x947E, 0x32); }
    assert ByteStep(0xF595, 0x33) == 0x7A75 by { ByteStepUnrolled(0xF595, 0x33); }
    assert ByteStep(0x7A75, 0x34) == 0x30BA by { ByteStepUnrolled(0x7A75, 0x34); }
    assert ByteStep(0x30BA, 0x35) == 0xA471 by { ByteStepUnrolled(0x30BA, 0x35); }
    assert ByteStep(0xA471, 0x36) == 0x32E4 by { ByteStepUnrolled(0xA471, 0x36); }
    assert ByteStep(0x32E4, 0x37) == 0x9D73 by { ByteStepUnrolled(0x32E4, 0x37); }
    assert ByteStep(0x9D73, 0x38) == 0x37DD by { ByteStepUnrolled(0x9D73, 0x38); }
    assert ByteStep(0x37DD, 0x39) == 0x4B37 by { ByteStepUnrolled(0x37DD, 0x39); }
    assert Fold(0x37DD, s[8..]) == 0x4B37;
    assert Fold(0x9D73, s[7..]) == 0x4B37;
    assert Fold(0x32E4, s[6..]) == 0x4B37;
    assert Fold(0xA471, s[5..]) == 0x4B37;
    assert Fold(0x30BA, s[4..]) == 0x4B37;
    assert Fold(0x7A75, s[3..]) == 0x4B37;
    assert Fold(0xF595, s[2..]) == 0x4B37;
    assert Fold(0x947E, s[1..]) == 0x4B37;
  }
}
