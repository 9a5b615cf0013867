/** The CRC-16 routine and the driver's CRC hook as defined in src/can.c. */
module CanCrc {
  import opened Crc16Spec

  /**
   * `crc16_cms`: the nested loops over a 16-bit accumulator. The result is the CRC of the first
   * `size` bytes of `data` (so nothing past them matters), and `data` is only read.
   */
  method Crc16Cms(data: array<bv8>, size: nat) returns (crc: bv16)
    requires size <= data.Length
    ensures crc == Crc(data[..size])
  {
    crc := 0xFFFF;
    for i := 0 to size
      invariant crc == Crc(data[..i])
    {
      ghost var before := crc;
      crc := crc ^ (data[i] as bv16);
      for j := 0 to 8
        invariant crc == Shifts(before ^ (data[i] as bv16), j)
      {
        if crc & 0x0001 != 0 {
          crc := (crc >> 1) ^ 0xA001;
        } else {
          crc := crc >> 1;
        }
      }
      assert data[..i + 1] == data[..i] + [data[i]];
      FoldSnoc(Init, data[..i], data[i]);
    }
  }

  /** `MCP251XFD_ComputeCRC16_Pico`: the driver's CRC hook, which returns exactly `crc16_cms`. */
  method ComputeCrc16Pico(data: array<bv8>, size: nat) returns (crc: bv16)
    requires size <= data.Length
    ensures crc == Crc(data[..size])
  {
    crc := Crc16Cms(data, size);
  }
}
