/**
 * The 6-byte interrupt report of the GunCon 2. Bytes 0 and 1 carry the buttons,
 * active-low (a bit is 0 while its button is held); byte 0 is the high byte of the
 * 16-bit button word. Bytes 2 and 3 are the aim X coordinate, little-endian, and
 * byte 4 is the aim Y coordinate.
 */
module Report {

  const ReportLength: nat := 6

  // Positions in the 16-bit button word, as the masks GUNCON2_* of gcon2.c give them.
  const DpadLeftBit: nat := 15
  const DpadDownBit: nat := 14
  const DpadRightBit: nat := 13
  const DpadUpBit: nat := 12
  const ButtonABit: nat := 11
  const ButtonBBit: nat := 10
  const ButtonCBit: nat := 9
  const StartBit: nat := 7
  const SelectBit: nat := 6
  const TriggerBit: nat := 5

  /** Bit `k` of the button word as the hardware sends it, read from the byte that holds it. */
  function HardwareBit(data: seq<bv8>, k: nat): bool
    requires |data| >= 2 && k < 16
  {
    if k >= 8 then (data[0] >> (k - 8)) & 1 == 1 else (data[1] >> k) & 1 == 1
  }

  /** The button at bit `k` is held: active-low, so its hardware bit is 0. */
  predicate Held(data: seq<bv8>, k: nat)
    requires |data| >= 2 && k < 16
  {
    !HardwareBit(data, k)
  }
}
