/**
 * The display link's binary frames: the 8-byte value frame (also used for
 * the mode register), the 10-byte page-switch frame and the 6-byte selector
 * read request with its response decoding; and the quantization of a
 * physical value to the frame's signed 16-bit integer.
 */
module Frames {
  import opened Base
  import opened Parsing

  /** Register that shows the electrical mode of channel A. */
  const REG_MODE: int := 0x5000

  // ---------------------------------------------------------------------
  // Quantization: `max(-32768, min(32767, int(round(value * 10))))`
  // ---------------------------------------------------------------------

  /** Python's `round` on a number: nearest integer, ties to the even one. */
  function RoundHalfEven(x: real): (n: int)
    ensures x - 0.5 <= n as real <= x + 0.5
    ensures (n as real == x - 0.5 || n as real == x + 0.5) ==> n % 2 == 0
  {
    var f := x.Floor;
    var d := x - f as real;
    if d < 0.5 then f
    else if d > 0.5 then f + 1
    else if f % 2 == 0 then f
    else f + 1
  }

  /** The two properties of `RoundHalfEven` determine it: any integer that has them is it. */
  lemma RoundHalfEvenUnique(x: real, n: int)
    requires x - 0.5 <= n as real <= x + 0.5
    requires (n as real == x - 0.5 || n as real == x + 0.5) ==> n % 2 == 0
    ensures RoundHalfEven(x) == n
  {
  }

  /** Saturation to the signed 16-bit range. */
  function Clamp16(v: int): (r: int)
    ensures IsInt16(r)
    ensures IsInt16(v) ==> r == v
    ensures v < -0x8000 ==> r == -0x8000
    ensures v >= 0x8000 ==> r == 0x7FFF
  {
    if v > 0x7FFF then 0x7FFF else if v < -0x8000 then -0x8000 else v
  }

  /** The integer a value frame carries for a physical value (one decimal digit). */
  function Quantize(value: real): (iv: int)
    ensures IsInt16(iv)
    ensures -32768.5 < value * 10.0 < 32767.5 ==> value * 10.0 - 0.5 <= iv as real <= value * 10.0 + 0.5
    ensures value * 10.0 <= -32768.5 ==> iv == -0x8000
    ensures value * 10.0 >= 32767.5 ==> iv == 0x7FFF
  {
    Clamp16(RoundHalfEven(value * 10.0))
  }

  // ---------------------------------------------------------------------
  // Byte encodings
  // ---------------------------------------------------------------------

  /** The unsigned 16-bit value of a high and a low byte. */
  function Word(hi: byte, lo: byte): int
  {
    hi as int * 256 + lo as int
  }

  /** `u.to_bytes(2, "big")` for an unsigned 16-bit value. */
  function BigEndian16(u: int): (bs: seq<byte>)
    requires 0 <= u < 0x1_0000
    ensures |bs| == 2 && Word(bs[0], bs[1]) == u
  {
    [u / 256, u % 256]
  }

  /** Two's complement of a signed 16-bit value, as `to_bytes(..., signed=True)` writes it. */
  function Unsigned16(v: int): (u: int)
    requires IsInt16(v)
    ensures 0 <= u < 0x1_0000
    ensures u == v % 0x1_0000
    ensures u < 0x8000 <==> v >= 0
  {
    if v < 0 then v + 0x1_0000 else v
  }

  /** The inverse of `Unsigned16`. */
  function Signed16(u: int): (v: int)
    requires 0 <= u < 0x1_0000
    ensures IsInt16(v) && Unsigned16(v) == u
  {
    if u >= 0x8000 then u - 0x1_0000 else u
  }

  /** The 8-byte write frame: `5A A5 05 82`, register id and value, both big-endian. */
  function ValueFrame(vpin: int, iv: int): (f: Frame)
    requires IsRegister(vpin) && IsInt16(iv)
    ensures |f| == 8 && f[..4] == [0x5A, 0xA5, 0x05, 0x82]
  {
    [0x5A, 0xA5, 0x05, 0x82] + BigEndian16(vpin) + BigEndian16(Unsigned16(iv))
  }

  /** Reads a value frame back: its register id and signed value. */
  function DecodeValueFrame(f: Frame): Option<(int, int)>
  {
    if |f| == 8 && f[..4] == [0x5A, 0xA5, 0x05, 0x82] then
      Some((Word(f[4], f[5]), Signed16(Word(f[6], f[7]))))
    else None
  }

  /** A value frame decodes to the register and value it was built from. */
  lemma DecodeValueFrameInverse(vpin: int, iv: int)
    requires IsRegister(vpin) && IsInt16(iv)
    ensures DecodeValueFrame(ValueFrame(vpin, iv)) == Some((vpin, iv))
  {
    var f := ValueFrame(vpin, iv);
    assert Word(f[4], f[5]) == vpin;
    assert Word(f[6], f[7]) == Unsigned16(iv);
    assert Signed16(Unsigned16(iv)) == iv;
  }

  /** Every frame that decodes is the value frame of what it decodes to. */
  lemma ValueFrameOfDecode(f: Frame)
    requires DecodeValueFrame(f).Some?
    ensures var (vpin, iv) := DecodeValueFrame(f).value;
      IsRegister(vpin) && IsInt16(iv) && ValueFrame(vpin, iv) == f
  {
    var (vpin, iv) := DecodeValueFrame(f).value;
    var g := ValueFrame(vpin, iv);
    assert g[4] == f[4] && g[5] == f[5];
    assert Unsigned16(iv) == Word(f[6], f[7]);
    assert g[6] == f[6] && g[7] == f[7];
    assert g[..4] == f[..4];
    assert forall i :: 0 <= i < 4 ==> g[i] == g[..4][i] && f[i] == f[..4][i];
  }

  /** `send_mode_to_dwin`'s value: 0 for voltage, 1 otherwise. */
  function ModeValue(m: ElectricalMode): (v: int)
    ensures v == 0 <==> m == Voltage
    ensures v == 0 || v == 1
  {
    if m == Voltage then 0 else 1
  }

  /** The mode frame as `send_mode_to_dwin` writes it. */
  function ModeFrame(m: ElectricalMode): Frame
  {
    [0x5A, 0xA5, 0x05, 0x82, 0x50, 0x00] + BigEndian16(ModeValue(m))
  }

  /** The mode frame is the value frame of the mode register. */
  lemma ModeFrameIsValueFrame(m: ElectricalMode)
    ensures ModeFrame(m) == ValueFrame(REG_MODE, ModeValue(m))
    ensures DecodeValueFrame(ModeFrame(m)) == Some((REG_MODE, ModeValue(m)))
  {
    assert BigEndian16(REG_MODE) == [0x50, 0x00];
    DecodeValueFrameInverse(REG_MODE, ModeValue(m));
  }

  /**
   * `switch_page(page_id)`: `5A A5 07 82 00 84 5A 01` then
   * `(page_id >> 8) & 0xFF` and `page_id & 0xFF` (floor division and a
   * non-negative remainder, as Python's shift and mask give for any integer).
   */
  function PageFrame(page: int): (f: Frame)
    ensures |f| == 10
    ensures f[..8] == [0x5A, 0xA5, 0x07, 0x82, 0x00, 0x84, 0x5A, 0x01]
    ensures Word(f[8], f[9]) == page % 0x1_0000
  {
    [0x5A, 0xA5, 0x07, 0x82, 0x00, 0x84, 0x5A, 0x01, (page / 256) % 256, page % 256]
  }

  /** A page id that fits in 16 bits is recovered from the last two bytes. */
  lemma PageFrameCarriesPage(page: int)
    requires 0 <= page < 0x1_0000
    ensures Word(PageFrame(page)[8], PageFrame(page)[9]) == page
    ensures PageFrame(page)[8..] == BigEndian16(page)
  {
  }

  /** The 6-byte read request for the selector register 0x5100. */
  const SELECTOR_REQUEST: Frame := [0x5A, 0xA5, 0x03, 0x83, 0x51, 0x00]

  /** `(buffer[-2] << 8) | buffer[-1]`: the last two bytes, big-endian. */
  function SelectorValue(buf: seq<byte>): (v: int)
    requires |buf| >= 2
    ensures 0 <= v < 0x1_0000
    ensures BigEndian16(v) == buf[|buf| - 2..]
  {
    Word(buf[|buf| - 2], buf[|buf| - 1])
  }

  /** Whatever precedes them, the last two bytes `BigEndian16(v)` read back as `v`. */
  lemma SelectorValueOfSuffix(prefix: seq<byte>, v: int)
    requires 0 <= v < 0x1_0000
    ensures SelectorValue(prefix + BigEndian16(v)) == v
  {
    var buf := prefix + BigEndian16(v);
    assert buf[|buf| - 2] == BigEndian16(v)[0] && buf[|buf| - 1] == BigEndian16(v)[1];
  }

  // ---------------------------------------------------------------------
  // Worked examples of the quantization
  // ---------------------------------------------------------------------

  /** 1.23 is sent as 12. */
  lemma QuantizeExample()
    ensures Quantize(1.23) == 12
  {
    RoundHalfEvenUnique(12.3, 12);
  }

  /** -3276.9 saturates to -32768. */
  lemma QuantizeSaturates()
    ensures Quantize(-3276.9) == -0x8000
  {
    RoundHalfEvenUnique(-32769.0, -32769);
  }

  /** At the .x5 boundaries the tie goes to the even integer, in both directions. */
  lemma QuantizeTies()
    ensures Quantize(0.25) == 2 && Quantize(0.35) == 4
    ensures Quantize(-0.25) == -2 && Quantize(-0.35) == -4
  {
    RoundHalfEvenUnique(2.5, 2);
    RoundHalfEvenUnique(3.5, 4);
    RoundHalfEvenUnique(-2.5, -2);
    RoundHalfEvenUnique(-3.5, -4);
  }
}
