/**
 * `scale_value`: converts a raw register reading into physical units
 * according to the channel's electrical mode and the active function code.
 * Arithmetic is exact (`real`), not floating point.
 */
module Scaling {
  import opened Base
  import opened Parsing

  /** The dual-channel function code. */
  const DUAL_FUNCTION: int := 196
  /** The single-channel function code. */
  const SINGLE_FUNCTION: int := 195

  /** `min(hi, max(lo, x))`. */
  function Clamp(lo: real, hi: real, x: real): (r: real)
    requires lo <= hi
    ensures lo <= r <= hi
    ensures lo <= x <= hi ==> r == x
    ensures x < lo ==> r == lo
    ensures hi < x ==> r == hi
  {
    if hi < x then hi else if x < lo then lo else x
  }

  /** `scale_value(raw, mode, code)` for a raw value that `float()` accepted. */
  function Scale(raw: real, mode: Option<ElectricalMode>, code: int): (r: Option<real>)
    ensures r.None? <==> mode.None?
    ensures mode == Some(Voltage) ==> r == Some(raw / 1000.0)
    ensures mode == Some(Current) && code == DUAL_FUNCTION ==> r == Some(raw * 0.0016 + 4.0)
    ensures mode == Some(Current) && code != DUAL_FUNCTION ==> r.Some? && 4.0 <= r.value <= 20.0
  {
    match mode
    case None => None
    case Some(Voltage) => Some(raw / 1000.0)
    case Some(Current) =>
      if code == DUAL_FUNCTION then Some(raw * 0.0016 + 4.0)
      else Some(Clamp(4.0, 20.0, raw * 0.0008 + 12.0))
  }

  /** In voltage mode a reading of `x` volts is `1000 * x` raw counts. */
  lemma VoltageInverse(x: real, code: int)
    ensures Scale(x * 1000.0, Some(Voltage), code) == Some(x)
  {
  }

  /** The dual-channel current calibration is affine, so it has an exact inverse. */
  lemma DualCurrentInverse(x: real)
    ensures Scale((x - 4.0) / 0.0016, Some(Current), DUAL_FUNCTION) == Some(x)
  {
  }

  /**
   * The single-channel current calibration is the affine map inside the raw
   * band [-10000, 10000] and saturates at 4.0 and 20.0 outside it.
   */
  lemma SingleCurrentBand(raw: real, code: int)
    requires code != DUAL_FUNCTION
    ensures -10000.0 <= raw <= 10000.0 ==> Scale(raw, Some(Current), code) == Some(raw * 0.0008 + 12.0)
    ensures raw < -10000.0 ==> Scale(raw, Some(Current), code) == Some(4.0)
    ensures raw > 10000.0 ==> Scale(raw, Some(Current), code) == Some(20.0)
  {
  }

  /** Every branch of the calibration is monotone in the raw reading. */
  lemma ScaleMonotone(raw1: real, raw2: real, mode: ElectricalMode, code: int)
    requires raw1 <= raw2
    ensures Scale(raw1, Some(mode), code).value <= Scale(raw2, Some(mode), code).value
  {
  }
}
