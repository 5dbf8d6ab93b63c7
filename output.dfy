/**
 * The display output of one iteration, which both bridges produce in the
 * same order: channel A's mode frame when the mode is known, the two value
 * slots 0x5500 and 0x5600, then both currents and the supply value.
 *
 * A write the loop skips (`if wa is not None: ...`) and a write of a
 * value that `scale_value` left undefined both appear as a `None` value,
 * which `send_to_dwin` turns into no change at all.
 */
module Output {
  import opened Base
  import opened Parsing
  import opened Scaling
  import opened Frames
  import opened ChangeCache
  import opened Display

  /**
   * The instrument reads of function 196 when no mismatch stops it:
   * `AINA`, `AINB`, `WA`, `WB`, then the tail's `IA`, `IB`.
   */
  const DUAL_COMMANDS: seq<string> := ["AINA", "AINB", "WA", "WB", "IA", "IB"]

  /** The instrument reads of function 195: `AINA`, `W`, then the tail's `IA`, `IB`. */
  const SINGLE_COMMANDS: seq<string> := ["AINA", "W", "IA", "IB"]

  /** The commands of function 196 are its three pairs in order; those of 195 its two pairs. */
  lemma CommandPairs()
    ensures ["AINA", "AINB"] + ["WA", "WB"] + ["IA", "IB"] == DUAL_COMMANDS
    ensures ["AINA", "W"] + ["IA", "IB"] == SINGLE_COMMANDS
  {
  }

  /** `scale_value(w, mode, code)` behind the guard `if w is not None`. */
  function ScaledReading(w: Option<real>, mode: Option<ElectricalMode>, code: int): Option<real>
  {
    if w.Some? then Scale(w.value, mode, code) else None
  }

  /** `ia / 10.0` behind the guard `if ia is not None`. */
  function Tenth(i: Option<real>): Option<real>
  {
    if i.Some? then Some(i.value / 10.0) else None
  }

  /** `if mode_a: send_mode_to_dwin(mode_a)`. */
  function ModeWrite(d: DwinState, m: Option<ElectricalMode>): DwinState
  {
    if m.Some? then SendModeSpec(d, m.value) else d
  }

  /** The two value slots: 0x5500, then 0x5600. */
  function SlotWrites(d: DwinState, primary: Option<real>, secondary: Option<real>): DwinState
  {
    SendSpec(SendSpec(d, REG_PRIMARY, primary), REG_SECONDARY, secondary)
  }

  /** `IA`/10 to 0x5700, `IB`/10 to 0x5800, then 24.0 to 0x5900. */
  function CurrentWrites(d: DwinState, ia: Option<real>, ib: Option<real>): DwinState
  {
    SendSpec(SendSpec(SendSpec(d, REG_CURRENT_A, Tenth(ia)), REG_CURRENT_B, Tenth(ib)),
             REG_SUPPLY, Some(SUPPLY_VALUE))
  }

  /**
   * The mode write leaves the cache alone and, when the mode is known, is
   * attempted once and puts the mode register's value frame on the wire
   * if the link accepts it.
   */
  lemma ModeWriteEffect(d: DwinState, m: Option<ElectricalMode>)
    ensures var e := ModeWrite(d, m);
      e.cache == d.cache && e.accepts == d.accepts
      && e.attempts == d.attempts + (if m.Some? then 1 else 0)
      && e.wire == d.wire + (if m.Some? && d.accepts(d.attempts)
                              then [ValueFrame(REG_MODE, ModeValue(m.value))] else [])
  {
    if m.Some? {
      SendModeEffect(d, m.value);
    }
  }

  /** The slots cache what was offered to them, in order. */
  lemma SlotCache(d: DwinState, primary: Option<real>, secondary: Option<real>)
    ensures var e := SlotWrites(d, primary, secondary);
      e.cache == Cached(Cached(d.cache, REG_PRIMARY, primary), REG_SECONDARY, secondary)
      && e.accepts == d.accepts
  {
    SendCached(d, REG_PRIMARY, primary);
    SendCached(SendSpec(d, REG_PRIMARY, primary), REG_SECONDARY, secondary);
  }

  /**
   * 0x5700 (0x5800) caches a tenth of the parsed `IA` (`IB`) reading, or
   * keeps its entry when that reading did not parse; 0x5900 caches 24.0.
   */
  lemma CurrentCache(d: DwinState, ia: Option<real>, ib: Option<real>)
    ensures var e := CurrentWrites(d, ia, ib);
      e.cache == Cached(Cached(Cached(d.cache, REG_CURRENT_A, Tenth(ia)), REG_CURRENT_B, Tenth(ib)),
                        REG_SUPPLY, Some(SUPPLY_VALUE))
      && e.accepts == d.accepts
  {
    var d1 := SendSpec(d, REG_CURRENT_A, Tenth(ia));
    SendCached(d, REG_CURRENT_A, Tenth(ia));
    SendCached(d1, REG_CURRENT_B, Tenth(ib));
    SendCached(SendSpec(d1, REG_CURRENT_B, Tenth(ib)), REG_SUPPLY, Some(SUPPLY_VALUE));
  }

  /**
   * After the current writes the supply register holds 240, and the two
   * value slots keep whatever they held.
   */
  lemma CurrentSupply(d: DwinState, ia: Option<real>, ib: Option<real>)
    ensures var e := CurrentWrites(d, ia, ib);
      Lookup(e.cache, REG_SUPPLY) == Some(240)
      && Lookup(e.cache, REG_PRIMARY) == Lookup(d.cache, REG_PRIMARY)
      && Lookup(e.cache, REG_SECONDARY) == Lookup(d.cache, REG_SECONDARY)
  {
    CurrentCache(d, ia, ib);
    QuantizeSupply();
  }

  /** Offering 0.0 to the second slot leaves 0 cached there. */
  lemma SecondaryZero(d: DwinState, primary: Option<real>)
    ensures Lookup(SlotWrites(d, primary, Some(0.0)).cache, REG_SECONDARY) == Some(0)
  {
    SlotCache(d, primary, Some(0.0));
    RoundHalfEvenUnique(0.0, 0);
  }

  /** Mode V, then 1.5 and 1.5 on an accepting link, neither slot cached yet. */
  lemma SlotExample(d: DwinState)
    requires forall n :: d.accepts(n)
    requires REG_PRIMARY !in d.cache && REG_SECONDARY !in d.cache
    ensures var e := SlotWrites(ModeWrite(d, Some(Voltage)), Some(1.5), Some(1.5));
      e.accepts == d.accepts && e.cache == d.cache[REG_PRIMARY := 15][REG_SECONDARY := 15]
      && e.wire == d.wire + [ModeFrame(Voltage), ValueFrame(REG_PRIMARY, 15), ValueFrame(REG_SECONDARY, 15)]
  {
    RoundHalfEvenUnique(15.0, 15);
    var d1 := SendModeSpec(d, Voltage);
    SendNeverSeen(d1, REG_PRIMARY, 1.5);
    SendEffect(d1, REG_PRIMARY, 1.5);
    var d2 := SendSpec(d1, REG_PRIMARY, Some(1.5));
    SendNeverSeen(d2, REG_SECONDARY, 1.5);
    SendEffect(d2, REG_SECONDARY, 1.5);
  }

  /** `IA` = 50 and `IB` = 60 on an accepting link, none of the three registers cached yet. */
  lemma CurrentExample(d: DwinState)
    requires forall n :: d.accepts(n)
    requires REG_CURRENT_A !in d.cache && REG_CURRENT_B !in d.cache && REG_SUPPLY !in d.cache
    ensures CurrentWrites(d, Some(50.0), Some(60.0)).wire
      == d.wire + [ValueFrame(REG_CURRENT_A, 50), ValueFrame(REG_CURRENT_B, 60), ValueFrame(REG_SUPPLY, 240)]
  {
    RoundHalfEvenUnique(50.0, 50);
    RoundHalfEvenUnique(60.0, 60);
    QuantizeSupply();
    var d1 := SendSpec(d, REG_CURRENT_A, Some(5.0));
    SendNeverSeen(d, REG_CURRENT_A, 5.0);
    SendEffect(d, REG_CURRENT_A, 5.0);
    var d2 := SendSpec(d1, REG_CURRENT_B, Some(6.0));
    SendNeverSeen(d1, REG_CURRENT_B, 6.0);
    SendEffect(d1, REG_CURRENT_B, 6.0);
    SendNeverSeen(d2, REG_SUPPLY, SUPPLY_VALUE);
  }

  /** `if mode_a: send_mode_to_dwin(mode_a)` on the display link. */
  method WriteMode(dwin: DwinLink, m: Option<ElectricalMode>)
    modifies dwin
    ensures dwin.Model() == ModeWrite(old(dwin.Model()), m)
  {
    if m.Some? {
      dwin.SendMode(m.value);
    }
  }

  /** The writes to the two value slots. */
  method WriteSlots(dwin: DwinLink, primary: Option<real>, secondary: Option<real>)
    modifies dwin
    ensures dwin.Model() == SlotWrites(old(dwin.Model()), primary, secondary)
  {
    dwin.Send(REG_PRIMARY, primary);
    dwin.Send(REG_SECONDARY, secondary);
  }

  /** The current and supply writes every completed iteration ends with. */
  method WriteCurrents(dwin: DwinLink, ia: Option<real>, ib: Option<real>)
    modifies dwin
    ensures dwin.Model() == CurrentWrites(old(dwin.Model()), ia, ib)
  {
    dwin.Send(REG_CURRENT_A, Tenth(ia));
    dwin.Send(REG_CURRENT_B, Tenth(ib));
    dwin.Send(REG_SUPPLY, Some(SUPPLY_VALUE));
  }
}
