/**
 * One iteration of the main loop of `pam_to_dwin_v2.py`: the same
 * enforcement step and `FUNCTION` query as the first bridge, no mismatch
 * arbitration, display writes only for functions 196 and 195, and the
 * `machine_state` snapshot published for the telemetry reader.
 *
 * The loop's readings `mode_a`, `mode_b`, `wa`, `wb`, `ia`, `ib` are
 * module-level variables: they keep their values from earlier iterations
 * and are unassigned until a branch first assigns them. The snapshot code
 * as written raises when one of them is unassigned or a reading is `None`;
 * `PublishAsWritten` models that code and `Publish`, which the loop below
 * uses, is the version that never raises.
 */
module BridgeV2 {
  import opened Base
  import opened Parsing
  import opened Scaling
  import opened Frames
  import opened ChangeCache
  import opened Instrument
  import opened Display
  import opened Output

  /** A module-level variable: never assigned yet, or holding a value. */
  datatype Slot<T> = Unbound | Bound(value: T)

  /** The loop's readings, kept between iterations. */
  datatype Readings = Readings(
    modeA: Slot<Option<ElectricalMode>>,
    modeB: Slot<Option<ElectricalMode>>,
    wa: Slot<Option<real>>,
    wb: Slot<Option<real>>,
    ia: Slot<Option<real>>,
    ib: Slot<Option<real>>)

  /** Before the first branch runs, none of the readings exists. */
  const UNASSIGNED: Readings := Readings(Unbound, Unbound, Unbound, Unbound, Unbound, Unbound)

  /** `machine_state`: function code, both scaled values, both currents and channel A's mode. */
  datatype Snapshot = Snapshot(
    func: Option<int>,
    wa: Option<real>,
    wb: Option<real>,
    ia: Option<real>,
    ib: Option<real>,
    mode: Option<ElectricalMode>)

  /** Every key of `machine_state` starts as `None`. */
  const EMPTY_SNAPSHOT: Snapshot := Snapshot(None, None, None, None, None, None)

  /** Everything the loop keeps between iterations. */
  datatype BridgeState = BridgeState(pam: PamState, dwin: DwinState, lastModeCheck: real,
                                     vars: Readings, snapshot: Snapshot)

  /** How an iteration ended; `Crashed` only arises from the snapshot code as written. */
  datatype Outcome =
    | NoFunction          // `FUNCTION` did not parse: `continue` before anything else
    | Published(code: int)
    | Crashed(code: int)  // an exception left the loop, ending the process

  // ---------------------------------------------------------------------
  // The snapshot
  // ---------------------------------------------------------------------

  /**
   * `scale_value(raw, mode, code)` on the loop's variables, as written:
   * `None` when it raises (a `NameError` for an unassigned variable, or the
   * `TypeError` of `float(None)`), otherwise the scaled value, itself
   * `None` when the mode is unknown.
   */
  function ScaleAsWritten(raw: Slot<Option<real>>, mode: Slot<Option<ElectricalMode>>, code: int): (r: Option<Option<real>>)
    ensures r.None? <==> raw.Unbound? || mode.Unbound? || raw.value.None?
    ensures r.Some? ==> r.value == Scale(raw.value.value, mode.value, code)
  {
    match raw
    case Unbound => None
    case Bound(x) =>
      match mode
      case Unbound => None
      case Bound(m) => if x.None? then None else Some(Scale(x.value, m, code))
  }

  /**
   * The `with state_lock` block as written: the keys are stored one after
   * the other, so when an expression raises, the keys before it already
   * hold the new values and the rest keep the old ones. The flag says
   * whether the block completed.
   */
  function PublishAsWritten(snap: Snapshot, v: Readings, code: int): (Snapshot, bool)
  {
    var s1 := snap.(func := Some(code));
    match ScaleAsWritten(v.wa, v.modeA, code)
    case None => (s1, false)
    case Some(wa) =>
      var s2 := s1.(wa := wa);
      match ScaleAsWritten(v.wb, v.modeB, code)
      case None => (s2, false)
      case Some(wb) =>
        var s3 := s2.(wb := wb);
        match v.ia
        case Unbound => (s3, false)
        case Bound(ia) =>
          var s4 := s3.(ia := ia);
          match v.ib
          case Unbound => (s4, false)
          case Bound(ib) =>
            var s5 := s4.(ib := ib);
            match v.modeA
            case Unbound => (s5, false)
            case Bound(m) => (s5.(mode := m), true)
  }

  /** Every reading exists, and both raw values handed to `scale_value` are defined. */
  predicate Publishable(v: Readings)
  {
    v.modeA.Bound? && v.modeB.Bound? && v.wa.Bound? && v.wb.Bound? && v.ia.Bound? && v.ib.Bound?
    && v.wa.value.Some? && v.wb.value.Some?
  }

  /**
   * The block as written completes exactly when the readings are
   * publishable; when it raises, `FUNC` already holds the new code, so the
   * reader sees a snapshot mixing this iteration's code with older values.
   */
  lemma AsWrittenCompletesIff(snap: Snapshot, v: Readings, code: int)
    ensures PublishAsWritten(snap, v, code).1 <==> Publishable(v)
    ensures PublishAsWritten(snap, v, code).0.func == Some(code)
    ensures !Publishable(v) ==> PublishAsWritten(snap, v, code).0.ib == snap.ib
    ensures !Publishable(v) ==> PublishAsWritten(snap, v, code).0.mode == snap.mode
  {
  }

  /** `scale_value` where a missing variable or reading gives `None` instead of raising. */
  function ScaleOrNone(raw: Slot<Option<real>>, mode: Slot<Option<ElectricalMode>>, code: int): (r: Option<real>)
    ensures r.Some? ==> raw.Bound? && raw.value.Some? && mode.Bound? && mode.value.Some?
    ensures raw.Bound? && raw.value.Some? && mode.Bound? ==> r == Scale(raw.value.value, mode.value, code)
  {
    if raw.Bound? && raw.value.Some? && mode.Bound? then Scale(raw.value.value, mode.value, code) else None
  }

  /** The value of a variable, `None` when it was never assigned. */
  function ValueOrNone<T>(slot: Slot<Option<T>>): Option<T>
  {
    if slot.Bound? then slot.value else None
  }

  /** The snapshot block without the exception: all six keys, in one step. */
  function Publish(v: Readings, code: int): (r: Snapshot)
    ensures r.func == Some(code)
  {
    Snapshot(Some(code), ScaleOrNone(v.wa, v.modeA, code), ScaleOrNone(v.wb, v.modeB, code),
             ValueOrNone(v.ia), ValueOrNone(v.ib), ValueOrNone(v.modeA))
  }

  /** Whenever the block as written completes, it stores exactly what `Publish` stores. */
  lemma PublishAgreesWhenComplete(snap: Snapshot, v: Readings, code: int)
    requires PublishAsWritten(snap, v, code).1
    ensures PublishAsWritten(snap, v, code).0 == Publish(v, code)
  {
    AsWrittenCompletesIff(snap, v, code);
  }

  // ---------------------------------------------------------------------
  // The two branches
  // ---------------------------------------------------------------------

  /** The display output of function 196. */
  function DualWrites(d: DwinState, ma: Option<ElectricalMode>, mb: Option<ElectricalMode>,
                      wa: Option<real>, wb: Option<real>, ia: Option<real>, ib: Option<real>): DwinState
  {
    CurrentWrites(SlotWrites(ModeWrite(d, ma), ScaledReading(wa, ma, DUAL_FUNCTION), ScaledReading(wb, mb, DUAL_FUNCTION)),
                  ia, ib)
  }

  /** The display output of function 195. */
  function SingleWrites(d: DwinState, ma: Option<ElectricalMode>, wa: Option<real>,
                        ia: Option<real>, ib: Option<real>): DwinState
  {
    CurrentWrites(SlotWrites(ModeWrite(d, ma), ScaledReading(wa, ma, SINGLE_FUNCTION), Some(0.0)), ia, ib)
  }

  /** `mode_a = extract_mode(pam_cmd("AINA"))`, then the same for `mode_b` and `AINB`. */
  function ModesRead(s: BridgeState): BridgeState
  {
    var (p, ra, rb) := Ask2(s.pam, "AINA", "AINB");
    s.(pam := p, vars := s.vars.(modeA := Bound(ExtractMode(ra)), modeB := Bound(ExtractMode(rb))))
  }

  /** `wa = extract_number(pam_cmd("WA"))`, then the same for `wb` and `WB`. */
  function PowersRead(s: BridgeState): BridgeState
  {
    var (p, rwa, rwb) := Ask2(s.pam, "WA", "WB");
    s.(pam := p, vars := s.vars.(wa := Bound(ExtractNumber(rwa)), wb := Bound(ExtractNumber(rwb))))
  }

  /** `ia = extract_number(pam_cmd("IA"))`, then the same for `ib` and `IB`. */
  function CurrentsRead(s: BridgeState): BridgeState
  {
    var (p, ria, rib) := Ask2(s.pam, "IA", "IB");
    s.(pam := p, vars := s.vars.(ia := Bound(ExtractNumber(ria)), ib := Bound(ExtractNumber(rib))))
  }

  /** `mode_a` from `AINA`, `wa` from `W`, then `wb = 0`. */
  function ChannelARead(s: BridgeState): BridgeState
  {
    var (p, ra, rw) := Ask2(s.pam, "AINA", "W");
    s.(pam := p, vars := s.vars.(modeA := Bound(ExtractMode(ra)), wa := Bound(ExtractNumber(rw)), wb := Bound(Some(0.0))))
  }

  /** The reads of function 196, in order. */
  function DualRead(s: BridgeState): BridgeState
  {
    CurrentsRead(PowersRead(ModesRead(s)))
  }

  /** The display output of function 196 from the six readings `r` holds. */
  function DualShown(r: BridgeState): BridgeState
    requires r.vars.modeA.Bound? && r.vars.modeB.Bound? && r.vars.wa.Bound? && r.vars.wb.Bound?
    requires r.vars.ia.Bound? && r.vars.ib.Bound?
  {
    r.(dwin := DualWrites(r.dwin, r.vars.modeA.value, r.vars.modeB.value, r.vars.wa.value, r.vars.wb.value,
                          r.vars.ia.value, r.vars.ib.value))
  }

  /** Function 196: all six readings first, then the display output of this iteration's readings. */
  function DualSpec(s: BridgeState): BridgeState
  {
    DualShown(DualRead(s))
  }

  /** The reads of function 195, in order; `mode_b` is not assigned. */
  function SingleRead(s: BridgeState): BridgeState
  {
    CurrentsRead(ChannelARead(s))
  }

  /** The display output of function 195 from the readings `r` holds. */
  function SingleShown(r: BridgeState): BridgeState
    requires r.vars.modeA.Bound? && r.vars.wa.Bound? && r.vars.ia.Bound? && r.vars.ib.Bound?
  {
    r.(dwin := SingleWrites(r.dwin, r.vars.modeA.value, r.vars.wa.value, r.vars.ia.value, r.vars.ib.value))
  }

  /** Function 195: the four reads, then the display output of this iteration's readings. */
  function SingleSpec(s: BridgeState): BridgeState
  {
    SingleShown(SingleRead(s))
  }

  /** The branch for a function code: only 196 and 195 have one. */
  function BranchSpec(s: BridgeState, code: int): BridgeState
  {
    if code == DUAL_FUNCTION then DualSpec(s)
    else if code == SINGLE_FUNCTION then SingleSpec(s)
    else s
  }

  /** The state after the enforcement step (if due) and the `FUNCTION` query. */
  function AfterQuery(s: BridgeState, now: real): BridgeState
  {
    var (p, last) := QueryStep(s.pam, s.lastModeCheck, now);
    s.(pam := p, lastModeCheck := last)
  }

  /** The function code an iteration reads, if `FUNCTION` parsed. */
  function FunctionRead(s: BridgeState, now: real): Option<int>
  {
    FunctionCode(s.pam, s.lastModeCheck, now)
  }

  /** One iteration with the snapshot block as written. */
  function CycleAsWritten(s: BridgeState, now: real): (r: (BridgeState, Outcome))
    ensures r.1 == NoFunction <==> FunctionRead(s, now).None?
  {
    var s1 := AfterQuery(s, now);
    match FunctionRead(s, now)
    case None => (s1, NoFunction)
    case Some(code) =>
      var t := BranchSpec(s1, code);
      var (snap, completed) := PublishAsWritten(t.snapshot, t.vars, code);
      (t.(snapshot := snap), if completed then Published(code) else Crashed(code))
  }

  /** One iteration at wall-clock time `now`, publishing with `Publish`. */
  function CycleSpec(s: BridgeState, now: real): (BridgeState, Outcome)
  {
    var s1 := AfterQuery(s, now);
    match FunctionRead(s, now)
    case None => (s1, NoFunction)
    case Some(code) =>
      var t := BranchSpec(s1, code);
      (t.(snapshot := Publish(t.vars, code)), Published(code))
  }

  // ---------------------------------------------------------------------
  // Properties of the branches
  // ---------------------------------------------------------------------

  /** Function 196 issues its six reads and assigns all six readings from their replies. */
  lemma DualReads(s: BridgeState)
    ensures var t := DualSpec(s);
      t.pam.log == s.pam.log + DUAL_COMMANDS && t.pam.replies == s.pam.replies
      && t.vars == Readings(Bound(ExtractMode(NthReply(s.pam, 0))), Bound(ExtractMode(NthReply(s.pam, 1))),
                            Bound(ExtractNumber(NthReply(s.pam, 2))), Bound(ExtractNumber(NthReply(s.pam, 3))),
                            Bound(ExtractNumber(NthReply(s.pam, 4))), Bound(ExtractNumber(NthReply(s.pam, 5))))
      && t.lastModeCheck == s.lastModeCheck && t.snapshot == s.snapshot
  {
    var p2 := Ask2(s.pam, "AINA", "AINB").0;
    var p4 := Ask2(p2, "WA", "WB").0;
    assert NthReply(p2, 0) == NthReply(s.pam, 2) && NthReply(p2, 1) == NthReply(s.pam, 3);
    assert NthReply(p4, 0) == NthReply(s.pam, 4) && NthReply(p4, 1) == NthReply(s.pam, 5);
    AppendThree(s.pam.log, ["AINA", "AINB"], ["WA", "WB"], ["IA", "IB"]);
    CommandPairs();
  }

  /** Function 195 issues its four reads; `wb` becomes 0 and `mode_b` keeps whatever it held. */
  lemma SingleReads(s: BridgeState)
    ensures var t := SingleSpec(s);
      t.pam.log == s.pam.log + SINGLE_COMMANDS && t.pam.replies == s.pam.replies
      && t.vars == s.vars.(modeA := Bound(ExtractMode(NthReply(s.pam, 0))), wa := Bound(ExtractNumber(NthReply(s.pam, 1))),
                           wb := Bound(Some(0.0)),
                           ia := Bound(ExtractNumber(NthReply(s.pam, 2))), ib := Bound(ExtractNumber(NthReply(s.pam, 3))))
      && t.lastModeCheck == s.lastModeCheck && t.snapshot == s.snapshot
  {
    var p2 := Ask2(s.pam, "AINA", "W").0;
    assert NthReply(p2, 0) == NthReply(s.pam, 2) && NthReply(p2, 1) == NthReply(s.pam, 3);
    AppendTwo(s.pam.log, ["AINA", "W"], ["IA", "IB"]);
    CommandPairs();
  }

  /** The display output of function 196 is `DualWrites` of the six parsed replies. */
  lemma DualOutputOfReplies(s: BridgeState)
    ensures DualSpec(s).dwin
      == DualWrites(s.dwin, ExtractMode(NthReply(s.pam, 0)), ExtractMode(NthReply(s.pam, 1)),
                    ExtractNumber(NthReply(s.pam, 2)), ExtractNumber(NthReply(s.pam, 3)),
                    ExtractNumber(NthReply(s.pam, 4)), ExtractNumber(NthReply(s.pam, 5)))
  {
    DualReads(s);
  }

  /** The display output of function 195 is `SingleWrites` of the four parsed replies. */
  lemma SingleOutputOfReplies(s: BridgeState)
    ensures SingleSpec(s).dwin
      == SingleWrites(s.dwin, ExtractMode(NthReply(s.pam, 0)), ExtractNumber(NthReply(s.pam, 1)),
                      ExtractNumber(NthReply(s.pam, 2)), ExtractNumber(NthReply(s.pam, 3)))
  {
    SingleReads(s);
  }

  /**
   * The display output of function 196: 0x5500 and 0x5600 cache the scaled
   * `WA` and `WB` readings (each entry kept when its reading did not parse
   * or its channel's mode is unknown), then the currents and the supply.
   */
  lemma DualCache(d: DwinState, ma: Option<ElectricalMode>, mb: Option<ElectricalMode>,
                  wa: Option<real>, wb: Option<real>, ia: Option<real>, ib: Option<real>)
    ensures var e := DualWrites(d, ma, mb, wa, wb, ia, ib);
      var slots := Cached(Cached(d.cache, REG_PRIMARY, ScaledReading(wa, ma, DUAL_FUNCTION)),
                          REG_SECONDARY, ScaledReading(wb, mb, DUAL_FUNCTION));
      e.cache == Cached(Cached(Cached(slots, REG_CURRENT_A, Tenth(ia)), REG_CURRENT_B, Tenth(ib)),
                        REG_SUPPLY, Some(SUPPLY_VALUE))
      && Lookup(e.cache, REG_SUPPLY) == Some(240)
  {
    var d1 := ModeWrite(d, ma);
    ModeWriteEffect(d, ma);
    var d2 := SlotWrites(d1, ScaledReading(wa, ma, DUAL_FUNCTION), ScaledReading(wb, mb, DUAL_FUNCTION));
    SlotCache(d1, ScaledReading(wa, ma, DUAL_FUNCTION), ScaledReading(wb, mb, DUAL_FUNCTION));
    CurrentCache(d2, ia, ib);
    CurrentSupply(d2, ia, ib);
  }

  /** The display output of function 195: the second slot caches 0 and the supply register 240. */
  lemma SingleCache(d: DwinState, ma: Option<ElectricalMode>, wa: Option<real>, ia: Option<real>, ib: Option<real>)
    ensures var e := SingleWrites(d, ma, wa, ia, ib);
      Lookup(e.cache, REG_SECONDARY) == Some(0) && Lookup(e.cache, REG_SUPPLY) == Some(240)
      && Lookup(e.cache, REG_PRIMARY)
         == Lookup(Cached(d.cache, REG_PRIMARY, ScaledReading(wa, ma, SINGLE_FUNCTION)), REG_PRIMARY)
  {
    var d1 := ModeWrite(d, ma);
    ModeWriteEffect(d, ma);
    var d2 := SlotWrites(d1, ScaledReading(wa, ma, SINGLE_FUNCTION), Some(0.0));
    SlotCache(d1, ScaledReading(wa, ma, SINGLE_FUNCTION), Some(0.0));
    SecondaryZero(d1, ScaledReading(wa, ma, SINGLE_FUNCTION));
    CurrentSupply(d2, ia, ib);
  }

  // ---------------------------------------------------------------------
  // Properties of one iteration
  // ---------------------------------------------------------------------

  /** What the query leaves: only the instrument link and the enforcement stamp change. */
  lemma QueryFacts(s: BridgeState, now: real)
    ensures var s1 := AfterQuery(s, now);
      var p1 := EnforceIfDue(s.pam, s.lastModeCheck, now).0;
      s1.pam.log == p1.log + ["FUNCTION"] && s1.pam.replies == s.pam.replies
      && s1.dwin == s.dwin && s1.vars == s.vars && s1.snapshot == s.snapshot
  {
    var p1 := EnforceIfDue(s.pam, s.lastModeCheck, now).0;
    CommandOutcome(p1, "FUNCTION");
    EnforcementSchedule(s.pam, s.lastModeCheck, now, now);
  }

  /**
   * When `FUNCTION` does not parse, nothing is sent to the display and
   * neither the readings nor `machine_state` change.
   */
  lemma NoFunctionCycle(s: BridgeState, now: real)
    requires FunctionRead(s, now).None?
    ensures var (t, outcome) := CycleSpec(s, now);
      outcome == NoFunction && t == AfterQuery(s, now)
      && t.dwin == s.dwin && t.vars == s.vars && t.snapshot == s.snapshot
  {
    QueryFacts(s, now);
  }

  /**
   * An iteration reading function 196 is that branch after the query, then
   * the snapshot of the readings it leaves.
   */
  lemma DualCycle(s: BridgeState, now: real)
    requires FunctionRead(s, now) == Some(DUAL_FUNCTION)
    ensures var (t, outcome) := CycleSpec(s, now);
      var u := DualSpec(AfterQuery(s, now));
      outcome == Published(DUAL_FUNCTION) && t == u.(snapshot := Publish(u.vars, DUAL_FUNCTION))
  {
    assert BranchSpec(AfterQuery(s, now), DUAL_FUNCTION) == DualSpec(AfterQuery(s, now));
  }

  /**
   * The snapshot after function 196: this iteration's code, both scaled
   * values, both currents and channel A's mode.
   */
  lemma DualSnapshot(ma: Option<ElectricalMode>, mb: Option<ElectricalMode>,
                     wa: Option<real>, wb: Option<real>, ia: Option<real>, ib: Option<real>)
    ensures Publish(Readings(Bound(ma), Bound(mb), Bound(wa), Bound(wb), Bound(ia), Bound(ib)), DUAL_FUNCTION)
      == Snapshot(Some(DUAL_FUNCTION), ScaledReading(wa, ma, DUAL_FUNCTION),
                  ScaledReading(wb, mb, DUAL_FUNCTION), ia, ib, ma)
  {
  }

  /** An iteration reading function 195 is that branch after the query, then the snapshot. */
  lemma SingleCycle(s: BridgeState, now: real)
    requires FunctionRead(s, now) == Some(SINGLE_FUNCTION)
    ensures var (t, outcome) := CycleSpec(s, now);
      var u := SingleSpec(AfterQuery(s, now));
      outcome == Published(SINGLE_FUNCTION) && t == u.(snapshot := Publish(u.vars, SINGLE_FUNCTION))
  {
    assert BranchSpec(AfterQuery(s, now), SINGLE_FUNCTION) == SingleSpec(AfterQuery(s, now));
  }

  /**
   * The snapshot after function 195: `wb` is 0 and `mode_b` keeps its old
   * value, so the snapshot's `WB` is 0 scaled with the previous channel B
   * mode (12.0 when that mode was current); `MODE` is channel A's new mode.
   */
  lemma SingleSnapshot(v: Readings, ma: Option<ElectricalMode>, wa: Option<real>, ia: Option<real>, ib: Option<real>)
    ensures var snap := Publish(v.(modeA := Bound(ma), wa := Bound(wa), wb := Bound(Some(0.0)),
                                   ia := Bound(ia), ib := Bound(ib)), SINGLE_FUNCTION);
      snap.func == Some(SINGLE_FUNCTION) && snap.wa == ScaledReading(wa, ma, SINGLE_FUNCTION)
      && snap.wb == ScaleOrNone(Bound(Some(0.0)), v.modeB, SINGLE_FUNCTION)
      && (v.modeB == Bound(Some(Current)) ==> snap.wb == Some(12.0))
      && snap.ia == ia && snap.ib == ib && snap.mode == ma
  {
  }

  /**
   * Any other function code sends nothing to the display and reads nothing
   * more; the snapshot publishes the new code with the readings left over
   * from earlier iterations.
   */
  lemma OtherCodeCycle(s: BridgeState, now: real, code: int)
    requires FunctionRead(s, now) == Some(code) && code != DUAL_FUNCTION && code != SINGLE_FUNCTION
    ensures var (t, outcome) := CycleSpec(s, now);
      outcome == Published(code) && t.dwin == s.dwin && t.vars == s.vars
      && t.pam == AfterQuery(s, now).pam && t.snapshot == Publish(s.vars, code)
  {
    QueryFacts(s, now);
  }

  /**
   * The two versions of an iteration differ in the snapshot only: same
   * commands, same display output, same readings; and when the block as
   * written completes they are the same iteration.
   */
  lemma CorrectedAgrees(s: BridgeState, now: real)
    ensures var (t, o) := CycleSpec(s, now);
      var (u, w) := CycleAsWritten(s, now);
      t.pam == u.pam && t.dwin == u.dwin && t.vars == u.vars && t.lastModeCheck == u.lastModeCheck
      && (!w.Crashed? ==> (t, o) == (u, w))
      && (w.Crashed? ==> o == Published(w.code))
  {
    match FunctionRead(s, now)
    case None =>
    case Some(code) =>
      var t := BranchSpec(AfterQuery(s, now), code);
      AsWrittenCompletesIff(t.snapshot, t.vars, code);
      if PublishAsWritten(t.snapshot, t.vars, code).1 {
        PublishAgreesWhenComplete(t.snapshot, t.vars, code);
      }
  }

  // ---------------------------------------------------------------------
  // The snapshot block as written ends the process
  // ---------------------------------------------------------------------

  /**
   * Function 196 whose `WA` or `WB` reply does not parse: the display
   * output happens, then `scale_value(None, ...)` raises inside the lock
   * and the process ends, with `FUNC` updated and `MODE` left stale.
   */
  lemma MissingReadingCrashes(s: BridgeState, now: real)
    requires FunctionRead(s, now) == Some(DUAL_FUNCTION)
    requires ExtractNumber(NthReply(AfterQuery(s, now).pam, 2)).None?
          || ExtractNumber(NthReply(AfterQuery(s, now).pam, 3)).None?
    ensures var (u, w) := CycleAsWritten(s, now);
      w == Crashed(DUAL_FUNCTION) && u.dwin == CycleSpec(s, now).0.dwin
      && u.snapshot.func == Some(DUAL_FUNCTION) && u.snapshot.mode == s.snapshot.mode
  {
    QueryFacts(s, now);
    var s1 := AfterQuery(s, now);
    DualReads(s1);
    var t := DualSpec(s1);
    assert BranchSpec(s1, DUAL_FUNCTION) == t;
    AsWrittenCompletesIff(t.snapshot, t.vars, DUAL_FUNCTION);
    CorrectedAgrees(s, now);
  }

  /**
   * Function 195 before any function-196 iteration has assigned `mode_b`:
   * the `WB` line raises a `NameError` (or the `WA` line already raised,
   * when `W` did not parse), ending the process.
   */
  lemma SingleBeforeDualCrashes(s: BridgeState, now: real)
    requires FunctionRead(s, now) == Some(SINGLE_FUNCTION) && s.vars.modeB.Unbound?
    ensures CycleAsWritten(s, now).1 == Crashed(SINGLE_FUNCTION)
  {
    QueryFacts(s, now);
    var s1 := AfterQuery(s, now);
    SingleReads(s1);
    var t := SingleSpec(s1);
    assert BranchSpec(s1, SINGLE_FUNCTION) == t;
    AsWrittenCompletesIff(t.snapshot, t.vars, SINGLE_FUNCTION);
  }

  /**
   * An iteration with any other function code before the readings were
   * first assigned raises a `NameError` on `wa`; later ones publish stale
   * readings, and raise whenever the last `WA`/`WB` reading was `None`.
   */
  lemma OtherCodeAsWritten(s: BridgeState, now: real, code: int)
    requires FunctionRead(s, now) == Some(code) && code != DUAL_FUNCTION && code != SINGLE_FUNCTION
    ensures CycleAsWritten(s, now).1 == (if Publishable(s.vars) then Published(code) else Crashed(code))
    ensures s.vars == UNASSIGNED ==> CycleAsWritten(s, now).1 == Crashed(code)
  {
    QueryFacts(s, now);
    AsWrittenCompletesIff(AfterQuery(s, now).snapshot, s.vars, code);
  }

  /**
   * The iteration as written: without a function code it stops after the
   * query; with one, `FUNC` always holds that code, and the pass completes
   * exactly when the readings its branch leaves are publishable, and
   * otherwise ends the process.
   */
  lemma CycleAsWrittenOutcome(s: BridgeState, now: real)
    ensures var (u, w) := CycleAsWritten(s, now);
      (FunctionRead(s, now).None? ==> w == NoFunction && u == AfterQuery(s, now))
      && (FunctionRead(s, now).Some? ==>
            var code := FunctionRead(s, now).value;
            var t := BranchSpec(AfterQuery(s, now), code);
            u.snapshot.func == Some(code) && u.vars == t.vars && u.dwin == t.dwin
            && (w == Published(code) <==> Publishable(t.vars))
            && (w == Crashed(code) <==> !Publishable(t.vars)))
  {
    if FunctionRead(s, now).Some? {
      var code := FunctionRead(s, now).value;
      var t := BranchSpec(AfterQuery(s, now), code);
      AsWrittenCompletesIff(t.snapshot, t.vars, code);
    }
  }

  /**
   * With `Publish`, every iteration that reads a function code completes
   * and publishes that code, whatever the earlier readings were.
   */
  lemma CorrectedAlwaysPublishes(s: BridgeState, now: real)
    requires FunctionRead(s, now).Some?
    ensures CycleSpec(s, now).1 == Published(FunctionRead(s, now).value)
    ensures CycleSpec(s, now).0.snapshot.func == FunctionRead(s, now)
  {
  }

  // ---------------------------------------------------------------------
  // The loop as an object
  // ---------------------------------------------------------------------

  /** The globals of `pam_to_dwin_v2.py` that the main loop updates. */
  class Bridge {
    const pam: PamLink
    const dwin: DwinLink
    var lastModeCheck: real
    var modeA: Slot<Option<ElectricalMode>>
    var modeB: Slot<Option<ElectricalMode>>
    var wa: Slot<Option<real>>
    var wb: Slot<Option<real>>
    var ia: Slot<Option<real>>
    var ib: Slot<Option<real>>
    var machineState: Snapshot

    function Model(): BridgeState
      reads this, pam, dwin
    {
      BridgeState(pam.Model(), dwin.Model(), lastModeCheck,
                  Readings(modeA, modeB, wa, wb, ia, ib), machineState)
    }

    /** Start-up: `last_mode_check = 0`, every `machine_state` key `None`, no reading assigned. */
    constructor (pam: PamLink, dwin: DwinLink)
      ensures this.pam == pam && this.dwin == dwin
      ensures lastModeCheck == 0.0 && machineState == EMPTY_SNAPSHOT
      ensures Readings(modeA, modeB, wa, wb, ia, ib) == UNASSIGNED
    {
      this.pam := pam;
      this.dwin := dwin;
      lastModeCheck := 0.0;
      modeA, modeB, wa, wb, ia, ib := Unbound, Unbound, Unbound, Unbound, Unbound, Unbound;
      machineState := EMPTY_SNAPSHOT;
    }

    /**
     * One iteration of `while True` at wall-clock time `now`, with the
     * snapshot stored by `Publish`, the non-raising form of the
     * `with state_lock` block: it never ends the process. The pass as
     * written is `CycleAsWritten`, and `CorrectedAgrees` relates the two.
     */
    method Cycle(now: real) returns (outcome: Outcome)
      modifies this, pam, dwin
      ensures (Model(), outcome) == CycleSpec(old(Model()), now)
    {
      var f := Query(now);
      if f.None? {
        return NoFunction;
      }
      var code := f.value;
      Branch(code);
      // the whole snapshot in one assignment, as under `state_lock`
      machineState := Publish(Readings(modeA, modeB, wa, wb, ia, ib), code);
      outcome := Published(code);
    }

    /** The enforcement step when due, then `func = extract_number(pam_cmd("FUNCTION"))` and `int(func)`. */
    method Query(now: real) returns (code: Option<int>)
      modifies this, pam
      ensures Model() == AfterQuery(old(Model()), now) && code == FunctionRead(old(Model()), now)
    {
      if now - lastModeCheck > MODE_CHECK_INTERVAL {
        pam.EnsureStdMode();
        lastModeCheck := now;
      }
      var resp := pam.Command("FUNCTION");
      var f := ExtractNumber(resp);
      code := if f.None? then None else Some(Truncate(f.value));
    }

    /** `if func == 196: ... elif func == 195: ...`; any other code does nothing here. */
    method Branch(code: int)
      modifies this, pam, dwin
      ensures Model() == BranchSpec(old(Model()), code)
    {
      if code == DUAL_FUNCTION {
        Dual();
      } else if code == SINGLE_FUNCTION {
        Single();
      }
    }

    /** The `func == 196` branch. */
    method Dual()
      modifies this, pam, dwin
      ensures Model() == DualSpec(old(Model()))
    {
      ReadDual();
      ShowDual();
    }

    /** The six reads of the `func == 196` branch. */
    method ReadDual()
      modifies this, pam
      ensures Model() == DualRead(old(Model()))
    {
      AskModes();
      AskPowers();
      AskCurrents();
    }

    /** `mode_a` and `mode_b`. */
    method AskModes()
      modifies this, pam
      ensures Model() == ModesRead(old(Model()))
    {
      var ra, rb := pam.Command2("AINA", "AINB");
      modeA, modeB := Bound(ExtractMode(ra)), Bound(ExtractMode(rb));
    }

    /** `wa` and `wb`. */
    method AskPowers()
      modifies this, pam
      ensures Model() == PowersRead(old(Model()))
    {
      var rwa, rwb := pam.Command2("WA", "WB");
      wa, wb := Bound(ExtractNumber(rwa)), Bound(ExtractNumber(rwb));
    }

    /** `ia` and `ib`. */
    method AskCurrents()
      modifies this, pam
      ensures Model() == CurrentsRead(old(Model()))
    {
      var ria, rib := pam.Command2("IA", "IB");
      ia, ib := Bound(ExtractNumber(ria)), Bound(ExtractNumber(rib));
    }

    /** The display output of the `func == 196` branch. */
    method ShowDual()
      requires modeA.Bound? && modeB.Bound? && wa.Bound? && wb.Bound? && ia.Bound? && ib.Bound?
      modifies dwin
      ensures Model() == DualShown(old(Model()))
    {
      WriteMode(dwin, modeA.value);
      WriteSlots(dwin, ScaledReading(wa.value, modeA.value, DUAL_FUNCTION), ScaledReading(wb.value, modeB.value, DUAL_FUNCTION));
      WriteCurrents(dwin, ia.value, ib.value);
    }

    /** The `func == 195` branch. */
    method Single()
      modifies this, pam, dwin
      ensures Model() == SingleSpec(old(Model()))
    {
      ReadSingle();
      ShowSingle();
    }

    /** The four reads of the `func == 195` branch. */
    method ReadSingle()
      modifies this, pam
      ensures Model() == SingleRead(old(Model()))
    {
      AskChannelA();
      AskCurrents();
    }

    /** `mode_a`, `wa` from `W`, and `wb = 0`. */
    method AskChannelA()
      modifies this, pam
      ensures Model() == ChannelARead(old(Model()))
    {
      var ra, rw := pam.Command2("AINA", "W");
      modeA, wa, wb := Bound(ExtractMode(ra)), Bound(ExtractNumber(rw)), Bound(Some(0.0));
    }

    /** The display output of the `func == 195` branch. */
    method ShowSingle()
      requires modeA.Bound? && wa.Bound? && ia.Bound? && ib.Bound?
      modifies dwin
      ensures Model() == SingleShown(old(Model()))
    {
      WriteMode(dwin, modeA.value);
      WriteSlots(dwin, ScaledReading(wa.value, modeA.value, SINGLE_FUNCTION), Some(0.0));
      WriteCurrents(dwin, ia.value, ib.value);
    }
  }
}
