/**
 * One iteration of the main loop of `pam_to_dwin.py`: rate-limited STD-mode
 * enforcement, the `FUNCTION` query, the dual-channel branch with mismatch
 * arbitration, the single-channel branch, and the shared tail that pushes
 * both currents and the 24.0 supply value.
 */
module BridgeV1 {
  import opened Base
  import opened Parsing
  import opened Scaling
  import opened Frames
  import opened ChangeCache
  import opened Instrument
  import opened Display
  import opened Output
  import opened Arbiter

  /** How an iteration ended. */
  datatype Outcome =
    | NoFunction          // `FUNCTION` did not parse: `continue` before any display write
    | Arbitrating         // mismatch handling, then `continue`
    | Completed(code: int)

  /** Everything the loop keeps between iterations. */
  datatype BridgeState = BridgeState(pam: PamState, dwin: DwinState, lastModeCheck: real, flags: Flags)

  /** Issues the mode commands of a selector reading, ignoring their replies. */
  function SelectSpec(p: PamState, sel: Option<int>): PamState
  {
    if sel == Some(0) then Ask2(p, "AINA V", "AINB V").0
    else if sel == Some(1) then Ask2(p, "AINA C", "AINB C").0
    else p
  }

  /** The mismatch branch: page switch on entry, then a poll while no selection is applied. */
  function ArbitrateSpec(s: BridgeState): BridgeState
  {
    var d1 := if !s.flags.pageActive then SwitchPageSpec(s.dwin, MISMATCH_PAGE) else s.dwin;
    var g := Enter(s.flags);
    if g.applied then s.(dwin := d1, flags := g)
    else
      var (d2, sel) := PollSpec(d1, SELECTOR_ROUNDS, SELECTOR_TICKS);
      s.(dwin := d2, pam := SelectSpec(s.pam, sel), flags := Select(g, sel))
  }

  /** The shared tail: `IA`, `IB`, then the currents and the supply value. */
  function TailSpec(s: BridgeState): BridgeState
  {
    var (p2, ria, rib) := Ask2(s.pam, "IA", "IB");
    s.(pam := p2, dwin := CurrentWrites(s.dwin, ExtractNumber(ria), ExtractNumber(rib)))
  }

  /** Function 195: channel A's mode, the single value `W`, and 0.0 for the second slot. */
  function SingleSpec(s: BridgeState): BridgeState
  {
    var (p2, ra, rw) := Ask2(s.pam, "AINA", "W");
    var ma := ExtractMode(ra);
    s.(pam := p2,
       dwin := SlotWrites(ModeWrite(s.dwin, ma), ScaledReading(ExtractNumber(rw), ma, SINGLE_FUNCTION), Some(0.0)))
  }

  /**
   * Function 196 with agreeing (or partly unknown) channel modes, after
   * `AINA`, `AINB`: channel A's mode frame, then `WA`, `WB` scaled by their
   * own channel's mode.
   */
  function AgreeSpec(s: BridgeState, ma: Option<ElectricalMode>, mb: Option<ElectricalMode>): BridgeState
  {
    var (p2, rwa, rwb) := Ask2(s.pam, "WA", "WB");
    s.(pam := p2,
       dwin := SlotWrites(ModeWrite(s.dwin, ma), ScaledReading(ExtractNumber(rwa), ma, DUAL_FUNCTION),
                          ScaledReading(ExtractNumber(rwb), mb, DUAL_FUNCTION)))
  }

  /** Function 196 up to the shared tail, or the whole mismatch branch. */
  function DualSpec(s: BridgeState): (BridgeState, Outcome)
  {
    var (p2, ra, rb) := Ask2(s.pam, "AINA", "AINB");
    var ma := ExtractMode(ra);
    var mb := ExtractMode(rb);
    if Mismatch(ma, mb) then (ArbitrateSpec(s.(pam := p2)), Arbitrating)
    else (TailSpec(AgreeSpec(s.(pam := p2, flags := Leave(s.flags)), ma, mb)), Completed(DUAL_FUNCTION))
  }

  /** One iteration of the main loop at wall-clock time `now`. */
  function CycleSpec(s: BridgeState, now: real): (BridgeState, Outcome)
  {
    var (p1, last) := EnforceIfDue(s.pam, s.lastModeCheck, now);
    var (p2, resp) := CommandSpec(p1, "FUNCTION");
    var s1 := s.(pam := p2, lastModeCheck := last);
    match ExtractNumber(resp)
    case None => (s1, NoFunction)
    case Some(f) =>
      var code := Truncate(f);
      if code == DUAL_FUNCTION then DualSpec(s1)
      else if code == SINGLE_FUNCTION then (TailSpec(SingleSpec(s1)), Completed(code))
      else (TailSpec(s1), Completed(code))
  }

  // ---------------------------------------------------------------------
  // Properties of each branch
  // ---------------------------------------------------------------------

  /** The selection issues exactly `SelectionCommands(sel)`. */
  lemma SelectIssues(p: PamState, sel: Option<int>)
    ensures SelectSpec(p, sel).log == p.log + SelectionCommands(sel)
    ensures SelectSpec(p, sel).replies == p.replies
  {
    if IsSelection(sel) {
      var c := SelectionCommands(sel);
    }
  }

  /** The shared tail issues `IA`, `IB` and changes neither flag. */
  lemma TailLog(s: BridgeState)
    ensures var t := TailSpec(s);
      t.flags == s.flags && t.lastModeCheck == s.lastModeCheck
      && t.pam.log == s.pam.log + ["IA", "IB"] && t.pam.replies == s.pam.replies
  {
  }

  /** The shared tail writes the currents read from the `IA`, `IB` replies, then the supply value. */
  lemma TailOutput(s: BridgeState)
    ensures TailSpec(s).dwin == CurrentWrites(s.dwin, ExtractNumber(NthReply(s.pam, 0)), ExtractNumber(NthReply(s.pam, 1)))
  {
  }

  /** The single-channel part issues `AINA`, `W` and changes neither flag. */
  lemma SingleLog(s: BridgeState)
    ensures var t := SingleSpec(s);
      t.flags == s.flags && t.lastModeCheck == s.lastModeCheck
      && t.pam.log == s.pam.log + ["AINA", "W"] && t.pam.replies == s.pam.replies
  {
  }

  /**
   * The single-channel part writes channel A's mode when known, the `W`
   * reading scaled by that mode to the first slot and 0.0 to the second.
   */
  lemma SingleOutput(s: BridgeState)
    ensures var ma := ExtractMode(NthReply(s.pam, 0));
      SingleSpec(s).dwin
      == SlotWrites(ModeWrite(s.dwin, ma), ScaledReading(ExtractNumber(NthReply(s.pam, 1)), ma, SINGLE_FUNCTION), Some(0.0))
  {
  }

  /** The modes a dual-channel iteration reads from `AINA` and `AINB`. */
  function DualModes(p: PamState): (Option<ElectricalMode>, Option<ElectricalMode>)
  {
    (ExtractMode(NthReply(p, 0)), ExtractMode(NthReply(p, 1)))
  }

  /** With agreeing modes, function 196 issues `WA`, `WB` and changes neither flag. */
  lemma AgreeLog(s: BridgeState, ma: Option<ElectricalMode>, mb: Option<ElectricalMode>)
    ensures var t := AgreeSpec(s, ma, mb);
      t.flags == s.flags && t.lastModeCheck == s.lastModeCheck
      && t.pam.log == s.pam.log + ["WA", "WB"] && t.pam.replies == s.pam.replies
  {
  }

  /**
   * With agreeing modes, function 196 writes channel A's mode when known,
   * then each of the `WA`, `WB` readings scaled by its own channel's mode
   * to its slot.
   */
  lemma AgreeOutput(s: BridgeState, ma: Option<ElectricalMode>, mb: Option<ElectricalMode>)
    ensures AgreeSpec(s, ma, mb).dwin
      == SlotWrites(ModeWrite(s.dwin, ma), ScaledReading(ExtractNumber(NthReply(s.pam, 0)), ma, DUAL_FUNCTION),
                    ScaledReading(ExtractNumber(NthReply(s.pam, 1)), mb, DUAL_FUNCTION))
  {
  }

  /** The state a dual-channel iteration without a mismatch reaches before its tail. */
  function Agreed(s: BridgeState): BridgeState
  {
    var (p2, ra, rb) := Ask2(s.pam, "AINA", "AINB");
    AgreeSpec(s.(pam := p2, flags := Leave(s.flags)), ExtractMode(ra), ExtractMode(rb))
  }

  /** Without a mismatch the dual-channel branch is the agreeing part followed by the shared tail. */
  lemma DualAgrees(s: BridgeState)
    requires !Mismatch(DualModes(s.pam).0, DualModes(s.pam).1)
    ensures DualSpec(s) == (TailSpec(Agreed(s)), Completed(DUAL_FUNCTION))
  {
  }

  /**
   * Without a mismatch the dual-channel branch clears only
   * `mismatch_page_active` and issues the six reads in order.
   */
  lemma DualFacts(s: BridgeState)
    ensures var t := TailSpec(Agreed(s));
      t.flags == Leave(s.flags) && t.lastModeCheck == s.lastModeCheck
      && t.pam.log == s.pam.log + DUAL_COMMANDS && t.pam.replies == s.pam.replies
  {
    var r := Ask2(s.pam, "AINA", "AINB");
    var s2 := s.(pam := r.0, flags := Leave(s.flags));
    var u := AgreeSpec(s2, ExtractMode(r.1), ExtractMode(r.2));
    assert Agreed(s) == u;
    AgreeLog(s2, ExtractMode(r.1), ExtractMode(r.2));
    TailLog(u);
    AppendThree(s.pam.log, ["AINA", "AINB"], ["WA", "WB"], ["IA", "IB"]);
    CommandPairs();
  }

  /** `WA` = `WB` = 1500 with both channels in voltage mode. */
  lemma AgreeExample(s: BridgeState)
    requires forall n :: s.dwin.accepts(n)
    requires REG_PRIMARY !in s.dwin.cache && REG_SECONDARY !in s.dwin.cache
    requires ExtractNumber(NthReply(s.pam, 0)) == Some(1500.0) && ExtractNumber(NthReply(s.pam, 1)) == Some(1500.0)
    ensures var e := AgreeSpec(s, Some(Voltage), Some(Voltage)).dwin;
      e.accepts == s.dwin.accepts && e.cache == s.dwin.cache[REG_PRIMARY := 15][REG_SECONDARY := 15]
      && e.wire == s.dwin.wire + [ModeFrame(Voltage), ValueFrame(REG_PRIMARY, 15), ValueFrame(REG_SECONDARY, 15)]
  {
    AgreeOutput(s, Some(Voltage), Some(Voltage));
    assert Scale(1500.0, Some(Voltage), DUAL_FUNCTION) == Some(1.5);
    SlotExample(s.dwin);
  }

  /** `IA` = 50 and `IB` = 60. */
  lemma TailExample(s: BridgeState)
    requires forall n :: s.dwin.accepts(n)
    requires REG_CURRENT_A !in s.dwin.cache && REG_CURRENT_B !in s.dwin.cache && REG_SUPPLY !in s.dwin.cache
    requires ExtractNumber(NthReply(s.pam, 0)) == Some(50.0) && ExtractNumber(NthReply(s.pam, 1)) == Some(60.0)
    ensures TailSpec(s).dwin.wire == s.dwin.wire
      + [ValueFrame(REG_CURRENT_A, 50), ValueFrame(REG_CURRENT_B, 60), ValueFrame(REG_SUPPLY, 240)]
  {
    TailOutput(s);
    CurrentExample(s.dwin);
  }

  /**
   * The end-to-end scenario up to the tail: function 196 with both channels
   * in voltage mode, `WA` = `WB` = 1500, an empty cache and a link that
   * accepts every write. The wire receives the mode frame for V, then 1.5
   * and 1.5 (as 15 and 15), and the next replies are those of `IA`, `IB`.
   * With `DualAgrees` (`DualSpec(s).0 == TailSpec(Agreed(s))`) and
   * `TailExample` (`IA` = 50, `IB` = 60 give 50, 60 and 240), this is the
   * whole iteration.
   */
  lemma DualExampleAgreed(s: BridgeState)
    requires s.dwin.cache == map[] && forall n :: s.dwin.accepts(n)
    requires ExtractMode(NthReply(s.pam, 0)) == Some(Voltage) && ExtractMode(NthReply(s.pam, 1)) == Some(Voltage)
    requires ExtractNumber(NthReply(s.pam, 2)) == Some(1500.0) && ExtractNumber(NthReply(s.pam, 3)) == Some(1500.0)
    ensures var u := Agreed(s);
      u.dwin.wire == s.dwin.wire + [ModeFrame(Voltage), ValueFrame(REG_PRIMARY, 15), ValueFrame(REG_SECONDARY, 15)]
      && u.dwin.cache == map[REG_PRIMARY := 15, REG_SECONDARY := 15] && u.dwin.accepts == s.dwin.accepts
      && NthReply(u.pam, 0) == NthReply(s.pam, 4) && NthReply(u.pam, 1) == NthReply(s.pam, 5)
  {
    var s2 := s.(pam := Ask2(s.pam, "AINA", "AINB").0, flags := Leave(s.flags));
    assert Agreed(s) == AgreeSpec(s2, Some(Voltage), Some(Voltage));
    assert NthReply(s2.pam, 0) == NthReply(s.pam, 2) && NthReply(s2.pam, 1) == NthReply(s.pam, 3);
    AgreeExample(s2);
    AgreeLog(s2, Some(Voltage), Some(Voltage));
  }

  /**
   * The mismatch branch (entered after `AINA`, `AINB`): page 28 is switched
   * to first only when the page was not active; the selector is polled, with
   * read requests only, exactly while no selection is applied; the only
   * commands are the selection's pair; no value frame is attempted (cache
   * and write count unchanged) and the flags follow `MismatchStep`.
   */
  lemma ArbitrateFacts(s: BridgeState)
    ensures var t := ArbitrateSpec(s);
      var d1 := if !s.flags.pageActive then SwitchPageSpec(s.dwin, MISMATCH_PAGE) else s.dwin;
      var sel := if Enter(s.flags).applied then None else PollSpec(d1, SELECTOR_ROUNDS, SELECTOR_TICKS).1;
      var step := MismatchStep(s.flags, sel);
      t.flags == step.flags && t.lastModeCheck == s.lastModeCheck
      && t.pam.log == s.pam.log + step.commands
      && t.dwin.cache == s.dwin.cache && t.dwin.attempts == s.dwin.attempts
      && step.switched == !s.flags.pageActive
      && |d1.wire| <= |t.dwin.wire| && t.dwin.wire[..|d1.wire|] == d1.wire
      && (step.polled ==> |t.dwin.wire| > |d1.wire|)
      && (!step.polled ==> t.dwin == d1)
      && (forall i :: |d1.wire| <= i < |t.dwin.wire| ==> t.dwin.wire[i] == SELECTOR_REQUEST)
  {
    var d1 := if !s.flags.pageActive then SwitchPageSpec(s.dwin, MISMATCH_PAGE) else s.dwin;
    PollCorrect(d1, SELECTOR_ROUNDS, SELECTOR_TICKS);
    var sel := PollSpec(d1, SELECTOR_ROUNDS, SELECTOR_TICKS).1;
    SelectIssues(s.pam, sel);
  }

  // ---------------------------------------------------------------------
  // Properties of one iteration
  // ---------------------------------------------------------------------

  /** The state right after the enforcement step (if due) and the `FUNCTION` query. */
  function AfterQuery(s: BridgeState, now: real): BridgeState
  {
    var (p, last) := QueryStep(s.pam, s.lastModeCheck, now);
    s.(pam := p, lastModeCheck := last)
  }

  /** The function code an iteration reads, if `FUNCTION` parsed. */
  function FunctionRead(s: BridgeState, now: real): Option<int>
  {
    FunctionCode(s.pam, s.lastModeCheck, now)
  }

  /** An iteration dispatches on the function code it read. */
  lemma CycleDispatch(s: BridgeState, now: real)
    ensures var s1 := AfterQuery(s, now);
      var p1 := EnforceIfDue(s.pam, s.lastModeCheck, now).0;
      s1.pam.log == p1.log + ["FUNCTION"] && s1.pam.replies == s.pam.replies
      && s1.dwin == s.dwin && s1.flags == s.flags
      && CycleSpec(s, now) == match FunctionRead(s, now)
         case None => (s1, NoFunction)
         case Some(code) =>
           if code == DUAL_FUNCTION then DualSpec(s1)
           else if code == SINGLE_FUNCTION then (TailSpec(SingleSpec(s1)), Completed(code))
           else (TailSpec(s1), Completed(code))
  {
    var p1 := EnforceIfDue(s.pam, s.lastModeCheck, now).0;
    CommandOutcome(p1, "FUNCTION");
    EnforcementSchedule(s.pam, s.lastModeCheck, now, now);
  }

  /**
   * When `FUNCTION` does not parse, the iteration sends no display frame,
   * leaves the cache and both arbiter flags alone, and has issued only the
   * enforcement commands (if due) and `FUNCTION`.
   */
  lemma NoFunctionCycle(s: BridgeState, now: real)
    requires FunctionRead(s, now).None?
    ensures var (t, outcome) := CycleSpec(s, now);
      outcome == NoFunction && t == AfterQuery(s, now) && t.dwin == s.dwin && t.flags == s.flags
  {
    CycleDispatch(s, now);
  }

  /**
   * What the selector poll of a mismatch iteration from `s` returns, after
   * the page switch when the page was not active; `None` when the
   * iteration does not poll because a selection is already applied.
   */
  function SelectorRead(s: BridgeState): Option<int>
  {
    var d1 := if !s.flags.pageActive then SwitchPageSpec(s.dwin, MISMATCH_PAGE) else s.dwin;
    if Enter(s.flags).applied then None else PollSpec(d1, SELECTOR_ROUNDS, SELECTOR_TICKS).1
  }

  /**
   * A dual-channel iteration whose two channel modes disagree ends in
   * arbitration: no `WA`, `WB`, `IA`, `IB` is read, no value frame is
   * attempted, and the flags and commands follow `MismatchStep` with what
   * the selector poll returned.
   */
  lemma ArbitrationCycle(s: BridgeState, now: real)
    requires FunctionRead(s, now) == Some(DUAL_FUNCTION)
    requires Mismatch(DualModes(AfterQuery(s, now).pam).0, DualModes(AfterQuery(s, now).pam).1)
    ensures var (t, outcome) := CycleSpec(s, now);
      var q := AfterQuery(s, now).pam;
      var step := MismatchStep(s.flags, SelectorRead(s));
      outcome == Arbitrating
      && t.flags == step.flags && t.pam.log == q.log + ["AINA", "AINB"] + step.commands
      && t.dwin.cache == s.dwin.cache && t.dwin.attempts == s.dwin.attempts
  {
    CycleDispatch(s, now);
    var s1 := AfterQuery(s, now);
    var u := s1.(pam := Ask2(s1.pam, "AINA", "AINB").0);
    assert DualSpec(s1) == (ArbitrateSpec(u), Arbitrating);
    ArbitrateFacts(u);
    var d1 := if !u.flags.pageActive then SwitchPageSpec(u.dwin, MISMATCH_PAGE) else u.dwin;
    var sel := if Enter(u.flags).applied then None else PollSpec(d1, SELECTOR_ROUNDS, SELECTOR_TICKS).1;
    assert sel == SelectorRead(s);
    assert ArbitrateSpec(u).pam.log == s1.pam.log + ["AINA", "AINB"] + MismatchStep(s.flags, sel).commands;
  }

  /** The state after the iterations at the times `times`, in order. */
  function Iterate(s: BridgeState, times: seq<real>): BridgeState
    decreases |times|
  {
    if times == [] then s else Iterate(CycleSpec(s, times[0]).0, times[1..])
  }

  /** Every one of these iterations reads function 196 with disagreeing channel modes. */
  predicate MismatchThroughout(s: BridgeState, times: seq<real>)
    decreases |times|
  {
    times == []
    || (FunctionRead(s, times[0]) == Some(DUAL_FUNCTION)
        && Mismatch(DualModes(AfterQuery(s, times[0]).pam).0, DualModes(AfterQuery(s, times[0]).pam).1)
        && MismatchThroughout(CycleSpec(s, times[0]).0, times[1..]))
  }

  /** What the selector poll returned in each of these iterations. */
  function PollResults(s: BridgeState, times: seq<real>): (r: seq<Option<int>>)
    ensures |r| == |times|
    decreases |times|
  {
    if times == [] then [] else [SelectorRead(s)] + PollResults(CycleSpec(s, times[0]).0, times[1..])
  }

  /** The arbiter's mode commands: both channels to V, or both to C. */
  predicate IsSelectionCommand(c: string)
  {
    c == "AINA V" || c == "AINB V" || c == "AINA C" || c == "AINB C"
  }

  /** The arbiter's mode commands in a command log, in order. */
  function SelectionsIn(log: seq<string>): seq<string>
    decreases |log|
  {
    if log == [] then []
    else (if IsSelectionCommand(log[0]) then [log[0]] else []) + SelectionsIn(log[1..])
  }

  lemma {:induction false} SelectionsInAppend(a: seq<string>, b: seq<string>)
    ensures SelectionsIn(a + b) == SelectionsIn(a) + SelectionsIn(b)
    decreases |a|
  {
    if a == [] {
      assert a + b == b;
    } else {
      assert (a + b)[0] == a[0] && (a + b)[1..] == a[1..] + b;
      SelectionsInAppend(a[1..], b);
    }
  }

  /** A log without mode commands contributes none; a selection's pair is kept whole. */
  lemma SelectionsInLiterals(sel: Option<int>)
    ensures SelectionsIn(["FUNCTION"]) == [] && SelectionsIn(["MODE"]) == []
    ensures SelectionsIn(["MODE STD", "MODE"]) == [] && SelectionsIn(["AINA", "AINB"]) == []
    ensures SelectionsIn(SelectionCommands(sel)) == SelectionCommands(sel)
  {
    assert ["MODE STD", "MODE"][1..] == ["MODE"];
    assert ["AINA", "AINB"][1..] == ["AINB"];
    if sel == Some(0) {
      assert ["AINA V", "AINB V"][1..] == ["AINB V"];
    } else if sel == Some(1) {
      assert ["AINA C", "AINB C"][1..] == ["AINB C"];
    }
  }

  /** How many times page 28 was switched to on the wire. */
  function PageSwitches(wire: seq<Frame>): nat
    decreases |wire|
  {
    if wire == [] then 0
    else (if wire[0] == PageFrame(MISMATCH_PAGE) then 1 else 0) + PageSwitches(wire[1..])
  }

  lemma {:induction false} PageSwitchesAppend(a: seq<Frame>, b: seq<Frame>)
    ensures PageSwitches(a + b) == PageSwitches(a) + PageSwitches(b)
    decreases |a|
  {
    if a == [] {
      assert a + b == b;
    } else {
      assert (a + b)[0] == a[0] && (a + b)[1..] == a[1..] + b;
      PageSwitchesAppend(a[1..], b);
    }
  }

  /** Selector read requests are not page switches. */
  lemma {:induction false} RequestsSwitchNothing(w: seq<Frame>)
    requires forall i :: 0 <= i < |w| ==> w[i] == SELECTOR_REQUEST
    ensures PageSwitches(w) == 0
    decreases |w|
  {
    if w != [] {
      assert |w[0]| != |PageFrame(MISMATCH_PAGE)|;
      RequestsSwitchNothing(w[1..]);
    }
  }

  /**
   * The mismatch branch puts one page-28 frame on the wire exactly when it
   * switches, and its only mode commands are the selection's.
   */
  lemma ArbitrateCounts(s: BridgeState)
    ensures var t := ArbitrateSpec(s);
      var step := MismatchStep(s.flags, SelectorRead(s));
      PageSwitches(t.dwin.wire) == PageSwitches(s.dwin.wire) + (if step.switched then 1 else 0)
      && SelectionsIn(t.pam.log) == SelectionsIn(s.pam.log) + step.commands
  {
    var t := ArbitrateSpec(s);
    var sel := SelectorRead(s);
    var step := MismatchStep(s.flags, sel);
    ArbitrateFacts(s);
    var d1 := if !s.flags.pageActive then SwitchPageSpec(s.dwin, MISMATCH_PAGE) else s.dwin;
    var polls := t.dwin.wire[|d1.wire|..];
    assert t.dwin.wire == d1.wire + polls;
    RequestsSwitchNothing(polls);
    PageSwitchesAppend(d1.wire, polls);
    if !s.flags.pageActive {
      PageSwitchesAppend(s.dwin.wire, [PageFrame(MISMATCH_PAGE)]);
      assert PageSwitches([PageFrame(MISMATCH_PAGE)]) == 1;
    }
    SelectionsInAppend(s.pam.log, step.commands);
    SelectionsInLiterals(sel);
    assert step.commands == [] || step.commands == SelectionCommands(sel);
  }

  /** The enforcement step and the `FUNCTION` query send no mode command of the arbiter. */
  lemma QuerySelectsNothing(s: BridgeState, now: real)
    ensures SelectionsIn(AfterQuery(s, now).pam.log) == SelectionsIn(s.pam.log)
  {
    var p1 := EnforceIfDue(s.pam, s.lastModeCheck, now).0;
    CommandOutcome(p1, "FUNCTION");
    assert AfterQuery(s, now).pam.log == p1.log + ["FUNCTION"];
    SelectionsInLiterals(None);
    SelectionsInAppend(p1.log, ["FUNCTION"]);
    if ModeCheckDue(now, s.lastModeCheck) {
      assert p1 == EnsureStdSpec(s.pam);
      EnsureStdCommands(s.pam);
      var more := if ExtractPamMode(ReplyText(s.pam.replies(|s.pam.log|))) == Some(Expanded)
                  then ["MODE STD", "MODE"] else [];
      assert p1.log == s.pam.log + ["MODE"] + more;
      SelectionsInAppend(s.pam.log + ["MODE"], more);
      SelectionsInAppend(s.pam.log, ["MODE"]);
    }
  }

  /**
   * A mismatch iteration adds one page-28 frame to the wire exactly when it
   * switches, and exactly the selection's commands to the arbiter's mode
   * commands in the log.
   */
  lemma ArbitrationCycleCounts(s: BridgeState, now: real)
    requires FunctionRead(s, now) == Some(DUAL_FUNCTION)
    requires Mismatch(DualModes(AfterQuery(s, now).pam).0, DualModes(AfterQuery(s, now).pam).1)
    ensures var t := CycleSpec(s, now).0;
      var step := MismatchStep(s.flags, SelectorRead(s));
      PageSwitches(t.dwin.wire) == PageSwitches(s.dwin.wire) + (if step.switched then 1 else 0)
      && SelectionsIn(t.pam.log) == SelectionsIn(s.pam.log) + step.commands
  {
    CycleDispatch(s, now);
    var s1 := AfterQuery(s, now);
    var u := s1.(pam := Ask2(s1.pam, "AINA", "AINB").0);
    assert DualSpec(s1) == (ArbitrateSpec(u), Arbitrating);
    var t := ArbitrateSpec(u);
    assert CycleSpec(s, now).0 == t;
    var step := MismatchStep(s.flags, SelectorRead(s));
    assert u.flags == s.flags && u.dwin == s.dwin;
    assert SelectorRead(u) == SelectorRead(s);
    ArbitrateCounts(u);
    assert PageSwitches(t.dwin.wire) == PageSwitches(s.dwin.wire) + (if step.switched then 1 else 0);
    QuerySelectsNothing(s, now);
    SelectionsInLiterals(None);
    SelectionsInAppend(s1.pam.log, ["AINA", "AINB"]);
    assert SelectionsIn(u.pam.log) == SelectionsIn(s.pam.log);
  }

  /**
   * Consecutive mismatch iterations of the loop follow `MismatchRun` on
   * what their polls returned: the loop's flags are the run's flags, the
   * page-28 frames it adds to the wire number the run's switches, the
   * arbiter's mode commands it adds to the log are the run's commands, and
   * no value frame is attempted.
   */
  lemma {:induction false} MismatchIterationsRun(s: BridgeState, times: seq<real>)
    requires MismatchThroughout(s, times)
    ensures var e := Iterate(s, times);
      var r := MismatchRun(s.flags, PollResults(s, times));
      e.flags == r.flags
      && PageSwitches(e.dwin.wire) == PageSwitches(s.dwin.wire) + r.switches
      && SelectionsIn(e.pam.log) == SelectionsIn(s.pam.log) + r.commands
      && e.dwin.cache == s.dwin.cache && e.dwin.attempts == s.dwin.attempts
    decreases |times|
  {
    if times != [] {
      var t := CycleSpec(s, times[0]).0;
      ArbitrationCycle(s, times[0]);
      ArbitrationCycleCounts(s, times[0]);
      MismatchIterationsRun(t, times[1..]);
      var sels := PollResults(s, times);
      assert sels[0] == SelectorRead(s) && sels[1..] == PollResults(t, times[1..]);
      var step := MismatchStep(s.flags, SelectorRead(s));
      AppendTwo(SelectionsIn(s.pam.log), step.commands, MismatchRun(step.flags, sels[1..]).commands);
    }
  }

  /**
   * However long the channel modes disagree, the loop switches to page 28
   * at most once (exactly when the page was not active) and sends the
   * instrument no arbiter command or exactly one pair.
   */
  lemma MismatchLoopOnce(s: BridgeState, times: seq<real>)
    requires MismatchThroughout(s, times) && times != []
    ensures var e := Iterate(s, times);
      var before := SelectionsIn(s.pam.log);
      var after := SelectionsIn(e.pam.log);
      PageSwitches(e.dwin.wire) == PageSwitches(s.dwin.wire) + (if s.flags.pageActive then 0 else 1)
      && (after == before || after == before + ["AINA V", "AINB V"] || after == before + ["AINA C", "AINB C"])
  {
    MismatchIterationsRun(s, times);
    RunSwitchesOnce(s.flags, PollResults(s, times));
    RunCommandsOnePair(s.flags, PollResults(s, times));
  }

  /**
   * A dual-channel iteration without a mismatch clears
   * `mismatch_page_active` (and only it), reads the six registers in
   * order and ends with the supply register cached at 240.
   */
  lemma DualCycle(s: BridgeState, now: real)
    requires FunctionRead(s, now) == Some(DUAL_FUNCTION)
    requires !Mismatch(DualModes(AfterQuery(s, now).pam).0, DualModes(AfterQuery(s, now).pam).1)
    ensures var (t, outcome) := CycleSpec(s, now);
      outcome == Completed(DUAL_FUNCTION)
      && t.flags == Leave(s.flags)
      && t.pam.log == AfterQuery(s, now).pam.log + DUAL_COMMANDS
      && Lookup(t.dwin.cache, REG_SUPPLY) == Some(240)
  {
    CycleDispatch(s, now);
    var s1 := AfterQuery(s, now);
    DualAgrees(s1);
    DualFacts(s1);
    var u := Agreed(s1);
    TailOutput(u);
    CurrentSupply(u.dwin, ExtractNumber(NthReply(u.pam, 0)), ExtractNumber(NthReply(u.pam, 1)));
  }

  /**
   * The single-channel branch with the shared tail reads `AINA`, `W`,
   * `IA`, `IB` and leaves the arbiter flags alone.
   */
  lemma SingleIteration(s: BridgeState)
    ensures var t := TailSpec(SingleSpec(s));
      t.flags == s.flags && t.pam.log == s.pam.log + SINGLE_COMMANDS
  {
    SingleLog(s);
    TailLog(SingleSpec(s));
    AppendTwo(s.pam.log, ["AINA", "W"], ["IA", "IB"]);
    CommandPairs();
  }

  /**
   * The single-channel branch with the shared tail ends with the second
   * slot cached at 0 and the supply register at 240.
   */
  lemma SingleIterationCache(s: BridgeState)
    ensures var t := TailSpec(SingleSpec(s));
      Lookup(t.dwin.cache, REG_SECONDARY) == Some(0) && Lookup(t.dwin.cache, REG_SUPPLY) == Some(240)
  {
    var u := SingleSpec(s);
    SingleOutput(s);
    TailOutput(u);
    var ma := ExtractMode(NthReply(s.pam, 0));
    SecondaryZero(ModeWrite(s.dwin, ma), ScaledReading(ExtractNumber(NthReply(s.pam, 1)), ma, SINGLE_FUNCTION));
    CurrentSupply(u.dwin, ExtractNumber(NthReply(u.pam, 0)), ExtractNumber(NthReply(u.pam, 1)));
  }

  /** A single-channel iteration is the single-channel branch and the tail after the query. */
  lemma SingleCycle(s: BridgeState, now: real)
    requires FunctionRead(s, now) == Some(SINGLE_FUNCTION)
    ensures var (t, outcome) := CycleSpec(s, now);
      outcome == Completed(SINGLE_FUNCTION) && t.flags == s.flags
      && t.pam.log == AfterQuery(s, now).pam.log + SINGLE_COMMANDS
      && Lookup(t.dwin.cache, REG_SECONDARY) == Some(0)
      && Lookup(t.dwin.cache, REG_SUPPLY) == Some(240)
  {
    CycleDispatch(s, now);
    SingleIteration(AfterQuery(s, now));
    SingleIterationCache(AfterQuery(s, now));
  }

  /**
   * Any other function code still runs the shared tail: `IA`, `IB`, the
   * currents when they parse and the supply value, with the flags untouched
   * and the primary and secondary registers' cache entries unchanged.
   */
  lemma OtherCodeCycle(s: BridgeState, now: real, code: int)
    requires FunctionRead(s, now) == Some(code) && code != DUAL_FUNCTION && code != SINGLE_FUNCTION
    ensures var (t, outcome) := CycleSpec(s, now);
      outcome == Completed(code) && t.flags == s.flags
      && t.pam.log == AfterQuery(s, now).pam.log + ["IA", "IB"]
      && Lookup(t.dwin.cache, REG_SUPPLY) == Some(240)
      && Lookup(t.dwin.cache, REG_PRIMARY) == Lookup(s.dwin.cache, REG_PRIMARY)
      && Lookup(t.dwin.cache, REG_SECONDARY) == Lookup(s.dwin.cache, REG_SECONDARY)
  {
    CycleDispatch(s, now);
    var s1 := AfterQuery(s, now);
    TailLog(s1);
    TailOutput(s1);
    CurrentSupply(s.dwin, ExtractNumber(NthReply(s1.pam, 0)), ExtractNumber(NthReply(s1.pam, 1)));
  }

  // ---------------------------------------------------------------------
  // The loop as an object
  // ---------------------------------------------------------------------

  /** The globals of `pam_to_dwin.py` that the main loop updates. */
  class Bridge {
    const pam: PamLink
    const dwin: DwinLink
    var lastModeCheck: real
    var mismatchPageActive: bool
    var selectionApplied: bool

    function Model(): BridgeState
      reads this, pam, dwin
    {
      BridgeState(pam.Model(), dwin.Model(), lastModeCheck, Flags(mismatchPageActive, selectionApplied))
    }

    /** The state before the first iteration: `last_mode_check = 0` and both flags false. */
    constructor (pam: PamLink, dwin: DwinLink)
      ensures this.pam == pam && this.dwin == dwin
      ensures lastModeCheck == 0.0 && !mismatchPageActive && !selectionApplied
    {
      this.pam := pam;
      this.dwin := dwin;
      lastModeCheck := 0.0;
      mismatchPageActive := false;
      selectionApplied := false;
    }

    /** One iteration of `while True` at wall-clock time `now`. */
    method Cycle(now: real) returns (outcome: Outcome)
      modifies this, pam, dwin
      ensures (Model(), outcome) == CycleSpec(old(Model()), now)
    {
      if now - lastModeCheck > MODE_CHECK_INTERVAL {
        pam.EnsureStdMode();
        lastModeCheck := now;
      }
      var resp := pam.Command("FUNCTION");
      var f := ExtractNumber(resp);
      if f.None? {
        return NoFunction;
      }
      var code := Truncate(f.value);
      if code == DUAL_FUNCTION {
        outcome := Dual();
      } else {
        if code == SINGLE_FUNCTION {
          Single();
        }
        Tail();
        outcome := Completed(code);
      }
    }

    /** The `func == 196` branch, including the shared tail when there is no mismatch. */
    method Dual() returns (outcome: Outcome)
      modifies this, pam, dwin
      ensures (Model(), outcome) == DualSpec(old(Model()))
    {
      ghost var s := Model();
      var ra := pam.Command("AINA");
      var rb := pam.Command("AINB");
      assert (pam.Model(), ra, rb) == Ask2(s.pam, "AINA", "AINB");
      var modeA := ExtractMode(ra);
      var modeB := ExtractMode(rb);
      if Mismatch(modeA, modeB) {
        Arbitrate();
        return Arbitrating;
      }
      mismatchPageActive := false;
      Agree(modeA, modeB);
      Tail();
      outcome := Completed(DUAL_FUNCTION);
    }

    /** The dual-channel branch without a mismatch, up to the shared tail. */
    method Agree(modeA: Option<ElectricalMode>, modeB: Option<ElectricalMode>)
      modifies this, pam, dwin
      ensures Model() == AgreeSpec(old(Model()), modeA, modeB)
    {
      ghost var s := Model();
      WriteMode(dwin, modeA);
      var rwa := pam.Command("WA");
      var rwb := pam.Command("WB");
      assert (pam.Model(), rwa, rwb) == Ask2(s.pam, "WA", "WB");
      var wa := ExtractNumber(rwa);
      var wb := ExtractNumber(rwb);
      WriteSlots(dwin, ScaledReading(wa, modeA, DUAL_FUNCTION), ScaledReading(wb, modeB, DUAL_FUNCTION));
    }

    /** The mismatch handling of the dual-channel branch. */
    method Arbitrate()
      modifies this, pam, dwin
      ensures Model() == ArbitrateSpec(old(Model()))
    {
      if !mismatchPageActive {
        dwin.SwitchPage(MISMATCH_PAGE);
        mismatchPageActive := true;
        selectionApplied := false;
      }
      if !selectionApplied {
        var sel := dwin.ReadSelector(SELECTOR_ROUNDS, SELECTOR_TICKS);
        if sel == Some(0) {
          var _ := pam.Command("AINA V");
          var _ := pam.Command("AINB V");
          selectionApplied := true;
        } else if sel == Some(1) {
          var _ := pam.Command("AINA C");
          var _ := pam.Command("AINB C");
          selectionApplied := true;
        }
      }
    }

    /** The `func == 195` branch. */
    method Single()
      modifies this, pam, dwin
      ensures Model() == SingleSpec(old(Model()))
    {
      ghost var s := Model();
      var ra := pam.Command("AINA");
      var modeA := ExtractMode(ra);
      WriteMode(dwin, modeA);
      var rw := pam.Command("W");
      assert (pam.Model(), ra, rw) == Ask2(s.pam, "AINA", "W");
      var w := ExtractNumber(rw);
      WriteSlots(dwin, ScaledReading(w, modeA, SINGLE_FUNCTION), Some(0.0));
    }

    /** The shared tail. */
    method Tail()
      modifies this, pam, dwin
      ensures Model() == TailSpec(old(Model()))
    {
      ghost var s := Model();
      var ria := pam.Command("IA");
      var rib := pam.Command("IB");
      assert (pam.Model(), ria, rib) == Ask2(s.pam, "IA", "IB");
      WriteCurrents(dwin, ExtractNumber(ria), ExtractNumber(rib));
    }
  }
}
