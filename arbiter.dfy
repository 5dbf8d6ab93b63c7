/**
 * The mode-mismatch arbiter of `pam_to_dwin.py`: the two flags
 * `mismatch_page_active` and `vp5100_applied`, how a dual-channel cycle
 * with disagreeing channel modes changes them, and which selection
 * commands it issues.
 */
module Arbiter {
  import opened Base
  import opened Parsing

  /** The diagnostic page shown while the channel modes disagree. */
  const MISMATCH_PAGE: int := 28

  /** `mismatch_page_active` and `vp5100_applied`. */
  datatype Flags = Flags(pageActive: bool, applied: bool)

  /** Both flags start false. */
  const INITIAL: Flags := Flags(false, false)

  /** `mode_a and mode_b and mode_a != mode_b`. */
  predicate Mismatch(a: Option<ElectricalMode>, b: Option<ElectricalMode>)
  {
    a.Some? && b.Some? && a != b
  }

  /** On a mismatch the page is switched only when it is not active yet, which also clears `applied`. */
  function Enter(f: Flags): (g: Flags)
    ensures g.pageActive
    ensures !f.pageActive ==> !g.applied
    ensures f.pageActive ==> g == f
  {
    if f.pageActive then f else Flags(true, false)
  }

  /** Any dual-channel read without a mismatch clears `mismatch_page_active` only. */
  function Leave(f: Flags): (g: Flags)
    ensures !g.pageActive && g.applied == f.applied
  {
    f.(pageActive := false)
  }

  /** A selector reading the instrument can act on: 0 (voltage) or 1 (current). */
  predicate IsSelection(sel: Option<int>)
  {
    sel == Some(0) || sel == Some(1)
  }

  /** The mode commands a selector reading issues: both channels to V on 0, to C on 1. */
  function SelectionCommands(sel: Option<int>): (cmds: seq<string>)
    ensures cmds != [] <==> IsSelection(sel)
    ensures sel == Some(0) ==> cmds == ["AINA V", "AINB V"]
    ensures sel == Some(1) ==> cmds == ["AINA C", "AINB C"]
  {
    if sel == Some(0) then ["AINA V", "AINB V"]
    else if sel == Some(1) then ["AINA C", "AINB C"]
    else []
  }

  /** After polling: `vp5100_applied` is set by an actionable reading only. */
  function Select(f: Flags, sel: Option<int>): (g: Flags)
    ensures g.pageActive == f.pageActive
    ensures g.applied == (f.applied || IsSelection(sel))
  {
    if IsSelection(sel) then f.(applied := true) else f
  }

  /** What one dual-channel cycle with a mismatch does. */
  datatype Step = Step(flags: Flags, switched: bool, polled: bool, commands: seq<string>)

  /**
   * One mismatch cycle from flags `f`, where `sel` is what the selector poll
   * returns if the cycle polls.
   */
  function MismatchStep(f: Flags, sel: Option<int>): Step
  {
    var g := Enter(f);
    if g.applied then Step(g, !f.pageActive, false, [])
    else Step(Select(g, sel), !f.pageActive, true, SelectionCommands(sel))
  }

  /** A run of consecutive mismatch cycles: final flags and totals. */
  datatype RunResult = RunResult(flags: Flags, switches: nat, polls: nat, commands: seq<string>)

  function MismatchRun(f: Flags, sels: seq<Option<int>>): RunResult
    decreases |sels|
  {
    if sels == [] then RunResult(f, 0, 0, [])
    else
      var s := MismatchStep(f, sels[0]);
      var rest := MismatchRun(s.flags, sels[1..]);
      RunResult(rest.flags, (if s.switched then 1 else 0) + rest.switches,
                (if s.polled then 1 else 0) + rest.polls, s.commands + rest.commands)
  }

  /** Index of the first actionable selector reading, or `|sels|`. */
  function FirstSelection(sels: seq<Option<int>>): (k: nat)
    ensures k <= |sels|
    ensures k < |sels| ==> IsSelection(sels[k])
    ensures forall i :: 0 <= i < k ==> !IsSelection(sels[i])
  {
    if sels == [] then 0
    else if IsSelection(sels[0]) then 0
    else 1 + FirstSelection(sels[1..])
  }

  /** However long the mismatch lasts, page 28 is switched to at most once: only if it was not active. */
  lemma {:induction false} RunSwitchesOnce(f: Flags, sels: seq<Option<int>>)
    requires sels != []
    ensures MismatchRun(f, sels).switches == if f.pageActive then 0 else 1
    ensures MismatchRun(f, sels).flags.pageActive
    decreases |sels|
  {
    var s := MismatchStep(f, sels[0]);
    if |sels| > 1 {
      RunSwitchesOnce(s.flags, sels[1..]);
    }
  }

  /** Once a selection is applied while the page is active, further mismatch cycles do nothing. */
  lemma {:induction false} RunAfterApplied(f: Flags, sels: seq<Option<int>>)
    requires f.pageActive && f.applied
    ensures MismatchRun(f, sels) == RunResult(f, 0, 0, [])
    decreases |sels|
  {
    if sels != [] {
      RunAfterApplied(f, sels[1..]);
    }
  }

  /**
   * While no selection is applied, every mismatch cycle polls the selector
   * until the first reading of 0 or 1; that reading alone issues its pair
   * of mode commands and sets `applied`, and no cycle polls after it.
   */
  lemma {:induction false} RunSelection(f: Flags, sels: seq<Option<int>>)
    requires !Enter(f).applied
    ensures var r := MismatchRun(f, sels);
      var k := FirstSelection(sels);
      r.polls == (if k < |sels| then k + 1 else |sels|)
      && r.commands == (if k < |sels| then SelectionCommands(sels[k]) else [])
      && (sels != [] ==> r.flags.applied == (k < |sels|))
    decreases |sels|
  {
    if sels != [] {
      var s := MismatchStep(f, sels[0]);
      if IsSelection(sels[0]) {
        RunAfterApplied(s.flags, sels[1..]);
        assert SelectionCommands(sels[0]) + [] == SelectionCommands(sels[0]);
      } else {
        assert s.flags == Enter(f);
        assert Enter(s.flags) == s.flags;
        RunSelection(s.flags, sels[1..]);
        assert FirstSelection(sels) == 1 + FirstSelection(sels[1..]);
        assert s.commands == [];
        if FirstSelection(sels) < |sels| {
          assert sels[FirstSelection(sels)] == sels[1..][FirstSelection(sels[1..])];
        }
      }
    }
  }

  /** Across any run of mismatch cycles the instrument gets no mode command or exactly one pair. */
  lemma RunCommandsOnePair(f: Flags, sels: seq<Option<int>>)
    ensures var c := MismatchRun(f, sels).commands;
      c == [] || c == ["AINA V", "AINB V"] || c == ["AINA C", "AINB C"]
  {
    if Enter(f).applied {
      assert f.pageActive && f.applied;
      RunAfterApplied(f, sels);
    } else {
      RunSelection(f, sels);
    }
  }

  /**
   * From the initial flags, a first mismatch cycle switches the page, polls,
   * and on a selector reading of 0 issues exactly `AINA V`, `AINB V`; a
   * following agreeing read clears the page flag, and a later mismatch
   * switches the page again.
   */
  lemma MismatchScenario()
    ensures var s := MismatchStep(INITIAL, Some(0));
      s.switched && s.polled && s.commands == ["AINA V", "AINB V"] && s.flags == Flags(true, true)
      && !Leave(s.flags).pageActive
      && MismatchStep(Leave(s.flags), None).switched
  {
  }
}
