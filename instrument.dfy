/**
 * The instrument link: `pam_cmd`, which never raises (a link fault reopens
 * the link and answers ""), `ensure_std_mode`, and the rate limit on mode
 * enforcement in the main loop.
 *
 * The link is an oracle: the reply to the n-th command ever issued is
 * `replies(n)`, either the text read back or a fault (any exception raised
 * by `reset_input_buffer`, `write` or `read`).
 */
module Instrument {
  import opened Base
  import opened Parsing

  /** What the link does with one command. */
  datatype Reply = Answer(text: string) | Fault

  /** The text `pam_cmd` returns for a reply. */
  function ReplyText(r: Reply): string
  {
    match r
    case Answer(t) => t
    case Fault => ""
  }

  /**
   * The instrument link's state: the oracle, every command issued so far,
   * `pam_connected_once`, and how many times the link was reopened.
   */
  datatype PamState = PamState(replies: nat -> Reply, log: seq<string>, connectedOnce: bool, reopens: nat)

  /** Enforcement runs when strictly more than this many seconds have passed. */
  const MODE_CHECK_INTERVAL: real := 3.0

  /** `pam_cmd(cmd)`: the new link state and the text returned. */
  function CommandSpec(p: PamState, cmd: string): (PamState, string)
  {
    var issued := p.(log := p.log + [cmd]);
    match p.replies(|p.log|)
    case Answer(t) => (issued, t)
    case Fault => (issued.(connectedOnce := false, reopens := p.reopens + 1), "")
  }

  /**
   * `pam_cmd` issues exactly its command and returns the reply's text; a
   * fault returns "" after reopening the link, which clears
   * `pam_connected_once`; otherwise the flag and the link are kept.
   */
  lemma CommandOutcome(p: PamState, cmd: string)
    ensures var (q, resp) := CommandSpec(p, cmd);
      q.replies == p.replies && q.log == p.log + [cmd]
      && resp == ReplyText(p.replies(|p.log|))
      && (p.replies(|p.log|).Fault? ==> !q.connectedOnce && q.reopens == p.reopens + 1 && resp == "")
      && (p.replies(|p.log|).Answer? ==> q.connectedOnce == p.connectedOnce && q.reopens == p.reopens)
  {
  }

  /** The reply text of the `k`-th command issued after the log `p.log`. */
  function NthReply(p: PamState, k: nat): string
  {
    ReplyText(p.replies(|p.log| + k))
  }

  /** Two commands in a row: both are logged, in order, and each gets the next reply. */
  lemma TwoCommands(p: PamState, c1: string, c2: string)
    ensures var (p1, r1) := CommandSpec(p, c1);
      var (p2, r2) := CommandSpec(p1, c2);
      r1 == NthReply(p, 0) && r2 == NthReply(p, 1) && p2.log == p.log + [c1, c2] && p2.replies == p.replies
  {
    CommandOutcome(p, c1);
    CommandOutcome(CommandSpec(p, c1).0, c2);
  }

  /** Two `pam_cmd` calls in a row: the new link state and both replies. */
  function Ask2(p: PamState, c1: string, c2: string): (r: (PamState, string, string))
    ensures r.0.log == p.log + [c1, c2] && r.0.replies == p.replies
    ensures r.1 == NthReply(p, 0) && r.2 == NthReply(p, 1)
  {
    TwoCommands(p, c1, c2);
    var (p1, r1) := CommandSpec(p, c1);
    var (p2, r2) := CommandSpec(p1, c2);
    (p2, r1, r2)
  }

  /** `ensure_std_mode()`. */
  function EnsureStdSpec(p: PamState): PamState
  {
    var (p1, resp) := CommandSpec(p, "MODE");
    var p2 :=
      if ExtractPamMode(resp) == Some(Expanded) then
        CommandSpec(CommandSpec(p1, "MODE STD").0, "MODE").0
      else p1;
    p2.(connectedOnce := true)
  }

  /**
   * `ensure_std_mode` queries `MODE`; only when that reply reads as `EXP`
   * does it send `MODE STD` and query `MODE` again. Afterwards
   * `pam_connected_once` holds, even when one of its commands faulted.
   */
  lemma EnsureStdCommands(p: PamState)
    ensures var q := EnsureStdSpec(p);
      var first := ReplyText(p.replies(|p.log|));
      q.replies == p.replies && q.connectedOnce
      && q.log == p.log + ["MODE"]
                  + (if ExtractPamMode(first) == Some(Expanded) then ["MODE STD", "MODE"] else [])
  {
  }

  /** The guard `now - last_mode_check > MODE_CHECK_INTERVAL`. */
  predicate ModeCheckDue(now: real, lastModeCheck: real)
  {
    now - lastModeCheck > MODE_CHECK_INTERVAL
  }

  /** Step (1) of a cycle: enforce the STD mode when due and record the time. */
  function EnforceIfDue(p: PamState, lastModeCheck: real, now: real): (PamState, real)
  {
    if ModeCheckDue(now, lastModeCheck) then (EnsureStdSpec(p), now) else (p, lastModeCheck)
  }

  /** The enforcement step (if due), then `pam_cmd("FUNCTION")`: the new link and enforcement stamp. */
  function QueryStep(p: PamState, lastModeCheck: real, now: real): (PamState, real)
  {
    var (p1, last) := EnforceIfDue(p, lastModeCheck, now);
    (CommandSpec(p1, "FUNCTION").0, last)
  }

  /** `int(extract_number(pam_cmd("FUNCTION")))` after the enforcement step, if the reply parsed. */
  function FunctionCode(p: PamState, lastModeCheck: real, now: real): Option<int>
  {
    var p1 := EnforceIfDue(p, lastModeCheck, now).0;
    match ExtractNumber(NthReply(p1, 0))
    case None => None
    case Some(f) => Some(Truncate(f))
  }

  /**
   * With `last_mode_check = 0` and a wall clock past the interval, the first
   * cycle enforces; a cycle that enforces stamps `now`, and the next one
   * enforces only if strictly more than the interval has passed since.
   */
  lemma EnforcementSchedule(p: PamState, last: real, now: real, later: real)
    ensures now > MODE_CHECK_INTERVAL ==> ModeCheckDue(now, 0.0)
    ensures var (q, stamp) := EnforceIfDue(p, last, now);
      (ModeCheckDue(now, last) ==> stamp == now && q == EnsureStdSpec(p))
      && (!ModeCheckDue(now, last) ==> stamp == last && q == p)
      && (ModeCheckDue(now, last) ==> (ModeCheckDue(later, stamp) <==> later > now + MODE_CHECK_INTERVAL))
  {
  }

  /** The instrument link object the main loop uses through the global `pam`. */
  class PamLink {
    const replies: nat -> Reply
    var log: seq<string>
    var connectedOnce: bool
    var reopens: nat

    function Model(): PamState
      reads this
    {
      PamState(replies, log, connectedOnce, reopens)
    }

    /** `open_pam()` at start-up: no command yet and `pam_connected_once` false. */
    constructor (replies: nat -> Reply)
      ensures Model() == PamState(replies, [], false, 0)
    {
      this.replies := replies;
      log := [];
      connectedOnce := false;
      reopens := 0;
    }

    /** `pam_cmd(cmd)`. */
    method Command(cmd: string) returns (resp: string)
      modifies this
      ensures (Model(), resp) == CommandSpec(old(Model()), cmd)
    {
      var reply := replies(|log|);
      log := log + [cmd];
      match reply
      case Answer(t) =>
        resp := t;
      case Fault =>
        // reopen_pam(): close, then open_pam() replaces the link and clears the flag
        reopens := reopens + 1;
        connectedOnce := false;
        resp := "";
    }

    /** Two `pam_cmd` calls in a row. */
    method Command2(c1: string, c2: string) returns (r1: string, r2: string)
      modifies this
      ensures (Model(), r1, r2) == Ask2(old(Model()), c1, c2)
    {
      r1 := Command(c1);
      r2 := Command(c2);
    }

    /** `ensure_std_mode()`. */
    method EnsureStdMode()
      modifies this
      ensures Model() == EnsureStdSpec(old(Model()))
    {
      var resp := Command("MODE");
      if ExtractPamMode(resp) == Some(Expanded) {
        var _ := Command("MODE STD");
        var _ := Command("MODE");
      }
      if !connectedOnce {
        connectedOnce := true;
      }
    }
  }
}
