# PAM-to-DWIN bridge engine

A Dafny model of the bridge engine shared by `pam_to_dwin.py` and
`pam_to_dwin_v2.py`. The bridge polls a photometer/amplifier instrument
("PAM") over a serial text protocol, scales the readings, and pushes them
to a DWIN touch display as binary register-write frames. `pam_to_dwin.py`
also arbitrates a mode mismatch between the two input channels through a
diagnostic page and a selector register. `pam_to_dwin_v2.py` drops the
arbitration, moves the current/supply writes into each branch and, at
the end of every iteration, publishes a `machine_state` snapshot for a
telemetry reader.

Both links are modelled as oracles.
- **Instrument link.** The reply to the n-th command ever issued is a
  fixed function of n: either a text or a link fault. `PamState.log` is
  every command issued.
- **Display link.**
  - Whether the n-th cache-gated or mode write is accepted is a fixed
    function of n.
  - What bytes are waiting at each tick of the selector poll is a fixed
    function of the tick.
  - `DwinState.wire` is every frame the link accepted, in order.

Every property is a statement about the commands issued, the frames
emitted, the change cache, the arbiter flags and the snapshot.

The modules follow the program's structure:

| module | file | what it holds |
|---|---|---|
| `Base` | `base.dfy` | `Option`, bytes, frames, 16-bit ranges |
| `Parsing` | `parsing.dfy` | `extract_number` (with `str.split`, the `>` removal and a decimal-number grammar standing for `float`), `extract_mode`, `extract_pam_mode`, `int()` truncation |
| `Scaling` | `scaling.dfy` | `scale_value` over exact reals |
| `Frames` | `frames.dfy` | banker's rounding and 16-bit saturation; the value, mode, page-switch and selector frames |
| `ChangeCache` | `change_cache.dfy` | the suppression rule of `send_to_dwin` and its behaviour over runs of writes |
| `Instrument` | `instrument.dfy` | `pam_cmd` with its fault path, `ensure_std_mode`, the enforcement rate limit; class `PamLink` |
| `Display` | `display.dfy` | `send_to_dwin` with the global `cache`, `send_mode_to_dwin`, `switch_page`, `read_vp_5100_polling`; class `DwinLink` |
| `Output` | `output.dfy` | the display output of one iteration (mode frame, value slots, currents and supply), shared by both scripts |
| `Arbiter` | `arbiter.dfy` | the `mismatch_page_active` / `vp5100_applied` state machine |
| `BridgeV1` | `bridge_v1.dfy` | one iteration of the `pam_to_dwin.py` loop; class `Bridge` |
| `BridgeV2` | `bridge_v2.dfy` | one iteration of the `pam_to_dwin_v2.py` loop with the snapshot; class `Bridge` |

Each piece of imperative code has two parts:
- a pure specification function over a state value (`SendSpec`,
  `CommandSpec`, `CycleSpec`, …);
- a class whose `Model()` is that state value. The class's methods
  (`DwinLink.Send`, `PamLink.Command`, `Bridge.Cycle`, …) change its
  fields and are proved to leave `Model() == Spec(old(Model()))`.

The properties are lemmas about the specification functions.

## Model

| member | source | states |
|---|---|---|
| Parsing.Tokens | pam_to_dwin.py:92 | every token of `split()` is non-empty and free of whitespace |
| Parsing.TokensOfJoin | pam_to_dwin.py:92 | splitting words joined by single spaces gives back exactly those words, in order |
| Parsing.RemovePrompt | pam_to_dwin.py:92 | `replace(">", "")` leaves no `>`, keeps every other character with its multiplicity, and is the identity on text without `>` |
| Parsing.RemovePromptChar | pam_to_dwin.py:92 | one character is dropped when it is `>` and kept otherwise |
| Parsing.RemovePromptAppend | pam_to_dwin.py:92 | removal distributes over concatenation, so with `RemovePromptChar` the kept characters stay in their original order |
| Parsing.FirstNumeric | pam_to_dwin.py:92-96 | the position found holds a numeric token and no earlier token is numeric |
| Parsing.FirstValue | pam_to_dwin.py:92-97 | the result is `None` exactly when no token parses; otherwise it is the value of a token that parses with no numeric token before it |
| Parsing.ShiftScales | pam_to_dwin.py:94 | moving the decimal point `e` places multiplies by ten to the power `e`, so the grammar's value is the exact decimal value |
| Parsing.ParseTwelvePointFive | pam_to_dwin.py:94 | `float("12.5")` is 12.5 |
| Parsing.ExtractNumberOfPrompt | pam_to_dwin.py:91-97 | `"> 12.5"` reads as 12.5: the prompt is removed before splitting |
| Parsing.ExtractNumberOfError | pam_to_dwin.py:91-97 | `"ERR"` reads as `None` |
| Parsing.Truncate | pam_to_dwin.py:244 | `int(x)` rounds toward zero: the result is within 1 of `x`, below it for positive and above it for negative `x` |
| Parsing.ExtractMode | pam_to_dwin.py:100-105 | V exactly when the reply contains `V`; C exactly when it contains `C` but no `V`; `None` exactly when it contains neither |
| Parsing.ContainsIffOccurs | pam_to_dwin.py:109-112 | the substring test holds exactly when the pattern occurs at some position |
| Parsing.ExtractPamMode | pam_to_dwin.py:108-113 | STD exactly when `STD` occurs; EXP exactly when `EXP` occurs and `STD` does not; `None` when neither occurs |
| Scaling.Clamp | pam_to_dwin.py:219 | `min(hi, max(lo, x))` lies in `[lo, hi]`, is `x` inside it and the nearer bound outside |
| Scaling.Scale | pam_to_dwin.py:212-220 | `None` exactly when the mode is unknown; V gives raw/1000; C with 196 gives raw·0.0016 + 4.0; C with any other code lies in [4.0, 20.0] |
| Scaling.VoltageInverse | pam_to_dwin.py:214-215 | a raw value of 1000·x reads as x volts, whatever the function code |
| Scaling.DualCurrentInverse | pam_to_dwin.py:217-218 | the unclamped 196 current calibration has an exact inverse |
| Scaling.SingleCurrentBand | pam_to_dwin.py:219 | for codes other than 196, the current calibration is affine for raw values in [-10000, 10000], 4.0 below that band and 20.0 above it |
| Scaling.ScaleMonotone | pam_to_dwin.py:212-220 | for a fixed known mode and code, a larger raw value never scales lower |
| Frames.RoundHalfEven | pam_to_dwin.py:143 | `round` lies within ½ of its argument and takes the even integer on a tie |
| Frames.RoundHalfEvenUnique | pam_to_dwin.py:143 | those two properties determine `round` completely |
| Frames.Clamp16 | pam_to_dwin.py:144 | the result is a signed 16-bit value; values in range are kept, and values out of range go to -32768 or 32767 |
| Frames.Quantize | pam_to_dwin.py:143-144 | the frame's integer is signed 16-bit, within ½ of value·10 when that is in range, and saturated otherwise |
| Frames.QuantizeExample | pam_to_dwin.py:143-144 | 1.23 is sent as 12 |
| Frames.QuantizeSaturates | pam_to_dwin.py:144 | -3276.9 saturates to -32768 |
| Frames.QuantizeTies | pam_to_dwin.py:143 | 0.25, 0.35, -0.25 and -0.35 give 2, 4, -2 and -4 (ties to even) |
| Frames.BigEndian16 | pam_to_dwin.py:153 | `to_bytes(2, "big")` gives two bytes whose big-endian word is the value |
| Frames.Unsigned16 | pam_to_dwin.py:154 | the two's-complement encoding is the value modulo 65536, so it lies in [0, 65535] with the top bit clear exactly for non-negative values |
| Frames.Signed16 | pam_to_dwin.py:154 | decoding is the inverse of the two's-complement encoding |
| Frames.ValueFrame | pam_to_dwin.py:151-155 | the value frame has 8 bytes and starts `5A A5 05 82` |
| Frames.DecodeValueFrameInverse | pam_to_dwin.py:151-155 | a value frame decodes back to its register id and signed value |
| Frames.ValueFrameOfDecode | pam_to_dwin.py:151-155 | every frame that decodes is the value frame of what it decodes to |
| Frames.ModeValue | pam_to_dwin.py:163 | the mode value is 0 exactly for V and 1 otherwise |
| Frames.ModeFrameIsValueFrame | pam_to_dwin.py:161-166 | the mode frame is the value frame of register 0x5000 carrying 0 for V and 1 for C |
| Frames.PageFrame | pam_to_dwin.py:171-178 | the page frame has 10 bytes, starts `5A A5 07 82 00 84 5A 01`, and its last two bytes carry the page id modulo 65536 |
| Frames.PageFrameCarriesPage | pam_to_dwin.py:175-176 | a 16-bit page id is recovered from the last two bytes, which are its big-endian encoding |
| Frames.SelectorValue | pam_to_dwin.py:203 | `(buffer[-2] << 8) \| buffer[-1]` lies in [0, 65535] and is the big-endian word of the last two bytes |
| Frames.SelectorValueOfSuffix | pam_to_dwin.py:203 | whatever precedes them, two trailing bytes `BigEndian16(v)` read back as `v` |
| ChangeCache.Offer | pam_to_dwin.py:146-149 | after an offer the register's entry is the offered value and no other entry changes |
| ChangeCache.NeverSeenAdmits | pam_to_dwin.py:146 | a register never written is always admitted |
| ChangeCache.RunSentFromOffers | pam_to_dwin.py:146-149 | every attempted write of a run is one of its offers |
| ChangeCache.RunTracksLastSent | pam_to_dwin.py:146-149 | after any run of writes, each register's cache entry is the last value attempted for it, or its initial entry |
| ChangeCache.NoRepeatedWrite | pam_to_dwin.py:146-147 | no attempted write repeats the value last attempted for its register. This is about attempts, not about the wire: a rejected write stays cached |
| ChangeCache.RunAdmitsIffChanged | pam_to_dwin.py:146-147 | after any run, a write is attempted exactly when its value differs from the value last attempted for the register |
| Instrument.CommandOutcome | pam_to_dwin_v2.py:110-120 | `pam_cmd` logs exactly its command and returns the reply text; a fault returns "" after a reopen, which clears `pam_connected_once`; an answer keeps the flag and the link |
| Instrument.TwoCommands | pam_to_dwin_v2.py:110-120 | two commands in a row are logged in order and get the next two replies |
| Instrument.Ask2 | pam_to_dwin_v2.py:110-120 | two `pam_cmd` calls log both commands and return the next two reply texts |
| Instrument.EnsureStdCommands | pam_to_dwin_v2.py:152-164 | `MODE` is issued, and `MODE STD` plus a second `MODE` only when the first reply reads EXP; afterwards `pam_connected_once` holds |
| Instrument.EnforcementSchedule | pam_to_dwin_v2.py:521-525 | the first iteration past the interval enforces; an enforcing iteration stamps `now`; a later one enforces exactly when strictly more than 3.0 s have passed since |
| Instrument.PamLink.constructor | pam_to_dwin_v2.py:65-77 | a new link has no command issued and `pam_connected_once` false |
| Instrument.PamLink.Command | pam_to_dwin_v2.py:110-120 | the link object's `pam_cmd` leaves the state `CommandSpec` describes and returns its text |
| Instrument.PamLink.Command2 | pam_to_dwin_v2.py:110-120 | two `pam_cmd` calls on the object leave the state and replies `Ask2` describes |
| Instrument.PamLink.EnsureStdMode | pam_to_dwin_v2.py:152-164 | the object's `ensure_std_mode` leaves the state `EnsureStdSpec` describes |
| Display.SendEffect | pam_to_dwin.py:141-158 | a defined value is attempted exactly when its quantized integer differs from the cached one. The cache then holds that integer even when the link rejects the write, and no other entry changes. The wire gains exactly the 8-byte value frame, only when the link accepted it |
| Display.SendUndefined | pam_to_dwin.py:142-143 | a missing value (the exception `round(None * 10)` raises) changes nothing |
| Display.SendNeverSeen | pam_to_dwin.py:146-156 | a register never written before emits its value frame on an accepting link |
| Display.SendTwiceSuppressed | pam_to_dwin.py:146-147 | sending the same value to the same register twice in a row changes nothing the second time |
| Display.QuantizeSupply | pam_to_dwin.py:305 | 24.0 is sent as 240 |
| Display.SendCached | pam_to_dwin.py:146-149 | every write to a 16-bit register leaves exactly the cache `Cached` describes |
| Display.SendAllFollowsRun | pam_to_dwin.py:141-158 | successive `send_to_dwin` calls with defined values to 16-bit registers leave `Run`'s cache on the quantized values and make one write attempt per offer `Run` admits; at most that many frames reach the wire, and `SendAllDelivers` says exactly which |
| Display.SentAreWrites | pam_to_dwin.py:143-154 | every write such a run attempts goes to a 16-bit register and carries a 16-bit value |
| Display.SendAllDelivers | pam_to_dwin.py:141-158 | over such a run the wire gains exactly the value frames of the writes `Run` admits whose attempt the link accepted, in order |
| Display.SendAfterRunIffChanged | pam_to_dwin.py:146-156 | after any such run, the next `send_to_dwin` of a defined value is attempted exactly when its quantized value differs from the value last attempted for its register |
| Display.SendModeEffect | pam_to_dwin.py:161-168 | the mode write bypasses the cache, is attempted every time, and reaches the wire as the value frame of 0x5000 when accepted |
| Display.PollCorrect | pam_to_dwin.py:189-205 | the poll writes only `5A A5 03 83 51 00` requests, at least one and at most one per round, and watches at most `rounds * ticks` ticks. As soon as 8 bytes have accumulated it returns the big-endian word of the last two, a value in [0, 65535]. It returns `None` after every round and the whole window, exactly when fewer than 8 bytes arrive within it |
| Display.ReceivedGrows | pam_to_dwin.py:199-201 | the accumulated buffer only grows from tick to tick |
| Display.DwinLink.constructor | pam_to_dwin.py:138 | the link starts with the empty module-level `cache = {}` and, as `open_dwin` leaves it, an empty wire |
| Display.DwinLink.Send | pam_to_dwin.py:141-158 | the object's `send_to_dwin` leaves the state `SendSpec` describes |
| Display.DwinLink.SendMode | pam_to_dwin.py:161-168 | the object's `send_mode_to_dwin` leaves the state `SendModeSpec` describes |
| Display.DwinLink.Write | pam_to_dwin.py:156-158 | one guarded `dwin.write` counts an attempt, and the frame reaches the wire only when the link accepts it |
| Display.DwinLink.SwitchPage | pam_to_dwin.py:171-182 | the object's `switch_page` appends the page frame |
| Display.DwinLink.ReadSelector | pam_to_dwin.py:189-205 | the nested polling loop returns what `PollSpec` returns and leaves its state |
| Output.ModeWriteEffect | pam_to_dwin.py:273-274 | `if mode_a: send_mode_to_dwin(mode_a)` keeps the cache; for a known mode it makes one attempt, which puts the mode register's frame on the wire when accepted |
| Output.SlotCache | pam_to_dwin.py:279-282 | the 0x5500 and 0x5600 writes cache what they were offered, in order |
| Output.CurrentCache | pam_to_dwin.py:300-305 | 0x5700 and 0x5800 cache a tenth of the parsed `IA` and `IB`, or keep their entries when the reading did not parse; 0x5900 caches 24.0 |
| Output.CurrentSupply | pam_to_dwin.py:300-305 | after the current writes the supply register holds 240 and both value slots keep their entries |
| Output.SecondaryZero | pam_to_dwin.py:294 | writing 0.0 to 0x5600 leaves 0 cached there |
| Output.SlotExample | pam_to_dwin.py:273-282 | mode V and values 1.5, 1.5 on an accepting link with nothing cached put the V mode frame, then 15 to 0x5500 and 15 to 0x5600, on the wire |
| Output.CurrentExample | pam_to_dwin.py:300-305 | `IA` = 50 and `IB` = 60 put 50, 60 and 240 on the wire for 0x5700, 0x5800 and 0x5900 |
| Output.WriteMode | pam_to_dwin.py:273-274 | the guarded mode write on the link object is `ModeWrite` |
| Output.WriteSlots | pam_to_dwin.py:279-282 | the two slot writes on the link object are `SlotWrites` |
| Output.WriteCurrents | pam_to_dwin.py:300-305 | the current and supply writes on the link object are `CurrentWrites` |
| Arbiter.Enter | pam_to_dwin.py:253-256 | on a mismatch the page flag is set; from an inactive page `vp5100_applied` is cleared; an active page changes nothing |
| Arbiter.Leave | pam_to_dwin.py:270-271 | a read without a mismatch clears `mismatch_page_active` and keeps `vp5100_applied` |
| Arbiter.SelectionCommands | pam_to_dwin.py:260-267 | selection 0 issues `AINA V`, `AINB V`; selection 1 issues `AINA C`, `AINB C`; any other reading issues nothing |
| Arbiter.Select | pam_to_dwin.py:260-267 | `vp5100_applied` becomes set exactly on a selection of 0 or 1, and the page flag is untouched |
| Arbiter.FirstSelection | pam_to_dwin.py:260-267 | the position found is that of the first reading of 0 or 1 |
| Arbiter.RunSwitchesOnce | pam_to_dwin.py:252-256 | however long a mismatch lasts, page 28 is switched to at most once (exactly when the page was inactive), and the page flag then holds |
| Arbiter.RunAfterApplied | pam_to_dwin.py:258 | once a selection is applied on an active page, further mismatch cycles neither switch, poll nor issue commands |
| Arbiter.RunSelection | pam_to_dwin.py:258-267 | while no selection is applied, every mismatch cycle polls up to the first reading of 0 or 1. That reading alone issues its command pair and sets `vp5100_applied`; no cycle polls after it |
| Arbiter.RunCommandsOnePair | pam_to_dwin.py:258-267 | across any run of mismatch cycles the instrument receives either no mode command or exactly one pair |
| Arbiter.MismatchScenario | pam_to_dwin.py:252-271 | from the initial flags a mismatch with selection 0 switches, polls and issues `AINA V`, `AINB V`. An agreeing read then clears the page flag, and the next mismatch switches again |
| BridgeV1.SelectIssues | pam_to_dwin.py:259-267 | the selection issues exactly the selection's commands |
| BridgeV1.TailLog | pam_to_dwin.py:297-298 | the shared tail issues `IA`, `IB` and changes neither flag |
| BridgeV1.TailOutput | pam_to_dwin.py:297-305 | the shared tail writes the currents parsed from the `IA`, `IB` replies, then the supply value |
| BridgeV1.SingleLog | pam_to_dwin.py:285-290 | function 195 issues `AINA`, `W` and changes neither flag |
| BridgeV1.SingleOutput | pam_to_dwin.py:285-294 | function 195 writes channel A's mode when known, the `W` reading scaled for 195 with that mode to 0x5500, and 0.0 to 0x5600 |
| BridgeV1.AgreeLog | pam_to_dwin.py:276-277 | without a mismatch, function 196 issues `WA`, `WB` next and changes neither flag |
| BridgeV1.AgreeOutput | pam_to_dwin.py:273-282 | without a mismatch, function 196 writes channel A's mode when known, then `WA` and `WB`, each scaled with its own channel's mode |
| BridgeV1.DualAgrees | pam_to_dwin.py:247-282 | without a mismatch, function 196 is the agreeing part followed by the shared tail, and the iteration completes |
| BridgeV1.DualFacts | pam_to_dwin.py:248-298 | without a mismatch, function 196 clears only `mismatch_page_active` and issues the six reads in order |
| BridgeV1.AgreeExample | pam_to_dwin.py:273-282 | `WA` = `WB` = 1500 in voltage mode cache 15 in both slots and put the V mode frame, 15 and 15 on the wire |
| BridgeV1.TailExample | pam_to_dwin.py:297-305 | `IA` = 50 and `IB` = 60 put 50, 60 and 240 on the wire |
| BridgeV1.DualExampleAgreed | pam_to_dwin.py:247-282 | the voltage-mode scenario with an empty cache: the wire gets the V mode frame, 15 and 15, and the next replies are those of `IA`, `IB` |
| BridgeV1.ArbitrateFacts | pam_to_dwin.py:252-269 | the mismatch branch switches to page 28 only when the page was inactive, and polls (read requests only) exactly while no selection is applied. Its only commands are the selection's pair; no value frame is attempted; the flags follow `MismatchStep` |
| BridgeV1.CycleDispatch | pam_to_dwin.py:232-305 | an iteration issues the enforcement commands when due, then `FUNCTION`, and dispatches on the code read: 196, 195 plus the tail, or the tail alone |
| BridgeV1.NoFunctionCycle | pam_to_dwin.py:239-242 | when `FUNCTION` does not parse, no display frame is sent and neither the cache nor the flags change |
| BridgeV1.ArbitrationCycle | pam_to_dwin.py:247-269 | with a mismatch, the iteration ends in arbitration: no `WA`, `WB`, `IA`, `IB` and no value frame; the flags and commands are those of one mismatch step on what the selector poll returned |
| BridgeV1.ArbitrateCounts | pam_to_dwin.py:252-269 | the mismatch branch adds one page-28 frame to the wire exactly when it switches, and exactly the selection's commands to the arbiter's mode commands in the log |
| BridgeV1.QuerySelectsNothing | pam_to_dwin.py:235-240 | the enforcement step and the `FUNCTION` query send none of the arbiter's mode commands |
| BridgeV1.ArbitrationCycleCounts | pam_to_dwin.py:232-269 | a whole mismatch iteration adds one page-28 frame exactly when it switches, and exactly the selection's commands among the arbiter's mode commands |
| BridgeV1.MismatchIterationsRun | pam_to_dwin.py:232-269 | consecutive mismatch iterations of the loop follow `MismatchRun` on their poll results: the loop's flags are the run's flags, the page-28 frames added to the wire number the run's switches, the arbiter's mode commands added to the log are the run's commands, and the cache and write count are unchanged |
| BridgeV1.MismatchLoopOnce | pam_to_dwin.py:252-269 | however long the modes disagree, the loop switches to page 28 once exactly when the page was not active, and sends the instrument no arbiter mode command or exactly one pair |
| BridgeV1.DualCycle | pam_to_dwin.py:247-305 | without a mismatch, function 196 clears only `mismatch_page_active`, reads the six registers in order and leaves 240 cached for 0x5900 |
| BridgeV1.SingleIteration | pam_to_dwin.py:285-298 | function 195 with the tail reads `AINA`, `W`, `IA`, `IB` and keeps both flags |
| BridgeV1.SingleIterationCache | pam_to_dwin.py:285-305 | function 195 with the tail leaves 0 cached for 0x5600 and 240 for 0x5900 |
| BridgeV1.SingleCycle | pam_to_dwin.py:285-305 | an iteration reading function 195 has those effects after the query |
| BridgeV1.OtherCodeCycle | pam_to_dwin.py:296-305 | any other code still runs the tail: `IA`, `IB`, 240 for 0x5900; both slots and both flags untouched |
| BridgeV1.Bridge.constructor | pam_to_dwin.py:228-229 | the loop starts with both arbiter flags false, and with `last_mode_check = 0` as set at pam_to_dwin.py:26 |
| BridgeV1.Bridge.Cycle | pam_to_dwin.py:232-306 | one pass of `while True` leaves the state and outcome `CycleSpec` describes |
| BridgeV1.Bridge.Dual | pam_to_dwin.py:247-282 | the 196 branch on the objects is `DualSpec` |
| BridgeV1.Bridge.Agree | pam_to_dwin.py:273-282 | the agreeing part on the objects is `AgreeSpec` |
| BridgeV1.Bridge.Arbitrate | pam_to_dwin.py:252-269 | the mismatch handling on the objects is `ArbitrateSpec` |
| BridgeV1.Bridge.Single | pam_to_dwin.py:285-294 | the 195 branch on the objects is `SingleSpec` |
| BridgeV1.Bridge.Tail | pam_to_dwin.py:297-305 | the shared tail on the objects is `TailSpec` |
| BridgeV2.ScaleAsWritten | pam_to_dwin_v2.py:595-596 | `scale_value` on the loop variables raises exactly when a variable is unassigned or the raw reading is `None`; otherwise it is `Scale` |
| BridgeV2.AsWrittenCompletesIff | pam_to_dwin_v2.py:593-599 | the snapshot block as written completes exactly when every reading exists and both raw values are defined. `FUNC` always holds the new code, and when the block raises, `IB` and `MODE` keep their old values |
| BridgeV2.ScaleOrNone | pam_to_dwin_v2.py:595-596 | the non-raising `scale_value` is defined only for assigned variables with a defined reading and a known mode, and then agrees with `Scale` |
| BridgeV2.Publish | pam_to_dwin_v2.py:593-599 | the non-raising snapshot always stores the iteration's function code |
| BridgeV2.PublishAgreesWhenComplete | pam_to_dwin_v2.py:593-599 | whenever the block as written completes, it stores exactly what `Publish` stores |
| BridgeV2.DualReads | pam_to_dwin_v2.py:537-544 | function 196 issues `AINA`, `AINB`, `WA`, `WB`, `IA`, `IB` and assigns all six readings from their replies |
| BridgeV2.SingleReads | pam_to_dwin_v2.py:567-573 | function 195 issues `AINA`, `W`, `IA`, `IB`; `wb` becomes 0 and `mode_b` keeps its value |
| BridgeV2.DualOutputOfReplies | pam_to_dwin_v2.py:537-562 | the 196 display output is `DualWrites` of the six parsed replies, in command order |
| BridgeV2.SingleOutputOfReplies | pam_to_dwin_v2.py:567-590 | the 195 display output is `SingleWrites` of the four parsed replies, in command order |
| BridgeV2.DualCache | pam_to_dwin_v2.py:546-562 | the 196 output caches the scaled `WA`, `WB` and the tenth of `IA`, `IB`, each entry kept when its value is undefined, and 240 for 0x5900 |
| BridgeV2.SingleCache | pam_to_dwin_v2.py:575-590 | the 195 output caches 0 for 0x5600 and 240 for 0x5900, and the scaled `W` reading for 0x5500 |
| BridgeV2.QueryFacts | pam_to_dwin_v2.py:521-530 | the query issues `FUNCTION` after the enforcement commands and changes neither the display, the readings nor the snapshot |
| BridgeV2.NoFunctionCycle | pam_to_dwin_v2.py:527-530 | when `FUNCTION` does not parse, no display frame is sent and neither the readings nor `machine_state` change |
| BridgeV2.DualCycle | pam_to_dwin_v2.py:535-599 | an iteration reading 196 is that branch after the query, followed by the snapshot of the readings it leaves |
| BridgeV2.DualSnapshot | pam_to_dwin_v2.py:593-599 | after function 196 the snapshot holds this iteration's code, both scaled values, both currents and channel A's mode |
| BridgeV2.SingleCycle | pam_to_dwin_v2.py:565-599 | an iteration reading 195 is that branch after the query, followed by the snapshot |
| BridgeV2.SingleSnapshot | pam_to_dwin_v2.py:565-599 | after function 195 the snapshot's `WB` is 0 scaled with the previous channel-B mode, because `mode_b` is kept: 12.0 when that mode was C. `MODE` is channel A's new mode |
| BridgeV2.OtherCodeCycle | pam_to_dwin_v2.py:532-599 | any other code sends nothing to the display and reads nothing more; the snapshot publishes the new code with the readings left from earlier iterations |
| BridgeV2.CorrectedAgrees | pam_to_dwin_v2.py:593-599 | the two versions of an iteration issue the same commands and produce the same output and readings; when the block as written completes, they are the same iteration |
| BridgeV2.MissingReadingCrashes | pam_to_dwin_v2.py:550-596 | function 196 with an unparsed `WA` or `WB` reply writes the display, then raises in the snapshot: `FUNC` is updated and `MODE` left stale |
| BridgeV2.SingleBeforeDualCrashes | pam_to_dwin_v2.py:565-596 | function 195 before any 196 iteration has assigned `mode_b` ends the process |
| BridgeV2.OtherCodeAsWritten | pam_to_dwin_v2.py:593-599 | another code completes exactly when the leftover readings are publishable; before any branch has run, it always raises |
| BridgeV2.CorrectedAlwaysPublishes | pam_to_dwin_v2.py:593-599 | with `Publish`, every iteration that reads a code completes and publishes that code |
| BridgeV2.CycleAsWritten | pam_to_dwin_v2.py:519-599 | the pass as written stops with `NoFunction` exactly when `FUNCTION` did not parse |
| BridgeV2.CycleAsWrittenOutcome | pam_to_dwin_v2.py:519-599 | the pass as written stores the new code in `FUNC`, and it completes exactly when the readings its branch leaves are publishable. Otherwise it ends the process, with the same display output and readings as the branch |
| BridgeV2.Bridge.constructor | pam_to_dwin_v2.py:47-56 | `last_mode_check = 0`, every `machine_state` key `None`, no reading assigned |
| BridgeV2.Bridge.Cycle | pam_to_dwin_v2.py:519-601 | one pass of `while True`, with the snapshot stored by the corrected `Publish`, leaves the state and outcome `CycleSpec` describes |
| BridgeV2.Bridge.Query | pam_to_dwin_v2.py:521-532 | the enforcement step and `FUNCTION` query on the objects are `AfterQuery`, and the code is `FunctionRead` |
| BridgeV2.Bridge.Branch | pam_to_dwin_v2.py:535-590 | the dispatch on the code on the objects is `BranchSpec`: only 196 and 195 have a branch |
| BridgeV2.Bridge.Dual | pam_to_dwin_v2.py:535-562 | the 196 branch on the objects is `DualSpec` |
| BridgeV2.Bridge.ReadDual | pam_to_dwin_v2.py:537-544 | the six reads on the objects are `DualRead` |
| BridgeV2.Bridge.AskModes | pam_to_dwin_v2.py:537-538 | `mode_a`, `mode_b` from `AINA`, `AINB` |
| BridgeV2.Bridge.AskPowers | pam_to_dwin_v2.py:540-541 | `wa`, `wb` from `WA`, `WB` |
| BridgeV2.Bridge.AskCurrents | pam_to_dwin_v2.py:543-544 | `ia`, `ib` from `IA`, `IB` |
| BridgeV2.Bridge.ShowDual | pam_to_dwin_v2.py:546-562 | the 196 display output of the six readings on the objects is `DualShown` |
| BridgeV2.Bridge.Single | pam_to_dwin_v2.py:565-590 | the 195 branch on the objects is `SingleSpec` |
| BridgeV2.Bridge.ReadSingle | pam_to_dwin_v2.py:567-573 | the four reads on the objects are `SingleRead` |
| BridgeV2.Bridge.AskChannelA | pam_to_dwin_v2.py:567-570 | `mode_a` from `AINA`, `wa` from `W`, then `wb = 0` |
| BridgeV2.Bridge.ShowSingle | pam_to_dwin_v2.py:575-590 | the 195 display output of the readings on the objects is `SingleShown` |

## Left out

- `pi_to_mobile.py`, the BLE/D-Bus classes, `main` and `start_ble` of `pam_to_dwin_v2.py`, and its notify thread: foreign D-Bus calls and concurrency. The only effect of `state_lock` kept here is that `Publish` writes the six snapshot keys in one step.
- The retry loops of `open_pam`, `open_dwin` and `reopen_pam`: blocking serial I/O. Only their effect is modelled: a fault in `pam_cmd` counts one reopen and clears `pam_connected_once`.
- Wall-clock time and sleeps. The iteration's time is a parameter `now`. The selector poll's 2 s timeout and 0.15 s inner window are a bound of 14 rounds of 15 ticks, and each tick reads what the arrivals oracle holds for it.
- `float()` token syntax beyond a signed decimal with an optional exponent: `inf`, `nan`, underscores and non-ASCII digits are not recognised. All arithmetic is exact (`real`), so floating-point rounding is not modelled.
- `print` logging, the `KeyboardInterrupt` handler, `flush` and `reset_input_buffer` on either link.
- Exceptions from `dwin.write` inside `switch_page` and `read_vp_5100_polling`. Those writes are outside any `try`, so a fault there would end the process; the model assumes those writes succeed. The guarded writes of `send_to_dwin` and `send_mode_to_dwin` may fail, through the acceptance oracle.
- `int(func)` on an infinite or NaN value: the grammar produces neither.
- Tokens beyond the double range, such as `1e400`: `float` reads them as infinite, so `int(func)` (pam_to_dwin.py:244) raises `OverflowError` and ends the loop, and `send_to_dwin` skips the value because `round` raises inside its `try` (pam_to_dwin.py:143). The model reads them as finite values: `Truncate` gives a very large function code, and `Quantize` saturates and writes 32767 or -32768.
- The order of work between the two links within one iteration. The instrument state and the display state are separate values, so for example that v1's mode frame is sent before `WA` is read is not captured.
- Arbiter.Leave: a dual-channel read without a mismatch clears only `mismatch_page_active`; `vp5100_applied` keeps its value until the next page switch clears it. This follows the code (pam_to_dwin.py:270-271), not a reading in which both flags reset.
- BridgeV2.Bridge.Cycle: the loop object stores the snapshot with the corrected `Publish`, so its pass never ends the process. The source's block at pam_to_dwin_v2.py:593-599 raises on the inputs listed under "## Findings". That pass is modelled on values only, as `CycleAsWritten` with `CycleAsWrittenOutcome`, and `CorrectedAgrees` shows that the two passes differ in the snapshot and the outcome alone.
- Parsing.ExtractNumber: its own contract is stated through `FirstValue`, `Tokens` and `RemovePrompt` (with `RemovePromptChar` and `RemovePromptAppend`, which fix the order of the kept characters), which carry the ensures clauses, and through its examples.

## Findings

| source | as written | input that shows it | evidently intended | confidence | as-written member | corrected member |
|---|---|---|---|---|---|---|
| pam_to_dwin_v2.py:595-596 | `scale_value(wa, mode_a, func)` calls `float(None)` when a `WA` or `WB` reply did not parse, and the `TypeError` escapes the loop after `FUNC` was already stored | function 196 whose `WA` reply is `"ERR"` | publish `None` for the missing value and keep running | not executed | BridgeV2.MissingReadingCrashes | BridgeV2.Publish (BridgeV2.CorrectedAgrees, BridgeV2.CorrectedAlwaysPublishes) |
| pam_to_dwin_v2.py:565-596 | function 195 never assigns `mode_b`, so before any 196 iteration the snapshot's `scale_value(wb, mode_b, func)` raises `NameError` | the first iteration reads function 195 | publish `None` for `WB` | not executed | BridgeV2.SingleBeforeDualCrashes | BridgeV2.Publish (BridgeV2.CorrectedAlwaysPublishes) |
| pam_to_dwin_v2.py:593-599 | for any other function code the snapshot reads variables no branch assigned this iteration: `NameError` before the first branch ran, stale readings afterwards | the first iteration reads function 100 | publish the code without raising | not executed | BridgeV2.OtherCodeAsWritten | BridgeV2.Publish (BridgeV2.OtherCodeCycle, BridgeV2.CorrectedAlwaysPublishes) |
