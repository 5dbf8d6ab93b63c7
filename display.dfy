/**
 * The display link: `send_to_dwin` with its change cache,
 * `send_mode_to_dwin`, `switch_page` and `read_vp_5100_polling`.
 *
 * Three oracles stand for the device: whether the n-th value or mode write
 * is accepted (`dwin.write` may raise inside the `try` of those two
 * functions), and the bytes waiting at each poll tick of the selector
 * routine. `wire` is every frame the link accepted, in order.
 */
module Display {
  import opened Base
  import opened Parsing
  import opened Frames
  import opened ChangeCache

  /** Display register ids written by the main loop. */
  const REG_PRIMARY: int := 0x5500
  const REG_SECONDARY: int := 0x5600
  const REG_CURRENT_A: int := 0x5700
  const REG_CURRENT_B: int := 0x5800
  const REG_SUPPLY: int := 0x5900
  /** The constant the main loop writes to `REG_SUPPLY` every completed cycle. */
  const SUPPLY_VALUE: real := 24.0

  /** Outer rounds of the selector poll within its 2 s timeout (one request per round). */
  const SELECTOR_ROUNDS: nat := 14
  /** Inner polls per round: 0.15 s at 0.01 s intervals. */
  const SELECTOR_TICKS: nat := 15

  /** The display link's state, including the global `cache` of `send_to_dwin`. */
  datatype DwinState = DwinState(
    accepts: nat -> bool,
    arrivals: nat -> seq<byte>,
    cache: map<int, int>,
    wire: seq<Frame>,
    attempts: nat,
    tick: nat)

  /**
   * `send_to_dwin(vpin, value)`. A `None` value stands for the exception
   * `round(None * 10)` raises, which the function catches before touching
   * the cache. An id outside 16 bits makes `to_bytes` raise after the cache
   * was set.
   */
  function SendSpec(d: DwinState, vpin: int, value: Option<real>): DwinState
  {
    if value.None? then d
    else
      var iv := Quantize(value.value);
      if !Admits(d.cache, vpin, iv) then d
      else
        var stored := d.(cache := d.cache[vpin := iv]);
        if !IsRegister(vpin) then stored
        else
          stored.(attempts := d.attempts + 1,
                  wire := d.wire + if d.accepts(d.attempts) then [ValueFrame(vpin, iv)] else [])
  }

  /**
   * A defined value of register `vpin` is attempted exactly when its
   * quantized integer differs from the cached one (or there is none); the
   * cache then holds that integer whether or not the link accepted the
   * write, no other cache entry changes, and what reaches the wire is the
   * single 8-byte value frame, only when the link accepted it.
   */
  lemma SendEffect(d: DwinState, vpin: int, value: real)
    requires IsRegister(vpin)
    ensures var e := SendSpec(d, vpin, Some(value));
      var iv := Quantize(value);
      e.accepts == d.accepts && e.arrivals == d.arrivals && e.tick == d.tick
      && e.cache == Offer(d.cache, vpin, iv)
      && Lookup(e.cache, vpin) == Some(iv)
      && (forall k :: k != vpin ==> Lookup(e.cache, k) == Lookup(d.cache, k))
      && e.attempts == d.attempts + (if Admits(d.cache, vpin, iv) then 1 else 0)
      && e.wire == d.wire + (if Admits(d.cache, vpin, iv) && d.accepts(d.attempts)
                              then [ValueFrame(vpin, iv)] else [])
  {
  }

  /** A value that is not defined (no mode, hence no scaled value) changes nothing. */
  lemma SendUndefined(d: DwinState, vpin: int)
    ensures SendSpec(d, vpin, None) == d
  {
  }

  /** A register never written before is always attempted. */
  lemma SendNeverSeen(d: DwinState, vpin: int, value: real)
    requires IsRegister(vpin) && vpin !in d.cache && d.accepts(d.attempts)
    ensures SendSpec(d, vpin, Some(value)).wire == d.wire + [ValueFrame(vpin, Quantize(value))]
  {
  }

  /** Sending the same value twice in a row puts at most one frame on the wire. */
  lemma SendTwiceSuppressed(d: DwinState, vpin: int, value: real)
    requires IsRegister(vpin)
    ensures var e := SendSpec(d, vpin, Some(value));
      SendSpec(e, vpin, Some(value)) == e
  {
  }

  /** 24.0 is sent as 240. */
  lemma QuantizeSupply()
    ensures Quantize(SUPPLY_VALUE) == 240
  {
    RoundHalfEvenUnique(240.0, 240);
  }

  /** What a cached `send_to_dwin` leaves in the cache. */
  function Cached(cache: map<int, int>, vpin: int, value: Option<real>): map<int, int>
  {
    if value.Some? then Offer(cache, vpin, Quantize(value.value)) else cache
  }

  /** Every `send_to_dwin` of a 16-bit register leaves exactly the cache `Cached` describes. */
  lemma SendCached(d: DwinState, vpin: int, value: Option<real>)
    requires IsRegister(vpin)
    ensures SendSpec(d, vpin, value).cache == Cached(d.cache, vpin, value)
    ensures SendSpec(d, vpin, value).accepts == d.accepts
  {
    if value.Some? {
      SendEffect(d, vpin, value.value);
    }
  }

  /** Successive `send_to_dwin(vpin, v)` calls with defined values, in order. */
  function SendAll(d: DwinState, offers: seq<(int, real)>): DwinState
    decreases |offers|
  {
    if offers == [] then d
    else
      var last := offers[|offers| - 1];
      SendSpec(SendAll(d, offers[..|offers| - 1]), last.0, Some(last.1))
  }

  /** The offers as the cache sees them: each value quantized. */
  function Quantized(offers: seq<(int, real)>): (q: seq<(int, int)>)
    ensures |q| == |offers|
    ensures forall i :: 0 <= i < |offers| ==> q[i] == (offers[i].0, Quantize(offers[i].1))
  {
    seq(|offers|, i requires 0 <= i < |offers| => (offers[i].0, Quantize(offers[i].1)))
  }

  /**
   * Successive sends to 16-bit registers follow `Run` on the quantized
   * offers: the cache is `Run`'s cache, and the link sees one write
   * attempt per offer `Run` admits, so the run properties of the change
   * cache hold for `send_to_dwin`.
   */
  lemma {:induction false} SendAllFollowsRun(d: DwinState, offers: seq<(int, real)>)
    requires forall i :: 0 <= i < |offers| ==> IsRegister(offers[i].0)
    ensures var e := SendAll(d, offers);
      var r := Run(d.cache, Quantized(offers));
      e.cache == r.0 && e.attempts == d.attempts + |r.1|
      && e.accepts == d.accepts && e.arrivals == d.arrivals && e.tick == d.tick
      && |d.wire| <= |e.wire| <= |d.wire| + |r.1|
    decreases |offers|
  {
    if offers != [] {
      var pre := offers[..|offers| - 1];
      var last := offers[|offers| - 1];
      SendAllFollowsRun(d, pre);
      var q := Quantized(offers);
      assert q[..|q| - 1] == Quantized(pre);
      assert q[|q| - 1] == (last.0, Quantize(last.1));
      SendEffect(SendAll(d, pre), last.0, last.1);
    }
  }

  /** The writes such a run attempts go to 16-bit registers and carry 16-bit values. */
  lemma SentAreWrites(cache: map<int, int>, offers: seq<(int, real)>)
    requires forall i :: 0 <= i < |offers| ==> IsRegister(offers[i].0)
    ensures var sent := Run(cache, Quantized(offers)).1;
      forall j :: 0 <= j < |sent| ==> IsRegister(sent[j].0) && IsInt16(sent[j].1)
  {
    RunSentFromOffers(cache, Quantized(offers));
  }

  /**
   * The frames that reach the wire for the attempted writes `sent`, the
   * first of them being attempt number `start`: each write's value frame,
   * when the link accepts that attempt.
   */
  function Delivered(accepts: nat -> bool, start: nat, sent: seq<(int, int)>): seq<Frame>
    requires forall j :: 0 <= j < |sent| ==> IsRegister(sent[j].0) && IsInt16(sent[j].1)
    decreases |sent|
  {
    if sent == [] then []
    else
      var last := sent[|sent| - 1];
      Delivered(accepts, start, sent[..|sent| - 1])
      + if accepts(start + |sent| - 1) then [ValueFrame(last.0, last.1)] else []
  }

  /** One more attempted write adds its frame exactly when the link accepts that attempt. */
  lemma DeliveredSnoc(accepts: nat -> bool, start: nat, sent: seq<(int, int)>, x: (int, int))
    requires forall j :: 0 <= j < |sent| ==> IsRegister(sent[j].0) && IsInt16(sent[j].1)
    requires IsRegister(x.0) && IsInt16(x.1)
    ensures Delivered(accepts, start, sent + [x])
      == Delivered(accepts, start, sent) + if accepts(start + |sent|) then [ValueFrame(x.0, x.1)] else []
  {
    assert (sent + [x])[..|sent|] == sent;
  }

  /**
   * Over such a run the wire gains exactly the value frames of the writes
   * `Run` admits whose attempt the link accepted, in order.
   */
  lemma {:induction false} SendAllDelivers(d: DwinState, offers: seq<(int, real)>)
    requires forall i :: 0 <= i < |offers| ==> IsRegister(offers[i].0)
    ensures var sent := Run(d.cache, Quantized(offers)).1;
      (forall j :: 0 <= j < |sent| ==> IsRegister(sent[j].0) && IsInt16(sent[j].1))
      && SendAll(d, offers).wire == d.wire + Delivered(d.accepts, d.attempts, sent)
    decreases |offers|
  {
    SentAreWrites(d.cache, offers);
    if offers != [] {
      var pre := offers[..|offers| - 1];
      var last := offers[|offers| - 1];
      SendAllDelivers(d, pre);
      SendAllFollowsRun(d, pre);
      var q := Quantized(offers);
      assert q[..|q| - 1] == Quantized(pre);
      assert q[|q| - 1] == (last.0, Quantize(last.1));
      var r0 := Run(d.cache, Quantized(pre));
      assert Run(d.cache, q).1
        == if Admits(r0.0, last.0, Quantize(last.1)) then r0.1 + [(last.0, Quantize(last.1))] else r0.1;
      assert SendAll(d, offers) == SendSpec(SendAll(d, pre), last.0, Some(last.1));
      SendDelivers(d, SendAll(d, pre), r0.1, last.0, last.1);
    }
  }

  /** One more send after attempts `sent0` whose delivered frames are on the wire. */
  lemma SendDelivers(d: DwinState, e0: DwinState, sent0: seq<(int, int)>, vpin: int, v: real)
    requires forall j :: 0 <= j < |sent0| ==> IsRegister(sent0[j].0) && IsInt16(sent0[j].1)
    requires IsRegister(vpin)
    requires e0.accepts == d.accepts && e0.attempts == d.attempts + |sent0|
    requires e0.wire == d.wire + Delivered(d.accepts, d.attempts, sent0)
    ensures var x := (vpin, Quantize(v));
      var sent := if Admits(e0.cache, vpin, x.1) then sent0 + [x] else sent0;
      SendSpec(e0, vpin, Some(v)).wire == d.wire + Delivered(d.accepts, d.attempts, sent)
  {
    var x := (vpin, Quantize(v));
    if Admits(e0.cache, vpin, x.1) {
      var extra := if d.accepts(d.attempts + |sent0|) then [ValueFrame(x.0, x.1)] else [];
      assert SendSpec(e0, vpin, Some(v)).wire == e0.wire + extra;
      DeliveredSnoc(d.accepts, d.attempts, sent0, x);
      AppendTwo(d.wire, Delivered(d.accepts, d.attempts, sent0), extra);
    }
  }

  /**
   * After any run of sends, the next `send_to_dwin` of a defined value is
   * attempted exactly when its quantized value differs from the value last
   * attempted for its register (or its initial cache entry).
   */
  lemma SendAfterRunIffChanged(d: DwinState, offers: seq<(int, real)>, vpin: int, v: real)
    requires forall i :: 0 <= i < |offers| ==> IsRegister(offers[i].0)
    requires IsRegister(vpin)
    ensures var e := SendAll(d, offers);
      var sent := Run(d.cache, Quantized(offers)).1;
      SendSpec(e, vpin, Some(v)).attempts == e.attempts + 1 <==> Previous(d.cache, sent, vpin) != Some(Quantize(v))
  {
    SendAllFollowsRun(d, offers);
    SendEffect(SendAll(d, offers), vpin, v);
    RunAdmitsIffChanged(d.cache, Quantized(offers), vpin, Quantize(v));
  }

  /** `send_mode_to_dwin(mode)`: not cache-gated; register 0x5000 gets 0 for V and 1 for C. */
  function SendModeSpec(d: DwinState, m: ElectricalMode): DwinState
  {
    d.(attempts := d.attempts + 1,
       wire := d.wire + if d.accepts(d.attempts) then [ModeFrame(m)] else [])
  }

  /** The mode write bypasses the cache: it is attempted every time and leaves the cache alone. */
  lemma SendModeEffect(d: DwinState, m: ElectricalMode)
    ensures var e := SendModeSpec(d, m);
      e.cache == d.cache && e.attempts == d.attempts + 1 && e.tick == d.tick
      && e.wire == d.wire + (if d.accepts(d.attempts) then [ValueFrame(REG_MODE, ModeValue(m))] else [])
  {
    ModeFrameIsValueFrame(m);
  }

  /** `switch_page(page_id)`: the page frame; flushing and discarding input leave no trace here. */
  function SwitchPageSpec(d: DwinState, page: int): DwinState
  {
    d.(wire := d.wire + [PageFrame(page)])
  }

  // ---------------------------------------------------------------------
  // Selector poll
  // ---------------------------------------------------------------------

  /** `read_vp_5100_polling()` with its time bound given as rounds of polls. */
  function PollSpec(d: DwinState, rounds: nat, ticks: nat): (DwinState, Option<int>)
  {
    PollRounds(d, [], rounds, ticks)
  }

  /** The outer loop: each round writes the request, then polls `ticks` times. */
  function PollRounds(d: DwinState, buf: seq<byte>, rounds: nat, ticks: nat): (DwinState, Option<int>)
    decreases rounds, 0, 0
  {
    if rounds == 0 then (d, None)
    else PollTicks(d.(wire := d.wire + [SELECTOR_REQUEST]), buf, ticks, rounds - 1, ticks)
  }

  /** The inner loop: append whatever is waiting; stop once 8 bytes have accumulated. */
  function PollTicks(d: DwinState, buf: seq<byte>, left: nat, rounds: nat, ticks: nat): (DwinState, Option<int>)
    decreases rounds, 1, left
  {
    if left == 0 then PollRounds(d, buf, rounds, ticks)
    else
      var chunk := d.arrivals(d.tick);
      var next := d.(tick := d.tick + 1);
      if |chunk| == 0 then PollTicks(next, buf, left - 1, rounds, ticks)
      else if |buf + chunk| >= 8 then (next, Some(SelectorValue(buf + chunk)))
      else PollTicks(next, buf + chunk, left - 1, rounds, ticks)
  }

  /** The bytes received in the `k` ticks from tick `start` on. */
  function Received(arrivals: nat -> seq<byte>, start: nat, k: nat): seq<byte>
  {
    if k == 0 then [] else Received(arrivals, start, k - 1) + arrivals(start + k - 1)
  }

  /** Watching longer never loses a byte. */
  lemma {:induction false} ReceivedGrows(arrivals: nat -> seq<byte>, start: nat, j: nat, k: nat)
    requires j <= k
    ensures |Received(arrivals, start, j)| <= |Received(arrivals, start, k)|
    decreases k
  {
    if j < k {
      ReceivedGrows(arrivals, start, j, k - 1);
    }
  }

  /** What a poll may change: the wire grows by requests only, and the tick moves on. */
  ghost predicate PollFrame(d: DwinState, e: DwinState, rounds: nat)
  {
    e.accepts == d.accepts && e.arrivals == d.arrivals && e.cache == d.cache
    && e.attempts == d.attempts && e.tick >= d.tick
    && |d.wire| <= |e.wire| <= |d.wire| + rounds && e.wire[..|d.wire|] == d.wire
    && (forall i :: |d.wire| <= i < |e.wire| ==> e.wire[i] == SELECTOR_REQUEST)
  }

  /** What a poll finds: the buffer is everything received since `start`. */
  ghost predicate PollFinds(d: DwinState, e: DwinState, r: Option<int>, rounds: nat, start: nat)
    requires start <= d.tick <= e.tick
  {
    var got := Received(d.arrivals, start, e.tick - start);
    (r.Some? ==>
       e.tick > start && |got| >= 8 && r.value == SelectorValue(got)
       && |Received(d.arrivals, start, e.tick - start - 1)| < 8)
    && (r.None? ==> |got| < 8 && |e.wire| == |d.wire| + rounds)
  }

  lemma {:induction false} PollRoundsFacts(d: DwinState, buf: seq<byte>, rounds: nat, ticks: nat, start: nat)
    requires start <= d.tick && buf == Received(d.arrivals, start, d.tick - start) && |buf| < 8
    ensures var (e, r) := PollRounds(d, buf, rounds, ticks);
      PollFrame(d, e, rounds) && PollFinds(d, e, r, rounds, start)
      && (rounds > 0 ==> |e.wire| > |d.wire|)
      && e.tick <= d.tick + rounds * ticks
      && (r.None? ==> e.tick == d.tick + rounds * ticks)
    decreases rounds, 0, 0
  {
    if rounds > 0 {
      var d1 := d.(wire := d.wire + [SELECTOR_REQUEST]);
      PollTicksFacts(d1, buf, ticks, rounds - 1, ticks, start);
      assert rounds * ticks == ticks + (rounds - 1) * ticks;
      var (e, r) := PollRounds(d, buf, rounds, ticks);
      assert e.wire[..|d1.wire|] == d1.wire;
      assert e.wire[..|d.wire|] == d1.wire[..|d.wire|];
      assert e.wire[|d.wire|] == d1.wire[|d.wire|];
    }
  }

  lemma {:induction false} PollTicksFacts(d: DwinState, buf: seq<byte>, left: nat, rounds: nat, ticks: nat, start: nat)
    requires start <= d.tick && buf == Received(d.arrivals, start, d.tick - start) && |buf| < 8
    ensures var (e, r) := PollTicks(d, buf, left, rounds, ticks);
      PollFrame(d, e, rounds) && PollFinds(d, e, r, rounds, start)
      && e.tick <= d.tick + left + rounds * ticks
      && (r.None? ==> e.tick == d.tick + left + rounds * ticks)
    decreases rounds, 1, left
  {
    if left == 0 {
      PollRoundsFacts(d, buf, rounds, ticks, start);
    } else {
      var chunk := d.arrivals(d.tick);
      var next := d.(tick := d.tick + 1);
      assert Received(d.arrivals, start, next.tick - start) == buf + chunk;
      if |chunk| == 0 {
        assert buf + chunk == buf;
        PollTicksFacts(next, buf, left - 1, rounds, ticks, start);
      } else if |buf + chunk| >= 8 {
      } else {
        PollTicksFacts(next, buf + chunk, left - 1, rounds, ticks, start);
      }
    }
  }

  /**
   * The selector poll writes only 6-byte read requests, one per round
   * started (at least one, never more than `rounds`), and watches at most
   * `rounds * ticks` ticks. It returns the last two bytes, big-endian, of
   * the bytes received as soon as at least 8 have arrived, and `None`,
   * after all `rounds` requests and exactly `rounds * ticks` ticks, exactly
   * when fewer than 8 bytes arrive in that window.
   */
  lemma PollCorrect(d: DwinState, rounds: nat, ticks: nat)
    ensures var (e, r) := PollSpec(d, rounds, ticks);
      PollFrame(d, e, rounds) && PollFinds(d, e, r, rounds, d.tick)
      && (rounds > 0 ==> |e.wire| > |d.wire|)
      && (r.Some? ==> 0 <= r.value < 0x1_0000)
      && e.tick <= d.tick + rounds * ticks
      && (r.None? ==> e.tick == d.tick + rounds * ticks)
      && (r.None? <==> |Received(d.arrivals, d.tick, rounds * ticks)| < 8)
  {
    PollRoundsFacts(d, [], rounds, ticks, d.tick);
    var (e, r) := PollSpec(d, rounds, ticks);
    if r.Some? {
      ReceivedGrows(d.arrivals, d.tick, e.tick - d.tick, rounds * ticks);
    }
  }

  /** The display link object behind the global `dwin`, with the global `cache`. */
  class DwinLink {
    const accepts: nat -> bool
    const arrivals: nat -> seq<byte>
    var cache: map<int, int>
    var wire: seq<Frame>
    var attempts: nat
    var tick: nat

    function Model(): DwinState
      reads this
    {
      DwinState(accepts, arrivals, cache, wire, attempts, tick)
    }

    /** `open_dwin()` at start-up, with the empty `cache = {}`. */
    constructor (accepts: nat -> bool, arrivals: nat -> seq<byte>)
      ensures Model() == DwinState(accepts, arrivals, map[], [], 0, 0)
    {
      this.accepts := accepts;
      this.arrivals := arrivals;
      cache := map[];
      wire := [];
      attempts := 0;
      tick := 0;
    }

    /** `send_to_dwin(vpin, value)`. */
    method Send(vpin: int, value: Option<real>)
      modifies this
      ensures Model() == SendSpec(old(Model()), vpin, value)
    {
      if value.None? {
        return;
      }
      var iv := Quantize(value.value);
      if vpin in cache && cache[vpin] == iv {
        return;
      }
      cache := cache[vpin := iv];
      if !IsRegister(vpin) {
        return;
      }
      var packet := ValueFrame(vpin, iv);
      Write(packet);
    }

    /** `send_mode_to_dwin(mode)`. */
    method SendMode(m: ElectricalMode)
      modifies this
      ensures Model() == SendModeSpec(old(Model()), m)
    {
      Write(ModeFrame(m));
    }

    /** One `dwin.write` inside a `try`: the frame reaches the wire only if the link accepts it. */
    method Write(packet: Frame)
      modifies this
      ensures Model() == old(Model()).(attempts := old(attempts) + 1,
                                       wire := old(wire) + if accepts(old(attempts)) then [packet] else [])
    {
      if accepts(attempts) {
        wire := wire + [packet];
      }
      attempts := attempts + 1;
    }

    /** `switch_page(page_id)`. */
    method SwitchPage(page: int)
      modifies this
      ensures Model() == SwitchPageSpec(old(Model()), page)
    {
      wire := wire + [PageFrame(page)];
    }

    /** `read_vp_5100_polling()`: returns the selector value, or `None` on timeout. */
    method ReadSelector(rounds: nat, ticks: nat) returns (sel: Option<int>)
      modifies this
      ensures (Model(), sel) == PollSpec(old(Model()), rounds, ticks)
    {
      ghost var goal := PollSpec(Model(), rounds, ticks);
      var buffer: seq<byte> := [];
      var round := 0;
      while round < rounds
        invariant 0 <= round <= rounds
        invariant goal == PollRounds(Model(), buffer, rounds - round, ticks)
      {
        wire := wire + [SELECTOR_REQUEST];
        var t := 0;
        while t < ticks
          invariant 0 <= t <= ticks
          invariant goal == PollTicks(Model(), buffer, ticks - t, rounds - round - 1, ticks)
        {
          var chunk := arrivals(tick);
          tick := tick + 1;
          if |chunk| > 0 {
            buffer := buffer + chunk;
            if |buffer| >= 8 {
              return Some(SelectorValue(buffer));
            }
          }
          t := t + 1;
        }
        round := round + 1;
      }
      return None;
    }
  }
}
