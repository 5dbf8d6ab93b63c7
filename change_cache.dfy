/**
 * The change-suppression rule of `send_to_dwin`: a quantized value reaches
 * the display only when it differs from the value cached for its register
 * (`cache.get(vpin) == iv` suppresses the write), and the cache entry is
 * set before the write is attempted.
 */
module ChangeCache {
  import opened Base

  /** `cache.get(vpin)`. */
  function Lookup(cache: map<int, int>, vpin: int): Option<int>
  {
    if vpin in cache then Some(cache[vpin]) else None
  }

  /** A write of `iv` to `vpin` is attempted exactly when `cache.get(vpin) != iv`. */
  predicate Admits(cache: map<int, int>, vpin: int, iv: int)
  {
    Lookup(cache, vpin) != Some(iv)
  }

  /** The cache after offering `iv` for `vpin`: updated when admitted, untouched otherwise. */
  function Offer(cache: map<int, int>, vpin: int, iv: int): (c: map<int, int>)
    ensures c == cache[vpin := iv]
    ensures Lookup(c, vpin) == Some(iv)
    ensures forall k :: k != vpin ==> Lookup(c, k) == Lookup(cache, k)
  {
    if Admits(cache, vpin, iv) then cache[vpin := iv] else cache
  }

  /** A register that has never been written is always admitted, whatever the value. */
  lemma NeverSeenAdmits(cache: map<int, int>, vpin: int, iv: int)
    requires vpin !in cache
    ensures Admits(cache, vpin, iv)
  {
  }

  // ---------------------------------------------------------------------
  // Runs of offers
  // ---------------------------------------------------------------------

  /** The final cache and the attempted writes of a run of offers `(vpin, iv)`, in order. */
  function Run(cache: map<int, int>, offers: seq<(int, int)>): (map<int, int>, seq<(int, int)>)
    decreases |offers|
  {
    if offers == [] then (cache, [])
    else
      var (c, sent) := Run(cache, offers[..|offers| - 1]);
      var (vpin, iv) := offers[|offers| - 1];
      if Admits(c, vpin, iv) then (Offer(c, vpin, iv), sent + [(vpin, iv)]) else (c, sent)
  }

  /** The value of the last attempted write to `vpin` in `sent`, if any. */
  function LastSent(sent: seq<(int, int)>, vpin: int): Option<int>
    decreases |sent|
  {
    if sent == [] then None
    else if sent[|sent| - 1].0 == vpin then Some(sent[|sent| - 1].1)
    else LastSent(sent[..|sent| - 1], vpin)
  }

  /**
   * The value last attempted for `vpin`: the last write of the run, or the
   * initial entry. The cache is set before the write is attempted, so a
   * write the link rejects still counts here although the display never
   * got it.
   */
  function Previous(cache: map<int, int>, sent: seq<(int, int)>, vpin: int): Option<int>
  {
    if LastSent(sent, vpin).Some? then LastSent(sent, vpin) else Lookup(cache, vpin)
  }

  /** Every attempted write is one of the offers. */
  lemma {:induction false} RunSentFromOffers(cache: map<int, int>, offers: seq<(int, int)>)
    ensures forall j :: 0 <= j < |Run(cache, offers).1| ==> Run(cache, offers).1[j] in offers
    decreases |offers|
  {
    if offers != [] {
      var prefix := offers[..|offers| - 1];
      RunSentFromOffers(cache, prefix);
      var r := Run(cache, prefix);
      var last := offers[|offers| - 1];
      assert forall x :: x in prefix ==> x in offers;
      if Admits(r.0, last.0, last.1) {
        assert Run(cache, offers) == (Offer(r.0, last.0, last.1), r.1 + [last]);
      } else {
        assert Run(cache, offers) == r;
      }
    }
  }

  /** The cache always holds, per register, the last value attempted for it (or its initial entry). */
  lemma {:induction false} RunTracksLastSent(cache: map<int, int>, offers: seq<(int, int)>, vpin: int)
    ensures Lookup(Run(cache, offers).0, vpin) == Previous(cache, Run(cache, offers).1, vpin)
    decreases |offers|
  {
    if offers != [] {
      var prefix := offers[..|offers| - 1];
      RunTracksLastSent(cache, prefix, vpin);
      var r := Run(cache, prefix);
      var last := offers[|offers| - 1];
      if Admits(r.0, last.0, last.1) {
        assert Run(cache, offers) == (Offer(r.0, last.0, last.1), r.1 + [last]);
        var sent' := r.1 + [last];
        assert sent'[..|sent'| - 1] == r.1;
        assert LastSent(sent', vpin) == if last.0 == vpin then Some(last.1) else LastSent(r.1, vpin);
      } else {
        assert Run(cache, offers) == r;
      }
    }
  }

  /** Every attempted write differs from the value last attempted for its register (attempts, not the wire). */
  lemma {:induction false} NoRepeatedWrite(cache: map<int, int>, offers: seq<(int, int)>, j: nat)
    requires j < |Run(cache, offers).1|
    ensures var sent := Run(cache, offers).1;
      Previous(cache, sent[..j], sent[j].0) != Some(sent[j].1)
    decreases |offers|
  {
    var prefix := offers[..|offers| - 1];
    var (c, sent) := Run(cache, prefix);
    var (x, iv) := offers[|offers| - 1];
    if j < |sent| {
      NoRepeatedWrite(cache, prefix, j);
      var all := Run(cache, offers).1;
      assert all[..j] == sent[..j] && all[j] == sent[j];
    } else {
      RunTracksLastSent(cache, prefix, x);
      var all := Run(cache, offers).1;
      assert all[..j] == sent;
    }
  }

  /** An offer is attempted exactly when its value differs from the value last attempted for its register. */
  lemma RunAdmitsIffChanged(cache: map<int, int>, offers: seq<(int, int)>, vpin: int, iv: int)
    ensures var (c, sent) := Run(cache, offers);
      Admits(c, vpin, iv) <==> Previous(cache, sent, vpin) != Some(iv)
  {
    RunTracksLastSent(cache, offers, vpin);
  }
}
