/** Hysteresis backpressure against the whole sequence of observed queue sizes. */
module Backpressure {
  class BackpressureController {
    const highWater: nat
    const lowWater: nat
    var inBackpressure: bool

    constructor (highWater: nat, lowWater: nat)
      ensures this.highWater == highWater && this.lowWater == lowWater && !inBackpressure
    {
      this.highWater, this.lowWater, inBackpressure := highWater, lowWater, false;
    }

    method CheckBackpressure(queueSize: nat) returns (pressure: bool)
      modifies this
      ensures pressure == inBackpressure == Next(highWater, lowWater, old(inBackpressure), queueSize)
    {
      var isHigh, isLow := queueSize >= highWater, queueSize <= lowWater;
      if isHigh && !inBackpressure {
        inBackpressure := true;
      } else if isLow && inBackpressure {
        inBackpressure := false;
      }
      pressure := inBackpressure;
    }
  }

  function Next(high: nat, low: nat, on: bool, size: nat): bool {
    if size >= high && !on then true else if size <= low && on then false else on
  }

  function After(high: nat, low: nat, sizes: seq<nat>): bool {
    sizes != [] && Next(high, low, After(high, low, sizes[..|sizes| - 1]), sizes[|sizes| - 1])
  }

  /** Some size reached the high mark and none later fell to the low mark. */
  predicate HighSinceLow(high: nat, low: nat, sizes: seq<nat>) {
    exists i | 0 <= i < |sizes| :: sizes[i] >= high && forall j | i < j < |sizes| :: sizes[j] > low
  }

  lemma HighSinceLowOneMore(high: nat, low: nat, sizes: seq<nat>, size: nat)
    ensures HighSinceLow(high, low, sizes + [size]) <==> size >= high || (HighSinceLow(high, low, sizes) && size > low)
  {
    var n, more := |sizes|, sizes + [size];
    if size >= high { assert more[n] >= high; }
    if HighSinceLow(high, low, sizes) && size > low {
      var i :| 0 <= i < n && sizes[i] >= high && forall j | i < j < n :: sizes[j] > low;
      assert more[i] >= high && forall j | i < j < n :: more[j] == sizes[j];
    }
    if HighSinceLow(high, low, more) && size < high {
      var i :| 0 <= i < |more| && more[i] >= high && forall j | i < j < |more| :: more[j] > low;
      assert more[n] > low;
      assert sizes[i] >= high && forall j | i < j < n :: sizes[j] == more[j];
    }
  }

  lemma {:induction false} PressureIsHighSinceLow(high: nat, low: nat, sizes: seq<nat>)
    requires low < high
    ensures After(high, low, sizes) <==> HighSinceLow(high, low, sizes)
  {
    if sizes != [] {
      var init, size := sizes[..|sizes| - 1], sizes[|sizes| - 1];
      PressureIsHighSinceLow(high, low, init);
      assert sizes == init + [size];
      HighSinceLowOneMore(high, low, init, size);
    }
  }

  /** The law holds for every run exactly when the low mark is below the high mark. */
  lemma HysteresisIff(high: nat, low: nat)
    ensures (forall sizes :: After(high, low, sizes) <==> HighSinceLow(high, low, sizes)) <==> low < high
  {
    if low < high {
      forall sizes ensures After(high, low, sizes) <==> HighSinceLow(high, low, sizes) {
        PressureIsHighSinceLow(high, low, sizes);
      }
    } else {
      var sizes := [high, high];
      assert sizes[..1] == [high] && [high][..0] == [];
      assert After(high, low, [high]);
      assert !After(high, low, sizes);
      assert sizes[1] >= high;
      assert HighSinceLow(high, low, sizes);
    }
  }

  function Distance(a: nat, b: nat): nat { if a < b then b - a else a - b }

  /** Total movement of the queue over a run of sizes. */
  function Movement(sizes: seq<nat>): nat {
    if |sizes| < 2 then 0
    else Movement(sizes[..|sizes| - 1]) + Distance(sizes[|sizes| - 2], sizes[|sizes| - 1])
  }

  function Toggles(high: nat, low: nat, sizes: seq<nat>): nat {
    if sizes == [] then 0
    else
      var init := sizes[..|sizes| - 1];
      Toggles(high, low, init) + if After(high, low, sizes) != After(high, low, init) then 1 else 0
  }

  /** Movement still ahead before the next toggle is also already paid for. */
  function Slack(high: nat, low: nat, on: bool, size: nat): nat {
    if on then (if size < high then high - size else 0) else (if size > low then size - low else 0)
  }

  /** `k` crossings of a band, added up. */
  function Crossings(k: nat, band: nat): nat { if k == 0 then 0 else Crossings(k - 1, band) + band }

  lemma {:induction false} CrossingsIsProduct(k: nat, band: nat)
    ensures Crossings(k, band) == k * band
  {
    if k > 0 { CrossingsIsProduct(k - 1, band); }
  }

  lemma {:induction false} TogglesPaidFor(high: nat, low: nat, sizes: seq<nat>)
    requires low < high && sizes != [] && Toggles(high, low, sizes) >= 1
    ensures Movement(sizes) >=
      Crossings(Toggles(high, low, sizes) - 1, high - low) +
        Slack(high, low, After(high, low, sizes), sizes[|sizes| - 1])
  {
    var init := sizes[..|sizes| - 1];
    if Toggles(high, low, init) >= 1 {
      TogglesPaidFor(high, low, init);
      assert init[|init| - 1] == sizes[|sizes| - 2];
    } else {
      NoToggleNoPressure(high, low, init);
    }
  }

  lemma {:induction false} NoToggleNoPressure(high: nat, low: nat, sizes: seq<nat>)
    requires Toggles(high, low, sizes) == 0
    ensures !After(high, low, sizes)
  {
    if sizes != [] { NoToggleNoPressure(high, low, sizes[..|sizes| - 1]); }
  }

  /** No chattering: `k` toggles cost at least `k - 1` crossings of the band between the marks. */
  lemma TogglesNeedMovement(high: nat, low: nat, sizes: seq<nat>)
    requires low < high
    ensures var k := Toggles(high, low, sizes); k >= 1 ==> Movement(sizes) >= (k - 1) * (high - low)
  {
    if Toggles(high, low, sizes) >= 1 {
      TogglesPaidFor(high, low, sizes);
      CrossingsIsProduct(Toggles(high, low, sizes) - 1, high - low);
    }
  }
}
