/** Zero-cross detection and commutation timing (rm32/src/control/state.rs, `BemfState`). */
module Bemf {
  import opened Words

  datatype Bemf = Bemf(
    counter: U8, zcFound: bool, minUp: U8, minDown: U8, badCount: U8, badThreshold: U8, filterLevel: U8,
    waitTime: U16, lastZc: U16, thisZc: U16, tempAdvance: U8)

  function Configured(b: Bemf, filterLevel: U8, autoAdvance: U8, minCounts: U8): Bemf {
    b.(filterLevel := filterLevel, tempAdvance := autoAdvance, minUp := minCounts, minDown := minCounts)
  }

  function StepReset(b: Bemf): Bemf { b.(counter := 0, badCount := 0, zcFound := false) }

  predicate ZeroCrossDetected(b: Bemf, rising: bool) { !b.zcFound && b.counter > if rising then b.minUp else b.minDown }

  /** One comparator sample; past the crossing the comparator reads opposite to `rising`. */
  function Sampled(b: Bemf, level: bool, rising: bool): Bemf {
    if level != rising then b.(counter := Wrap8(b.counter + 1))
    else
      var bad := if b.badCount == 255 then 255 else b.badCount + 1;
      b.(badCount := bad, counter := if bad > b.badThreshold then 0 else b.counter)
  }

  /** Half the interval less the advance, in the source's `u32` arithmetic. */
  function WaitTime(interval: U32, advance: U8): (w: U16) {
    ProductBelow(advance, interval, 255, 0xFFFF_FFFF);
    var product: nat := advance * interval;
    Wrap16(SaturatingSub(interval / 2, Wrap32(product) / 64))
  }

  /** A quarter of the measured interval and three quarters of the old. */
  function BlendedInterval(measured: U16, interval: U32): (r: U32) {
    Wrap32(measured + Wrap32(3 * (interval as int))) / 4
  }

  function ZeroCrossRecorded(b: Bemf, measured: U16, interval: U32): Bemf {
    b.(zcFound := true, lastZc := b.thisZc, thisZc := measured,
       waitTime := WaitTime(BlendedInterval(measured, interval), b.tempAdvance))
  }

  /** The mean of the interval and the mean of the last two crossings. */
  function AveragedInterval(b: Bemf, interval: U32): (r: U32) {
    Wrap32(interval as int + (b.lastZc + b.thisZc as int) / 2) / 2
  }

  function TimingUpdated(b: Bemf, interval: U32): Bemf {
    b.(waitTime := WaitTime(AveragedInterval(b, interval), b.tempAdvance))
  }

  function ZcTimingRecorded(b: Bemf, measured: U16): Bemf { b.(lastZc := b.thisZc, thisZc := measured) }

  function ComTimerDelay(b: Bemf): (d: U16) { Wrap16(b.waitTime + 1) }

  class BemfState {
    var counter: U8
    var zcFound: bool
    var minCountsUp: U8
    var minCountsDown: U8
    var badCount: U8
    var badCountThreshold: U8
    var filterLevel: U8
    var waitTime: U16
    var lastZcTime: U16
    var thisZcTime: U16
    var tempAdvance: U8

    ghost function View(): Bemf
      reads this
    {
      Bemf(counter, zcFound, minCountsUp, minCountsDown, badCount, badCountThreshold, filterLevel,
           waitTime, lastZcTime, thisZcTime, tempAdvance)
    }

    method SyncConfig(level: U8, autoAdvance: U8, minCounts: U8)
      modifies this
      ensures View() == Configured(old(View()), level, autoAdvance, minCounts)
    {
      filterLevel, tempAdvance := level, autoAdvance;
      minCountsUp, minCountsDown := minCounts, minCounts;
    }

    method ResetForStep()
      modifies this
      ensures View() == StepReset(old(View()))
    {
      counter, badCount, zcFound := 0, 0, false;
    }

    method Update(compLevel: bool, rising: bool)
      modifies this
      ensures View() == Sampled(old(View()), compLevel, rising)
    {
      var currentState := !compLevel;
      if rising {
        if currentState {
          counter := Wrap8(counter + 1);
        } else {
          badCount := if badCount == 255 then 255 else badCount + 1;
          if badCount > badCountThreshold { counter := 0; }
        }
      } else if !currentState {
        counter := Wrap8(counter + 1);
      } else {
        badCount := if badCount == 255 then 255 else badCount + 1;
        if badCount > badCountThreshold { counter := 0; }
      }
    }

    method RecordZeroCross(measured: U16, interval: U32) returns (newInterval: U32)
      modifies this
      ensures View() == ZeroCrossRecorded(old(View()), measured, interval)
      ensures newInterval == BlendedInterval(measured, interval)
    {
      zcFound := true;
      lastZcTime := thisZcTime;
      thisZcTime := measured;
      newInterval := Wrap32(thisZcTime + Wrap32(3 * (interval as int))) / 4;
      waitTime := WaitTime(newInterval, tempAdvance);
    }

    method UpdateTimingFromTimer(interval: U32) returns (newInterval: U32)
      modifies this`waitTime
      ensures View() == TimingUpdated(old(View()), interval)
      ensures newInterval == AveragedInterval(old(View()), interval)
    {
      var zcAvg: U32 := (lastZcTime + thisZcTime as int) / 2;
      newInterval := Wrap32(interval as int + zcAvg) / 2;
      waitTime := WaitTime(newInterval, tempAdvance);
    }

    method RecordZcTiming(measured: U16)
      modifies this`lastZcTime, this`thisZcTime
      ensures View() == ZcTimingRecorded(old(View()), measured)
    {
      lastZcTime := thisZcTime;
      thisZcTime := measured;
    }
  }

  // ----- what the arithmetic keeps -----

  lemma NoWrap32(x: int)
    requires 0 <= x < 0x1_0000_0000
    ensures Wrap32(x) == x
  {
  }

  /** Intervals that fit 16 bits stay so, between the old interval and the new
      measurement: nothing wraps. */
  lemma BlendedStaysInRange(measured: U16, interval: U32)
    requires interval <= 65535
    ensures Min(measured, interval) <= BlendedInterval(measured, interval) <= Max(measured, interval)
  {
    NoWrap32(3 * (interval as int));
    NoWrap32(measured + 3 * (interval as int));
    hide Wrap32;
  }

  /** A crossing moves the interval a quarter of the way to the measurement, rounded
      down; an expiry, halfway to the mean of the last two crossings. */
  lemma IntervalWeights(b: Bemf, measured: U16, interval: U32)
    requires interval <= 65535
    ensures var r: int := BlendedInterval(measured, interval);
      4 * (r - interval) <= measured as int - interval < 4 * (r - interval) + 4
    ensures var r, crossings: int := AveragedInterval(b, interval) as int, b.lastZc + b.thisZc;
      4 * r <= 2 * (interval as int) + crossings < 4 * r + 4
  {
    NoWrap32(3 * (interval as int));
    NoWrap32(measured + 3 * (interval as int));
    NoWrap32(interval as int + (b.lastZc + b.thisZc as int) / 2);
    hide Wrap32;
  }

  lemma AveragedStaysInRange(b: Bemf, interval: U32)
    requires interval <= 65535
    ensures Min(Min(b.lastZc, b.thisZc), interval) - 1 <= AveragedInterval(b, interval)
    ensures AveragedInterval(b, interval) <= Max(Max(b.lastZc, b.thisZc), interval)
  {
    var sum: int := b.lastZc + b.thisZc as int;
    NoWrap32(interval as int + sum / 2);
    hide Wrap32;
  }

  lemma WaitWithinHalf(interval: U32, advance: U8)
    requires interval <= 65535
    ensures WaitTime(interval, advance) == SaturatingSub(interval / 2, advance * interval / 64)
    ensures WaitTime(interval, advance) <= interval / 2
    ensures advance >= 32 ==> WaitTime(interval, advance) == 0
    ensures forall b: Bemf :: b.waitTime == WaitTime(interval, advance) ==> ComTimerDelay(b) == b.waitTime as int + 1
  {
    ProductBelow(advance, interval, 255, 65535);
    var product: nat := advance * interval;
    assert Wrap32(product) == product;
    if advance >= 32 {
      ProductBelow(32, interval, advance, interval);
      assert product / 64 >= interval / 2;
    }
  }

  /** Samples at the post-crossing level, none at the other, are detected after
      exactly one more than the configured count. */
  function SampledTimes(b: Bemf, level: bool, rising: bool, n: nat): Bemf {
    if n == 0 then b else Sampled(SampledTimes(b, level, rising, n - 1), level, rising)
  }

  /** Samples before the crossing keep the count until there were more of them than the
      threshold, and then clear it. */
  lemma {:induction false} NoiseClearsCount(b: Bemf, rising: bool, n: nat)
    requires b.badCount == 0 && n <= 255
    ensures var r := SampledTimes(b, rising, rising, n);
      r.badCount == n && r.counter == if n > b.badThreshold then 0 else b.counter
    ensures SampledTimes(b, rising, rising, n).badThreshold == b.badThreshold
  {
    if n > 0 { NoiseClearsCount(b, rising, n - 1); }
  }

  lemma {:induction false} CleanCrossingDetected(b: Bemf, rising: bool, n: nat)
    requires b.counter == 0 && !b.zcFound && n <= 255
    ensures SampledTimes(b, !rising, rising, n) == b.(counter := n)
    ensures var threshold := if rising then b.minUp else b.minDown;
      ZeroCrossDetected(SampledTimes(b, !rising, rising, n), rising) <==> n > threshold
  {
    if n > 0 { CleanCrossingDetected(b, rising, n - 1); }
  }
}
