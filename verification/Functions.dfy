/** AM32's bisecting `map` and its free-running-counter delay (rm32/src/functions.rs). */
module Functions {
  import opened Words

  /** AM32's tail-recursive `map`: clamp, then halve both ranges with floored
      midpoints. Not the straight line. */
  function MapLine(x: int, inMin: int, inMax: int, outMin: int, outMax: int): int
    decreases Max(inMax - inMin, 0)
  {
    if x >= inMax then outMax
    else if x <= inMin then outMin
    else if outMin == outMax then outMin
    else
      var inMid, outMid := (inMin + inMax) / 2, (outMin + outMax) / 2;
      if inMin == inMid then outMid
      else if x <= inMid then MapLine(x, inMin, inMid, outMin, outMid)
      else MapLine(x, inMid + 1, inMax, outMid, outMax)
  }

  /** How often `MapLine` halves its ranges. */
  function MapHalvings(x: int, inMin: int, inMax: int, outMin: int, outMax: int): nat
    decreases Max(inMax - inMin, 0)
  {
    if x >= inMax || x <= inMin || outMin == outMax then 0
    else
      var inMid, outMid := (inMin + inMax) / 2, (outMin + outMax) / 2;
      if inMin == inMid then 0
      else if x <= inMid then 1 + MapHalvings(x, inMin, inMid, outMin, outMid)
      else 1 + MapHalvings(x, inMid + 1, inMax, outMid, outMax)
  }

  predicate FitsI32(v: int) { -0x8000_0000 <= v < 0x8000_0000 }

  /** No sum formed on the way overflows `i32`. */
  predicate MapFits(x: int, inMin: int, inMax: int, outMin: int, outMax: int)
    decreases Max(inMax - inMin, 0)
  {
    x >= inMax || x <= inMin || outMin == outMax ||
    (FitsI32(inMin + inMax) && FitsI32(outMin + outMax) &&
     var inMid, outMid := (inMin + inMax) / 2, (outMin + outMax) / 2;
     inMin == inMid ||
     if x <= inMid then MapFits(x, inMin, inMid, outMin, outMid)
     else MapFits(x, inMid + 1, inMax, outMid, outMax))
  }

  /** The source's loop over `i32` locals. */
  method Map(x: I32, inMin0: I32, inMax0: I32, outMin0: I32, outMax0: I32) returns (r: I32)
    requires MapFits(x, inMin0, inMax0, outMin0, outMax0)
    ensures r == MapLine(x, inMin0, inMax0, outMin0, outMax0)
    ensures Min(outMin0, outMax0) <= r <= Max(outMin0, outMax0)
    ensures inMin0 < inMax0 && inMin0 <= x <= inMax0 ==> NearLine(x, r, inMin0, inMax0, outMin0, outMax0)
  {
    hide NearLine;
    MapStaysBetween(x, inMin0, inMax0, outMin0, outMax0);
    if inMin0 < inMax0 && inMin0 <= x <= inMax0 { MapNearLine(x, inMin0, inMax0, outMin0, outMax0); }
    var inMin, inMax, outMin, outMax := inMin0, inMax0, outMin0, outMax0;
    while true
      invariant MapFits(x, inMin, inMax, outMin, outMax)
      invariant MapLine(x, inMin, inMax, outMin, outMax) == MapLine(x, inMin0, inMax0, outMin0, outMax0)
      decreases Max(inMax - inMin, 0)
    {
      if x >= inMax {
        return outMax;
      }
      if x <= inMin {
        return outMin;
      }
      if outMin == outMax {
        return outMin;
      }
      var inSum: I32 := inMin + inMax;
      var outSum: I32 := outMin + outMax;
      var inMid, outMid := inSum / 2, outSum / 2;
      if inMin == inMid {
        // The source returns `outMid` here, but an interval with a point strictly
        // inside it is at least two wide.
        assert false;
      }
      if x <= inMid {
        inMax, outMax := inMid, outMid;
      } else {
        inMin, outMin := inMid + 1, outMid;
      }
    }
  }

  /** Endpoints of at most 2^30 in magnitude never overflow, whatever `x` is. */
  lemma {:induction false} SmallRangesFit(x: int, inMin: int, inMax: int, outMin: int, outMax: int)
    requires -0x4000_0000 <= inMin < 0x4000_0000 && -0x4000_0000 <= inMax < 0x4000_0000
    requires -0x4000_0000 <= outMin < 0x4000_0000 && -0x4000_0000 <= outMax < 0x4000_0000
    ensures MapFits(x, inMin, inMax, outMin, outMax)
    decreases Max(inMax - inMin, 0)
  {
    if inMin < x < inMax && outMin != outMax {
      var inMid, outMid := (inMin + inMax) / 2, (outMin + outMax) / 2;
      if x <= inMid {
        SmallRangesFit(x, inMin, inMid, outMin, outMid);
      } else {
        SmallRangesFit(x, inMid + 1, inMax, outMid, outMax);
      }
    }
  }

  lemma {:induction false} MapStaysBetween(x: int, inMin: int, inMax: int, outMin: int, outMax: int)
    ensures Min(outMin, outMax) <= MapLine(x, inMin, inMax, outMin, outMax) <= Max(outMin, outMax)
    ensures x >= inMax ==> MapLine(x, inMin, inMax, outMin, outMax) == outMax
    ensures x < inMax && x <= inMin ==> MapLine(x, inMin, inMax, outMin, outMax) == outMin
    decreases Max(inMax - inMin, 0)
  {
    if inMin < x < inMax && outMin != outMax {
      var inMid, outMid := (inMin + inMax) / 2, (outMin + outMax) / 2;
      if x <= inMid {
        MapStaysBetween(x, inMin, inMid, outMin, outMid);
      } else {
        MapStaysBetween(x, inMid + 1, inMax, outMid, outMax);
      }
    }
  }

  /** Rising outputs give a monotone map, falling outputs an antitone one. */
  lemma {:induction false} MapMonotone(x: int, y: int, inMin: int, inMax: int, outMin: int, outMax: int)
    requires x <= y
    ensures outMin <= outMax ==>
      MapLine(x, inMin, inMax, outMin, outMax) <= MapLine(y, inMin, inMax, outMin, outMax)
    ensures outMin >= outMax ==>
      MapLine(x, inMin, inMax, outMin, outMax) >= MapLine(y, inMin, inMax, outMin, outMax)
    decreases Max(inMax - inMin, 0)
  {
    MapStaysBetween(x, inMin, inMax, outMin, outMax);
    MapStaysBetween(y, inMin, inMax, outMin, outMax);
    if inMin < x && y < inMax && outMin != outMax {
      var inMid, outMid := (inMin + inMax) / 2, (outMin + outMax) / 2;
      if y <= inMid {
        MapMonotone(x, y, inMin, inMid, outMin, outMid);
      } else if x > inMid {
        MapMonotone(x, y, inMid + 1, inMax, outMid, outMax);
      } else {
        MapStaysBetween(x, inMin, inMid, outMin, outMid);
        MapStaysBetween(y, inMid + 1, inMax, outMid, outMax);
      }
    }
  }

  /** At most floor(log2(inMax - inMin)) halvings. */
  lemma {:induction false} MapHalvingsBounded(x: int, inMin: int, inMax: int, outMin: int, outMax: int)
    requires inMin < inMax
    ensures Pow2(MapHalvings(x, inMin, inMax, outMin, outMax)) <= inMax - inMin
    decreases inMax - inMin
  {
    if inMin < x < inMax && outMin != outMax {
      var inMid, outMid := (inMin + inMax) / 2, (outMin + outMax) / 2;
      if x <= inMid {
        MapHalvingsBounded(x, inMin, inMid, outMin, outMid);
      } else {
        MapHalvingsBounded(x, inMid + 1, inMax, outMid, outMax);
      }
    }
  }

  // ----- how far the map is from the straight line -----

  /** Signed distance of (x, y) from the line through (a, p) that rises by `rise` over
      `width`, times `width`. */
  function OffLine(x: int, y: int, a: int, p: int, width: int, rise: int): int { (y - p) * width - (x - a) * rise }

  function Magnitude(x: int): nat { if x < 0 then -x else x }

  /** Both ends of the current ranges are near the line. */
  predicate EndsNear(inMin: int, inMax: int, outMin: int, outMax: int, a: int, p: int, width: int, rise: int, e: int) {
    2 * Magnitude(OffLine(inMin, outMin, a, p, width, rise)) <= e &&
    2 * Magnitude(OffLine(inMax, outMax, a, p, width, rise)) <= e
  }

  /** Twice the floored midpoint of two points is off by what the points are, less at
      most one width and one rise; one place further right, by one rise more. */
  lemma MidpointOff(x0: int, x1: int, y0: int, y1: int, a: int, p: int, width: int, rise: int)
    ensures var dx, dy := (x0 + x1) % 2, (y0 + y1) % 2;
      var mid := OffLine((x0 + x1) / 2, (y0 + y1) / 2, a, p, width, rise);
      2 * mid == OffLine(x0, y0, a, p, width, rise) + OffLine(x1, y1, a, p, width, rise) - dy * width + dx * rise &&
      OffLine((x0 + x1) / 2 + 1, (y0 + y1) / 2, a, p, width, rise) == mid - rise
  {
    var mx, my, dx, dy := (x0 + x1) / 2, (y0 + y1) / 2, (x0 + x1) % 2, (y0 + y1) % 2;
    assert 2 * mx == x0 + x1 - dx && 2 * my == y0 + y1 - dy;
    calc {
      2 * ((my - p) * width - (mx - a) * rise);
      (2 * my - 2 * p) * width - (2 * mx - 2 * a) * rise;
      (y0 + y1 - dy - 2 * p) * width - (x0 + x1 - dx - 2 * a) * rise;
      (y0 - p) * width + (y1 - p) * width - dy * width - (x0 - a) * rise - (x1 - a) * rise + dx * rise;
    }
  }

  lemma HalvesNear(inMin: int, inMax: int, outMin: int, outMax: int, a: int, p: int, width: int, rise: int, e: int)
    requires width > 0 && EndsNear(inMin, inMax, outMin, outMax, a, p, width, rise, e)
    ensures var inMid, outMid, f := (inMin + inMax) / 2, (outMin + outMax) / 2, e + 2 * Magnitude(rise) + width;
      EndsNear(inMin, inMid, outMin, outMid, a, p, width, rise, f) &&
      EndsNear(inMid + 1, inMax, outMid, outMax, a, p, width, rise, f)
  {
    hide OffLine;
    MidpointOff(inMin, inMax, outMin, outMax, a, p, width, rise);
    var dx, dy := (inMin + inMax) % 2, (outMin + outMax) % 2;
    NoneOrOnce(dx, rise);
    NoneOrOnce(dy, width);
    MiddleBounded(OffLine(inMin, outMin, a, p, width, rise), OffLine(inMax, outMax, a, p, width, rise),
      OffLine((inMin + inMax) / 2, (outMin + outMax) / 2, a, p, width, rise), rise, width, dx * rise, dy * width, e);
  }

  lemma NoneOrOnce(d: int, x: int)
    requires 0 <= d <= 1
    ensures d * x == 0 || d * x == x
  {
  }

  lemma MiddleBounded(low: int, high: int, mid: int, rise: int, width: int, dr: int, dw: int, e: int)
    requires 2 * mid == low + high - dw + dr && width > 0
    requires (dr == 0 || dr == rise) && (dw == 0 || dw == width)
    requires 2 * Magnitude(low) <= e && 2 * Magnitude(high) <= e
    ensures 2 * Magnitude(mid) <= e + 2 * Magnitude(rise) + width
    ensures 2 * Magnitude(mid - rise) <= e + 2 * Magnitude(rise) + width
  {
  }

  /** Between two points at the same height a point on that height is off by no more. */
  lemma FlatNear(x: int, inMin: int, inMax: int, y: int, a: int, p: int, width: int, rise: int)
    requires inMin <= x <= inMax
    ensures Magnitude(OffLine(x, y, a, p, width, rise)) <=
      Max(Magnitude(OffLine(inMin, y, a, p, width, rise)), Magnitude(OffLine(inMax, y, a, p, width, rise)))
  {
    OrderedProducts(inMin - a, x - a, rise);
    OrderedProducts(x - a, inMax - a, rise);
  }

  lemma OrderedProducts(x: int, y: int, r: int)
    requires x <= y
    ensures r >= 0 ==> x * r <= y * r
    ensures r <= 0 ==> x * r >= y * r
  {
  }

  lemma {:induction false} CellNear(x: int, inMin: int, inMax: int, outMin: int, outMax: int,
    a: int, p: int, width: int, rise: int, e: int)
    requires width > 0 && inMin <= x <= inMax && EndsNear(inMin, inMax, outMin, outMax, a, p, width, rise, e)
    ensures var k := MapHalvings(x, inMin, inMax, outMin, outMax);
      2 * Magnitude(OffLine(x, MapLine(x, inMin, inMax, outMin, outMax), a, p, width, rise)) <=
        e + k * (2 * Magnitude(rise) + width)
    decreases inMax - inMin
  {
    hide OffLine;
    if x == inMin || x == inMax {
    } else if outMin == outMax {
      FlatNear(x, inMin, inMax, outMin, a, p, width, rise);
    } else {
      var inMid, outMid, f := (inMin + inMax) / 2, (outMin + outMax) / 2, 2 * Magnitude(rise) + width;
      HalvesNear(inMin, inMax, outMin, outMax, a, p, width, rise, e);
      if x <= inMid {
        CellNear(x, inMin, inMid, outMin, outMid, a, p, width, rise, e + f);
        OneMore(MapHalvings(x, inMin, inMid, outMin, outMid), f);
      } else {
        CellNear(x, inMid + 1, inMax, outMid, outMax, a, p, width, rise, e + f);
        OneMore(MapHalvings(x, inMid + 1, inMax, outMid, outMax), f);
      }
    }
  }

  lemma OneMore(k: nat, f: int)
    ensures (k + 1) * f == k * f + f
  {
  }

  /** (x, y) is within k (2 |rise| + width) / (2 width) of the straight line between the
      two end points, where 2^k is at most the width: for equal ranges, 3/2 per halving. */
  ghost predicate NearLine(x: int, y: int, inMin: int, inMax: int, outMin: int, outMax: int) {
    var width, rise := inMax - inMin, outMax - outMin;
    exists k: nat :: Pow2(k) <= width &&
      2 * Magnitude(OffLine(x, y, inMin, outMin, width, rise)) <= k * (2 * Magnitude(rise) + width)
  }

  lemma MapNearLine(x: int, inMin: int, inMax: int, outMin: int, outMax: int)
    requires inMin < inMax && inMin <= x <= inMax
    ensures NearLine(x, MapLine(x, inMin, inMax, outMin, outMax), inMin, inMax, outMin, outMax)
  {
    var k := MapHalvings(x, inMin, inMax, outMin, outMax);
    MapHalvingsBounded(x, inMin, inMax, outMin, outMax);
    assert OffLine(inMax, outMax, inMin, outMin, inMax - inMin, outMax - outMin) == 0;
    CellNear(x, inMin, inMax, outMin, outMax, inMin, outMin, inMax - inMin, outMax - outMin, 0);
    assert Pow2(k) <= inMax - inMin;
  }

  lemma MapMiddle(inMin: int, inMax: int, outMin: int, outMax: int)
    requires inMin + 1 < inMax
    ensures var inMid, outMid := (inMin + inMax) / 2, (outMin + outMax) / 2;
      MapLine(inMid, inMin, inMax, outMin, outMax) == outMid &&
      (inMid + 1 < inMax ==> MapLine(inMid + 1, inMin, inMax, outMin, outMax) == outMid)
  {
  }

  /** Exact at the middle: both inputs beside the midpoint map to the middle output,
      and the middle of either half to the middle of its outputs. */
  lemma MapMiddles(inMin: int, inMax: int, outMin: int, outMax: int)
    requires inMin + 8 <= inMax
    ensures var inMid, outMid := (inMin + inMax) / 2, (outMin + outMax) / 2;
      MapLine(inMid, inMin, inMax, outMin, outMax) == outMid == MapLine(inMid + 1, inMin, inMax, outMin, outMax) &&
      MapLine((inMin + inMid) / 2, inMin, inMax, outMin, outMax) == (outMin + outMid) / 2 &&
      MapLine((inMid + 1 + inMax) / 2, inMin, inMax, outMin, outMax) == (outMid + outMax) / 2
  {
    var inMid, outMid := (inMin + inMax) / 2, (outMin + outMax) / 2;
    MapMiddle(inMin, inMax, outMin, outMax);
    MapMiddle(inMin, inMid, outMin, outMid);
    MapMiddle(inMid + 1, inMax, outMid, outMax);
  }

  // ----- delay on a free-running down-counter -----

  /** `samples` are readings of a down-counter of `period` states, taken when
      `elapsed` counts have passed since some common origin. */
  ghost predicate CounterReads(samples: seq<U32>, start: int, elapsed: seq<nat>, period: nat) {
    period > 0 && |samples| == |elapsed| &&
    (forall i :: 0 <= i < |samples| ==> samples[i] == (start - elapsed[i]) % period) &&
    (forall i :: 0 < i < |samples| ==> elapsed[i - 1] <= elapsed[i] < elapsed[i - 1] + period)
  }

  lemma MaskAfterWrap(x: int, bits: nat)
    requires bits <= 32
    ensures Wrap32(x) % Pow2(bits) == x % Pow2(bits)
  {
    var period, cofactor := Pow2(bits), Pow2(32 - bits);
    assert period * cofactor == 0x1_0000_0000 by {
      Pow2Adds(bits, 32 - bits);
      Pow2Of32();
    }
    var k := -(x / 0x1_0000_0000);
    assert Wrap32(x) == x + k * 0x1_0000_0000;
    Regroup(k, cofactor, period);
    ModShift(x, period, k * cofactor);
  }

  lemma Regroup(a: int, b: int, c: int)
    ensures (a * b) * c == a * (c * b)
  {
  }

  /** The masked difference of two reads less than one period apart is the true
      number of counts between them. */
  lemma MaskedDifference(prev: int, now: int, start: int, before: nat, after: nat, bits: nat)
    requires bits <= 32
    requires prev == (start - before) % Pow2(bits) && now == (start - after) % Pow2(bits)
    requires before <= after < before + Pow2(bits)
    ensures Wrap32(prev - now) % Pow2(bits) == after - before
  {
    hide Pow2;
    hide Wrap32;
    MaskAfterWrap(prev - now, bits);
    RemainderDifference(start - before, start - after, Pow2(bits));
  }

  lemma RemainderDifference(x: int, y: int, d: int)
    requires d > 0
    requires 0 <= x - y < d
    ensures (x % d - y % d) % d == x - y
  {
    var k := y / d - x / d;
    assert (y / d) * d - (x / d) * d == k * d;
    assert x % d - y % d == (x - y) + k * d;
    ModShift(x - y, d, k);
    ModUnique(x - y, d, 0, x - y);
  }

  /** `delay_micros_on` over a given stream of reads: the index of the read at
      which it returns, or nothing if the stream ends first. `mask` is
      2^bits - 1, so `& mask` is the remainder modulo 2^bits. */
  method DelayMicros(us: U32, countsPerUs: U32, bits: nat, samples: seq<U32>, ghost start: int, ghost elapsed: seq<nat>)
    returns (returnedAt: Option<nat>)
    requires bits <= 32 && |samples| > 0
    requires CounterReads(samples, start, elapsed, Pow2(bits))
    ensures returnedAt.Some? ==>
      1 <= returnedAt.value < |samples| &&
      elapsed[returnedAt.value] - elapsed[0] >= us * countsPerUs &&
      forall i :: 1 <= i < returnedAt.value ==> elapsed[i] - elapsed[0] < us * countsPerUs
    ensures returnedAt.None? ==>
      forall i :: 1 <= i < |samples| ==> elapsed[i] - elapsed[0] < us * countsPerUs
  {
    assert us * countsPerUs <= 0xFFFF_FFFF * 0xFFFF_FFFF by {
      ProductBelow(us, countsPerUs, 0xFFFF_FFFF, 0xFFFF_FFFF);
    }
    var remaining: U64 := us * countsPerUs;
    var prev: int := samples[0];
    var i := 1;
    while i < |samples|
      invariant 1 <= i <= |samples|
      invariant prev == samples[i - 1] && elapsed[0] <= elapsed[i - 1]
      invariant remaining == Max(us * countsPerUs - (elapsed[i - 1] - elapsed[0]), 0)
      invariant i > 1 ==> remaining > 0
      invariant forall j :: 1 <= j < i ==> elapsed[j] - elapsed[0] < us * countsPerUs
    {
      var now: int := samples[i];
      MaskedDifference(prev, now, start, elapsed[i - 1], elapsed[i], bits);
      remaining := SaturatingSub(remaining, Wrap32(prev - now) % Pow2(bits));
      prev := now;
      if remaining == 0 {
        return Some(i);
      }
      i := i + 1;
    }
    return None;
  }
}
