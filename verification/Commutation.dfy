/** Six-step commutation and the running interval sum (rm32/src/commutation.rs). */
module Commutation {
  import opened Words
  import Platform

  /** The whole state as a value: what the class's methods are specified by. */
  datatype Sector = Sector(step: nat, forward: bool, rising: bool, desyncCheck: bool, intervals: seq<U16>, sum: int)

  predicate IsStep(step: int) { 1 <= step <= 6 }

  function Sum6(a: nat, b: nat, c: nat, d: nat, e: nat, f: nat): nat { a + b + c + d + e + f }

  function SumOf(intervals: seq<U16>): (sum: nat)
    requires |intervals| == 8
    ensures sum <= 6 * 65535
  {
    Sum6(intervals[0], intervals[1], intervals[2], intervals[3], intervals[4], intervals[5])
  }

  lemma ReplacedSlot(intervals: seq<U16>, k: nat, interval: U16)
    requires |intervals| == 8 && k < 6
    ensures intervals[k] <= SumOf(intervals)
    ensures SumOf(intervals[k := interval]) == SumOf(intervals) - intervals[k] + interval
  {
    if k == 0 {} else if k == 1 {} else if k == 2 {} else if k == 3 {} else if k == 4 {} else {}
  }

  predicate Consistent(c: Sector) {
    IsStep(c.step) && |c.intervals| == 8 && c.intervals[6] == 0 && c.intervals[7] == 0 &&
    c.sum == SumOf(c.intervals)
  }

  const Initial := Sector(1, true, true, false, [0, 0, 0, 0, 0, 0, 0, 0], 0)

  predicate Odd(step: int) { step % 2 == 1 }

  function Next(step: int, forward: bool): (n: int)
    requires IsStep(step)
    ensures IsStep(n)
  {
    if forward then (if step == 6 then 1 else step + 1) else (if step == 1 then 6 else step - 1)
  }

  predicate Wraps(step: int, forward: bool) { step == if forward then 6 else 1 }

  /** Crossing polarity of a step driven in a direction. */
  predicate RisingFor(step: int, forward: bool) { Odd(step) == forward }

  function Advanced(c: Sector): Sector
    requires IsStep(c.step)
  {
    var n := Next(c.step, c.forward);
    c.(step := n, rising := RisingFor(n, c.forward), desyncCheck := c.desyncCheck || Wraps(c.step, c.forward))
  }

  function Recorded(c: Sector, interval: U16): Sector
    requires IsStep(c.step) && |c.intervals| == 8
  {
    c.(intervals := c.intervals[c.step - 1 := interval], sum := c.sum - c.intervals[c.step - 1] + interval)
  }

  function StepSet(c: Sector, v: U8): Sector {
    var step := if v < 1 then 1 else if v > 6 then 6 else v;
    c.(step := step, rising := RisingFor(step, c.forward))
  }

  class Commutation {
    var step: U8
    var forward: bool
    var rising: bool
    var desyncCheck: bool
    const intervals: array<U16>
    var intervalSum: U32

    ghost function View(): Sector
      reads this, intervals
    {
      Sector(step, forward, rising, desyncCheck, intervals[..], intervalSum)
    }

    ghost predicate Valid()
      reads this, intervals
    {
      Consistent(View())
    }

    constructor ()
      ensures View() == Initial && Valid() && fresh(intervals)
    {
      step, forward, rising, desyncCheck, intervalSum := 1, true, true, false, 0;
      intervals := new U16[8](_ => 0);
    }

    /** The subtraction stays unsigned: the slot being replaced is part of the sum. */
    method RecordInterval(timerHz: nat, commutationInterval: U16) returns (eComTime: I32)
      requires Valid() && Platform.SupportedTimer(timerHz)
      modifies this`intervalSum, intervals
      ensures Valid() && View() == Recorded(old(View()), commutationInterval)
      ensures eComTime == Platform.SixIntervalsToUs(timerHz, SumOf(intervals[..]))
    {
      var k := Wrap8(step - 1) % 8;
      assert k == step - 1;
      var previous := intervals[k];
      ReplacedSlot(intervals[..], k, commutationInterval);
      intervals[k] := commutationInterval;
      var without: U32 := intervalSum - previous;
      intervalSum := without + commutationInterval;
      assert intervals[..] == old(intervals[..])[k := commutationInterval];
      return Platform.SixIntervalsToUs(timerHz, intervalSum);
    }

    method Advance() returns (newStep: U8)
      requires Valid()
      modifies this`step, this`rising, this`desyncCheck
      ensures Valid() && View() == Advanced(old(View())) && newStep == step
    {
      if forward {
        step := step + 1;
        if step > 6 {
          step := 1;
          desyncCheck := true;
        }
        rising := step % 2 != 0;
      } else {
        step := step - 1;
        if step < 1 {
          step := 6;
          desyncCheck := true;
        }
        rising := step % 2 == 0;
      }
      return step;
    }

    method SetStep(v: U8)
      requires Valid()
      modifies this`step, this`rising
      ensures Valid() && View() == StepSet(old(View()), v)
    {
      var clamped: U8 := Max(1, Min(v, 6));
      step := clamped;
      rising := if forward then clamped % 2 != 0 else clamped % 2 == 0;
    }

    method SetForward(v: bool)
      requires Valid()
      modifies this`forward
      ensures Valid() && View() == old(View()).(forward := v)
    {
      forward := v;
    }

    method SetDesyncCheck(v: bool)
      requires Valid()
      modifies this`desyncCheck
      ensures Valid() && View() == old(View()).(desyncCheck := v)
    {
      desyncCheck := v;
    }
  }

  // ----- every run of the operations -----

  datatype Op = Advance | Record(interval: U16) | SetStep(v: U8) | SetForward(b: bool) | SetDesync(b: bool)

  function Apply(c: Sector, op: Op): (r: Sector)
    requires Consistent(c)
    ensures Consistent(r)
  {
    ReplacedSlot(c.intervals, c.step - 1, if op.Record? then op.interval else 0);
    match op
    case Advance => Advanced(c)
    case Record(interval) => Recorded(c, interval)
    case SetStep(v) => StepSet(c, v)
    case SetForward(b) => c.(forward := b)
    case SetDesync(b) => c.(desyncCheck := b)
  }

  function After(ops: seq<Op>): (c: Sector)
    ensures Consistent(c)
  {
    if ops == [] then Initial else Apply(After(ops[..|ops| - 1]), ops[|ops| - 1])
  }

  /** The interval last recorded while on `step`; 0 before the first. */
  function Latest(ops: seq<Op>, step: int): U16 {
    if ops == [] then 0
    else
      var before, op := ops[..|ops| - 1], ops[|ops| - 1];
      if op.Record? && After(before).step == step then op.interval else Latest(before, step)
  }

  /** The direction in force when the step last changed. */
  function DirectionAtStep(ops: seq<Op>): bool {
    if ops == [] then true
    else
      var before, op := ops[..|ops| - 1], ops[|ops| - 1];
      if op.Advance? || op.SetStep? then After(before).forward else DirectionAtStep(before)
  }

  lemma ApplySlot(c: Sector, op: Op, step: int)
    requires Consistent(c) && IsStep(step)
    ensures Apply(c, op).intervals[step - 1] ==
      if op.Record? && c.step == step then op.interval else c.intervals[step - 1]
  {
    hide SumOf;
  }

  lemma {:induction false} SlotsHoldLatest(ops: seq<Op>, step: int)
    requires IsStep(step)
    ensures After(ops).intervals[step - 1] == Latest(ops, step)
  {
    hide Apply;
    hide SumOf;
    if ops != [] {
      SlotsHoldLatest(ops[..|ops| - 1], step);
      ApplySlot(After(ops[..|ops| - 1]), ops[|ops| - 1], step);
    }
  }

  /** In every run the stored sum is the sum of the latest interval of each
      sector, and at 2 MHz the period and average published from it are
      (sum + 4) / 2 microseconds and floor((sum + 4) / 6) ticks. */
  lemma SumOfLatestIntervals(ops: seq<Op>)
    ensures var sum := Sum6(Latest(ops, 1), Latest(ops, 2), Latest(ops, 3), Latest(ops, 4), Latest(ops, 5),
      Latest(ops, 6));
      After(ops).sum == sum &&
      Platform.SixIntervalsToUs(2_000_000, sum) == (sum + 4) / 2 &&
      Platform.EComUsToAvgTicks(2_000_000, Platform.SixIntervalsToUs(2_000_000, sum)) == (sum + 4) / 6
  {
    hide After;
    hide Latest;
    hide Apply;
    SlotsHoldLatest(ops, 1);
    SlotsHoldLatest(ops, 2);
    SlotsHoldLatest(ops, 3);
    SlotsHoldLatest(ops, 4);
    SlotsHoldLatest(ops, 5);
    SlotsHoldLatest(ops, 6);
    Platform.AverageAt2MHz(After(ops).sum);
  }

  /** `rising` follows the direction at the last step change, so it fits the
      current direction exactly when no later call changed it. */
  lemma {:induction false} RisingIsFromLastStepChange(ops: seq<Op>)
    ensures After(ops).rising == RisingFor(After(ops).step, DirectionAtStep(ops))
    ensures (After(ops).rising == RisingFor(After(ops).step, After(ops).forward) <==>
      DirectionAtStep(ops) == After(ops).forward)
  {
    if ops != [] { RisingIsFromLastStepChange(ops[..|ops| - 1]); }
  }

  // ----- one electrical turn -----

  /** `count` commutations, each followed by the recording of its interval. */
  function Turn(c: Sector, recorded: seq<U16>): (r: Sector)
    requires Consistent(c)
    ensures Consistent(r) && r.forward == c.forward
  {
    if recorded == [] then c
    else
      var last := |recorded| - 1;
      Apply(Apply(Turn(c, recorded[..last]), Advance), Record(recorded[last]))
  }

  /** The step `count` advances away. */
  function StepAfter(step: int, forward: bool, count: nat): (n: int)
    requires IsStep(step) && count <= 6
    ensures IsStep(n)
  {
    if forward then (if step + count <= 6 then step + count else step + count - 6)
    else (if count < step then step - count else step - count + 6)
  }

  /** One commutation writes its own slot and no other. */
  lemma OneCommutation(c: Sector, interval: U16)
    requires Consistent(c)
    ensures var r := Apply(Apply(c, Advance), Record(interval));
      r.step == Next(c.step, c.forward) && r.intervals == c.intervals[r.step - 1 := interval]
  {
  }

  lemma StepsDiffer(step: int, forward: bool, a: nat, b: nat)
    requires IsStep(step) && 1 <= a < b <= 6
    ensures StepAfter(step, forward, a) != StepAfter(step, forward, b)
  {
  }

  lemma {:induction false} TurnStep(c: Sector, recorded: seq<U16>)
    requires Consistent(c) && |recorded| <= 6
    ensures Turn(c, recorded).step == StepAfter(c.step, c.forward, |recorded|)
  {
    hide SumOf;
    hide Apply;
    if recorded != [] {
      var last := |recorded| - 1;
      TurnStep(c, recorded[..last]);
      OneCommutation(Turn(c, recorded[..last]), recorded[last]);
      assert Next(StepAfter(c.step, c.forward, last), c.forward) == StepAfter(c.step, c.forward, last + 1);
    }
  }

  /** Of any six advances one way exactly one raises the desync flag. */
  lemma OneWrapPerTurn(step: int, forward: bool)
    requires IsStep(step)
    ensures |set k: nat | k < 6 && Wraps(StepAfter(step, forward, k), forward)| == 1
  {
    var k := if forward then 6 - step else step - 1;
    assert (set j: nat | j < 6 && Wraps(StepAfter(step, forward, j), forward)) == {k};
  }

  /** The slots after recording on the steps that follow `step`. */
  function Filled(slots: seq<U16>, step: int, forward: bool, recorded: seq<U16>): (r: seq<U16>)
    requires IsStep(step) && |slots| == 8 && |recorded| <= 6
    ensures |r| == 8
  {
    if recorded == [] then slots
    else
      var last := |recorded| - 1;
      Filled(slots, step, forward, recorded[..last])[StepAfter(step, forward, |recorded|) - 1 := recorded[last]]
  }

  lemma {:induction false} TurnFills(c: Sector, recorded: seq<U16>)
    requires Consistent(c) && |recorded| <= 6
    ensures Turn(c, recorded).intervals == Filled(c.intervals, c.step, c.forward, recorded)
  {
    if recorded != [] {
      var last := |recorded| - 1;
      TurnFills(c, recorded[..last]);
      TurnStep(c, recorded);
      OneCommutation(Turn(c, recorded[..last]), recorded[last]);
    }
  }

  lemma {:induction false} FilledSlot(slots: seq<U16>, step: int, forward: bool, recorded: seq<U16>, j: nat)
    requires IsStep(step) && |slots| == 8 && 1 <= j <= |recorded| <= 6
    ensures Filled(slots, step, forward, recorded)[StepAfter(step, forward, j) - 1] == recorded[j - 1]
  {
    var last := |recorded| - 1;
    if j <= last {
      FilledSlot(slots, step, forward, recorded[..last], j);
      StepsDiffer(step, forward, j, last + 1);
    }
  }

  /** Six advances visit every slot once. */
  lemma EverySlotVisited(slots: seq<U16>, step: int, forward: bool)
    requires IsStep(step) && |slots| == 8
    ensures SumOf(slots) == Sum6(
      slots[StepAfter(step, forward, 1) - 1], slots[StepAfter(step, forward, 2) - 1],
      slots[StepAfter(step, forward, 3) - 1], slots[StepAfter(step, forward, 4) - 1],
      slots[StepAfter(step, forward, 5) - 1], slots[StepAfter(step, forward, 6) - 1])
  {
    if step == 1 {} else if step == 2 {} else if step == 3 {} else if step == 4 {} else if step == 5 {} else {}
  }

  /** After six commutations in one direction from any state, the motor is back
      on its sector and the sum is that of exactly the six recorded intervals. */
  lemma FullTurnAverages(c: Sector, recorded: seq<U16>)
    requires Consistent(c) && |recorded| == 6
    ensures Turn(c, recorded).step == c.step
    ensures Turn(c, recorded).sum ==
      Sum6(recorded[0], recorded[1], recorded[2], recorded[3], recorded[4], recorded[5])
  {
    TurnStep(c, recorded);
    TurnFills(c, recorded);
    FilledSum(c.intervals, c.step, c.forward, recorded);
  }

  lemma FilledSum(slots: seq<U16>, step: int, forward: bool, recorded: seq<U16>)
    requires IsStep(step) && |slots| == 8 && |recorded| == 6
    ensures SumOf(Filled(slots, step, forward, recorded)) ==
      Sum6(recorded[0], recorded[1], recorded[2], recorded[3], recorded[4], recorded[5])
  {
    EverySlotVisited(Filled(slots, step, forward, recorded), step, forward);
    FilledSlot(slots, step, forward, recorded, 1);
    FilledSlot(slots, step, forward, recorded, 2);
    FilledSlot(slots, step, forward, recorded, 3);
    FilledSlot(slots, step, forward, recorded, 4);
    FilledSlot(slots, step, forward, recorded, 5);
    FilledSlot(slots, step, forward, recorded, 6);
  }
}
