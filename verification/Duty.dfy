/** Duty cycle and ramp control (rm32/src/control/state.rs, `DutyState`). */
module Duty {
  import opened Words
  import Platform
  import FastMath
  import Functions

  const DSHOT_MAX_THROTTLE: nat := 2047
  const THROTTLE_MIN_SIGNAL: nat := 47
  const SINE_SLOW_STEP_THROTTLE: nat := 137
  const DUTY_SCALE_MAX: nat := 2000
  const STARTUP_ZC_BASE: nat := 30
  const RAMP_VOLTAGE_LOW_CV: int := 800
  const RAMP_VOLTAGE_HIGH_CV: int := 2200
  const RAMP_VOLTAGE_CHANGE_MAX: int := 10
  const RAMP_VOLTAGE_CHANGE_MIN: int := 1
  const RAMP_STARTUP_THRESHOLD: nat := 150

  datatype Duty = Duty(
    cycle: U16, maximum: U16, last: U16, minStartup: U16, startupMax: U16, minimum: U16,
    maxChange: U8, rampCount: U16, rampDivider: U8, rampStartup: U8, rampLowRpm: U8, rampHighRpm: U8,
    sineOutputsOn: bool, activeBrakeOn: bool)

  /** What the clamp in `compute_setpoint` needs. */
  predicate Configured(d: Duty) { d.minStartup <= d.startupMax }

  function SaturatingAdd16(a: U16, b: U16): (s: U16) { if a + b > 65535 then 65535 else a + b }

  function SaturatingTriple(a: U8): (t: U8) { if 3 * a > 255 then 255 else 3 * a }

  function SetpointRange(d: Duty, sineStart: bool): (int, int) {
    if sineStart then (SINE_SLOW_STEP_THROTTLE, Min(SaturatingAdd16(d.minimum, 40), DUTY_SCALE_MAX))
    else (THROTTLE_MIN_SIGNAL, d.minimum)
  }

  /** `STARTUP_ZC_BASE >> min(stall_protection, 5)`. */
  function StartupWindow(stallProtection: U8): nat {
    if stallProtection == 0 then 30 else if stallProtection == 1 then 15 else if stallProtection == 2 then 7
    else if stallProtection == 3 then 3 else if stallProtection == 4 then 1 else 0
  }

  lemma StartupWindowIsShift(stallProtection: U8)
    ensures StartupWindow(stallProtection) == STARTUP_ZC_BASE / Pow2(Min(stallProtection, 5))
  {
    assert Pow2(1) == 2 && Pow2(2) == 4 && Pow2(3) == 8 && Pow2(4) == 16 && Pow2(5) == 32;
    var k := Min(stallProtection, 5);
    if k == 0 {} else if k == 1 {} else if k == 2 {} else if k == 3 {} else if k == 4 {} else {}
  }

  function MappedThrottle(d: Duty, input: U16, sineStart: bool): (m: U16) {
    var (inMin, dutyMin) := SetpointRange(d, sineStart);
    Functions.MapStaysBetween(input, inMin, DSHOT_MAX_THROTTLE, dutyMin, DUTY_SCALE_MAX);
    Functions.MapLine(input, inMin, DSHOT_MAX_THROTTLE, dutyMin, DUTY_SCALE_MAX)
  }

  function Setpoint(d: Duty, input: U16, zeroCrosses: nat, stallProtection: U8, sineStart: bool): (s: U16)
    requires Configured(d)
  {
    var mapped := MappedThrottle(d, input, sineStart);
    if zeroCrosses < StartupWindow(stallProtection) then Max(d.minStartup, Min(mapped, d.startupMax)) else mapped
  }

  /** Without sine start the mapped throttle is within 15 duty steps of the straight line
      from (47, minimum) to (2047, 2000), and monotone in the throttle either way. */
  lemma ThrottleNearLine(d: Duty, input: U16)
    requires d.minimum <= DUTY_SCALE_MAX && THROTTLE_MIN_SIGNAL <= input <= DSHOT_MAX_THROTTLE
    ensures Functions.Magnitude(
      (MappedThrottle(d, input, false) as int - d.minimum as int) * 2000 -
      (input as int - 47) * (2000 - d.minimum as int)) <= 30000
  {
    var y := MappedThrottle(d, input, false);
    Functions.MapNearLine(input, 47, 2047, d.minimum, 2000);
    var k: nat :| Pow2(k) <= 2000 &&
      2 * Functions.Magnitude(Functions.OffLine(input, y, 47, d.minimum, 2000, 2000 - d.minimum as int)) <=
        k * (2 * Functions.Magnitude(2000 - d.minimum as int) + 2000);
    TenHalvings(k);
    ProductBelow(k, 2 * Functions.Magnitude(2000 - d.minimum as int) + 2000, 10, 6000);
  }

  lemma TenHalvings(k: nat)
    requires Pow2(k) <= 2000
    ensures k <= 10
  {
    Pow2Of11();
    if k > 10 { Pow2Monotone(11, k); }
  }

  lemma Pow2Of11()
    ensures Pow2(11) == 0x800
  {
    assert Pow2(8) == 0x100;
    Pow2Adds(8, 3);
  }

  /** More throttle never means a lower setpoint. */
  lemma SetpointMonotone(d: Duty, low: U16, high: U16, zeroCrosses: nat, stallProtection: U8, sineStart: bool)
    requires Configured(d) && d.minimum <= DUTY_SCALE_MAX && low <= high
    ensures Setpoint(d, low, zeroCrosses, stallProtection, sineStart) <=
      Setpoint(d, high, zeroCrosses, stallProtection, sineStart)
  {
    var (inMin, dutyMin) := SetpointRange(d, sineStart);
    Functions.MapMonotone(low, high, inMin, DSHOT_MAX_THROTTLE, dutyMin, DUTY_SCALE_MAX);
    hide Functions.MapLine;
  }

  /** The start-up clamp is on for the first 30, 15, 7, 3, 1 or 0 crossings: exactly while
      (crossings + 1) 2^min(stall protection, 5) is at most 30. Then the setpoint is the
      mapped throttle brought into the start-up range, afterwards the mapped throttle. */
  lemma StartupClampWindow(d: Duty, input: U16, zeroCrosses: nat, stallProtection: U8, sineStart: bool)
    requires Configured(d)
    ensures var s := Setpoint(d, input, zeroCrosses, stallProtection, sineStart);
      var m := MappedThrottle(d, input, sineStart);
      if (zeroCrosses + 1) * Pow2(Min(stallProtection, 5)) <= 30 then
        d.minStartup <= s <= d.startupMax && (d.minStartup <= m <= d.startupMax ==> s == m) &&
        (m < d.minStartup ==> s == d.minStartup) && (m > d.startupMax ==> s == d.startupMax)
      else s == m
  {
    hide MappedThrottle;
    StartupWindowIsShift(stallProtection);
    var p, n := Pow2(Min(stallProtection, 5)), zeroCrosses + 1;
    DivMod(30, p);
    if n <= 30 / p { ProductBelow(n, p, 30 / p, p); } else { ProductBelow(30 / p + 1, p, n, p); }
  }

  /** What the ramp stage reads from the shared state. */
  datatype RampInputs = RampInputs(
    battery: U16, commutationInterval: U32, zeroCrosses: nat, average: U32, voltageBased: bool)

  function VoltageChange(battery: U16): (v: U8)
    ensures RAMP_VOLTAGE_CHANGE_MIN <= v <= RAMP_VOLTAGE_CHANGE_MAX
  {
    Functions.MapStaysBetween(battery, RAMP_VOLTAGE_LOW_CV, RAMP_VOLTAGE_HIGH_CV, RAMP_VOLTAGE_CHANGE_MAX,
      RAMP_VOLTAGE_CHANGE_MIN);
    Functions.MapLine(battery, RAMP_VOLTAGE_LOW_CV, RAMP_VOLTAGE_HIGH_CV, RAMP_VOLTAGE_CHANGE_MAX,
      RAMP_VOLTAGE_CHANGE_MIN)
  }

  /** The largest duty change of a ramping tick. */
  function RampStep(d: Duty, hz: nat, r: RampInputs): U8
    requires Platform.SupportedTimer(hz)
  {
    if r.voltageBased then
      if r.commutationInterval > Platform.UsToTicks(hz, 100) then VoltageChange(r.battery)
      else SaturatingTriple(VoltageChange(r.battery))
    else if r.zeroCrosses < RAMP_STARTUP_THRESHOLD || d.last < RAMP_STARTUP_THRESHOLD then d.rampStartup
    else if r.average > Platform.UsToTicks(hz, 250) then d.rampLowRpm
    else d.rampHighRpm
  }

  lemma TicksAbove(hz: nat, us: U32, count: nat)
    requires Platform.SupportedTimer(hz)
    ensures count > Platform.UsToTicks(hz, us) <==> count * 1_000_000 > us * hz
  {
    DivMod(us * hz, 1_000_000);
  }

  /** Which ramp step a tick takes, in time: the start-up profile up to 150 crossings or a
      duty of 150, then the low-rpm profile while a step takes longer than 250 us and the
      high-rpm one below. A voltage-based ramp takes 10 duty steps at 8 V and less, one at
      22 V and more, and three times as many while a step takes at most 100 us. */
  lemma RampProfile(d: Duty, hz: nat, r: RampInputs)
    requires Platform.SupportedTimer(hz)
    ensures var step := RampStep(d, hz, r);
      (!r.voltageBased && (r.zeroCrosses < 150 || d.last < 150) ==> step == d.rampStartup) &&
      (!r.voltageBased && r.zeroCrosses >= 150 && d.last >= 150 ==>
        step == if r.average as int * 1_000_000 > 250 * hz then d.rampLowRpm else d.rampHighRpm) &&
      (r.voltageBased ==>
        var slow := r.commutationInterval as int * 1_000_000 > 100 * hz;
        (r.battery <= 800 ==> step == if slow then 10 else 30) && (r.battery >= 2200 ==> step == if slow then 1 else 3))
  {
    TicksAbove(hz, 250, r.average);
    TicksAbove(hz, 100, r.commutationInterval);
    hide Platform.UsToTicks;
  }

  /** A higher battery voltage never means a larger step. */
  lemma VoltageStepFalls(d: Duty, hz: nat, r: RampInputs, battery: U16)
    requires Platform.SupportedTimer(hz) && r.voltageBased && r.battery <= battery
    ensures RampStep(d, hz, r.(battery := battery)) <= RampStep(d, hz, r)
  {
    Functions.MapMonotone(r.battery, battery, RAMP_VOLTAGE_LOW_CV, RAMP_VOLTAGE_HIGH_CV,
      RAMP_VOLTAGE_CHANGE_MAX, RAMP_VOLTAGE_CHANGE_MIN);
    hide Functions.MapLine;
  }

  lemma StepIgnoresProgress(d: Duty, hz: nat, r: RampInputs, cycle: U16, count: U16)
    requires Platform.SupportedTimer(hz)
    ensures RampStep(d.(cycle := cycle, rampCount := count), hz, r) == RampStep(d, hz, r)
  {
    hide Functions.MapLine;
  }

  predicate Ramps(d: Duty) { d.rampCount > d.rampDivider }

  /** The `u16` sums wrap in a release build. */
  function Limited(cycle: U16, last: U16, change: U8): (c: U16) {
    var high := Wrap16(last + change);
    var c := if cycle > high then high else cycle;
    if last > Wrap16(c + change) then Wrap16(last - change) else c
  }

  function Ramped(d: Duty, hz: nat, r: RampInputs): Duty
    requires Platform.SupportedTimer(hz)
  {
    if Ramps(d) then
      d.(rampCount := 0, maxChange := RampStep(d, hz, r), cycle := Limited(d.cycle, d.last, RampStep(d, hz, r)))
    else d.(cycle := d.last)
  }

  function Clamped(d: Duty, stallBoost: U16, dutyMaximum: U16, currentLimit: U16): Duty {
    d.(maximum := dutyMaximum, cycle := Min(Min(SaturatingAdd16(d.cycle, stallBoost), dutyMaximum), currentLimit))
  }

  function KickedDown(d: Duty): Duty { d.(last := Min(d.last, d.minStartup / 2)) }

  function Finalized(d: Duty): Duty { d.(last := d.cycle) }

  /** `((cycle * arr) / 2000) + 1`, by shifts and adds; the cast drops high bits. */
  function PwmCompare(cycle: U16, arr: U16): (c: U16)
    ensures c == Wrap16(cycle * arr / 2000 + 1)
  {
    ProductBelow(cycle, arr, 65535, 65535);
    var product: nat := cycle * arr;
    Wrap16(FastMath.Div2000U32(product) + 1)
  }

  /** Strength above 10 saturates to 0. */
  function BrakeCompare(strength: U8, arr: U16): (c: U16)
    ensures c <= arr
    ensures strength <= 10 ==> c == arr - strength * arr / 10
    ensures strength > 10 ==> c == 0
  {
    ProductBelow(strength, arr, 255, 65535);
    var product: nat := strength * arr;
    BrakeScale(strength, arr, product);
    SaturatingSub(arr, FastMath.Div10U32(product))
  }

  lemma BrakeScale(strength: nat, arr: nat, product: nat)
    requires product == strength * arr
    ensures strength <= 10 ==> product / 10 <= arr
    ensures strength > 10 ==> product / 10 >= arr
  {
    if strength <= 10 { ProductBelow(strength, arr, 10, arr); } else { ProductBelow(10, arr, strength, arr); }
  }

  class DutyState {
    var cycle: U16
    var maximum: U16
    var last: U16
    var minStartup: U16
    var startupMax: U16
    var minimum: U16
    var maxChange: U8
    var rampCount: U16
    var rampDivider: U8
    var maxRampStartup: U8
    var maxRampLowRpm: U8
    var maxRampHighRpm: U8
    var sineOutputsOn: bool
    var activeBrakeOn: bool

    ghost function View(): Duty
      reads this
    {
      Duty(cycle, maximum, last, minStartup, startupMax, minimum, maxChange, rampCount, rampDivider,
           maxRampStartup, maxRampLowRpm, maxRampHighRpm, sineOutputsOn, activeBrakeOn)
    }

    method ComputeSetpoint(input: U16, zeroCrosses: nat, stallProtection: U8, sineStart: bool) returns (s: U16)
      requires Configured(View())
      ensures s == Setpoint(View(), input, zeroCrosses, stallProtection, sineStart)
    {
      var inputMin, dutyMin := THROTTLE_MIN_SIGNAL, minimum as int;
      if sineStart {
        inputMin, dutyMin := SINE_SLOW_STEP_THROTTLE, Min(SaturatingAdd16(minimum, 40), DUTY_SCALE_MAX);
      }
      Functions.SmallRangesFit(input, inputMin, DSHOT_MAX_THROTTLE, dutyMin, DUTY_SCALE_MAX);
      var mapped := Functions.Map(input, inputMin, DSHOT_MAX_THROTTLE, dutyMin, DUTY_SCALE_MAX);
      s := mapped;
      StartupWindowIsShift(stallProtection);
      if zeroCrosses < STARTUP_ZC_BASE / Pow2(Min(stallProtection, 5)) {
        s := Max(minStartup, Min(s, startupMax));
      }
    }

    /** The branch that picks `max_change`. */
    method ChooseStep(hz: nat, r: RampInputs)
      requires Platform.SupportedTimer(hz)
      modifies this`maxChange
      ensures maxChange == RampStep(old(View()), hz, r)
      ensures View() == old(View()).(maxChange := maxChange)
    {
      if r.voltageBased {
        Functions.SmallRangesFit(r.battery, RAMP_VOLTAGE_LOW_CV, RAMP_VOLTAGE_HIGH_CV,
                                 RAMP_VOLTAGE_CHANGE_MAX, RAMP_VOLTAGE_CHANGE_MIN);
        var vChange := Functions.Map(r.battery, RAMP_VOLTAGE_LOW_CV, RAMP_VOLTAGE_HIGH_CV,
                                     RAMP_VOLTAGE_CHANGE_MAX, RAMP_VOLTAGE_CHANGE_MIN);
        maxChange := if r.commutationInterval > Platform.UsToTicks(hz, 100) then vChange else SaturatingTriple(vChange);
      } else if r.zeroCrosses < RAMP_STARTUP_THRESHOLD || last < RAMP_STARTUP_THRESHOLD {
        maxChange := maxRampStartup;
      } else if r.average > Platform.UsToTicks(hz, 250) {
        maxChange := maxRampLowRpm;
      } else {
        maxChange := maxRampHighRpm;
      }
    }

    method RampLimit(hz: nat, r: RampInputs)
      requires Platform.SupportedTimer(hz)
      modifies this`cycle, this`rampCount, this`maxChange
      ensures View() == Ramped(old(View()), hz, r)
    {
      hide Wrap16;
      if rampCount > rampDivider {
        rampCount := 0;
        ChooseStep(hz, r);
        StepIgnoresProgress(old(View()), hz, r, cycle, 0);
        var change := maxChange;
        if cycle > Wrap16(last + change) { cycle := Wrap16(last + change); }
        if last > Wrap16(cycle + change) { cycle := Wrap16(last - change); }
      } else {
        cycle := last;
      }
    }

    method ClampCeilings(stallBoost: U16, dutyMaximum: U16, currentLimit: U16)
      modifies this`cycle, this`maximum
      ensures View() == Clamped(old(View()), stallBoost, dutyMaximum, currentLimit)
    {
      cycle := SaturatingAdd16(cycle, stallBoost);
      maximum := dutyMaximum;
      cycle := Min(Min(cycle, maximum), currentLimit);
    }

    method StartMotor()
      modifies this`last
      ensures View() == old(View()).(last := old(minStartup))
    {
      last := minStartup;
    }

    method KickDown()
      modifies this`last
      ensures View() == KickedDown(old(View()))
    {
      last := Min(last, minStartup / 2);
    }

    method Finalize() returns (duty: U16)
      modifies this`last
      ensures View() == Finalized(old(View())) && duty == cycle
    {
      last := cycle;
      return cycle;
    }
  }

  // ----- one tick of the pipeline -----

  /** What one control tick feeds the pipeline. */
  datatype Tick = Tick(
    setpoint: U16, kickDown: bool, ramp: RampInputs, stallBoost: U16, dutyMaximum: U16, currentLimit: U16)

  /** The duty the ramp starts from. */
  function RampOrigin(d: Duty, kickDown: bool): (o: Duty)
    ensures o.last <= d.last && (kickDown ==> 2 * o.last <= d.minStartup)
    ensures o == d.(last := o.last)
  {
    if kickDown then KickedDown(d) else d
  }

  /** kick_down, set_cycle, increment_ramp_count, ramp_limit, clamp_ceilings, finalize. */
  function Piped(d: Duty, hz: nat, t: Tick): Duty
    requires Platform.SupportedTimer(hz)
  {
    var origin := RampOrigin(d, t.kickDown);
    var loaded := origin.(cycle := t.setpoint, rampCount := Wrap16(origin.rampCount + 1));
    Finalized(Clamped(Ramped(loaded, hz, t.ramp), t.stallBoost, t.dutyMaximum, t.currentLimit))
  }

  /** How far a tick may move the duty from this origin: the chosen ramp step on a
      ramping tick, nothing on the others. */
  function StepTaken(origin: Duty, hz: nat, r: RampInputs): nat
    requires Platform.SupportedTimer(hz)
  {
    if Wrap16(origin.rampCount + 1) > origin.rampDivider then RampStep(origin, hz, r) else 0
  }

  /** No ramp step is larger: the configured profiles, or three times the largest
      voltage-based change. */
  function RampBound(d: Duty): nat { Max(30, Max(d.rampStartup, Max(d.rampLowRpm, d.rampHighRpm))) }

  lemma RampStepBounded(d: Duty, hz: nat, r: RampInputs)
    requires Platform.SupportedTimer(hz)
    ensures RampStep(d, hz, r) <= RampBound(d)
  {
  }

  /** A limited duty is within one step of the origin, and is the wanted duty when
      that is already within one step. */
  lemma LimitedNearOrigin(cycle: U16, last: U16, change: U8)
    requires last + 2 * change <= 65535
    ensures last - change <= Limited(cycle, last, change) <= last + change
    ensures last - change <= cycle <= last + change ==> Limited(cycle, last, change) == cycle
    ensures cycle > last + change ==> Limited(cycle, last, change) == last + change
    ensures cycle < last - change ==> Limited(cycle, last, change) == last - change
  {
    NoWrap(last + change);
    var c := if cycle > last + change then last + change else cycle;
    NoWrap(c + change);
    if last > c + change { NoWrap(last - change); }
    hide Wrap16;
  }

  lemma NoWrap(x: int)
    requires 0 <= x < 0x1_0000
    ensures Wrap16(x) == x
  {
  }

  /** The published duty never exceeds either ceiling, nor the ramp origin by more
      than the stall boost plus the step taken; it falls below the origin by no
      more than that step, unless a ceiling makes it. */
  lemma PublishedDutyBounded(d: Duty, hz: nat, t: Tick)
    requires Platform.SupportedTimer(hz) && d.last + 2 * 255 <= 65535
    ensures var p, origin := Piped(d, hz, t), RampOrigin(d, t.kickDown);
      p.last == p.cycle <= Min(t.dutyMaximum, t.currentLimit) &&
      p.cycle <= origin.last + t.stallBoost + StepTaken(origin, hz, t.ramp) &&
      p.cycle >= Min(Min(t.dutyMaximum, t.currentLimit), origin.last - StepTaken(origin, hz, t.ramp)) &&
      StepTaken(origin, hz, t.ramp) <= RampBound(d)
  {
    hide RampStep;
    hide Wrap16;
    var origin := RampOrigin(d, t.kickDown);
    var count := Wrap16(origin.rampCount + 1);
    var loaded := origin.(cycle := t.setpoint, rampCount := count);
    RampStepBounded(origin, hz, t.ramp);
    StepIgnoresProgress(origin, hz, t.ramp, t.setpoint, count);
    if Ramps(loaded) { LimitedNearOrigin(loaded.cycle, loaded.last, RampStep(loaded, hz, t.ramp)); }
    hide Limited;
  }

  /** The duty is the setpoint brought within one step of where the ramp starts, plus the
      boost, under the ceiling. */
  predicate Reaches(duty: U16, from: U16, setpoint: U16, step: nat, boost: U16, ceiling: U16) {
    var near: int :=
      if setpoint > from + step then from + step else if setpoint < from as int - step then from as int - step
      else setpoint;
    duty as int == Min(near + boost, ceiling)
  }

  /** Exactly what one tick publishes. */
  lemma PublishedDutyReaches(d: Duty, hz: nat, t: Tick)
    requires Platform.SupportedTimer(hz) && d.last + 2 * 255 <= 65535
    ensures var p, origin := Piped(d, hz, t), RampOrigin(d, t.kickDown);
      Reaches(p.last, origin.last, t.setpoint, StepTaken(origin, hz, t.ramp), t.stallBoost,
              Min(t.dutyMaximum, t.currentLimit))
  {
    hide RampStep;
    hide Wrap16;
    var origin := RampOrigin(d, t.kickDown);
    var count := Wrap16(origin.rampCount + 1);
    var loaded := origin.(cycle := t.setpoint, rampCount := count);
    StepIgnoresProgress(origin, hz, t.ramp, t.setpoint, count);
    if Ramps(loaded) { LimitedNearOrigin(loaded.cycle, loaded.last, RampStep(loaded, hz, t.ramp)); }
    hide Limited;
  }

  lemma PipedKeepsSettings(d: Duty, hz: nat, t: Tick)
    requires Platform.SupportedTimer(hz)
    ensures SameSettings(d, Piped(d, hz, t))
  {
    hide RampStep;
    hide Limited;
  }

  lemma ProductMonotone(a: nat, b: nat, c: nat)
    requires a <= b
    ensures a * c <= b * c
  {
  }

  /** At full scale or below the compare is floor(duty * arr / 2000) + 1, at most
      arr + 1, and never wraps. */
  lemma CompareWithinPeriod(cycle: U16, arr: U16)
    requires cycle <= DUTY_SCALE_MAX && arr < 65535
    ensures PwmCompare(cycle, arr) == cycle * arr / 2000 + 1
    ensures PwmCompare(cycle, arr) <= arr + 1
  {
    ProductMonotone(cycle, 2000, arr);
    ScaledDown(cycle * arr, arr);
  }

  lemma ScaledDown(product: nat, arr: nat)
    requires product <= 2000 * arr
    ensures product / 2000 <= arr
  {
  }

  // ----- over whole runs -----

  function PipedAll(d: Duty, hz: nat, ticks: seq<Tick>): Duty
    requires Platform.SupportedTimer(hz)
  {
    if ticks == [] then d else Piped(PipedAll(d, hz, ticks[..|ticks| - 1]), hz, ticks[|ticks| - 1])
  }

  /** How many of the ticks ramp. */
  function RampCount(d: Duty, hz: nat, ticks: seq<Tick>): nat
    requires Platform.SupportedTimer(hz)
  {
    if ticks == [] then 0
    else
      var before := PipedAll(d, hz, ticks[..|ticks| - 1]);
      RampCount(d, hz, ticks[..|ticks| - 1]) + (if Wrap16(before.rampCount + 1) > before.rampDivider then 1 else 0)
  }

  function Boosts(ticks: seq<Tick>): nat {
    if ticks == [] then 0 else Boosts(ticks[..|ticks| - 1]) + ticks[|ticks| - 1].stallBoost
  }

  predicate FullScaleTicks(ticks: seq<Tick>) { forall i :: 0 <= i < |ticks| ==> ticks[i].dutyMaximum <= DUTY_SCALE_MAX }

  predicate SameSettings(d: Duty, p: Duty) {
    p.rampDivider == d.rampDivider && p.rampStartup == d.rampStartup && p.rampLowRpm == d.rampLowRpm &&
    p.rampHighRpm == d.rampHighRpm && p.minStartup == d.minStartup && p.startupMax == d.startupMax &&
    p.minimum == d.minimum
  }

  lemma PipedCounts(d: Duty, hz: nat, t: Tick)
    requires Platform.SupportedTimer(hz) && d.rampCount <= d.rampDivider
    ensures var p := Piped(d, hz, t);
      SameSettings(d, p) && p.rampCount == if d.rampCount == d.rampDivider then 0 else d.rampCount + 1
  {
    hide RampStep;
    hide Limited;
  }

  lemma OneMore(k: nat, r: nat)
    ensures (k + 1) * r == k * r + r
  {
  }

  lemma {:induction false} SettingsKept(d: Duty, hz: nat, ticks: seq<Tick>)
    requires Platform.SupportedTimer(hz) && d.rampCount <= d.rampDivider
    ensures SameSettings(d, PipedAll(d, hz, ticks)) && PipedAll(d, hz, ticks).rampCount <= d.rampDivider
  {
    if ticks != [] {
      SettingsKept(d, hz, ticks[..|ticks| - 1]);
      PipedCounts(PipedAll(d, hz, ticks[..|ticks| - 1]), hz, ticks[|ticks| - 1]);
    }
  }

  /** Exactly one tick in every divider + 1 ramps. */
  lemma {:induction false} RampCadence(d: Duty, hz: nat, ticks: seq<Tick>)
    requires Platform.SupportedTimer(hz) && d.rampCount <= d.rampDivider
    ensures var count := PipedAll(d, hz, ticks).rampCount;
      RampCount(d, hz, ticks) * (d.rampDivider as nat + 1) + count == |ticks| + d.rampCount
  {
    if ticks != [] {
      hide Piped;
      hide Wrap16;
      var before, t := ticks[..|ticks| - 1], ticks[|ticks| - 1];
      NoWrap(PipedAll(d, hz, before).rampCount + 1);
      RampCadence(d, hz, before);
      SettingsKept(d, hz, before);
      PipedCounts(PipedAll(d, hz, before), hz, t);
      CadenceStep(RampCount(d, hz, before), d.rampDivider + 1, PipedAll(d, hz, before).rampCount,
        |before| + d.rampCount);
    }
  }

  /** A full turn of the counter is one more multiple of the period. */
  lemma CadenceStep(k: nat, period: nat, count: nat, total: nat)
    requires count < period && k * period + count == total
    ensures if count + 1 == period then (k + 1) * period + 0 == total + 1 else k * period + (count + 1) == total + 1
  {
    OneMore(k, period);
  }

  lemma RampRunStep(d: Duty, b: Duty, hz: nat, t: Tick)
    requires Platform.SupportedTimer(hz) && t.dutyMaximum <= DUTY_SCALE_MAX
    requires b.last <= DUTY_SCALE_MAX && SameSettings(d, b)
    ensures Piped(b, hz, t).last <= DUTY_SCALE_MAX
    ensures Piped(b, hz, t).last <=
      b.last + t.stallBoost + (if Wrap16(b.rampCount + 1) > b.rampDivider then RampBound(d) else 0)
  {
    hide Piped;
    PublishedDutyBounded(b, hz, t);
  }

  /** Over any run of ticks from any start at or below full scale, the duty rises by
      at most one ramp bound per ramping tick plus the boosts given. */
  lemma {:induction false} RampOverRuns(d: Duty, hz: nat, ticks: seq<Tick>)
    requires Platform.SupportedTimer(hz) && FullScaleTicks(ticks)
    requires d.last <= DUTY_SCALE_MAX && d.rampCount <= d.rampDivider
    ensures PipedAll(d, hz, ticks).last <= DUTY_SCALE_MAX
    ensures PipedAll(d, hz, ticks).last <= d.last + RampCount(d, hz, ticks) * RampBound(d) + Boosts(ticks)
  {
    if ticks != [] {
      hide Piped;
      hide RampBound;
      var before, t := ticks[..|ticks| - 1], ticks[|ticks| - 1];
      RampOverRuns(d, hz, before);
      SettingsKept(d, hz, before);
      RampRunStep(d, PipedAll(d, hz, before), hz, t);
      OneMore(RampCount(d, hz, before), RampBound(d));
    }
  }
}
