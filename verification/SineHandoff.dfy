/** Sine startup and its handoff to six-step drive (rm32/src/sine.rs, rm32/src/system.rs,
    rm32/src/control/isr_logic.rs). Main steps the sine angles and publishes a sector;
    the control tick alone consumes it. */
module SineHandoff {
  import opened Words
  import opened ModeWriters
  import opened Control
  import B = Bemf
  import C = Commutation
  import D = Duty
  import Functions
  import G = Gating
  import ControlIsr
  import Platform

  const SINE_CHANGEOVER_STEP: U8 := 5
  const SINE_FAST_STEP_DELAY: U16 := 80
  const SINE_MEDIUM_STEP_DELAY: U16 := 120
  const CHANGEOVER_ZERO_CROSSES: nat := 20

  // ----- sine angles -----

  datatype Positions = Positions(a: int, b: int, c: int)

  predicate Angles(p: Positions) { 0 <= p.a < 360 && 0 <= p.b < 360 && 0 <= p.c < 360 }

  function Turned(x: int, forward: bool): int {
    if forward then (if x - 1 < 0 then 359 else x - 1) else (if x + 1 > 359 then 0 else x + 1)
  }

  function Advanced(p: Positions, forward: bool): Positions {
    Positions(Turned(p.a, forward), Turned(p.b, forward), Turned(p.c, forward))
  }

  /** Turn the whole pattern so that phase A is at zero. */
  function Aligned(p: Positions): Positions { Positions(0, (p.b - p.a) % 360, (p.c - p.a) % 360) }

  function EntryAngles(step: int): Positions {
    var clamped := Max(1, Min(step, 6));
    var a := ((clamped - 1) * 60 + 180) % 360;
    Positions(a, (a + 119) % 360, (a + 239) % 360)
  }

  /** Stepping and aligning keep the angles in range and their separations. */
  lemma PatternIsRigid(p: Positions, forward: bool)
    requires Angles(p)
    ensures Angles(Advanced(p, forward)) && Aligned(Advanced(p, forward)) == Aligned(p)
    ensures Advanced(Advanced(p, forward), !forward) == p
  {
    hide Turned;
    SeparationKept(p.a, p.b, forward);
    SeparationKept(p.a, p.c, forward);
    TurnedBack(p.a, forward);
    TurnedBack(p.b, forward);
    TurnedBack(p.c, forward);
  }

  lemma TurnedBack(x: int, forward: bool)
    requires 0 <= x < 360
    ensures 0 <= Turned(x, forward) < 360 && Turned(Turned(x, forward), !forward) == x
  {
  }

  lemma SeparationKept(a: int, b: int, forward: bool)
    requires 0 <= a < 360 && 0 <= b < 360
    ensures (Turned(b, forward) - Turned(a, forward)) % 360 == (b - a) % 360
  {
  }

  /** Every entry sector gives angles 119 and 239 degrees apart; the first starts at 180
      degrees and each further one is 60 degrees on. */
  lemma EntryPattern(step: int)
    ensures Angles(EntryAngles(step)) && Aligned(EntryAngles(step)) == Positions(0, 119, 239)
    ensures EntryAngles(step).a == 60 * ((Max(1, Min(step, 6)) + 2) % 6)
  {
    EntryTurns(Max(1, Min(step, 6)));
    PatternAt(EntryAngles(step).a);
    hide Aligned;
    hide Angles;
  }

  lemma EntryTurns(sector: int)
    requires 1 <= sector <= 6
    ensures ((sector - 1) * 60 + 180) % 360 == 60 * ((sector + 2) % 6)
  {
  }

  lemma PatternAt(a: int)
    requires 0 <= a < 360
    ensures var p := Positions(a, (a + 119) % 360, (a + 239) % 360);
      Angles(p) && Aligned(p) == Positions(0, 119, 239)
  {
    assert (a + 119) % 360 == if a < 241 then a + 119 else a - 241;
    assert (a + 239) % 360 == if a < 121 then a + 239 else a - 121;
  }

  class PhasePositions {
    var a: int
    var b: int
    var c: int

    ghost function View(): Positions
      reads this
    {
      Positions(a, b, c)
    }

    constructor FromSector(step: U8)
      ensures View() == EntryAngles(step)
    {
      var clamped := Max(1, Min(step, 6));
      var start := ((clamped - 1) * 60 + 180) % 360;
      a, b, c := start, (start + 119) % 360, (start + 239) % 360;
    }

    method Advance(forward: bool)
      modifies this
      ensures View() == Advanced(old(View()), forward)
    {
      if !forward {
        a := a + 1;
        if a > 359 { a := 0; }
        b := b + 1;
        if b > 359 { b := 0; }
        c := c + 1;
        if c > 359 { c := 0; }
      } else {
        a := a - 1;
        if a < 0 { a := 359; }
        b := b - 1;
        if b < 0 { b := 359; }
        c := c - 1;
        if c < 0 { c := 359; }
      }
    }
  }

  // ----- one sine step -----

  datatype StepResult = Continue(delay: U16) | Changeover(interval: U32, step: U8) | Idle

  function Poles(motorPoles: U8): (p: nat)
    ensures p > 0
  {
    if motorPoles == 0 then 14 else motorPoles
  }

  lemma QuotientBounded(n: nat, p: nat)
    requires p > 0
    ensures 0 <= n / p <= n
  {
    DivMod(n, p);
    if n / p > n { ProductBelow(n + 1, 1, n / p, p); }
  }

  /** `n / poles` in microseconds. */
  function PerPole(n: nat, motorPoles: U8): (d: nat)
    ensures d <= n
  {
    QuotientBounded(n, Poles(motorPoles));
    n / Poles(motorPoles)
  }

  function SlowDelay(input: U16, motorPoles: U8): (d: U16)
    ensures d <= 7000
  {
    hide PerPole;
    var high, low := PerPole(7000, motorPoles), PerPole(810, motorPoles);
    Functions.MapStaysBetween(Min(input, 120), 48, 120, high, low);
    Functions.MapLine(Min(input, 120), 48, 120, high, low)
  }

  /** The slow delay falls with the throttle, from 7000 us per pole at 48 and below to
      810 us per pole at 120 and above. */
  lemma SlowDelayFalls(low: U16, high: U16, motorPoles: U8)
    requires low <= high
    ensures SlowDelay(high, motorPoles) <= SlowDelay(low, motorPoles)
    ensures low <= 48 ==> SlowDelay(low, motorPoles) == 7000 / Poles(motorPoles)
    ensures high >= 120 ==> SlowDelay(high, motorPoles) == 810 / Poles(motorPoles)
  {
    PerPoleFalls(motorPoles);
    Functions.MapMonotone(Min(low, 120), Min(high, 120), 48, 120, PerPole(7000, motorPoles), PerPole(810, motorPoles));
  }

  lemma PerPoleFalls(motorPoles: U8)
    ensures PerPole(810, motorPoles) <= PerPole(7000, motorPoles)
  {
    var p := Poles(motorPoles);
    DivMod(810, p);
    DivMod(7000, p);
    if 810 / p > 7000 / p { ProductBelow(7000 / p + 1, p, 810 / p, p); }
  }

  /** Result and new angles. Above the changeover throttle the pattern is aligned
      first, so the changeover comes at once. */
  function SineStepped(p: Positions, input: U16, armed: bool, forward: bool, motorPoles: U8, hz: nat)
    : (StepResult, Positions)
    requires Platform.SupportedTimer(hz)
  {
    if input <= D.THROTTLE_MIN_SIGNAL || !armed then (Idle, p)
    else if input < D.SINE_SLOW_STEP_THROTTLE then (Continue(SlowDelay(input, motorPoles)), Advanced(p, forward))
    else if input <= SINE_CHANGEOVER_THROTTLE then
      (Continue(SINE_MEDIUM_STEP_DELAY), Advanced(p, forward))
    else (Changeover(Platform.UsToTicks(hz, 4500), SINE_CHANGEOVER_STEP), Aligned(Advanced(p, forward)))
  }

  method SlowDelayMapped(input: U16, motorPoles: U8) returns (delay: U16)
    ensures delay == SlowDelay(input, motorPoles)
  {
    hide PerPole;
    var high, low := PerPole(7000, motorPoles), PerPole(810, motorPoles);
    Functions.SmallRangesFit(Min(input, 120), 48, 120, high, low);
    var mapped := Functions.Map(Min(input, 120), 48, 120, high, low);
    return mapped;
  }

  method SineStep(p: PhasePositions, input: U16, armed: bool, forward: bool, motorPoles: U8, hz: nat)
    returns (r: StepResult)
    requires Platform.SupportedTimer(hz)
    modifies p
    ensures (r, p.View()) == SineStepped(old(p.View()), input, armed, forward, motorPoles, hz)
  {
    hide SlowDelay;
    hide Turned;
    r := Idle;
    if input > D.THROTTLE_MIN_SIGNAL && armed {
      p.Advance(forward);
      if input < D.SINE_SLOW_STEP_THROTTLE {
        var delay := SlowDelayMapped(input, motorPoles);
        return Continue(delay);
      }
      if input > SINE_CHANGEOVER_THROTTLE { Align(p); }
      if input > SINE_CHANGEOVER_THROTTLE && p.a == 0 {
        return Changeover(Platform.UsToTicks(hz, 4500), SINE_CHANGEOVER_STEP);
      }
      return Continue(if input > SINE_CHANGEOVER_THROTTLE then SINE_FAST_STEP_DELAY else SINE_MEDIUM_STEP_DELAY);
    }
  }

  method Align(p: PhasePositions)
    modifies p
    ensures p.View() == Aligned(old(p.View()))
  {
    var phaseA := p.a;
    p.a := 0;
    p.b := (p.b - phaseA) % 360;
    p.c := (p.c - phaseA) % 360;
  }

  // ----- main's service call -----

  datatype SineWorld = SineWorld(world: World, positions: Positions)

  predicate SineStopped(w: World) { !w.shared.motor.mode.StepperSine? || w.shared.commands.isrAction.KillAll? }

  /** Brake at sine idle when `brake_on_stop` is 1 and the scaled brake leaves 100 counts. */
  function IdleBrake(c: Settings, arr: U16): bool {
    c.brakeOnStop == 1 && arr - Min(c.dragBrakeStrength * 200 * arr / 2000, arr) >= 100
  }

  function SineEntry(v: SineWorld, c: Settings): SineWorld {
    if v.world.duty.sineOutputsOn then v
    else
      SineWorld(DoSeq(v.world, [TimerOff, MaskIrq, SetDutyAll(0), Latch, AllPwm(c.pwmMode)]).(
                  duty := v.world.duty.(activeBrakeOn := false, sineOutputsOn := true)),
                EntryAngles(v.world.comm.step))
  }

  function ChangeoverPublished(w: World, interval: U32, step: U8): World {
    WithMotor(w, w.shared.motor.(
      commutationInterval := interval, zeroCrosses := CHANGEOVER_ZERO_CROSSES, changeover := step)).(
      duty := w.duty.(sineOutputsOn := false))
  }

  function StepOf(v: SineWorld, motorPoles: U8, hz: nat): (StepResult, Positions)
    requires Platform.SupportedTimer(hz)
  {
    var s := v.world.shared;
    SineStepped(v.positions, s.throttle.adjustedInput, IsArmed(s.motor.mode), s.motor.forward, motorPoles, hz)
  }

  /** `service_sine`, with motor interrupts excluded. */
  function Serviced(v: SineWorld, c: Settings, motorPoles: U8): SineWorld
    requires Supported(c)
  {
    var w := v.world;
    if SineStopped(w) then v.(world := w.(duty := w.duty.(sineOutputsOn := false)))
    else if w.shared.motor.changeover != 0 then v
    else if w.shared.throttle.adjustedInput <= D.THROTTLE_MIN_SIGNAL then
      v.(world := WithThrottle(w, w.shared.throttle.(propBrake := IdleBrake(c, w.shared.drive.tim1Arr))).(
        duty := w.duty.(sineOutputsOn := false)))
    else
      var entered := SineEntry(v, c);
      var ready := entered.(world := WithThrottle(entered.world, entered.world.shared.throttle.(propBrake := false)));
      var (result, positions) := StepOf(ready, motorPoles, c.hz);
      var driven := SineWorld(Do(ready.world, PhaseDuties(positions.a, positions.b, positions.c)), positions);
      if result.Changeover? then driven.(world := ChangeoverPublished(driven.world, result.interval, result.step))
        else driven
  }

  /** The `unreachable!` branch: where a step is taken, its result is never Idle. */
  lemma StepIsNeverIdle(v: SineWorld, motorPoles: U8, hz: nat)
    requires Platform.SupportedTimer(hz)
    requires !SineStopped(v.world) && v.world.shared.throttle.adjustedInput > D.THROTTLE_MIN_SIGNAL
    ensures !StepOf(v, motorPoles, hz).0.Idle?
    ensures var result := StepOf(v, motorPoles, hz).0;
      result.Changeover? <==> v.world.shared.throttle.adjustedInput > SINE_CHANGEOVER_THROTTLE
  {
  }

  class SystemTick {
    var sinePositions: PhasePositions
    const motorPoles: U8

    constructor (motorPoles: U8)
      ensures fresh(sinePositions) && this.motorPoles == motorPoles
    {
      sinePositions := new PhasePositions.FromSector(1);
      this.motorPoles := motorPoles;
    }

    ghost function View(ctx: ControlIsr.MotorContext): SineWorld
      reads this, sinePositions, ctx, ctx.duty, ctx.bemf, ctx.commutation, ctx.commutation.intervals
    {
      SineWorld(ctx.View(), sinePositions.View())
    }

    method EnterSineOutputs(ctx: ControlIsr.MotorContext)
      modifies this`sinePositions, ctx`hal, ctx.duty`sineOutputsOn, ctx.duty`activeBrakeOn
      ensures View(ctx) == SineEntry(old(View(ctx)), ctx.settings)
      ensures sinePositions == old(sinePositions) || fresh(sinePositions)
    {
      if !ctx.duty.sineOutputsOn {
        sinePositions := new PhasePositions.FromSector(ctx.commutation.step);
        ctx.Issue([TimerOff, MaskIrq, SetDutyAll(0), Latch, AllPwm(ctx.settings.pwmMode)]);
        ctx.duty.activeBrakeOn := false;
        ctx.duty.sineOutputsOn := true;
      }
    }

    method ServiceSine(ctx: ControlIsr.MotorContext) returns (delay: Option<U16>)
      requires Supported(ctx.settings)
      modifies this`sinePositions, sinePositions, ctx`shared, ctx`hal, ctx.duty`sineOutputsOn, ctx.duty`activeBrakeOn
      ensures View(ctx) == Serviced(old(View(ctx)), ctx.settings, motorPoles)
    {
      hide SineStepped;
      hide DoneAll;
      hide SineEntry;
      delay := None;
      if !ctx.shared.motor.mode.StepperSine? || ctx.shared.commands.isrAction.KillAll? {
        ctx.duty.sineOutputsOn := false;
        return;
      }
      if ctx.shared.motor.changeover != 0 { return; }
      if ctx.shared.throttle.adjustedInput <= D.THROTTLE_MIN_SIGNAL {
        ctx.duty.sineOutputsOn := false;
        var brake := IdleBrake(ctx.settings, ctx.shared.drive.tim1Arr);
        ctx.shared := ctx.shared.(throttle := ctx.shared.throttle.(propBrake := brake));
        return;
      }
      EntryKeepsShared(View(ctx), ctx.settings);
      EnterSineOutputs(ctx);
      ctx.shared := ctx.shared.(throttle := ctx.shared.throttle.(propBrake := false));
      StepIsNeverIdle(View(ctx), motorPoles, ctx.settings.hz);
      var result := SineStep(sinePositions, ctx.shared.throttle.adjustedInput, IsArmed(ctx.shared.motor.mode),
                             ctx.shared.motor.forward, motorPoles, ctx.settings.hz);
      ctx.hal := Done(ctx.hal, PhaseDuties(sinePositions.a, sinePositions.b, sinePositions.c));
      match result {
        case Continue(d) => delay := Some(d);
        case Changeover(interval, step) =>
          ctx.shared := ctx.shared.(motor := ctx.shared.motor.(
            commutationInterval := interval, zeroCrosses := CHANGEOVER_ZERO_CROSSES, changeover := step));
          ctx.duty.sineOutputsOn := false;
        case Idle => assert false;
      }
    }
  }

  lemma EntryKeepsShared(v: SineWorld, c: Settings)
    ensures SineEntry(v, c).world.shared == v.world.shared
  {
  }

  // ----- every interleaving -----

  /** Interrupts, main's service call, and main's other writes: mode events other
      than the handoff's own, and anything outside the mode and the request. */
  datatype Event = Motor(e: G.Event) | Service | ModeEvent(event: MotorEvent)

  predicate KeepsModeAndRequest(s: SharedComm, t: SharedComm) {
    t.motor.mode == s.motor.mode && t.motor.changeover == s.motor.changeover
  }

  predicate Enabled(v: SineWorld, e: Event) {
    match e
    case Motor(g) => G.Enabled(v.world, g) &&
      (g.MainWrites? ==> KeepsModeAndRequest(v.world.shared, g.shared))
    case Service => true
    case ModeEvent(event) => event != ExitSine
  }

  function Next(v: SineWorld, e: Event, c: Settings, motorPoles: U8): SineWorld
    requires Sound(v.world) && Supported(c) && Enabled(v, e)
  {
    match e
    case Motor(g) => v.(world := G.Next(v.world, g, c))
    case Service => Serviced(v, c, motorPoles)
    case ModeEvent(event) => v.(world := Evented(v.world, event))
  }

  /** Any of the tick's forms. */
  predicate IsTick(e: Event) { e.Motor? && (e.e.FullTick? || e.e.FastHalf? || e.e.KillHalf?) }

  function Mode(v: SineWorld): MotorMode { v.world.shared.motor.mode }

  function Request(v: SineWorld): U8 { v.world.shared.motor.changeover }

  // ----- the tick in sine mode -----

  lemma KeptByRest(w: World, c: Settings)
    requires Supported(c)
    ensures DutyLoaded(Kicked(w)).shared.motor == w.shared.motor && DutyLoaded(Kicked(w)).hal == w.hal
    ensures DutyLoaded(Kicked(w)).shared.throttle.adjustedInput == w.shared.throttle.adjustedInput
    ensures RampedWorld(w, c).shared.motor.mode == w.shared.motor.mode
    ensures RampedWorld(w, c).shared.motor.changeover == w.shared.motor.changeover && RampedWorld(w, c).hal == w.hal
    ensures Ceilinged(w).shared == w.shared && Ceilinged(w).hal == w.hal
  {
    hide D.Ramped;
    hide D.Clamped;
    hide RampInputsOf;
    hide AverageInterval;
  }

  lemma OutputKeepsMode(w: World, c: Settings, count: U32)
    ensures Published(Output(w, c), count).shared.motor.mode == w.shared.motor.mode
    ensures Published(Output(w, c), count).shared.motor.changeover == w.shared.motor.changeover
  {
    hide OutputOps;
  }

  /** A tick that hands nothing over leaves sine mode in sine mode. */
  lemma SineTickStays(w: World, c: Settings, r: Readings)
    requires Sound(w) && Supported(c) && w.shared.motor.mode.StepperSine? && !HandsOff(w)
    ensures Tick(w, c, r).shared.motor.mode.StepperSine? && Tick(w, c, r).shared.motor.changeover == 0
  {
    hide Rest;
    G.CountedKeeps(w.shared, c);
    hide Counted;
    var v := MaskedUnlessRunning(w.(shared := Counted(w.shared, c)));
    if !v.shared.commands.isrAction.KillAll? {
      G.ActedQuiet(v, r);
      ActedKeepsRequest(v, r);
      SineRestStays(Acted(v, r), c, r);
    }
  }

  lemma ActedKeepsRequest(w: World, r: Readings)
    requires w.shared.motor.mode.StepperSine?
    ensures Acted(w, r).shared.motor == w.shared.motor && Acted(w, r).shared.throttle == w.shared.throttle
    ensures Acted(w, r).shared.drive == w.shared.drive && Acted(w, r).duty == w.duty
    ensures exists pre :: Acted(w, r).hal.log == w.hal.log + pre && forall op :: op in pre ==> op == SetCount(0)
  {
    var pre := if w.shared.commands.isrAction.ResetIntervalTimer? || w.shared.commands.isrAction.CommutateKick?
               then [SetCount(0)] else [];
    assert Acted(w, r).hal.log == w.hal.log + pre;
  }

  lemma SineRestStays(w: World, c: Settings, r: Readings)
    requires Sound(w) && Supported(c) && w.shared.motor.mode.StepperSine? && !HandsOff(w)
    ensures Rest(w, c, r).shared.motor.mode.StepperSine? && Rest(w, c, r).shared.motor.changeover == 0
  {
    hide SineEntered;
    hide Output;
    hide Published;
    hide RampedWorld;
    hide Ceilinged;
    hide DutyLoaded;
    hide Kicked;
    var changed := Changed(w, c);
    var entered := if EntersSine(changed, c) then SineEntered(changed) else changed;
    EnteredStays(changed);
    KeptByRest(entered, c);
    KeptByRest(Prepared(w, c), c);
    KeptByRest(RampedWorld(Prepared(w, c), c), c);
    OutputKeepsMode(Ceilinged(RampedWorld(Prepared(w, c), c)), c, r.final);
  }

  lemma EnteredStays(w: World)
    requires w.shared.motor.mode.StepperSine?
    ensures SineEntered(w).shared.motor.mode.StepperSine? &&
      SineEntered(w).shared.motor.changeover == w.shared.motor.changeover
  {
  }

  function HandoffOps(w: World, c: Settings): seq<HalOp> {
    var comm := C.StepSet(Directed(w).comm, w.shared.motor.changeover);
    [TimerOff, MaskIrq, SetDutyAll(0), Latch, ComStep(w.shared.motor.changeover, c.pwmMode),
     SetCount(w.shared.motor.commutationInterval), Route(comm.step, comm.rising),
     TimerSet(Wrap16(w.shared.motor.commutationInterval))]
  }

  predicate OnlyDuty(ops: seq<HalOp>) { forall op :: op in ops ==> op.SetDutyAll? || op.SetPeriod? }

  /** The log of a tick that hands over: the comparator masked, at most an interval
      reset, the handoff, then the running compare and period. */
  ghost predicate HandoffLogged(w: World, v: World, c: Settings) {
    exists pre, post ::
      v.hal.log == w.hal.log + [MaskIrq] + pre + HandoffOps(w, c) + post &&
      (forall op :: op in pre ==> op == SetCount(0)) && OnlyDuty(post)
  }

  lemma HandoffRest(w: World, c: Settings, r: Readings)
    requires Sound(w) && Supported(c) && HandsOff(w)
    ensures var v := Rest(w, c, r);
      v.shared.motor.mode.OldRoutine? && v.shared.motor.changeover == 0 && v.hal.timerArmed && !v.hal.irqEnabled &&
      exists post :: v.hal.log == w.hal.log + HandoffOps(w, c) + post && OnlyDuty(post)
  {
    hide Output;
    hide RampedWorld;
    hide Ceilinged;
    hide DutyLoaded;
    hide Kicked;
    hide HandoffOps;
    hide D.Setpoint;
    HandoffChanged(w, c);
    var changed := Changed(w, c);
    var driven := Driven(changed, c);
    KeptByRest(driven, c);
    var ready := Prepared(w, c);
    KeptByRest(ready, c);
    KeptByRest(RampedWorld(ready, c), c);
    var done := Ceilinged(RampedWorld(ready, c));
    assert done.hal == changed.hal;
    RunningOutput(done, c);
  }

  lemma HandoffChanged(w: World, c: Settings)
    requires HandsOff(w)
    ensures var v := Changed(w, c);
      v.shared.motor.mode.OldRoutine? && v.shared.motor.changeover == 0 && v.shared.throttle == w.shared.throttle &&
      v.hal.timerArmed && !v.hal.irqEnabled && v.hal.log == w.hal.log + HandoffOps(w, c)
  {
    var ops := HandoffOps(w, c);
    G.DoneAllLogs(w.hal, ops);
    assert ops[1] == MaskIrq;
    G.DoneAllMasks(w.hal, ops);
    assert ops[7].TimerSet?;
    assert DoneAll(w.hal, ops) == Done(DoneAll(w.hal, ops[..7]), ops[7]);
  }

  lemma RunningOutput(w: World, c: Settings)
    requires w.shared.motor.mode.OldRoutine?
    ensures var v := Output(w, c);
      v.hal.timerArmed == w.hal.timerArmed && v.hal.irqEnabled == w.hal.irqEnabled &&
      v.shared.motor.mode == w.shared.motor.mode &&
      v.shared.motor.changeover == w.shared.motor.changeover &&
      exists post :: v.hal.log == w.hal.log + post && OnlyDuty(post)
  {
    hide D.PwmCompare;
    var a, b := SetDutyAll(D.PwmCompare(w.duty.cycle, w.shared.drive.tim1Arr)), SetPeriod(w.shared.drive.tim1Arr);
    G.ShortOps(w.hal, a, b);
    assert Output(w, c).hal == Done(Done(w.hal, a), b);
    assert Output(w, c).hal.log == w.hal.log + [a, b];
  }

  /** A tick that hands over: the sector is driven only after the timer is stopped,
      the comparator masked and zero duty latched; the timer is re-armed after it. */
  lemma HandoffTick(w: World, c: Settings, r: Readings)
    requires Sound(w) && Supported(c) && HandsOff(w) && !w.shared.commands.isrAction.KillAll?
    ensures var v := Tick(w, c, r);
      v.shared.motor.mode.OldRoutine? && v.shared.motor.changeover == 0 && v.hal.timerArmed && !v.hal.irqEnabled &&
      HandoffLogged(w, v, c)
  {
    hide Rest;
    hide HandoffOps;
    G.CountedKeeps(w.shared, c);
    hide Counted;
    var u := MaskedUnlessRunning(w.(shared := Counted(w.shared, c)));
    ActedKeepsRequest(u, r);
    G.ActedQuiet(u, r);
    var a := Acted(u, r);
    HandoffRest(a, c, r);
    SameHandoffOps(a, w, c);
    var v := Tick(w, c, r);
    var pre :| a.hal.log == u.hal.log + pre && forall op :: op in pre ==> op == SetCount(0);
    var post :| v.hal.log == a.hal.log + HandoffOps(a, c) + post && OnlyDuty(post);
    assert u.hal.log == w.hal.log + [MaskIrq];
    assert v.hal.log == w.hal.log + [MaskIrq] + pre + HandoffOps(w, c) + post;
  }

  lemma SameHandoffOps(a: World, w: World, c: Settings)
    requires a.shared.motor == w.shared.motor && a.comm == w.comm
    ensures HandoffOps(a, c) == HandoffOps(w, c)
  {
  }

  /** Killing keeps sine mode and drops the request. */
  lemma KillTick(w: World, c: Settings, r: Readings)
    requires Sound(w) && Supported(c) && w.shared.commands.isrAction.KillAll?
    ensures Tick(w, c, r).shared.motor.mode == w.shared.motor.mode && Tick(w, c, r).shared.motor.changeover == 0
  {
    hide Rest;
    G.CountedKeeps(w.shared, c);
  }

  /** The request is 0 after every tick, whatever the mode. */
  lemma RequestClearedByTick(w: World, c: Settings, r: Readings)
    requires Sound(w) && Supported(c)
    ensures Tick(w, c, r).shared.motor.changeover == 0
  {
    hide Rest;
    hide Counted;
    var v := MaskedUnlessRunning(w.(shared := Counted(w.shared, c)));
    if !v.shared.commands.isrAction.KillAll? {
      G.ActedQuiet(v, r);
      RestClearsRequest(Acted(v, r), c, r);
    }
  }

  lemma RestClearsRequest(w: World, c: Settings, r: Readings)
    requires Sound(w) && Supported(c)
    ensures Rest(w, c, r).shared.motor.changeover == 0
  {
    hide Prepared;
    hide Polled;
    hide Output;
    hide Published;
    hide RampedWorld;
    hide Ceilinged;
    PreparedClears(w, c);
    var ready := Prepared(w, c);
    G.PolledKeeps(ready, c, r);
    var polled := if PollsNow(ready, HandsOff(Directed(w))) then Polled(ready, c, r) else ready;
    KeptByRest(polled, c);
    KeptByRest(RampedWorld(polled, c), c);
    OutputKeepsMode(Ceilinged(RampedWorld(polled, c)), c, r.final);
  }

  lemma PreparedClears(w: World, c: Settings)
    requires Sound(w) && Supported(c)
    ensures Prepared(w, c).shared.motor.changeover == 0
  {
    hide Driven;
    hide DutyLoaded;
    hide Kicked;
    hide HandedOff;
    hide HandsOff;
    var changed := Changed(w, c);
    assert changed.shared.motor.changeover == 0;
    var entered := if EntersSine(changed, c) then SineEntered(changed) else changed;
    assert entered.shared.motor.changeover == 0;
    DrivenKeepsRequest(entered, c);
    KeptByRest(Driven(entered, c), c);
  }

  lemma DrivenKeepsRequest(w: World, c: Settings)
    requires Sound(w) && Supported(c)
    ensures Driven(w, c).shared.motor.changeover == w.shared.motor.changeover
  {
    hide D.Setpoint;
    hide Stepped;
    hide DoneAll;
  }

  // ----- other events -----

  lemma ExpiryInSine(w: World, c: Settings, bidirectional: bool, strict: bool)
    requires Sound(w) && Supported(c) && w.shared.motor.mode.StepperSine?
    ensures Expired(w, c, bidirectional, strict).shared == w.shared
  {
  }

  lemma ServiceKeepsMode(v: SineWorld, c: Settings, motorPoles: U8)
    requires Supported(c)
    ensures Mode(Serviced(v, c, motorPoles)) == Mode(v)
    ensures Request(v) != 0 ==> Request(Serviced(v, c, motorPoles)) == Request(v)
    ensures Request(v) != 0 ==> Serviced(v, c, motorPoles).world.hal == v.world.hal
    ensures Request(v) == 0 && Request(Serviced(v, c, motorPoles)) != 0 ==>
      Mode(v).StepperSine? && v.world.shared.throttle.adjustedInput > SINE_CHANGEOVER_THROTTLE &&
      Request(Serviced(v, c, motorPoles)) == SINE_CHANGEOVER_STEP
  {
    hide DoneAll;
    hide Advanced;
    hide Aligned;
    hide SlowDelay;
  }

  /** What a service call does that drives sine: it enables all phases first if they are
      not, outputs the stepped angles last, and at a high throttle publishes sector 5 with
      a 4.5 ms interval and 20 crossings. */
  lemma ServiceDrives(v: SineWorld, c: Settings, motorPoles: U8)
    requires Supported(c) && !SineStopped(v.world) && Request(v) == 0
    requires v.world.shared.throttle.adjustedInput > 47
    ensures var s, w := Serviced(v, c, motorPoles), v.world;
      var entry := if w.duty.sineOutputsOn then [] else [TimerOff, MaskIrq, SetDutyAll(0), Latch, AllPwm(c.pwmMode)];
      var from := if w.duty.sineOutputsOn then v.positions else EntryAngles(w.comm.step);
      var stepped, input := Advanced(from, w.shared.motor.forward), w.shared.throttle.adjustedInput;
      var m := s.world.shared.motor;
      s.positions == (if input > 200 then Aligned(stepped) else stepped) &&
      s.world.hal.log == w.hal.log + entry + [PhaseDuties(s.positions.a, s.positions.b, s.positions.c)] &&
      !s.world.shared.throttle.propBrake && s.world.duty.sineOutputsOn == (input <= 200) &&
      (input > 200 ==>
        m.changeover == 5 && m.zeroCrosses == 20 && m.commutationInterval == Platform.UsToTicks(c.hz, 4500)) &&
      (input <= 200 ==> m == w.shared.motor)
  {
    hide Advanced;
    hide Aligned;
    hide SlowDelay;
    hide Platform.UsToTicks;
    var w := v.world;
    G.DoneAllLogs(w.hal, [TimerOff, MaskIrq, SetDutyAll(0), Latch, AllPwm(c.pwmMode)]);
    assert w.hal.log + [] == w.hal.log;
  }

  /** Whatever happens in sine mode, only a tick that finds a published sector and a
      high throttle, and no kill, leaves it for polling. */
  lemma OnlyHandoffLeavesSine(v: SineWorld, e: Event, c: Settings, motorPoles: U8)
    requires Sound(v.world) && Supported(c) && Enabled(v, e)
    requires Mode(v).StepperSine? && Mode(Next(v, e, c, motorPoles)).OldRoutine?
    ensures e.Motor? && e.e.FullTick? && HandsOff(v.world) && !v.world.shared.commands.isrAction.KillAll?
  {
    hide Tick;
    hide SteadyUnmasked;
    hide Expired;
    hide Serviced;
    hide CompIrq;
    match e
    case Motor(g) =>
      match g {
        case FullTick(r) =>
          if v.world.shared.commands.isrAction.KillAll? {
            KillTick(v.world, c, r);
          } else if !HandsOff(v.world) {
            SineTickStays(v.world, c, r);
          }
        case FastHalf => G.FastHalfKeeps(v.world, c);
        case Expiry(bidirectional, strict) => ExpiryInSine(v.world, c, bidirectional, strict);
        case Comparator(edge) => G.EdgeArmsExactly(v.world, edge);
        case _ =>
      }
    case Service => ServiceKeepsMode(v, c, motorPoles);
    case ModeEvent(event) =>
  }

  // ----- over whole runs -----

  ghost predicate Run(states: seq<SineWorld>, events: seq<Event>, c: Settings, motorPoles: U8)
    requires Supported(c)
  {
    |states| == |events| + 1 && Sound(states[0].world) && Request(states[0]) == 0 &&
    forall i :: 0 <= i < |events| && Sound(states[i].world) ==>
      Enabled(states[i], events[i]) && states[i + 1] == Next(states[i], events[i], c, motorPoles)
  }

  lemma ServiceKeepsSound(v: SineWorld, c: Settings, motorPoles: U8)
    requires Sound(v.world) && Supported(c)
    ensures Sound(Serviced(v, c, motorPoles).world)
  {
    hide DoneAll;
    hide StepOf;
  }

  lemma NextKeepsSound(v: SineWorld, e: Event, c: Settings, motorPoles: U8)
    requires Sound(v.world) && Supported(c) && Enabled(v, e)
    ensures Sound(Next(v, e, c, motorPoles).world)
  {
    hide G.Next;
    hide Serviced;
    match e
    case Motor(g) => G.NextKeepsSound(v.world, g, c);
    case Service => ServiceKeepsSound(v, c, motorPoles);
    case ModeEvent(_) =>
  }

  lemma {:induction false} RunStaysSound(states: seq<SineWorld>, events: seq<Event>, c: Settings, motorPoles: U8,
    n: nat)
    requires Supported(c) && Run(states, events, c, motorPoles) && n < |states|
    ensures Sound(states[n].world)
    ensures n < |events| ==> Enabled(states[n], events[n]) && states[n + 1] == Next(states[n], events[n], c, motorPoles)
  {
    hide Next;
    hide Sound;
    if n > 0 {
      RunStaysSound(states, events, c, motorPoles, n - 1);
      NextKeepsSound(states[n - 1], events[n - 1], c, motorPoles);
    }
  }

  /** Ticks clear the request; nothing else but main's service changes it. */
  lemma RequestStep(v: SineWorld, e: Event, c: Settings, motorPoles: U8)
    requires Sound(v.world) && Supported(c) && Enabled(v, e) && !e.Service?
    ensures Request(Next(v, e, c, motorPoles)) == if IsTick(e) then 0 else Request(v)
  {
    hide Tick;
    hide SteadyUnmasked;
    hide Expired;
    hide CompIrq;
    match e
    case Motor(g) =>
      match g {
        case FullTick(r) => RequestClearedByTick(v.world, c, r);
        case FastHalf => G.FastHalfKeeps(v.world, c);
        case Expiry(bidirectional, strict) => G.ExpiryKeeps(v.world, c, bidirectional, strict);
        case Comparator(edge) => G.EdgeArmsExactly(v.world, edge);
        case _ =>
      }
    case ModeEvent(event) =>
  }

  /** The request pending at `n` was published by main's service at `m`, in sine mode;
      since then no tick ran and no service wrote to the bridge. */
  ghost predicate PublishedAt(states: seq<SineWorld>, events: seq<Event>, n: nat, m: nat)
    requires |states| == |events| + 1 && n < |states|
  {
    m < n && events[m].Service? && Request(states[m]) == 0 && Mode(states[m]).StepperSine? &&
    (forall k :: m < k <= n ==> Request(states[k]) == SINE_CHANGEOVER_STEP) &&
    (forall k :: m < k < n ==>
      !IsTick(events[k]) && (events[k].Service? ==> states[k + 1].world.hal == states[k].world.hal))
  }

  lemma {:induction false} RequestProvenance(
      states: seq<SineWorld>, events: seq<Event>, c: Settings, motorPoles: U8, n: nat)
    requires Supported(c) && Run(states, events, c, motorPoles) && n < |states| && Request(states[n]) != 0
    ensures exists m: nat :: PublishedAt(states, events, n, m)
  {
    hide Next;
    hide Enabled;
    var p := n - 1;
    RunStaysSound(states, events, c, motorPoles, p);
    if events[p].Service? {
      ServiceNext(states[p], events[p], c, motorPoles);
      ServiceKeepsMode(states[p], c, motorPoles);
    } else {
      RequestStep(states[p], events[p], c, motorPoles);
    }
    hide Serviced;
    if Request(states[p]) == 0 {
      assert PublishedAt(states, events, n, p);
    } else {
      RequestProvenance(states, events, c, motorPoles, p);
      var m: nat :| PublishedAt(states, events, p, m);
      assert PublishedAt(states, events, n, m);
    }
  }

  lemma ServiceNext(v: SineWorld, e: Event, c: Settings, motorPoles: U8)
    requires Sound(v.world) && Supported(c) && Enabled(v, e) && e.Service?
    ensures Next(v, e, c, motorPoles) == Serviced(v, c, motorPoles)
  {
  }

  lemma TickNext(v: SineWorld, e: Event, c: Settings, motorPoles: U8)
    requires Sound(v.world) && Supported(c) && Enabled(v, e) && e.Motor? && e.e.FullTick?
    ensures Next(v, e, c, motorPoles).world == Tick(v.world, c, e.e.readings)
  {
    hide Tick;
  }

  /** In every interleaving, sine mode turns into polling only in a full tick that
      consumes a sector main published and nobody cancelled since, with the drive
      quiesced before that sector and the timer re-armed after it. */
  lemma HandoffProtocol(states: seq<SineWorld>, events: seq<Event>, c: Settings, motorPoles: U8, n: nat)
    requires Supported(c) && Run(states, events, c, motorPoles) && n < |events|
    requires Mode(states[n]).StepperSine? && Mode(states[n + 1]).OldRoutine?
    ensures events[n].Motor? && events[n].e.FullTick?
    ensures exists m: nat :: PublishedAt(states, events, n, m)
    ensures HandoffLogged(states[n].world, states[n + 1].world, c)
    ensures Request(states[n + 1]) == 0 && states[n + 1].world.hal.timerArmed && !states[n + 1].world.hal.irqEnabled
  {
    hide Next;
    hide Tick;
    hide HandoffLogged;
    RunStaysSound(states, events, c, motorPoles, n);
    OnlyHandoffLeavesSine(states[n], events[n], c, motorPoles);
    TickNext(states[n], events[n], c, motorPoles);
    HandoffTick(states[n].world, c, events[n].e.readings);
    RequestProvenance(states, events, c, motorPoles, n);
  }
}
