/** What every control tick publishes and writes as duty
    (rm32/src/control/isr_logic.rs, rm32/src/control/state.rs). */
module DutyOutput {
  import opened Words
  import opened ModeWriters
  import opened Control
  import opened Gating
  import B = Bemf
  import C = Commutation
  import D = Duty
  import Platform

  /** This tick starts the motor. */
  predicate Starts(w: World, c: Settings) {
    w.shared.motor.mode.Armed? && w.shared.throttle.adjustedInput >= StartThreshold(c)
  }

  /** A start puts the startup duty where the ramp begins. */
  function Origin(before: D.Duty, started: bool): D.Duty {
    if started then before.(last := before.minStartup) else before
  }

  predicate SameApartFromFlags(a: D.Duty, b: D.Duty) {
    a == b.(sineOutputsOn := a.sineOutputsOn, activeBrakeOn := a.activeBrakeOn)
  }

  /** The pipeline inputs of a tick that began with `s` and ended in `v`. */
  function TickOf(s: SharedComm, v: World, c: Settings, kick: bool, boost: U16): D.Tick
    requires Supported(c)
  {
    D.Tick(v.shared.throttle.setpoint, kick, RampInputsOf(v.shared, c), boost,
           s.protections.dutyMaximum, s.protections.currentLimit)
  }

  /** `v` published what the pipeline, run once on `d`, makes of those inputs. */
  ghost predicate RanPipeline(d: D.Duty, s: SharedComm, v: World, c: Settings, kick: bool, boost: U16)
    requires Supported(c)
  {
    SameApartFromFlags(v.duty, D.Piped(d, c.hz, TickOf(s, v, c, kick, boost))) &&
    v.shared.motor.dutyCycle == v.duty.cycle
  }

  /** The running compare and the period. */
  function DutyWrites(duty: U16, arr: U16): seq<HalOp> { [SetDutyAll(D.PwmCompare(duty, arr))] + [SetPeriod(arr)] }

  /** The last hardware operations so far. */
  ghost predicate WritesLast(v: World, ops: seq<HalOp>) { exists before :: v.hal.log == before + ops }

  // ----- the fast half -----

  lemma KickedPipes(w: World, c: Settings)
    requires Sound(w) && Supported(c)
    ensures var v := SteadyKicked(w, c);
      v.duty == D.RampOrigin(w.duty, w.shared.commands.kickDown) &&
      v.shared.telemetry == w.shared.telemetry && v.shared.protections == w.shared.protections &&
      v.shared.motor == w.shared.motor.(changeover := 0)
  {
    hide D.Setpoint;
    hide D.KickedDown;
  }

  /** Loading, ramping and clamping are the pipeline. */
  lemma FinishPipes(w: World, c: Settings)
    requires Supported(c)
    ensures var v := SteadyFinal(RampedWorld(DutyLoaded(w), c));
      v.shared.throttle.setpoint == w.shared.throttle.setpoint &&
      RampInputsOf(v.shared, c) == RampInputsOf(w.shared, c) &&
      v.shared.motor.dutyCycle == v.duty.cycle &&
      SameApartFromFlags(v.duty,
        D.Finalized(D.Clamped(
          D.Ramped(w.duty.(cycle := w.shared.throttle.setpoint, rampCount := Wrap16(w.duty.rampCount + 1)),
                   c.hz, RampInputsOf(w.shared, c)),
          w.shared.protections.stallAdjust, w.shared.protections.dutyMaximum, w.shared.protections.currentLimit)))
  {
    hide D.Ramped;
    hide Wrap16;
    hide AverageInterval;
  }

  /** The fast half runs the pipeline once from the old duty, with main's boost. */
  lemma SteadyPipes(w: World, c: Settings)
    requires Sound(w) && Supported(c)
    ensures RanPipeline(w.duty, w.shared, SteadyComputed(w, c), c,
                        w.shared.commands.kickDown, w.shared.protections.stallAdjust)
  {
    hide D.Ramped;
    hide D.Clamped;
    hide D.RampOrigin;
    hide RampedWorld;
    hide DutyLoaded;
    hide SteadyKicked;
    hide SteadyFinal;
    hide RampInputsOf;
    CountedKeeps(w.shared, c);
    hide Counted;
    var counted := w.(shared := Counted(w.shared, c));
    KickedPipes(counted, c);
    FinishPipes(SteadyKicked(counted, c), c);
  }

  // ----- the full tick -----

  /** Main's ceilings and period are only read. */
  predicate SameCeilings(s: SharedComm, t: SharedComm) {
    t.protections == s.protections && t.drive == s.drive
  }

  /** The inputs and pending kick later parts of a tick still find. */
  predicate SameInputs(s: SharedComm, t: SharedComm) {
    SameCeilings(s, t) && t.throttle.adjustedInput == s.throttle.adjustedInput &&
    t.commands.kickDown == s.commands.kickDown
  }

  /** The pipeline's state before ramping: kicked or not, loaded with a setpoint. */
  function LoadedFrom(d: D.Duty, kick: bool, setpoint: U16): D.Duty {
    var origin := D.RampOrigin(d, kick);
    origin.(cycle := setpoint, rampCount := Wrap16(origin.rampCount + 1))
  }

  lemma ChangedDuty(w: World, c: Settings)
    ensures var v := Changed(w, c);
      v.duty == w.duty && SameInputs(w.shared, v.shared) && v.shared.motor.mode.Armed? == w.shared.motor.mode.Armed?
  {
  }

  lemma EnteredDuty(w: World)
    requires IsArmed(w.shared.motor.mode)
    ensures var v := SineEntered(w);
      SameApartFromFlags(v.duty, w.duty) && SameInputs(w.shared, v.shared) && v.shared.motor.mode.StepperSine?
  {
  }

  lemma StartedDuty(w: World, c: Settings)
    requires Sound(w) && Supported(c) && w.shared.motor.mode.Armed?
    ensures var v := Started(w, c);
      SameApartFromFlags(v.duty, Origin(w.duty, true)) && SameInputs(w.shared, v.shared)
  {
    hide Stepped;
    hide DoneAll;
  }

  lemma DrivenDuty(w: World, c: Settings)
    requires Sound(w) && Supported(c)
    ensures var v := Driven(w, c);
      SameInputs(w.shared, v.shared) && SameApartFromFlags(v.duty, Origin(w.duty, Starts(w, c)))
  {
    hide Supported;
    hide SetpointOf;
    hide Started;
    hide C.Consistent;
    if Starts(w, c) {
      StartedDuty(WithThrottle(w, w.shared.throttle.(setpoint := SetpointOf(w, c))), c);
    }
  }

  /** The kick is taken exactly when requested and the motor is running by then. */
  lemma KickedDuty(w: World, c: Settings)
    ensures var v := ArmingCounted(DutyLoaded(Kicked(w)), c);
      v.duty == LoadedFrom(w.duty, w.shared.commands.kickDown && IsRunning(v.shared.motor.mode),
                           v.shared.throttle.setpoint) &&
      SameCeilings(w.shared, v.shared)
  {
    hide Wrap16;
    hide Wrap32;
  }

  ghost predicate LoadsDuty(d: D.Duty, result: D.Duty, kick: bool, setpoint: U16) {
    SameApartFromFlags(result, LoadedFrom(d, kick, setpoint))
  }

  lemma PreparedDuty(w: World, c: Settings)
    requires Sound(w) && Supported(c)
    ensures var v := Prepared(w, c);
      SameCeilings(w.shared, v.shared) &&
      LoadsDuty(Origin(w.duty, Starts(w, c)), v.duty,
                w.shared.commands.kickDown && IsRunning(v.shared.motor.mode), v.shared.throttle.setpoint)
  {
    hide Changed;
    hide SineEntered;
    hide Driven;
    hide Kicked;
    hide DutyLoaded;
    hide ArmingCounted;
    var changed := Changed(w, c);
    ChangedDuty(w, c);
    if EntersSine(changed, c) { EnteredDuty(changed); }
    var entered := if EntersSine(changed, c) then SineEntered(changed) else changed;
    DrivenDuty(entered, c);
    KickedDuty(Driven(entered, c), c);
    hide Wrap16;
  }

  /** Ramping, clamping and finalizing do not look at the two output flags. */
  lemma FlagsIgnored(a: D.Duty, b: D.Duty, hz: nat, r: D.RampInputs, boost: U16, maximum: U16, limit: U16)
    requires SameApartFromFlags(a, b) && Platform.SupportedTimer(hz)
    ensures SameApartFromFlags(D.Finalized(D.Clamped(D.Ramped(a, hz, r), boost, maximum, limit)),
                               D.Finalized(D.Clamped(D.Ramped(b, hz, r), boost, maximum, limit)))
  {
    hide D.VoltageChange;
    hide D.Limited;
  }

  lemma OutputPublishes(w: World, c: Settings)
    ensures var v := Output(w, c);
      SameApartFromFlags(v.duty, D.Finalized(w.duty)) &&
      v.shared == w.shared.(motor := w.shared.motor.(dutyCycle := w.duty.cycle))
    ensures IsRunning(w.shared.motor.mode) ==>
      Output(w, c).hal.log == w.hal.log + DutyWrites(w.duty.cycle, w.shared.drive.tim1Arr)
  {
    hide D.PwmCompare;
    hide D.BrakeCompare;
    hide BrakeDuty;
    DoneAllLogs(w.hal, OutputOps(w, c));
  }

  /** The boost of a full tick that ends in `v`. */
  function BoostOf(s: SharedComm, v: World): U16 {
    if IsRunning(v.shared.motor.mode) then s.protections.stallAdjust else 0
  }

  /** Ramping to publishing, from a loaded duty. */
  lemma FinishedTick(w: World, c: Settings, count: U32)
    requires Supported(c)
    ensures var v := Published(Output(Ceilinged(RampedWorld(w, c)), c), count);
      var p := w.shared.protections;
      SameCeilings(w.shared, v.shared) && v.shared.motor.mode == w.shared.motor.mode &&
      v.shared.throttle == w.shared.throttle && RampInputsOf(v.shared, c) == RampInputsOf(w.shared, c) &&
      v.shared.motor.dutyCycle == v.duty.cycle &&
      SameApartFromFlags(v.duty, D.Finalized(D.Clamped(D.Ramped(w.duty, c.hz, RampInputsOf(w.shared, c)),
                                                       BoostOf(w.shared, v), p.dutyMaximum, p.currentLimit))) &&
      (IsRunning(v.shared.motor.mode) ==>
        v.hal.log == w.hal.log + DutyWrites(v.shared.motor.dutyCycle, w.shared.drive.tim1Arr))
  {
    hide Output;
    hide D.Ramped;
    hide D.Clamped;
    hide D.PwmCompare;
    hide DutyWrites;
    hide AverageInterval;
    OutputPublishes(Ceilinged(RampedWorld(w, c)), c);
  }

  /** Each full tick that is not a kill runs the pipeline once, from the old duty or,
      exactly when it starts the motor, from the startup duty, under main's ceilings,
      and while running writes its compare value and the period, last of all. */
  lemma RestRunsPipeline(w: World, c: Settings, r: Readings)
    requires Sound(w) && Supported(c)
    ensures var v := Rest(w, c, r);
      RanPipeline(Origin(w.duty, Starts(w, c)), w.shared, v, c,
                  w.shared.commands.kickDown && IsRunning(v.shared.motor.mode), BoostOf(w.shared, v)) &&
      SameCeilings(w.shared, v.shared) &&
      (IsRunning(v.shared.motor.mode) ==> WritesLast(v, DutyWrites(v.shared.motor.dutyCycle, w.shared.drive.tim1Arr)))
  {
    hide Prepared;
    hide Polled;
    hide Output;
    hide Published;
    hide Ceilinged;
    hide RampedWorld;
    hide D.Ramped;
    hide D.Clamped;
    hide RampInputsOf;
    hide HandsOff;
    hide LoadedFrom;
    hide DutyWrites;
    hide Origin;
    hide Starts;
    hide D.Piped;
    PreparedDuty(w, c);
    var ready := Prepared(w, c);
    PolledKeeps(ready, c, r);
    var polled := if PollsNow(ready, HandsOff(Directed(w))) then Polled(ready, c, r) else ready;
    FinishedTick(polled, c, r.final);
    var v := Rest(w, c, r);
    var kick := w.shared.commands.kickDown && IsRunning(v.shared.motor.mode);
    var t := TickOf(w.shared, v, c, kick, BoostOf(w.shared, v));
    var d := Origin(w.duty, Starts(w, c));
    FlagsIgnored(ready.duty, LoadedFrom(d, kick, t.setpoint), c.hz, t.ramp, t.stallBoost, t.dutyMaximum,
                 t.currentLimit);
    PipedIsLoaded(d, c.hz, t);
  }

  lemma PipedIsLoaded(d: D.Duty, hz: nat, t: D.Tick)
    requires Platform.SupportedTimer(hz)
    ensures D.Piped(d, hz, t) ==
      D.Finalized(D.Clamped(D.Ramped(LoadedFrom(d, t.kickDown, t.setpoint), hz, t.ramp),
                            t.stallBoost, t.dutyMaximum, t.currentLimit))
  {
    hide D.Ramped;
    hide D.Clamped;
  }

  // ----- bounds on what is published -----

  /** `v` publishes a duty within both of main's ceilings, above the ramp origin by at
      most the boost and the step this tick chose, and below it by at most that step
      unless a ceiling makes it. */
  predicate DutyBounded(origin: D.Duty, s: SharedComm, v: World, c: Settings, boost: U16)
    requires Supported(c)
  {
    var duty, step := v.shared.motor.dutyCycle, D.StepTaken(origin, c.hz, RampInputsOf(v.shared, c));
    var ceiling := Min(s.protections.dutyMaximum, s.protections.currentLimit);
    duty == v.duty.last && duty <= ceiling && duty <= origin.last + boost + step &&
    duty >= Min(ceiling, origin.last - step) && step <= D.RampBound(origin) &&
    D.Reaches(duty, origin.last, v.shared.throttle.setpoint, step, boost, ceiling)
  }

  lemma PipelineBounds(d: D.Duty, s: SharedComm, v: World, c: Settings, kick: bool, boost: U16)
    requires Supported(c) && d.last <= 65025 && RanPipeline(d, s, v, c, kick, boost)
    ensures DutyBounded(D.RampOrigin(d, kick), s, v, c, boost)
    ensures v.duty.minStartup == d.minStartup
  {
    var t := TickOf(s, v, c, kick, boost);
    D.PublishedDutyBounded(d, c.hz, t);
    D.PublishedDutyReaches(d, c.hz, t);
    D.PipedKeepsSettings(d, c.hz, t);
    hide D.Piped;
    hide D.StepTaken;
    hide RampInputsOf;
  }

  /** Where the ramp of a full tick ending in `v` begins. */
  function FullTickOrigin(w: World, v: World, c: Settings): D.Duty {
    D.RampOrigin(Origin(w.duty, Starts(w, c)), w.shared.commands.kickDown && IsRunning(v.shared.motor.mode))
  }

  /** Sums of a duty and two ramp steps stay within 16 bits. */
  predicate NoSumWraps(d: D.Duty) { d.last <= 65025 && d.minStartup <= 65025 }

  /** Every full tick that is not a kill. */
  lemma TickDutyBounded(w: World, c: Settings, r: Readings)
    requires Sound(w) && Supported(c) && !w.shared.commands.isrAction.KillAll? && NoSumWraps(w.duty)
    ensures var v := Tick(w, c, r);
      DutyBounded(FullTickOrigin(w, v, c), w.shared, v, c, BoostOf(w.shared, v)) &&
      v.duty.minStartup == w.duty.minStartup &&
      (IsRunning(v.shared.motor.mode) ==> WritesLast(v, DutyWrites(v.shared.motor.dutyCycle, w.shared.drive.tim1Arr)))
  {
    hide Rest;
    hide RanPipeline;
    hide DutyBounded;
    hide DutyWrites;
    hide WritesLast;
    hide D.RampOrigin;
    CountedKeeps(w.shared, c);
    hide Counted;
    var u := MaskedUnlessRunning(w.(shared := Counted(w.shared, c)));
    ActedQuiet(u, r);
    ActedKeepsInputs(u, r);
    var a, v := Acted(u, r), Tick(w, c, r);
    hide Acted;
    RestRunsPipeline(a, c, r);
    var kick := w.shared.commands.kickDown && IsRunning(v.shared.motor.mode);
    PipelineBounds(Origin(a.duty, Starts(a, c)), a.shared, v, c, kick, BoostOf(a.shared, v));
    SameBounds(a.shared, w.shared, D.RampOrigin(Origin(a.duty, Starts(a, c)), kick), v, c, BoostOf(a.shared, v));
  }

  lemma ActedKeepsInputs(w: World, r: Readings)
    ensures SameInputs(w.shared, Acted(w, r).shared)
  {
    hide B.BlendedInterval;
  }

  lemma SameBounds(s: SharedComm, t: SharedComm, origin: D.Duty, v: World, c: Settings, boost: U16)
    requires Supported(c) && SameCeilings(s, t)
    ensures DutyBounded(origin, s, v, c, boost) == DutyBounded(origin, t, v, c, boost)
  {
  }

  /** Every fast half, whether or not it goes on to write the bridge. */
  lemma FastHalfDutyBounded(w: World, c: Settings)
    requires Sound(w) && Supported(c) && NoSumWraps(w.duty)
    ensures var v, kick := SteadyUnmasked(w, c), w.shared.commands.kickDown;
      DutyBounded(D.RampOrigin(w.duty, kick), w.shared, v, c, w.shared.protections.stallAdjust) &&
      v.duty.minStartup == w.duty.minStartup &&
      (if !w.shared.commands.toneActive && w.shared.commands.isrAction.NoAction?
       then WritesLast(v, DutyWrites(v.shared.motor.dutyCycle, w.shared.drive.tim1Arr)) else v.hal == w.hal)
  {
    hide SteadyComputed;
    hide RanPipeline;
    hide D.PwmCompare;
    hide D.RampOrigin;
    hide D.StepTaken;
    hide RampInputsOf;
    SteadyPipes(w, c);
    var v, arr := SteadyComputed(w, c), w.shared.drive.tim1Arr;
    SteadyKeepsRequests(w, c);
    PipelineBounds(w.duty, w.shared, v, c, w.shared.commands.kickDown, w.shared.protections.stallAdjust);
    DoneAllLogs(v.hal, [SetDutyAll(D.PwmCompare(v.duty.cycle, arr)), SetPeriod(arr)]);
    assert DutyWrites(v.duty.cycle, arr) == [SetDutyAll(D.PwmCompare(v.duty.cycle, arr)), SetPeriod(arr)];
  }

  lemma SteadyKeepsRequests(w: World, c: Settings)
    requires Sound(w) && Supported(c)
    ensures var k := SteadyComputed(w, c).shared.commands;
      k.toneActive == w.shared.commands.toneActive && k.isrAction == w.shared.commands.isrAction
    ensures SteadyComputed(w, c).duty.last == SteadyComputed(w, c).duty.cycle
  {
    hide D.Setpoint;
    hide D.KickedDown;
    hide D.Ramped;
    hide D.Clamped;
    hide TelemetryTicks;
    hide AverageInterval;
    hide Supported;
    hide Wrap32;
  }

  // ----- over whole runs -----

  /** Every event keeps the ramp origin, except ticks, which set it within main's
      maximum. */
  lemma EventDuty(w: World, e: Event, c: Settings)
    requires Sound(w) && Supported(c) && Gating.Enabled(w, e)
    requires w.duty.last <= D.DUTY_SCALE_MAX && w.shared.protections.dutyMaximum <= D.DUTY_SCALE_MAX
    requires w.duty.minStartup <= 65025
    ensures Gating.Next(w, e, c).duty.last <= D.DUTY_SCALE_MAX
    ensures Gating.Next(w, e, c).duty.minStartup == w.duty.minStartup
  {
    hide Tick;
    hide SteadyUnmasked;
    hide Expired;
    hide CompIrq;
    hide D.StepTaken;
    hide D.RampOrigin;
    hide RampInputsOf;
    hide WritesLast;
    match e
    case FullTick(r) =>
      if w.shared.commands.isrAction.KillAll? { KillKeepsDuty(w, c, r); } else { TickDutyBounded(w, c, r); }
    case FastHalf => FastHalfDutyBounded(w, c);
    case Expiry(bidirectional, strict) => ExpiryKeepsDuty(w, c, bidirectional, strict);
    case Comparator(edge) => EdgeArmsExactly(w, edge);
    case _ =>
  }

  lemma KillKeepsDuty(w: World, c: Settings, r: Readings)
    requires Sound(w) && Supported(c) && w.shared.commands.isrAction.KillAll?
    ensures SameApartFromFlags(Tick(w, c, r).duty, w.duty)
  {
    hide Rest;
    CountedKeeps(w.shared, c);
  }

  lemma ExpiryKeepsDuty(w: World, c: Settings, bidirectional: bool, strict: bool)
    requires Sound(w) && Supported(c)
    ensures Expired(w, c, bidirectional, strict).duty == w.duty
  {
    hide Commutated;
    hide PollingExpiry;
    hide InterruptModeExpiry;
    var off := Do(w, TimerOff);
    CommutatedQuiet(off, c);
    var v := Commutated(off, c);
    if w.shared.motor.mode.OldRoutine? {
      PollingExpiryUnmasks(v, c, w.shared.motor.commutationInterval, bidirectional, strict);
    } else if w.shared.motor.mode.Running? {
      InterruptExpiryUnmasks(v, c, w.shared.motor.commutationInterval, bidirectional);
    }
  }

  /** Main never publishes a maximum above full scale. */
  ghost predicate CeilingsInScale(states: seq<World>) {
    forall i :: 0 <= i < |states| ==> states[i].shared.protections.dutyMaximum <= D.DUTY_SCALE_MAX
  }

  lemma {:induction false} DutyStaysInScale(states: seq<World>, events: seq<Event>, c: Settings, n: nat)
    requires Supported(c) && Run(states, events, c) && CeilingsInScale(states) && n < |states|
    requires states[0].duty.last <= D.DUTY_SCALE_MAX && states[0].duty.minStartup <= 65025
    ensures states[n].duty.last <= D.DUTY_SCALE_MAX && states[n].duty.minStartup == states[0].duty.minStartup
  {
    hide Gating.Next;
    hide Gating.Enabled;
    if n > 0 {
      DutyStaysInScale(states, events, c, n - 1);
      RunStaysSound(states, events, c, n - 1);
      EventDuty(states[n - 1], events[n - 1], c);
    }
  }

  /** The event writes the running compare: a full tick that is not a kill and ends
      running, or a fast half that finds no stop request and no tone. */
  predicate WritesCompare(w: World, e: Event, v: World) {
    (e.FullTick? && !w.shared.commands.isrAction.KillAll? && IsRunning(v.shared.motor.mode)) ||
    (e.FastHalf? && !w.shared.commands.toneActive && w.shared.commands.isrAction.NoAction?)
  }

  /** Where the ramp of such an event begins. */
  function EventOrigin(w: World, e: Event, v: World, c: Settings): D.Duty {
    if e.FullTick? then FullTickOrigin(w, v, c) else D.RampOrigin(w.duty, w.shared.commands.kickDown)
  }

  lemma EventWritesCompare(w: World, e: Event, c: Settings)
    requires Sound(w) && Supported(c) && Gating.Enabled(w, e) && NoSumWraps(w.duty)
    requires WritesCompare(w, e, Gating.Next(w, e, c))
    ensures var v := Gating.Next(w, e, c);
      DutyBounded(EventOrigin(w, e, v, c), w.shared, v, c, w.shared.protections.stallAdjust) &&
      WritesLast(v, DutyWrites(v.shared.motor.dutyCycle, w.shared.drive.tim1Arr))
  {
    hide Tick;
    hide SteadyUnmasked;
    hide DutyBounded;
    hide DutyWrites;
    hide WritesLast;
    hide FullTickOrigin;
    if e.FullTick? { TickDutyBounded(w, c, e.readings); } else { FastHalfDutyBounded(w, c); }
  }

  /** In every run whose ceilings stay at full scale or below, every event that writes
      the running compare, full tick or fast half: the duty it publishes is within both
      ceilings and one chosen step plus the boost of its ramp origin, and its last
      writes are a compare of exactly floor(duty * arr / 2000) + 1, at most arr + 1,
      and the period. */
  lemma EveryCompareWithinPeriod(states: seq<World>, events: seq<Event>, c: Settings, n: nat)
    requires Supported(c) && Run(states, events, c) && CeilingsInScale(states) && n < |events|
    requires states[0].duty.last <= D.DUTY_SCALE_MAX && states[0].duty.minStartup <= 65025
    requires WritesCompare(states[n], events[n], states[n + 1])
    ensures var w, v := states[n], states[n + 1];
      DutyBounded(EventOrigin(w, events[n], v, c), w.shared, v, c, w.shared.protections.stallAdjust)
    ensures var duty, arr := states[n + 1].shared.motor.dutyCycle, states[n].shared.drive.tim1Arr;
      WritesLast(states[n + 1], [SetDutyAll(D.PwmCompare(duty, arr))] + [SetPeriod(arr)]) &&
      (arr < 65535 ==> D.PwmCompare(duty, arr) == duty * arr / 2000 + 1 <= arr + 1)
  {
    hide Gating.Next;
    hide Gating.Enabled;
    hide WritesCompare;
    hide EventOrigin;
    hide D.PwmCompare;
    hide D.StepTaken;
    hide RampInputsOf;
    hide WritesLast;
    DutyStaysInScale(states, events, c, n);
    RunStaysSound(states, events, c, n);
    EventWritesCompare(states[n], events[n], c);
    var duty, arr := states[n + 1].shared.motor.dutyCycle, states[n].shared.drive.tim1Arr;
    assert duty <= D.DUTY_SCALE_MAX;
    if arr < 65535 { D.CompareWithinPeriod(duty, arr); }
  }
}
