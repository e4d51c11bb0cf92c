/** What the bridge does: the logged operations read back as the state of the gates,
    the compare and the comparator routing, over every interleaving
    (rm32/src/control/isr_logic.rs, rm32_stm32/src/isr_handlers.rs). */
module Bridge {
  import opened Words
  import opened ModeWriters
  import opened Control
  import opened Gating
  import B = Bemf
  import C = Commutation
  import D = Duty
  import Arming
  import FastMath
  import Phase
  import Platform

  // ----- reading the log back -----

  datatype Gates = Released | OnSector(step: int) | PwmOnAll | DragBraking

  /** The gates as the last operation that touches them left them; released at power-on. */
  function GatesOf(log: seq<HalOp>): Gates {
    if log == [] then Released
    else
      match log[|log| - 1]
      case AllOff => Released
      case ComStep(step, _) => OnSector(step)
      case AllPwm(_) => PwmOnAll
      case ProportionalBrake => DragBraking
      case _ => GatesOf(log[..|log| - 1])
  }

  /** The sector and edge the comparator was last routed to. */
  function RouteOf(log: seq<HalOp>): Option<(int, bool)> {
    if log == [] then None
    else
      match log[|log| - 1]
      case Route(step, rising) => Some((step, rising))
      case _ => RouteOf(log[..|log| - 1])
  }

  /** The compare last written to all three phases. */
  function CompareOf(log: seq<HalOp>): Option<U16> {
    if log == [] then None
    else
      match log[|log| - 1]
      case SetDutyAll(compare) => Some(compare)
      case PhaseDuties(_, _, _) => None
      case _ => CompareOf(log[..|log| - 1])
  }

  /** No compare was written since the last latch. */
  predicate Latched(log: seq<HalOp>) {
    log != [] &&
    match log[|log| - 1]
    case Latch => true
    case SetDutyAll(_) => false
    case PhaseDuties(_, _, _) => false
    case _ => Latched(log[..|log| - 1])
  }

  predicate MovesGates(op: HalOp) { op.AllOff? || op.ComStep? || op.AllPwm? || op.ProportionalBrake? }

  predicate WritesCompares(op: HalOp) { op.SetDutyAll? || op.PhaseDuties? }

  ghost predicate LeavesDrive(ops: seq<HalOp>) { forall op :: op in ops ==> !MovesGates(op) && !op.Route? }

  lemma OneOp(log: seq<HalOp>, op: HalOp)
    ensures MovesGates(op) ==> GatesOf(log + [op]) == GatesOf([op])
    ensures !MovesGates(op) ==> GatesOf(log + [op]) == GatesOf(log)
    ensures RouteOf(log + [op]) == if op.Route? then Some((op.step, op.rising)) else RouteOf(log)
    ensures CompareOf(log + [op]) ==
      if op.SetDutyAll? then Some(op.compare) else if op.PhaseDuties? then None else CompareOf(log)
    ensures Latched(log + [op]) <==> op.Latch? || (Latched(log) && !WritesCompares(op))
  {
    assert (log + [op])[..|log|] == log;
  }

  lemma {:induction false} DriveLeft(log: seq<HalOp>, ops: seq<HalOp>)
    requires LeavesDrive(ops)
    ensures GatesOf(log + ops) == GatesOf(log) && RouteOf(log + ops) == RouteOf(log)
  {
    if ops == [] {
      assert log + ops == log;
    } else {
      var last := |ops| - 1;
      assert ops[last] in ops;
      DriveLeft(log, ops[..last]);
      OneOp(log + ops[..last], ops[last]);
      assert log + ops == log + ops[..last] + [ops[last]];
    }
  }

  /** Operations that drive a sector, perhaps toggle the pulse pin, and route the
      comparator to it. */
  lemma SectorDriven(log: seq<HalOp>, pre: seq<HalOp>, step: int, mode: Phase.PwmMode, mid: seq<HalOp>, rising: bool,
    post: seq<HalOp>)
    requires LeavesDrive(mid) && LeavesDrive(post)
    ensures var all := log + (pre + [ComStep(step, mode)] + mid + [Route(step, rising)] + post);
      GatesOf(all) == OnSector(step) && RouteOf(all) == Some((step, rising))
  {
    var a := log + pre;
    var b := a + [ComStep(step, mode)];
    OneOp(a, ComStep(step, mode));
    DriveLeft(b, mid);
    OneOp(b + mid, Route(step, rising));
    DriveLeft(b + mid + [Route(step, rising)], post);
    assert log + (pre + [ComStep(step, mode)] + mid + [Route(step, rising)] + post) ==
      b + mid + [Route(step, rising)] + post;
  }

  // ----- the sectors and the crossings they listen for -----

  /** The leg that is neither driven nor low. */
  function FloatingLeg(step: int): (f: nat)
    requires C.IsStep(step)
    ensures f < 3 && f != Phase.DrivenLeg(step) && f != Phase.LowLeg(step)
  {
    3 - Phase.DrivenLeg(step) - Phase.LowLeg(step)
  }

  /** Advancing is reversible, moves to an adjacent sector and hands one side of the
      bridge to the floating leg; its back-EMF crosses upwards exactly when it is the
      leg that was low before this sector and is driven after it. */
  lemma CrossingPolarity(step: int, forward: bool, mode: Phase.PwmMode)
    requires C.IsStep(step)
    ensures var before, after, leg := C.Next(step, !forward), C.Next(step, forward), FloatingLeg(step);
      Phase.StepLegs(step, mode)[leg].Float? && Phase.Adjacent(step, after) && C.Next(after, !forward) == step &&
      (C.RisingFor(step, forward) <==> leg == Phase.LowLeg(before) && leg == Phase.DrivenLeg(after)) &&
      (!C.RisingFor(step, forward) <==> leg == Phase.DrivenLeg(before) && leg == Phase.LowLeg(after))
  {
    Phase.Roles(step, mode, FloatingLeg(step));
  }

  // ----- what an event does to the drive -----

  /** The bridge drives the motor's sector and the comparator listens to it. */
  predicate DrivesSector(w: World) {
    GatesOf(w.hal.log) == OnSector(w.comm.step) && RouteOf(w.hal.log) == Some((w.comm.step, w.comm.rising))
  }

  predicate SameDrive(w: World, v: World) {
    GatesOf(v.hal.log) == GatesOf(w.hal.log) && RouteOf(v.hal.log) == RouteOf(w.hal.log) &&
    v.comm.step == w.comm.step && v.comm.rising == w.comm.rising
  }

  predicate Turning(w: World) { IsRunning(w.shared.motor.mode) }

  /** A motor that turns afterwards drives its sector, or turned before with the very
      same drive; one that does not has kept its sector. */
  predicate Follows(w: World, v: World) {
    if Turning(v) then DrivesSector(v) || (Turning(w) && SameDrive(w, v)) else v.comm.step == w.comm.step
  }

  lemma LogLeft(w: World, v: World, ops: seq<HalOp>)
    requires v.hal.log == w.hal.log + ops && LeavesDrive(ops)
    requires v.comm.step == w.comm.step && v.comm.rising == w.comm.rising
    ensures SameDrive(w, v)
  {
    DriveLeft(w.hal.log, ops);
  }

  lemma MaskedLeaves(w: World, c: Settings)
    requires Supported(c)
    ensures var v := MaskedUnlessRunning(w.(shared := Counted(w.shared, c)));
      SameDrive(w, v) && v.shared.motor == w.shared.motor && v.comm == w.comm
  {
    CountedKeeps(w.shared, c);
    hide Counted;
    OneOp(w.hal.log, MaskIrq);
  }

  lemma ActedKeepsRequest(w: World, r: Readings)
    ensures Acted(w, r).shared.throttle == w.shared.throttle
    ensures Acted(w, r).shared.motor.changeover == w.shared.motor.changeover
  {
    hide B.BlendedInterval;
    hide B.ZeroCrossRecorded;
  }

  lemma ActedLeaves(w: World, r: Readings)
    ensures SameDrive(w, Acted(w, r)) && Acted(w, r).shared.motor.mode == w.shared.motor.mode
    ensures Acted(w, r).comm == w.comm && Acted(w, r).shared.throttle == w.shared.throttle
    ensures Acted(w, r).shared.motor.changeover == w.shared.motor.changeover
  {
    ActedKeepsRequest(w, r);
    ActedQuiet(w, r);
    if !w.shared.commands.isrAction.KillAll? {
      ActionServed(w, r);
      hide Acted;
      var a := w.shared.commands.isrAction;
      var ops := (if a.CommutateKick? && Turning(w) then [TimerSet(1)] else []) +
        (if a.NoAction? then [] else [SetCount(0)]);
      assert Acted(w, r).hal.log == w.hal.log + ops;
      LogLeft(w, Acted(w, r), ops);
    }
  }

  lemma HandedOffDrives(w: World, c: Settings)
    requires 1 <= w.shared.motor.changeover <= 6 && w.shared.motor.mode.StepperSine?
    ensures var v := HandedOff(w, c);
      DrivesSector(v) && v.shared.motor.mode == OldRoutine && v.comm.step == w.shared.motor.changeover &&
      v.bemf.counter == 0 && v.bemf.badCount == 0 && !v.bemf.zcFound
  {
    hide GatesOf;
    hide RouteOf;
    hide DoneAll;
    hide C.RisingFor;
    var step := w.shared.motor.changeover;
    var comm := C.StepSet(w.comm, step);
    var pre := [TimerOff, MaskIrq, SetDutyAll(0), Latch];
    var mid := [SetCount(w.shared.motor.commutationInterval)];
    var post := [TimerSet(Wrap16(w.shared.motor.commutationInterval))];
    var ops := [TimerOff, MaskIrq, SetDutyAll(0), Latch, ComStep(step, c.pwmMode),
                SetCount(w.shared.motor.commutationInterval),
                Route(comm.step, comm.rising), TimerSet(Wrap16(w.shared.motor.commutationInterval))];
    DoneAllLogs(w.hal, ops);
    assert ops == pre + [ComStep(step, c.pwmMode)] + mid + [Route(step, comm.rising)] + post;
    SectorDriven(w.hal.log, pre, step, c.pwmMode, mid, comm.rising, post);
  }

  lemma ChangedFollows(w: World, c: Settings)
    ensures var v := Changed(w, c);
      if HandsOff(Directed(w)) then DrivesSector(v) && v.shared.motor.mode == OldRoutine
      else SameDrive(w, v) && v.shared.motor.mode == w.shared.motor.mode
  {
    hide HandedOff;
    if HandsOff(Directed(w)) { HandedOffDrives(Directed(w), c); }
  }

  lemma StartedDrives(w: World, c: Settings)
    requires Sound(w) && Supported(c) && w.shared.motor.mode.Armed?
    ensures DrivesSector(Started(w, c)) && Started(w, c).shared.motor.mode == OldRoutine
  {
    hide Stepped;
    hide BrakeReleased;
    hide GatesOf;
    hide RouteOf;
    hide DoneAll;
    var clean := BrakeReleased(Do(w, AllOff));
    assert clean.comm == w.comm && clean.shared == w.shared by { BrakeReleasedKeeps(Do(w, AllOff)); }
    var on := Stepped(Evented(clean, StartMotor).(duty := clean.duty.(last := clean.duty.minStartup)), c.hz);
    var interval: nat := Platform.UsToTicks(c.hz, 5000);
    var ops := [ComStep(on.comm.step, c.pwmMode), Route(on.comm.step, on.comm.rising), SetCount(interval / 2)];
    DoneAllLogs(on.hal, ops);
    assert ops == [] + [ComStep(on.comm.step, c.pwmMode)] + [] + [Route(on.comm.step, on.comm.rising)] +
      [SetCount(interval / 2)];
    SectorDriven(on.hal.log, [], on.comm.step, c.pwmMode, [], on.comm.rising, [SetCount(interval / 2)]);
  }

  lemma BrakeReleasedKeeps(w: World)
    ensures BrakeReleased(w).comm == w.comm && BrakeReleased(w).shared == w.shared
  {
  }

  lemma EnteredStops(w: World)
    requires IsArmed(w.shared.motor.mode)
    ensures SineEntered(w).shared.motor.mode.StepperSine? && SineEntered(w).comm == w.comm
  {
  }

  lemma DrivenFollows(w: World, c: Settings)
    requires Sound(w) && Supported(c)
    ensures var v := Driven(w, c);
      if w.shared.motor.mode.Armed? && w.shared.throttle.adjustedInput >= StartThreshold(c)
      then DrivesSector(v) && v.shared.motor.mode == OldRoutine
      else v.hal == w.hal && v.comm == w.comm && v.shared.motor.mode == w.shared.motor.mode
  {
    hide Started;
    hide SetpointOf;
    if w.shared.motor.mode.Armed? {
      StartedDrives(WithThrottle(w, w.shared.throttle.(setpoint := SetpointOf(w, c))), c);
    }
  }

  lemma LoadedLeaves(w: World, c: Settings)
    ensures var v := ArmingCounted(DutyLoaded(Kicked(w)), c);
      v.hal == w.hal && v.comm == w.comm &&
      (v.shared.motor.mode == w.shared.motor.mode || (w.shared.motor.mode.Disarmed? && v.shared.motor.mode.Armed?))
  {
    hide Wrap32;
    hide Wrap16;
  }

  /** Main's sector is taken over from sine drive, or the throttle asks an armed motor
      to turn. */
  predicate Starts(w: World, c: Settings) {
    (1 <= w.shared.motor.changeover <= 6 && w.shared.motor.mode.StepperSine? &&
     w.shared.throttle.adjustedInput > 200) ||
    (w.shared.motor.mode.Armed? && w.shared.throttle.adjustedInput >= StartThreshold(c))
  }

  predicate EntersSineNow(w: World, c: Settings) {
    IsArmed(w.shared.motor.mode) && c.sineStart && w.shared.throttle.adjustedInput < SINE_ENTRY_THROTTLE
  }

  lemma PreparedFollows(w: World, c: Settings)
    requires Sound(w) && Supported(c)
    ensures var v := Prepared(w, c);
      if Starts(w, c) then DrivesSector(v) && v.shared.motor.mode == OldRoutine
      else if EntersSineNow(w, c) then v.shared.motor.mode.StepperSine? && v.comm.step == w.comm.step
      else
        SameDrive(w, v) && (v.shared.motor.mode == w.shared.motor.mode ||
          (w.shared.motor.mode.Disarmed? && v.shared.motor.mode.Armed?))
  {
    hide Driven;
    hide SineEntered;
    hide Kicked;
    hide DutyLoaded;
    hide ArmingCounted;
    ChangedFollows(w, c);
    ChangedThrottle(w, c);
    var changed := Changed(w, c);
    hide Changed;
    if EntersSine(changed, c) {
      EnteredStops(changed);
      EnteredThrottle(changed);
    }
    var entered := if EntersSine(changed, c) then SineEntered(changed) else changed;
    DrivenFollows(entered, c);
    LoadedLeaves(Driven(entered, c), c);
  }

  lemma ChangedThrottle(w: World, c: Settings)
    ensures Changed(w, c).shared.throttle == w.shared.throttle
    ensures !HandsOff(Directed(w)) ==> Changed(w, c).comm.step == w.comm.step
  {
  }

  lemma EnteredThrottle(w: World)
    ensures SineEntered(w).shared.throttle.adjustedInput == w.shared.throttle.adjustedInput
  {
  }

  lemma SteppedByPollingDrives(w: World, c: Settings)
    requires C.Consistent(w.comm) && Supported(c)
    ensures DrivesSector(SteppedByPolling(w, c)) && SteppedByPolling(w, c).shared.motor.mode == w.shared.motor.mode
  {
    hide Stepped;
    var s := Stepped(w, c.hz);
    var ops := [ComStep(s.comm.step, c.pwmMode), PulseToggle(s.comm.step), Route(s.comm.step, s.comm.rising)];
    DoneAllLogs(s.hal, ops);
    assert ops == [] + [ComStep(s.comm.step, c.pwmMode)] + [PulseToggle(s.comm.step)] +
      [Route(s.comm.step, s.comm.rising)] + [];
    SectorDriven(s.hal.log, [], s.comm.step, c.pwmMode, [PulseToggle(s.comm.step)], s.comm.rising, []);
  }

  lemma PolledFollows(w: World, c: Settings, r: Readings)
    requires C.Consistent(w.comm) && Supported(c)
    ensures var v := Polled(w, c, r);
      (DrivesSector(v) || SameDrive(w, v)) && v.shared.motor.mode == w.shared.motor.mode
  {
    hide SteppedByPolling;
    hide B.Sampled;
    hide B.ZeroCrossDetected;
    hide B.BlendedInterval;
    hide B.ZeroCrossRecorded;
    var rising := w.comm.rising;
    var v := Do(w, MaskIrq).(bemf := B.Sampled(w.bemf, r.level, rising));
    OneOp(w.hal.log, MaskIrq);
    OneOp(v.hal.log, SetCount(0));
    var u := ZeroCrossTaken(Do(v, SetCount(0)), Saturate16(r.poll));
    SteppedByPollingDrives(u, c);
    OneOp(u.hal.log, TimerSet(B.ComTimerDelay(u.bemf)));
  }

  /** The operations of the output stage while the motor turns. */
  lemma OutputLeaves(w: World, c: Settings, count: U32)
    ensures var v := Published(Output(w, c), count);
      v.shared.motor.mode == w.shared.motor.mode && v.comm == w.comm && (Turning(w) ==> SameDrive(w, v)) &&
      v.shared.throttle == w.shared.throttle && v.shared.commands == w.shared.commands &&
      v.shared.drive == w.shared.drive
  {
    hide D.PwmCompare;
    hide D.BrakeCompare;
    hide BrakeDuty;
    DoneAllLogs(w.hal, OutputOps(w, c));
    var log := w.hal.log + OutputOps(w, c);
    if Turning(w) { OneOp(w.hal.log, SetDutyAll(D.PwmCompare(w.duty.cycle, w.shared.drive.tim1Arr))); }
    OneOp(log, SetPeriod(w.shared.drive.tim1Arr));
  }

  lemma RampedLeaves(w: World, c: Settings)
    requires Supported(c)
    ensures var v := Ceilinged(RampedWorld(w, c));
      v.hal == w.hal && v.comm == w.comm && v.shared.motor.mode == w.shared.motor.mode &&
      v.shared.throttle == w.shared.throttle && v.shared.commands == w.shared.commands &&
      v.shared.drive == w.shared.drive
  {
    hide D.Ramped;
    hide D.Clamped;
    hide RampInputsOf;
    hide AverageInterval;
  }

  lemma RestFollows(w: World, c: Settings, r: Readings)
    requires Sound(w) && Supported(c)
    ensures var v := Rest(w, c, r);
      Follows(w, v) && (Starts(w, c) ==> v.shared.motor.mode == OldRoutine && DrivesSector(v)) &&
      (!Starts(w, c) && EntersSineNow(w, c) ==> v.shared.motor.mode.StepperSine?) &&
      (!Starts(w, c) && !EntersSineNow(w, c) ==>
        (v.shared.motor.mode == w.shared.motor.mode ||
         (w.shared.motor.mode.Disarmed? && v.shared.motor.mode.Armed?)))
  {
    hide Prepared;
    hide Polled;
    hide Output;
    hide Published;
    hide Ceilinged;
    hide RampedWorld;
    hide HandsOff;
    PreparedFollows(w, c);
    var ready := Prepared(w, c);
    PolledFollows(ready, c, r);
    var polled := if PollsNow(ready, HandsOff(Directed(w))) then Polled(ready, c, r) else ready;
    RampedLeaves(polled, c);
    OutputLeaves(Ceilinged(RampedWorld(polled, c)), c, r.final);
  }

  // ----- one kill -----

  /** Gates released, zero compare latched, comparator masked, commutation timer off. */
  predicate BridgeOff(w: World) {
    GatesOf(w.hal.log) == Released && CompareOf(w.hal.log) == Some(0) && Latched(w.hal.log) &&
    !w.hal.irqEnabled && !w.hal.timerArmed
  }

  lemma FiveOps(h: Hal, a: HalOp, b: HalOp, c: HalOp, d: HalOp, e: HalOp)
    ensures DoneAll(h, [a, b, c, d, e]) == Done(Done(Done(Done(Done(h, a), b), c), d), e)
  {
    hide Done;
    ThreeOps(h, a, b, c);
    assert [a, b, c, d, e][..4][..3] == [a, b, c] && [a, b, c, d, e][..4] == [a, b, c, d];
  }

  lemma KillLog(log: seq<HalOp>)
    ensures var all := log + [TimerOff] + [AllOff] + [SetDutyAll(0)] + [Latch] + [MaskIrq];
      GatesOf(all) == Released && CompareOf(all) == Some(0) && Latched(all) && RouteOf(all) == RouteOf(log)
  {
    MoverGates();
    hide GatesOf;
    hide RouteOf;
    hide CompareOf;
    hide Latched;
    var timed := log + [TimerOff];
    OneOp(log, TimerOff);
    OneOp(timed, AllOff);
    OneOp(timed + [AllOff], SetDutyAll(0));
    OneOp(timed + [AllOff] + [SetDutyAll(0)], Latch);
    OneOp(timed + [AllOff] + [SetDutyAll(0)] + [Latch], MaskIrq);
  }

  lemma KillFlags(h: Hal)
    ensures var k := DoneAll(h, [TimerOff, AllOff, SetDutyAll(0), Latch, MaskIrq]);
      k.log == h.log + [TimerOff] + [AllOff] + [SetDutyAll(0)] + [Latch] + [MaskIrq] && !k.irqEnabled && !k.timerArmed
  {
    hide DoneAll;
    FiveOps(h, TimerOff, AllOff, SetDutyAll(0), Latch, MaskIrq);
  }

  lemma KilledReleases(w: World)
    ensures BridgeOff(KilledBetween(w)) && RouteOf(KilledBetween(w).hal.log) == RouteOf(w.hal.log)
  {
    hide GatesOf;
    hide RouteOf;
    hide CompareOf;
    hide Latched;
    hide DoneAll;
    KillFlags(w.hal);
    KillLog(w.hal.log);
  }

  /** The event handles a kill: a full tick that finds one, or a fast tick that finds
      one between its halves. */
  predicate Kills(w: World, e: Event) { (e.FullTick? && w.shared.commands.isrAction.KillAll?) || e.KillHalf? }

  /** Every kill releases all gates, latches a zero compare, stops the timer, masks the
      comparator and drops every pending request; mode and sector stay. */
  lemma KillReleasesBridge(w: World, e: Event, c: Settings)
    requires Sound(w) && Supported(c) && Enabled(w, e) && Kills(w, e)
    ensures var v := Gating.Next(w, e, c);
      BridgeOff(v) && !v.shared.commands.kickDown && v.shared.motor.changeover == 0 &&
      v.shared.commands.isrAction.NoAction? && !(e.FullTick? && (v.duty.sineOutputsOn || v.duty.activeBrakeOn)) &&
      v.shared.motor.mode == w.shared.motor.mode && v.comm == w.comm &&
      RouteOf(v.hal.log) == RouteOf(w.hal.log)
  {
    hide Rest;
    hide BridgeOff;
    hide DoneAll;
    MaskedLeaves(w, c);
    CountedKeeps(w.shared, c);
    hide Counted;
    var u := MaskedUnlessRunning(w.(shared := Counted(w.shared, c)));
    KilledReleases(u.(duty := u.duty.(sineOutputsOn := false, activeBrakeOn := false)));
    KilledReleases(w);
  }

  // ----- one full tick -----

  /** Every full tick that is not a kill: the mode moves only by a start, a sine entry
      or arming, a start ends driving the motor's sector, and the drive follows. */
  lemma TickFollows(w: World, c: Settings, r: Readings)
    requires Sound(w) && Supported(c) && !w.shared.commands.isrAction.KillAll?
    ensures var v, mode := Tick(w, c, r), w.shared.motor.mode;
      Follows(w, v) && (Starts(w, c) ==> v.shared.motor.mode == OldRoutine && DrivesSector(v)) &&
      (!Starts(w, c) && EntersSineNow(w, c) ==> v.shared.motor.mode.StepperSine?) &&
      (!Starts(w, c) && !EntersSineNow(w, c) ==>
        (v.shared.motor.mode == mode || (mode.Disarmed? && v.shared.motor.mode.Armed?)))
  {
    hide Rest;
    hide Acted;
    MaskedLeaves(w, c);
    CountedKeeps(w.shared, c);
    hide Counted;
    var u := MaskedUnlessRunning(w.(shared := Counted(w.shared, c)));
    ActedLeaves(u, r);
    ActedQuiet(u, r);
    RestFollows(Acted(u, r), c, r);
  }

  /** The mode after a full tick, case by case. */
  function ModeAfterTick(w: World, c: Settings): MotorMode {
    var mode, throttle := w.shared.motor.mode, w.shared.throttle;
    if w.shared.commands.isrAction.KillAll? then mode
    else if Starts(w, c) then OldRoutine
    else if EntersSineNow(w, c) then StepperSine
    else if mode.Disarmed? && throttle.inputSet && throttle.adjustedInput == 0 &&
      Wrap32(w.armedTimeout + 1) > c.tickHz then Armed
    else mode
  }

  lemma TickMovesMode(w: World, c: Settings, r: Readings)
    requires Sound(w) && Supported(c)
    ensures Tick(w, c, r).shared.motor.mode == ModeAfterTick(w, c)
  {
    hide Tick;
    hide Wrap32;
    Arming.TickArms(w, c, r);
    if w.shared.commands.isrAction.KillAll? {
      KillReleasesBridge(w, FullTick(r), c);
      NextTick(w, c, r);
    } else {
      TickFollows(w, c, r);
    }
  }

  lemma NextTick(w: World, c: Settings, r: Readings)
    requires Sound(w) && Supported(c)
    ensures Gating.Next(w, FullTick(r), c) == Tick(w, c, r)
  {
    hide Tick;
  }

  /** The operations of a start: gates released, an old brake compare cleared, the next
      sector driven and listened to, the interval restarted halfway. */
  lemma StartLogged(w: World, c: Settings)
    requires Sound(w) && Supported(c) && w.shared.motor.mode.Armed?
    ensures var v, n, half := Started(w, c), C.Next(w.comm.step, w.comm.forward), Platform.UsToTicks(c.hz, 5000) / 2;
      v.hal.log == w.hal.log + [AllOff] + (if w.duty.activeBrakeOn then [SetDutyAll(0), Latch] else []) +
        [ComStep(n, c.pwmMode), Route(n, C.RisingFor(n, w.comm.forward)), SetCount(half)] &&
      v.comm.step == n && v.comm.rising == C.RisingFor(n, w.comm.forward) && v.duty.last == w.duty.minStartup &&
      v.shared.motor.commutationInterval == Platform.UsToTicks(c.hz, 5000) && !v.duty.activeBrakeOn
  {
    hide Platform.SixIntervalsToUs;
    var interval: nat := Platform.UsToTicks(c.hz, 5000);
    assert interval / 2 < 0x1_0000_0000;
    hide Platform.UsToTicks;
    var off := Do(w, AllOff);
    if w.duty.activeBrakeOn { DoneAllLogs(off.hal, [SetDutyAll(0), Latch]); }
    var clean := BrakeReleased(off);
    var n := C.Next(w.comm.step, w.comm.forward);
    DoneAllLogs(clean.hal, [ComStep(n, c.pwmMode), Route(n, C.RisingFor(n, w.comm.forward)), SetCount(interval / 2)]);
  }

  /** The operations of a polling tick: without a crossing only the mask; the first
      crossings drive the next sector at once, later ones arm the timer. */
  lemma PollLogged(w: World, c: Settings, r: Readings)
    requires C.Consistent(w.comm) && Supported(c)
    ensures var v, n := Polled(w, c, r), C.Next(w.comm.step, w.comm.forward);
      var crossed := B.ZeroCrossDetected(B.Sampled(w.bemf, r.level, w.comm.rising), w.comm.rising);
      if !crossed then v.hal.log == w.hal.log + [MaskIrq] && v.comm == w.comm && v.shared == w.shared
      else if w.shared.motor.zeroCrosses < 5 then
        v.hal.log == w.hal.log + [MaskIrq] + [SetCount(0)] +
          [ComStep(n, c.pwmMode), PulseToggle(n), Route(n, C.RisingFor(n, w.comm.forward))] &&
        v.comm.step == n && v.shared.motor.zeroCrosses == w.shared.motor.zeroCrosses + 1 &&
        v.bemf.counter == 0 && !v.bemf.zcFound && v.bemf.thisZc == Min(r.poll, 65535)
      else
        v.hal.log == w.hal.log + [MaskIrq] + [SetCount(0)] + [TimerSet(B.ComTimerDelay(v.bemf))] &&
        v.comm == w.comm && v.hal.timerArmed && v.bemf.zcFound && v.bemf.thisZc == Min(r.poll, 65535) &&
        v.shared.motor.commutationInterval ==
          B.BlendedInterval(Min(r.poll, 65535), w.shared.motor.commutationInterval)
  {
    hide Platform.SixIntervalsToUs;
    hide B.Sampled;
    hide B.ZeroCrossDetected;
    hide B.BlendedInterval;
    hide B.WaitTime;
    var n := C.Next(w.comm.step, w.comm.forward);
    var h := Done(Done(w.hal, MaskIrq), SetCount(0));
    DoneAllLogs(h, [ComStep(n, c.pwmMode), PulseToggle(n), Route(n, C.RisingFor(n, w.comm.forward))]);
  }

  // ----- the bridge of a motor at rest -----

  /** Nobody may want the bridge: no tone, no sine above the signal threshold, no brake
      held at idle, no proportional brake. */
  predicate Idle(s: SharedComm, c: Settings) {
    !IsRunning(s.motor.mode) && !s.commands.toneActive && !s.throttle.propBrake &&
    !(s.motor.mode.StepperSine? && s.throttle.adjustedInput > 47) &&
    !(IsArmed(s.motor.mode) && c.brakeOnStop == 2)
  }

  /** The brake is held: an armed motor at rest below the start threshold. */
  predicate HoldsBrake(s: SharedComm, c: Settings) {
    IsArmed(s.motor.mode) && !IsRunning(s.motor.mode) && c.brakeOnStop == 2 &&
    s.throttle.adjustedInput < StartThreshold(c) && !(s.motor.mode.StepperSine? && s.throttle.adjustedInput > 47)
  }

  predicate DragBrakes(s: SharedComm, c: Settings) {
    !IsRunning(s.motor.mode) && s.throttle.propBrake && !HoldsBrake(s, c) &&
    !(s.motor.mode.StepperSine? && s.throttle.adjustedInput > 47)
  }

  /** Gates and compare of a motor at rest: released at zero when idle, proportional when
      that brake is on, sector 2 when the brake is held. */
  predicate RestsOn(v: World, s: SharedComm, c: Settings, brakeWasOn: bool) {
    var gates, compare := GatesOf(v.hal.log), CompareOf(v.hal.log);
    (Idle(s, c) ==> gates == Released && compare == Some(0)) &&
    (DragBrakes(s, c) ==>
      gates == DragBraking && compare == Some(D.BrakeCompare(c.dragBrakeStrength, s.drive.tim1Arr))) &&
    (HoldsBrake(s, c) ==>
      v.duty.activeBrakeOn && (brakeWasOn || gates == OnSector(2)) &&
      compare == Some(BrakeDuty(c.activeBrakePower, s.drive.tim1Arr)))
  }

  lemma TwoOps(log: seq<HalOp>, a: HalOp, compare: U16)
    requires MovesGates(a)
    ensures var all := log + [a, SetDutyAll(compare)];
      GatesOf(all) == GatesOf([a]) && CompareOf(all) == Some(compare)
  {
    OneOp(log, a);
    OneOp(log + [a], SetDutyAll(compare));
    assert log + [a, SetDutyAll(compare)] == log + [a] + [SetDutyAll(compare)];
  }

  lemma BrakeHeld(log: seq<HalOp>, brakeOn: bool, c: Settings, compare: U16)
    ensures var all := log + (BrakeOps(brakeOn, c) + [SetDutyAll(compare)]);
      CompareOf(all) == Some(compare) && (brakeOn || GatesOf(all) == OnSector(2))
  {
    var ops := BrakeOps(brakeOn, c);
    OneOp(log + ops, SetDutyAll(compare));
    assert log + (ops + [SetDutyAll(compare)]) == log + ops + [SetDutyAll(compare)];
    if !brakeOn {
      OneOp(log + [TimerOff, MaskIrq, SetDutyAll(0), Latch], ComStep(2, c.pwmMode));
      assert log + ops == log + [TimerOff, MaskIrq, SetDutyAll(0), Latch] + [ComStep(2, c.pwmMode)];
    }
  }

  lemma OutputAtRest(w: World, c: Settings, count: U32)
    requires !IsRunning(w.shared.motor.mode)
    ensures RestsOn(Published(Output(w, c), count), w.shared, c, w.duty.activeBrakeOn)
  {
    hide D.PwmCompare;
    hide D.BrakeCompare;
    hide BrakeDuty;
    hide GatesOf;
    hide CompareOf;
    hide BrakeOps;
    DoneAllLogs(w.hal, OutputOps(w, c));
    OneOp(w.hal.log + OutputOps(w, c), SetPeriod(w.shared.drive.tim1Arr));
    TwoOps(w.hal.log, AllOff, 0);
    TwoOps(w.hal.log, ProportionalBrake, D.BrakeCompare(c.dragBrakeStrength, w.shared.drive.tim1Arr));
    BrakeHeld(w.hal.log, w.duty.activeBrakeOn, c, BrakeDuty(c.activeBrakePower, w.shared.drive.tim1Arr));
    MoverGates();
  }

  lemma MoverGates()
    ensures GatesOf([AllOff]) == Released && GatesOf([ProportionalBrake]) == DragBraking
  {
  }

  lemma PreparedKeepsBrake(w: World, c: Settings)
    requires Sound(w) && Supported(c) && !Starts(w, c)
    ensures Prepared(w, c).duty.activeBrakeOn == w.duty.activeBrakeOn
  {
    hide DutyLoaded;
    hide Kicked;
    hide ArmingCounted;
    hide Driven;
    hide SineEntered;
    ChangedSetpoint(w, c);
    ChangedFollows(w, c);
    var changed := Changed(w, c);
    hide Changed;
    if EntersSine(changed, c) {
      EnteredStops(changed);
      EnteredKeepsBrake(changed);
    }
    var entered := if EntersSine(changed, c) then SineEntered(changed) else changed;
    UnstartedKeepsBrake(entered, c);
    LoadedKeepsBrake(Driven(entered, c), c);
  }

  lemma EnteredKeepsBrake(w: World)
    ensures SineEntered(w).duty.activeBrakeOn == w.duty.activeBrakeOn
  {
    hide DoneAll;
  }

  lemma UnstartedKeepsBrake(w: World, c: Settings)
    requires Sound(w) && Supported(c)
    requires !(w.shared.motor.mode.Armed? && w.shared.throttle.adjustedInput >= StartThreshold(c))
    ensures Driven(w, c).duty == w.duty
  {
    hide Started;
    hide SetpointOf;
  }

  lemma LoadedKeepsBrake(w: World, c: Settings)
    ensures ArmingCounted(DutyLoaded(Kicked(w)), c).duty.activeBrakeOn == w.duty.activeBrakeOn
  {
    hide Wrap16;
    hide Wrap32;
  }

  lemma RestAtRest(w: World, c: Settings, r: Readings)
    requires Sound(w) && Supported(c)
    ensures var v := Rest(w, c, r); Turning(v) || RestsOn(v, v.shared, c, w.duty.activeBrakeOn)
  {
    hide Prepared;
    hide Polled;
    hide Output;
    hide Published;
    hide Ceilinged;
    hide RampedWorld;
    hide HandsOff;
    hide RestsOn;
    RestFollows(w, c, r);
    PreparedFollows(w, c);
    var ready := Prepared(w, c);
    if !Starts(w, c) { PreparedKeepsBrake(w, c); }
    PolledFollows(ready, c, r);
    PolledKeeps(ready, c, r);
    var polled := if PollsNow(ready, HandsOff(Directed(w))) then Polled(ready, c, r) else ready;
    RampedLeaves(polled, c);
    RampedKeepsBrake(polled, c);
    var u := Ceilinged(RampedWorld(polled, c));
    OutputLeaves(u, c, r.final);
    if !Turning(u) {
      OutputAtRest(u, c, r.final);
      RestsOnReads(Published(Output(u, c), r.final), u.shared, c, u.duty.activeBrakeOn);
    }
  }

  lemma RampedKeepsBrake(w: World, c: Settings)
    requires Supported(c)
    ensures Ceilinged(RampedWorld(w, c)).duty.activeBrakeOn == w.duty.activeBrakeOn
  {
    hide RampInputsOf;
    hide AverageInterval;
    hide D.RampStep;
    hide D.Limited;
  }

  lemma RestsOnReads(v: World, s: SharedComm, c: Settings, brakeWasOn: bool)
    requires RestsOn(v, s, c, brakeWasOn)
    requires v.shared.motor.mode == s.motor.mode && v.shared.throttle == s.throttle
    requires v.shared.commands == s.commands && v.shared.drive == s.drive
    ensures RestsOn(v, v.shared, c, brakeWasOn)
  {
  }

  /** Every full tick that is not a kill and ends with the motor at rest leaves the
      bridge to exactly one owner: released at zero compare when nobody wants it. */
  lemma TickAtRest(w: World, c: Settings, r: Readings)
    requires Sound(w) && Supported(c) && !w.shared.commands.isrAction.KillAll? && !Turning(Tick(w, c, r))
    ensures RestsOn(Tick(w, c, r), Tick(w, c, r).shared, c, w.duty.activeBrakeOn)
  {
    hide Rest;
    hide Acted;
    hide RestsOn;
    CountedKeeps(w.shared, c);
    hide Counted;
    var u := MaskedUnlessRunning(w.(shared := Counted(w.shared, c)));
    ActedQuiet(u, r);
    RestAtRest(Acted(u, r), c, r);
  }

  // ----- what a tick takes over and publishes -----

  /** Direction and comparator settings taken over, readings and gate published, no
      action left pending. */
  predicate TakesOver(w: World, v: World, c: Settings, r: Readings)
    requires Supported(c)
  {
    var m, d := v.shared.motor, w.shared.drive;
    v.comm.forward == w.shared.motor.forward && m.forward == w.shared.motor.forward && m.intervalCount == r.final &&
    m.changeover == 0 && m.gateAvg == Wrap32(Max(AverageInterval(c, m.eComTime), 0)) && m.dutyCycle == v.duty.cycle &&
    v.bemf.filterLevel == d.filterLevel && v.bemf.minUp == d.minBemfCounts && v.bemf.minDown == d.minBemfCounts &&
    v.bemf.tempAdvance == d.autoAdvance && v.shared.commands.isrAction.NoAction? && !v.shared.commands.kickDown
  }

  lemma PreparedTakes(w: World, c: Settings)
    requires Sound(w) && Supported(c)
    ensures var v := Prepared(w, c);
      v.comm.forward == w.shared.motor.forward == v.shared.motor.forward && v.shared.motor.changeover == 0 &&
      v.shared.commands == w.shared.commands.(kickDown := false) && v.shared.drive == w.shared.drive
  {
    hide SetpointOf;
    hide D.KickedDown;
    hide DoneAll;
    hide Wrap16;
    hide Wrap32;
    ChangedTakes(w, c);
    hide Changed;
    var changed := Changed(w, c);
    var entered := if EntersSine(changed, c) then SineEntered(changed) else changed;
    DrivenTakes(entered, c);
  }

  lemma ChangedTakes(w: World, c: Settings)
    ensures var v := Changed(w, c);
      v.comm.forward == w.shared.motor.forward == v.shared.motor.forward && v.shared.motor.changeover == 0 &&
      v.shared.commands == w.shared.commands && v.shared.drive == w.shared.drive
  {
    hide DoneAll;
  }

  lemma DrivenTakes(w: World, c: Settings)
    requires Sound(w) && Supported(c)
    ensures var v := Driven(w, c);
      v.comm.forward == w.comm.forward && v.shared.motor.forward == w.shared.motor.forward &&
      v.shared.motor.changeover == w.shared.motor.changeover && v.shared.commands == w.shared.commands &&
      v.shared.drive == w.shared.drive
  {
    hide SetpointOf;
    hide DoneAll;
    hide Platform.SixIntervalsToUs;
  }

  lemma PolledTakes(w: World, c: Settings, r: Readings)
    requires C.Consistent(w.comm) && Supported(c)
    ensures var v := Polled(w, c, r);
      v.comm.forward == w.comm.forward && v.shared.commands == w.shared.commands && v.shared.drive == w.shared.drive
  {
    hide DoneAll;
    hide B.BlendedInterval;
    hide B.ZeroCrossDetected;
    hide Platform.SixIntervalsToUs;
  }

  lemma FinishTakes(w: World, c: Settings, count: U32)
    requires Supported(c)
    ensures var v := Published(Output(Ceilinged(RampedWorld(w, c)), c), count);
      var m, d := v.shared.motor, w.shared.drive;
      v.comm == w.comm && m.forward == w.comm.forward && m.intervalCount == count &&
      m.changeover == w.shared.motor.changeover && m.gateAvg == Wrap32(Max(AverageInterval(c, m.eComTime), 0)) &&
      m.dutyCycle == v.duty.cycle && v.shared.commands == w.shared.commands &&
      v.bemf.filterLevel == d.filterLevel && v.bemf.minUp == d.minBemfCounts && v.bemf.minDown == d.minBemfCounts &&
      v.bemf.tempAdvance == d.autoAdvance
  {
    hide D.Ramped;
    hide D.Clamped;
    hide RampInputsOf;
    hide AverageInterval;
    hide OutputOps;
    hide ToneOwns;
  }

  lemma ActedTakes(w: World, r: Readings)
    ensures var v := Acted(w, r);
      v.shared.commands == (if w.shared.commands.isrAction.KillAll? then w.shared.commands
                            else w.shared.commands.(isrAction := NoAction)) &&
      v.shared.drive == w.shared.drive && v.shared.motor.forward == w.shared.motor.forward
  {
    hide B.BlendedInterval;
  }

  /** Every full tick that is not a kill takes main's direction and comparator settings
      over, publishes its readings and the comparator's gate, and serves the action. */
  lemma TickTakesOver(w: World, c: Settings, r: Readings)
    requires Sound(w) && Supported(c) && !w.shared.commands.isrAction.KillAll?
    ensures TakesOver(w, Tick(w, c, r), c, r)
  {
    hide Prepared;
    hide Polled;
    hide Output;
    hide Published;
    hide Ceilinged;
    hide RampedWorld;
    hide HandsOff;
    hide Acted;
    hide AverageInterval;
    CountedKeeps(w.shared, c);
    hide Counted;
    var u := MaskedUnlessRunning(w.(shared := Counted(w.shared, c)));
    ActedTakes(u, r);
    ActedQuiet(u, r);
    var a := Acted(u, r);
    PreparedTakes(a, c);
    var ready := Prepared(a, c);
    PolledTakes(ready, c, r);
    PolledKeeps(ready, c, r);
    var polled := if PollsNow(ready, HandsOff(Directed(a))) then Polled(ready, c, r) else ready;
    FinishTakes(polled, c, r.final);
  }

  /** What the pending action does: a kick takes the reading as a crossing and arms the
      timer for one tick, kick and reset restart the interval. */
  lemma ActionServed(w: World, r: Readings)
    requires !w.shared.commands.isrAction.KillAll?
    ensures var v, a := Acted(w, r), w.shared.commands.isrAction;
      var crosses := a.CommutateKick? && Turning(w);
      v.hal.log == w.hal.log + (if crosses then [TimerSet(1)] else []) + (if a.NoAction? then [] else [SetCount(0)]) &&
      v.shared.commands.isrAction.NoAction? && (crosses ==> v.hal.timerArmed) &&
      v.bemf.thisZc == (if crosses then Min(r.action, 65535) else w.bemf.thisZc) &&
      v.bemf.lastZc == (if crosses then w.bemf.thisZc else w.bemf.lastZc) && (crosses ==> v.bemf.zcFound) &&
      v.shared.motor.commutationInterval ==
        if crosses then B.BlendedInterval(Min(r.action, 65535), w.shared.motor.commutationInterval)
        else w.shared.motor.commutationInterval
  {
    hide B.BlendedInterval;
    hide B.WaitTime;
    assert w.hal.log + [] == w.hal.log;
  }

  /** `min(10 floor(power * period / 2000), period)` stays within ten counts below
      power / 200 of the period. */
  lemma BrakeDutyScaled(power: U8, period: U16)
    ensures var d: int, exact: int := BrakeDuty(power, period), power * period / 200;
      d <= exact && (d == period || d + 10 > exact)
  {
    ProductBelow(power, period, 255, 65535);
    var product: nat := power * period;
    TenthsOf(product);
    B.NoWrap32(FastMath.Div2000U32(product) * 10);
    hide Wrap32;
  }

  lemma TenthsOf(product: nat)
    ensures 10 * (product / 2000) <= product / 200 < 10 * (product / 2000) + 10
  {
  }

  // ----- the setpoint of a tick -----

  /** The setpoint after a tick: zero on entering sine and below the threshold, the mapped
      throttle of a motor that is or gets armed six-step, else as it was. */
  function SetpointAfter(w: World, c: Settings): U16
    requires D.Configured(w.duty)
  {
    var s, input := w.shared, w.shared.throttle.adjustedInput;
    if EntersSineNow(w, c) && !Starts(w, c) then 0
    else if !IsArmed(s.motor.mode) || (s.motor.mode.StepperSine? && !Starts(w, c)) then s.throttle.setpoint
    else if input >= (if c.sineStart then 127 else 47) then
      D.Setpoint(w.duty, input, s.motor.zeroCrosses, c.stallProtection, c.sineStart)
    else 0
  }

  /** Run counters are cleared when the motor is armed, at rest and below the threshold. */
  predicate ClearsRun(w: World, c: Settings) {
    EntersSineNow(w, c) || (w.shared.motor.mode.Armed? && !Starts(w, c))
  }

  lemma ChangedSetpoint(w: World, c: Settings)
    ensures var v := Changed(w, c);
      v.shared.throttle == w.shared.throttle && v.shared.motor.zeroCrosses == w.shared.motor.zeroCrosses &&
      v.duty == w.duty
  {
    hide DoneAll;
  }

  predicate RunCleared(w: World) {
    w.shared.motor.zeroCrosses == 0 && w.bemf.counter == 0 && w.bemf.badCount == 0 && !w.bemf.zcFound
  }

  lemma EnteredSetpoint(w: World)
    ensures SineEntered(w).shared.throttle.setpoint == 0 && RunCleared(SineEntered(w))
  {
    hide DoneAll;
  }

  lemma DrivenSetpoint(w: World, c: Settings)
    requires Sound(w) && Supported(c) && IsArmed(w.shared.motor.mode) && !w.shared.motor.mode.StepperSine?
    ensures var v, input := Driven(w, c), w.shared.throttle.adjustedInput;
      v.shared.throttle.setpoint == (if input >= StartThreshold(c) then SetpointOf(w, c) else 0) &&
      (input < StartThreshold(c) && !Turning(w) ==> RunCleared(v))
  {
    hide SetpointOf;
    hide Stepped;
    hide DoneAll;
  }

  lemma LoadedKeepsRun(w: World, c: Settings)
    ensures var v := ArmingCounted(DutyLoaded(Kicked(w)), c);
      v.shared.throttle.setpoint == w.shared.throttle.setpoint && (RunCleared(w) ==> RunCleared(v))
  {
    hide Wrap16;
    hide Wrap32;
  }

  lemma PreparedSetpoint(w: World, c: Settings)
    requires Sound(w) && Supported(c)
    ensures Prepared(w, c).shared.throttle.setpoint == SetpointAfter(w, c)
    ensures ClearsRun(w, c) ==> RunCleared(Prepared(w, c))
  {
    hide D.Setpoint;
    hide Driven;
    hide SineEntered;
    hide Kicked;
    hide DutyLoaded;
    hide ArmingCounted;
    hide RunCleared;
    ChangedFollows(w, c);
    ChangedSetpoint(w, c);
    var changed := Changed(w, c);
    hide Changed;
    if EntersSine(changed, c) {
      EnteredStops(changed);
      EnteredSetpoint(changed);
      UndrivenKeeps(SineEntered(changed), c);
    }
    var entered := if EntersSine(changed, c) then SineEntered(changed) else changed;
    if IsArmed(entered.shared.motor.mode) && !entered.shared.motor.mode.StepperSine? {
      DrivenSetpoint(entered, c);
    } else {
      UndrivenKeeps(entered, c);
    }
    LoadedKeepsRun(Driven(entered, c), c);
  }

  lemma UndrivenKeeps(w: World, c: Settings)
    requires Sound(w) && Supported(c)
    requires !IsArmed(w.shared.motor.mode) || w.shared.motor.mode.StepperSine?
    ensures Driven(w, c) == w
  {
  }

  /** Every full tick that is not a kill leaves exactly that setpoint. */
  lemma TickSetpoint(w: World, c: Settings, r: Readings)
    requires Sound(w) && Supported(c) && !w.shared.commands.isrAction.KillAll?
    ensures Tick(w, c, r).shared.throttle.setpoint == SetpointAfter(w, c)
    ensures ClearsRun(w, c) && !Turning(Tick(w, c, r)) ==> RunCleared(Tick(w, c, r))
  {
    hide Prepared;
    hide Polled;
    hide Output;
    hide Published;
    hide Ceilinged;
    hide RampedWorld;
    hide HandsOff;
    hide Acted;
    hide SetpointAfter;
    hide RunCleared;
    TickFollows(w, c, r);
    CountedKeeps(w.shared, c);
    MaskedLeaves(w, c);
    hide Counted;
    var u := MaskedUnlessRunning(w.(shared := Counted(w.shared, c)));
    ActedLeaves(u, r);
    ActedQuiet(u, r);
    ActedKeepsRun(u, r);
    var a := Acted(u, r);
    SetpointReads(w, a, c);
    PreparedSetpoint(a, c);
    PreparedFollows(a, c);
    var ready := Prepared(a, c);
    PolledKeeps(ready, c, r);
    PolledFollows(ready, c, r);
    var polled := if PollsNow(ready, HandsOff(Directed(a))) then Polled(ready, c, r) else ready;
    FinishKeepsRun(polled, c, r.final);
  }

  lemma ActedKeepsRun(w: World, r: Readings)
    ensures Acted(w, r).shared.motor.zeroCrosses == w.shared.motor.zeroCrosses
  {
    hide B.BlendedInterval;
  }

  lemma SetpointReads(w: World, v: World, c: Settings)
    requires D.Configured(w.duty) && v.duty == w.duty && v.shared.throttle == w.shared.throttle
    requires v.shared.motor.mode == w.shared.motor.mode && v.shared.motor.zeroCrosses == w.shared.motor.zeroCrosses
    requires v.shared.motor.changeover == w.shared.motor.changeover
    ensures SetpointAfter(v, c) == SetpointAfter(w, c) && ClearsRun(v, c) == ClearsRun(w, c)
  {
    hide D.Setpoint;
  }

  lemma FinishKeepsRun(w: World, c: Settings, count: U32)
    requires Supported(c)
    ensures var v := Published(Output(Ceilinged(RampedWorld(w, c)), c), count);
      v.shared.throttle == w.shared.throttle && v.shared.motor.mode == w.shared.motor.mode &&
      (RunCleared(w) ==> RunCleared(v))
  {
    hide D.Ramped;
    hide D.Clamped;
    hide RampInputsOf;
    hide AverageInterval;
    hide OutputOps;
    hide ToneOwns;
  }

  // ----- telemetry by the tick -----

  function CountedTimes(s: SharedComm, c: Settings, n: nat): SharedComm
    requires Supported(c)
  {
    if n == 0 then s else Counted(CountedTimes(s, c, n - 1), c)
  }

  lemma TelemetryPeriod(c: Settings)
    requires Supported(c)
    ensures TelemetryTicks(c) == (29 + c.telemetryInterval) * (c.tickHz / 1000) && TelemetryTicks(c) >= 29
  {
    ProductBelow(29 + c.telemetryInterval, c.tickHz / 1000, 284, 230);
    ProductBelow(29, 1, 29 + c.telemetryInterval, c.tickHz / 1000);
  }

  lemma OneTickCounted(s: SharedComm, c: Settings)
    requires Supported(c) && c.telemetryInterval > 0 && s.telemetry.telemCounter < TelemetryTicks(c)
    ensures var t, next := Counted(s, c).telemetry, s.telemetry.telemCounter + 1;
      if next == TelemetryTicks(c) then t.telemCounter == 0 && t.sendTelemetry
      else t.telemCounter == next && t.sendTelemetry == s.telemetry.sendTelemetry
  {
    hide TelemetryTicks;
    hide Supported;
    hide Wrap32;
  }

  lemma {:induction false} CountsToLimit(s: SharedComm, c: Settings, n: nat)
    requires Supported(c) && c.telemetryInterval > 0 && s.telemetry.telemCounter == 0 && !s.telemetry.sendTelemetry
    requires TelemetryTicks(c) > 0
    ensures var t, limit: nat := CountedTimes(s, c, n).telemetry, TelemetryTicks(c);
      t.telemCounter == n % limit && (t.sendTelemetry <==> n >= limit)
  {
    hide TelemetryTicks;
    hide Supported;
    hide Counted;
    var limit: nat := TelemetryTicks(c);
    if n > 0 {
      CountsToLimit(s, c, n - 1);
      NextRemainder(n - 1, limit);
      OneTickCounted(CountedTimes(s, c, n - 1), c);
    }
  }

  /** Telemetry is requested every 29 ms plus the configured interval, counted in ticks:
      the counter is the ticks since the last request. */
  lemma TelemetryCadence(s: SharedComm, c: Settings, n: nat)
    requires Supported(c) && c.telemetryInterval > 0 && s.telemetry.telemCounter == 0 && !s.telemetry.sendTelemetry
    ensures var t, limit := CountedTimes(s, c, n).telemetry, (29 + c.telemetryInterval) * (c.tickHz / 1000);
      limit > 0 && t.telemCounter == n % limit && (t.sendTelemetry <==> n >= limit)
  {
    TelemetryPeriod(c);
    CountsToLimit(s, c, n);
    hide TelemetryTicks;
    hide CountedTimes;
  }

  lemma NextRemainder(n: nat, d: nat)
    requires d > 0
    ensures (n + 1) % d == if n % d + 1 == d then 0 else n % d + 1
    ensures n < d ==> n % d == n
    ensures n % d + 1 == d ==> n + 1 >= d
  {
    DivMod(n, d);
    var q, r := n / d, n % d;
    if r + 1 == d {
      assert n + 1 == (q + 1) * d + 0;
      ModUnique(n + 1, d, q + 1, 0);
    } else {
      ModUnique(n + 1, d, q, r + 1);
    }
  }

  // ----- entering sine -----

  lemma EnteredReleases(w: World)
    requires !w.shared.motor.mode.StepperSine?
    ensures BridgeOff(SineEntered(w))
  {
    MoverGates();
    hide GatesOf;
    hide RouteOf;
    hide CompareOf;
    hide Latched;
    hide DoneAll;
    var log := w.hal.log;
    ThreeOps(w.hal, AllOff, SetDutyAll(0), Latch);
    OneOp(log, AllOff);
    OneOp(log + [AllOff], SetDutyAll(0));
    OneOp(log + [AllOff] + [SetDutyAll(0)], Latch);
    var released := DoneAll(w.hal, [AllOff, SetDutyAll(0), Latch]);
    ShortOps(released, TimerOff, MaskIrq);
    OneOp(released.log, TimerOff);
    OneOp(released.log + [TimerOff], MaskIrq);
  }

  lemma PeriodLeavesOff(w: World, period: U16)
    requires BridgeOff(w)
    ensures BridgeOff(Do(w, SetPeriod(period)))
  {
    OneOp(w.hal.log, SetPeriod(period));
  }

  /** A tick that takes an armed or turning motor into sine drive leaves the bridge off
      for main to enable. */
  lemma SineEntryReleases(w: World, c: Settings, r: Readings)
    requires Sound(w) && Supported(c) && !w.shared.commands.isrAction.KillAll?
    requires EntersSineNow(w, c) && !w.shared.motor.mode.StepperSine? && w.shared.throttle.adjustedInput > 47
    ensures BridgeOff(Tick(w, c, r)) && Tick(w, c, r).shared.motor.mode.StepperSine?
  {
    hide Rest;
    hide Acted;
    hide BridgeOff;
    MaskedLeaves(w, c);
    CountedKeeps(w.shared, c);
    hide Counted;
    var u := MaskedUnlessRunning(w.(shared := Counted(w.shared, c)));
    ActedLeaves(u, r);
    ActedQuiet(u, r);
    SineRestReleases(Acted(u, r), c, r);
  }

  lemma SineRestReleases(w: World, c: Settings, r: Readings)
    requires Sound(w) && Supported(c)
    requires EntersSineNow(w, c) && !w.shared.motor.mode.StepperSine? && w.shared.throttle.adjustedInput > 47
    ensures BridgeOff(Rest(w, c, r)) && Rest(w, c, r).shared.motor.mode.StepperSine?
  {
    hide SineEntered;
    hide BridgeOff;
    hide RampedWorld;
    hide Ceilinged;
    hide DutyLoaded;
    hide Kicked;
    ChangedFollows(w, c);
    ChangedThrottle(w, c);
    var changed := Changed(w, c);
    hide Changed;
    EnteredReleases(changed);
    EnteredStops(changed);
    EnteredThrottle(changed);
    var entered := SineEntered(changed);
    LoadedLeaves(entered, c);
    LoadedThrottle(entered, c);
    var ready := Prepared(w, c);
    RampedLeaves(ready, c);
    var u := Ceilinged(RampedWorld(ready, c));
    OffReads(entered, u);
    SineOutputPeriod(u, c, r.final);
    PeriodLeavesOff(u, u.shared.drive.tim1Arr);
    OffReads(Do(u, SetPeriod(u.shared.drive.tim1Arr)), Published(Output(u, c), r.final));
  }

  lemma OffReads(w: World, v: World)
    requires v.hal == w.hal
    ensures BridgeOff(v) == BridgeOff(w)
  {
  }

  lemma LoadedThrottle(w: World, c: Settings)
    ensures ArmingCounted(DutyLoaded(Kicked(w)), c).shared.throttle.adjustedInput == w.shared.throttle.adjustedInput
  {
  }

  lemma SineOutputPeriod(w: World, c: Settings, count: U32)
    requires w.shared.motor.mode.StepperSine? && w.shared.throttle.adjustedInput > 47
    ensures Published(Output(w, c), count).hal == Done(w.hal, SetPeriod(w.shared.drive.tim1Arr))
    ensures Published(Output(w, c), count).shared.motor.mode.StepperSine?
  {
    hide Done;
    DoneAllEmpty(w.hal);
  }

  // ----- every interleaving -----

  /** Main never starts the motor: its mode events only disarm, arm, stop, demote to
      polling or enter sine. */
  predicate MainStartsNothing(w: World, e: Event) {
    e.MainWrites? && IsRunning(e.shared.motor.mode) ==> Turning(w)
  }

  lemma ExpiryDrives(w: World, c: Settings, bidirectional: bool, strict: bool)
    requires Sound(w) && Supported(c)
    ensures var v := Expired(w, c, bidirectional, strict);
      Follows(w, v) && Turning(v) == Turning(w) && (Turning(w) ==> DrivesSector(v))
  {
    hide Expired;
    ExpiryLogged(w, c, bidirectional, strict);
    var v, n := Expired(w, c, bidirectional, strict), C.Next(w.comm.step, w.comm.forward);
    if Turning(w) {
      var post := if v.shared.motor.mode.Running? then [EnableIrq] else [];
      var rising := C.RisingFor(n, w.comm.forward);
      SectorDriven(w.hal.log, [TimerOff], n, c.pwmMode, [PulseToggle(n)], rising, post);
      assert [TimerOff, ComStep(n, c.pwmMode), PulseToggle(n), Route(n, rising)] + post ==
        [TimerOff] + [ComStep(n, c.pwmMode)] + [PulseToggle(n)] + [Route(n, rising)] + post;
    }
  }

  lemma EdgeFollows(w: World, e: Edge)
    requires |e.samples| >= w.bemf.filterLevel
    ensures Follows(w, CompIrq(w, e))
  {
    hide CompIrq;
    EdgeArmsExactly(w, e);
    var v := CompIrq(w, e);
    if Accepts(w, e) {
      var ops := [ClearPending] + [MaskIrq, SetCount(0), TimerSet(B.ComTimerDelay(w.bemf))];
      assert v.hal.log == w.hal.log + ops;
      LogLeft(w, v, ops);
    } else {
      var ops :| v.hal.log == w.hal.log + ops && forall op :: op in ops ==> op in {MaskIrq, ClearPending, Repend};
      LogLeft(w, v, ops);
    }
  }

  lemma FastHalfFollows(w: World, c: Settings)
    requires Sound(w) && Supported(c)
    ensures Follows(w, SteadyUnmasked(w, c))
  {
    hide SteadyComputed;
    hide D.PwmCompare;
    var v := SteadyComputed(w, c);
    var arr := v.shared.drive.tim1Arr;
    var ops := [SetDutyAll(D.PwmCompare(v.duty.cycle, arr)), SetPeriod(arr)];
    DoneAllLogs(v.hal, ops);
    DriveLeft(w.hal.log, ops);
  }

  /** Over every event but a kill: a motor that turns afterwards is driven on its own
      sector with the comparator routed to it, unless the event left drive and sector
      exactly as they were; and what changes the sector drives the new one. */
  lemma EventFollows(w: World, e: Event, c: Settings)
    requires Sound(w) && Supported(c) && Enabled(w, e) && !Kills(w, e) && MainStartsNothing(w, e)
    ensures Follows(w, Gating.Next(w, e, c))
  {
    hide Tick;
    hide SteadyUnmasked;
    hide CompIrq;
    hide Expired;
    match e
    case FullTick(readings) => TickFollows(w, c, readings);
    case FastHalf => FastHalfFollows(w, c);
    case Expiry(bidirectional, strict) => ExpiryDrives(w, c, bidirectional, strict);
    case Comparator(edge) => EdgeFollows(w, edge);
    case _ =>
  }

  /** After any event that changes the sector, the bridge drives the new one and the
      comparator listens to it. */
  lemma SectorChangeDrives(w: World, e: Event, c: Settings)
    requires Sound(w) && Supported(c) && Enabled(w, e) && MainStartsNothing(w, e)
    requires Gating.Next(w, e, c).comm.step != w.comm.step
    ensures Turning(Gating.Next(w, e, c)) && DrivesSector(Gating.Next(w, e, c))
  {
    hide Gating.Next;
    if Kills(w, e) { KillReleasesBridge(w, e, c); } else { EventFollows(w, e, c); }
  }

  ghost predicate MainNeverStarts(states: seq<World>, events: seq<Event>) {
    forall i :: 0 <= i < |events| && i < |states| ==> MainStartsNothing(states[i], events[i])
  }

  ghost predicate NoKillBefore(states: seq<World>, events: seq<Event>, n: nat) {
    forall i :: 0 <= i < n && i < |events| && i < |states| ==> !Kills(states[i], events[i])
  }

  /** While the motor turns the comparator listens to its sector, and the bridge drives
      that sector or, after a kill, nothing. */
  predicate InPhase(w: World) {
    Turning(w) ==>
      RouteOf(w.hal.log) == Some((w.comm.step, w.comm.rising)) &&
      (GatesOf(w.hal.log) == OnSector(w.comm.step) || GatesOf(w.hal.log) == Released)
  }

  /** In every interleaving, from a motor at rest: never is a sector driven other than
      the one the motor is in, and without a kill exactly that one is. */
  lemma {:induction false} RunStaysInPhase(states: seq<World>, events: seq<Event>, c: Settings, n: nat)
    requires Supported(c) && Run(states, events, c) && MainNeverStarts(states, events) && n < |states|
    requires !Turning(states[0])
    ensures InPhase(states[n])
    ensures Turning(states[n]) && NoKillBefore(states, events, n) ==> DrivesSector(states[n])
  {
    hide Gating.Next;
    hide Kills;
    if n > 0 {
      RunStaysInPhase(states, events, c, n - 1);
      RunStaysSound(states, events, c, n - 1);
      var w, e := states[n - 1], events[n - 1];
      assert MainStartsNothing(w, e);
      if Kills(w, e) { KillReleasesBridge(w, e, c); } else { EventFollows(w, e, c); }
    }
  }
}