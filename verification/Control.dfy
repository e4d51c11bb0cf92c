/** The control tick and the comparator and commutation-timer interrupts as functions
    of the whole motor state (rm32/src/control/isr_logic.rs). The hardware is the
    list of operations done on it plus two interrupt flags. */
module Control {
  import opened Words
  import opened ModeWriters
  import B = Bemf
  import C = Commutation
  import D = Duty
  import FastMath
  import Phase
  import Platform

  const SINE_ENTRY_THROTTLE: nat := 127
  const SINE_CHANGEOVER_THROTTLE: nat := 200
  const MIN_ZC_FOR_ADVANCE: nat := 5
  const OLD_ROUTINE_EXIT_ZC: nat := 20
  const COMMUTATE_KICK_DELAY_TICKS: nat := 1
  const TELEMETRY_INTERVAL_MS: nat := 30

  datatype IsrAction = NoAction | ResetIntervalTimer | CommutateKick | KillAll

  /** One entry per hardware operation; `Route` selects the comparator input and edge
      of the phase floating in a step, `PhaseDuties` the sine angles of the phases. */
  datatype HalOp =
    | MaskIrq | EnableIrq | ClearPending | Repend | Route(step: int, rising: bool)
    | TimerOff | TimerSet(ticks: U16) | SetCount(count: U32)
    | AllOff | ComStep(step: int, mode: Phase.PwmMode) | PulseToggle(step: int) | ProportionalBrake
    | SetDutyAll(compare: U16) | Latch | SetPeriod(period: U16)
    | AllPwm(mode: Phase.PwmMode) | PhaseDuties(a: int, b: int, c: int)

  datatype Hal = Hal(log: seq<HalOp>, irqEnabled: bool, timerArmed: bool)

  function Done(h: Hal, op: HalOp): Hal {
    Hal(h.log + [op],
        if op.MaskIrq? then false else if op.EnableIrq? then true else h.irqEnabled,
        if op.TimerOff? then false else if op.TimerSet? then true else h.timerArmed)
  }

  function DoneAll(h: Hal, ops: seq<HalOp>): Hal {
    if ops == [] then h else Done(DoneAll(h, ops[..|ops| - 1]), ops[|ops| - 1])
  }

  /** What the contexts share, in the groups of `shared_comm`. */
  datatype MotorStatus = MotorStatus(
    mode: MotorMode, zeroCrosses: nat, commutationInterval: U32, eComTime: I32, gateAvg: U32, forward: bool,
    desyncPending: bool, changeover: U8, intervalCount: U32, dutyCycle: U16)
  datatype Throttle = Throttle(adjustedInput: U16, inputSet: bool, setpoint: U16, signalTimeout: U32, propBrake: bool)
  datatype Drive = Drive(tim1Arr: U16, filterLevel: U8, minBemfCounts: U8, autoAdvance: U8)
  datatype Protections = Protections(dutyMaximum: U16, stallAdjust: U16, currentLimit: U16)
  datatype Telemetry = Telemetry(sendTelemetry: bool, telemCounter: U16, battery: U16)
  datatype Commands = Commands(
    isrAction: IsrAction, kickDown: bool, controlTicks: U32, oneKhzCounter: U8, toneActive: bool)

  datatype SharedComm = SharedComm(
    motor: MotorStatus, throttle: Throttle, drive: Drive, protections: Protections, telemetry: Telemetry,
    commands: Commands)

  datatype World = World(shared: SharedComm, duty: D.Duty, bemf: B.Bemf, comm: C.Sector, armedTimeout: U32, hal: Hal)

  /** Board and stored settings; `hz` and `tickHz` are the timer and control rates. */
  datatype Settings = Settings(
    hz: nat, tickHz: nat, voltageRamp: bool, sineStart: bool, telemetryInterval: U8, stallProtection: U8,
    pwmMode: Phase.PwmMode, brakeOnStop: U8, activeBrakePower: U8, dragBrakeStrength: U8)

  predicate Supported(c: Settings) {
    Platform.SupportedTimer(c.hz) && 1000 <= c.tickHz <= 230_000 && c.tickHz % 1000 == 0
  }

  /** Interval-timer readings at the three places a tick takes one, and the
      comparator level it samples. */
  datatype Readings = Readings(action: U32, poll: U32, final: U32, level: bool)

  predicate Sound(w: World) { C.Consistent(w.comm) && D.Configured(w.duty) }

  function Saturate16(count: U32): (c: U16) { if count > 65535 then 65535 else count }

  function StartThreshold(c: Settings): nat { if c.sineStart then SINE_ENTRY_THROTTLE else D.THROTTLE_MIN_SIGNAL }

  function Do(w: World, op: HalOp): World { w.(hal := Done(w.hal, op)) }

  function DoSeq(w: World, ops: seq<HalOp>): World { w.(hal := DoneAll(w.hal, ops)) }

  function WithMotor(w: World, m: MotorStatus): World { w.(shared := w.shared.(motor := m)) }

  function WithThrottle(w: World, t: Throttle): World { w.(shared := w.shared.(throttle := t)) }

  function WithCommands(w: World, k: Commands): World { w.(shared := w.shared.(commands := k)) }

  function Evented(w: World, e: MotorEvent): World {
    WithMotor(w, w.shared.motor.(mode := Transition(w.shared.motor.mode, e)))
  }

  function AverageInterval(c: Settings, eCom: I32): int
    requires Supported(c)
  {
    Platform.EComUsToAvgTicks(c.hz, eCom)
  }

  // ----- the phases of a full tick -----

  function TelemetryTicks(c: Settings): U16
    requires Supported(c)
  {
    Wrap16((TELEMETRY_INTERVAL_MS - 1 + c.telemetryInterval) * (c.tickHz / 1000))
  }

  function Counted(s: SharedComm, c: Settings): SharedComm
    requires Supported(c)
  {
    var k := s.commands;
    var t := s.(commands := k.(controlTicks := Wrap32(k.controlTicks + 1),
                               oneKhzCounter := if k.oneKhzCounter == 255 then 255 else k.oneKhzCounter + 1));
    if c.telemetryInterval == 0 then t
    else
      var next := if s.telemetry.telemCounter == 65535 then 65535 else s.telemetry.telemCounter + 1;
      if next >= TelemetryTicks(c) then t.(telemetry := t.telemetry.(telemCounter := 0, sendTelemetry := true))
        else t.(telemetry := t.telemetry.(telemCounter := next))
  }

  function MaskedUnlessRunning(w: World): World { if IsRunning(w.shared.motor.mode) then w else Do(w, MaskIrq) }

  /** Every gate off and pending requests dropped: the kill that a fast tick finds
      between its halves. */
  function KilledBetween(w: World): World {
    DoSeq(w.(shared := w.shared.(commands := w.shared.commands.(kickDown := false, isrAction := NoAction),
                                 motor := w.shared.motor.(changeover := 0))),
          [TimerOff, AllOff, SetDutyAll(0), Latch, MaskIrq])
  }

  /** The full tick's kill also forgets that sine or brake outputs are on. */
  function Killed(w: World): World {
    KilledBetween(w.(duty := w.duty.(sineOutputsOn := false, activeBrakeOn := false)))
  }

  function ZeroCrossTaken(w: World, measured: U16): World {
    var interval := w.shared.motor.commutationInterval;
    WithMotor(w, w.shared.motor.(commutationInterval := B.BlendedInterval(measured, interval))).(
      bemf := B.ZeroCrossRecorded(w.bemf, measured, interval))
  }

  function Acted(w: World, r: Readings): World {
    match w.shared.commands.isrAction
    case ResetIntervalTimer => WithCommands(Do(w, SetCount(0)), w.shared.commands.(isrAction := NoAction))
    case CommutateKick =>
      var v := if IsRunning(w.shared.motor.mode)
               then Do(ZeroCrossTaken(w, Saturate16(r.action)), TimerSet(COMMUTATE_KICK_DELAY_TICKS)) else w;
      WithCommands(Do(v, SetCount(0)), v.shared.commands.(isrAction := NoAction))
    case _ => w
  }

  /** Main published a sector, the motor is still in sine and the throttle still up. */
  predicate HandsOff(w: World) {
    1 <= w.shared.motor.changeover <= 6 && w.shared.motor.mode.StepperSine? &&
    w.shared.throttle.adjustedInput > SINE_CHANGEOVER_THROTTLE
  }

  function Directed(w: World): World { w.(comm := w.comm.(forward := w.shared.motor.forward)) }

  /** The sector is driven only with the timer stopped, the comparator masked and
      zero duty latched; the timer is re-armed last. */
  function HandedOff(w: World, c: Settings): World {
    var step := w.shared.motor.changeover;
    var comm := C.StepSet(w.comm, step);
    Evented(DoSeq(w.(comm := comm, bemf := B.StepReset(w.bemf)),
      [TimerOff, MaskIrq, SetDutyAll(0), Latch, ComStep(step, c.pwmMode), SetCount(w.shared.motor.commutationInterval),
       Route(comm.step, comm.rising), TimerSet(Wrap16(w.shared.motor.commutationInterval))]), ExitSine)
  }

  /** Direction, handoff, and the request cleared whether or not it was taken. */
  function Changed(w: World, c: Settings): (r: World)
    ensures Sound(w) ==> Sound(r)
  {
    var v := Directed(w);
    var u := if HandsOff(v) then HandedOff(v, c) else v;
    Directed(WithMotor(u, u.shared.motor.(changeover := 0)))
  }

  predicate EntersSine(w: World, c: Settings) {
    IsArmed(w.shared.motor.mode) && c.sineStart && w.shared.throttle.adjustedInput < StartThreshold(c)
  }

  /** Setpoint and run counters cleared. */
  function IdleReset(u: World): World {
    WithThrottle(WithMotor(u, u.shared.motor.(zeroCrosses := 0)), u.shared.throttle.(setpoint := 0)).(
      bemf := B.StepReset(u.bemf))
  }

  function SineEntered(w: World): (r: World)
    ensures Sound(w) ==> Sound(r)
  {
    var v := if w.shared.motor.mode.StepperSine? then w
             else DoSeq(w, [AllOff, SetDutyAll(0), Latch]).(duty := w.duty.(sineOutputsOn := false));
    var u := Evented(Evented(v, StopMotor), EnterSine);
    DoSeq(IdleReset(u), [TimerOff, MaskIrq])
  }

  /** Commutate once and publish the new period. */
  function Stepped(w: World, hz: nat): (r: World)
    requires C.Consistent(w.comm) && Platform.SupportedTimer(hz)
    ensures C.Consistent(r.comm) &&
      r == w.(comm := r.comm, shared := w.shared.(motor := w.shared.motor.(eComTime := r.shared.motor.eComTime)))
  {
    C.ReplacedSlot(w.comm.intervals, C.Advanced(w.comm).step - 1, Wrap16(w.shared.motor.commutationInterval));
    var comm := C.Recorded(C.Advanced(w.comm), Wrap16(w.shared.motor.commutationInterval));
    var eCom := Platform.SixIntervalsToUs(hz, C.SumOf(comm.intervals));
    WithMotor(w, w.shared.motor.(eComTime := eCom)).(comm := comm)
  }

  function BrakeReleased(w: World): World {
    if w.duty.activeBrakeOn then DoSeq(w, [SetDutyAll(0), Latch]).(duty := w.duty.(activeBrakeOn := false)) else w
  }

  function Started(w: World, c: Settings): (r: World)
    requires Sound(w) && Supported(c)
    ensures Sound(r)
  {
    var off := Do(w, AllOff);
    var clean := BrakeReleased(off);
    var on := Stepped(Evented(clean, StartMotor).(duty := clean.duty.(last := clean.duty.minStartup)), c.hz);
    var interval: nat := Platform.UsToTicks(c.hz, 5000);
    DoSeq(WithMotor(on, on.shared.motor.(commutationInterval := interval)),
          [ComStep(on.comm.step, c.pwmMode), Route(on.comm.step, on.comm.rising), SetCount(interval / 2)])
  }

  function SetpointOf(w: World, c: Settings): U16
    requires D.Configured(w.duty)
  {
    D.Setpoint(w.duty, w.shared.throttle.adjustedInput, w.shared.motor.zeroCrosses, c.stallProtection, c.sineStart)
  }

  function Driven(w: World, c: Settings): (r: World)
    requires Sound(w) && Supported(c)
    ensures Sound(r)
  {
    if !IsArmed(w.shared.motor.mode) || w.shared.motor.mode.StepperSine? then w
    else if w.shared.throttle.adjustedInput >= StartThreshold(c) then
      var v := WithThrottle(w, w.shared.throttle.(setpoint := SetpointOf(w, c)));
      if IsRunning(w.shared.motor.mode) then v else Started(v, c)
    else
      var v := WithThrottle(w, w.shared.throttle.(setpoint := 0));
      if IsRunning(w.shared.motor.mode) then v
      else v.(shared := v.shared.(motor := v.shared.motor.(zeroCrosses := 0)), bemf := B.StepReset(v.bemf))
  }

  function Kicked(w: World): World {
    w.(shared := w.shared.(commands := w.shared.commands.(kickDown := false)),
       duty := if w.shared.commands.kickDown && IsRunning(w.shared.motor.mode) then D.KickedDown(w.duty) else w.duty)
  }

  function SaturatingInc32(x: U32): U32 { if x == 0xFFFF_FFFF then x else x + 1 }

  function DutyLoaded(w: World): World {
    WithThrottle(w, w.shared.throttle.(signalTimeout := SaturatingInc32(w.shared.throttle.signalTimeout))).(
      duty := w.duty.(cycle := w.shared.throttle.setpoint, rampCount := Wrap16(w.duty.rampCount + 1)))
  }

  /** A second of zero throttle arms. */
  function ArmingCounted(w: World, c: Settings): World {
    if IsArmed(w.shared.motor.mode) then w
    else if w.shared.throttle.inputSet && w.shared.throttle.adjustedInput == 0 then
      var n := Wrap32(w.armedTimeout + 1);
      if n > c.tickHz then Evented(w, Arm).(armedTimeout := 0) else w.(armedTimeout := n)
    else w.(armedTimeout := 0)
  }

  /** The first crossings commutate at once. */
  function SteppedByPolling(w: World, c: Settings): (p: World)
    requires C.Consistent(w.comm) && Supported(c)
    ensures C.Consistent(p.comm)
  {
    var s := Stepped(w, c.hz);
    var counted := WithMotor(s, s.shared.motor.(zeroCrosses := s.shared.motor.zeroCrosses + 1));
    DoSeq(counted.(bemf := B.StepReset(s.bemf)),
          [ComStep(s.comm.step, c.pwmMode), PulseToggle(s.comm.step), Route(s.comm.step, s.comm.rising)])
  }

  function Polled(w: World, c: Settings, r: Readings): (p: World)
    requires C.Consistent(w.comm) && Supported(c)
    ensures C.Consistent(p.comm)
  {
    var rising := w.comm.rising;
    var v := Do(w, MaskIrq).(bemf := B.Sampled(w.bemf, r.level, rising));
    if !B.ZeroCrossDetected(v.bemf, rising) then v
    else
      var u := ZeroCrossTaken(Do(v, SetCount(0)), Saturate16(r.poll));
      if u.shared.motor.zeroCrosses < MIN_ZC_FOR_ADVANCE then SteppedByPolling(u, c)
      else Do(u, TimerSet(B.ComTimerDelay(u.bemf)))
  }

  function RampInputsOf(s: SharedComm, c: Settings): D.RampInputs
    requires Supported(c)
  {
    D.RampInputs(s.telemetry.battery, s.motor.commutationInterval, s.motor.zeroCrosses,
      Wrap32(AverageInterval(c, s.motor.eComTime)), c.voltageRamp)
  }

  /** Latch the comparator gate, then ramp. */
  function RampedWorld(w: World, c: Settings): World
    requires Supported(c)
  {
    var gate := Wrap32(Max(AverageInterval(c, w.shared.motor.eComTime), 0));
    WithMotor(w, w.shared.motor.(gateAvg := gate)).(
       duty := D.Ramped(w.duty, c.hz, RampInputsOf(w.shared, c)))
  }

  /** Main's comparator settings taken over. */
  function Synced(w: World): World {
    var d := w.shared.drive;
    w.(bemf := B.Configured(w.bemf, d.filterLevel, d.autoAdvance, d.minBemfCounts))
  }

  function Ceilinged(w: World): World {
    Synced(w).(duty := D.Clamped(w.duty, if IsRunning(w.shared.motor.mode) then w.shared.protections.stallAdjust else 0,
                         w.shared.protections.dutyMaximum, w.shared.protections.currentLimit))
  }

  // ----- bridge output -----

  predicate SineDrive(w: World) {
    w.shared.motor.mode.StepperSine? && w.shared.throttle.adjustedInput > D.THROTTLE_MIN_SIGNAL
  }

  predicate ActiveBrake(w: World, c: Settings) {
    IsArmed(w.shared.motor.mode) && !IsRunning(w.shared.motor.mode) &&
    w.shared.throttle.adjustedInput < StartThreshold(c) &&
    !SineDrive(w) && c.brakeOnStop == 2
  }

  predicate BridgeBusy(s: SharedComm, brakeOn: bool) {
    !IsArmed(s.motor.mode) || IsRunning(s.motor.mode) || s.motor.mode.StepperSine? || s.throttle.propBrake || brakeOn
  }

  predicate ToneOwns(w: World, c: Settings) {
    w.shared.commands.toneActive && !BridgeBusy(w.shared, ActiveBrake(w, c))
  }

  /** `min(power * arr / 2000 * 10, arr)`. */
  function BrakeDuty(power: U8, arr: U16): (d: U16)
    ensures d <= arr
  {
    ProductBelow(power, arr, 255, 65535);
    var product: nat := power * arr;
    Min(Wrap32(FastMath.Div2000U32(product) * 10), arr)
  }

  /** The brake sector is driven once, with the timer stopped and the comparator masked. */
  function BrakeOps(brakeOn: bool, c: Settings): seq<HalOp> {
    if brakeOn then [] else [TimerOff, MaskIrq, SetDutyAll(0), Latch, ComStep(2, c.pwmMode)]
  }

  function OutputOps(w: World, c: Settings): seq<HalOp> {
    if ToneOwns(w, c) || SineDrive(w) then []
    else if ActiveBrake(w, c) then
      BrakeOps(w.duty.activeBrakeOn, c) + [SetDutyAll(BrakeDuty(c.activeBrakePower, w.shared.drive.tim1Arr))]
    else if IsRunning(w.shared.motor.mode) then [SetDutyAll(D.PwmCompare(w.duty.cycle, w.shared.drive.tim1Arr))]
    else if w.shared.throttle.propBrake then
      [ProportionalBrake, SetDutyAll(D.BrakeCompare(c.dragBrakeStrength, w.shared.drive.tim1Arr))]
    else [AllOff, SetDutyAll(0)]
  }

  function DutyPublished(w: World, toneOwns: bool): World {
    var u := w.(duty := D.Finalized(w.duty), shared := w.shared.(motor := w.shared.motor.(dutyCycle := w.duty.cycle)));
    if toneOwns then u else Do(u, SetPeriod(u.shared.drive.tim1Arr))
  }

  function Output(w: World, c: Settings): World {
    var v := DoSeq(w, OutputOps(w, c)).(duty := w.duty.(
      sineOutputsOn := w.duty.sineOutputsOn && SineDrive(w),
      activeBrakeOn := ActiveBrake(w, c)));
    DutyPublished(v, ToneOwns(w, c))
  }

  function Published(w: World, count: U32): World {
    WithMotor(w, w.shared.motor.(forward := w.comm.forward, intervalCount := count))
  }

  /** From the one-shot actions to arming. */
  function Prepared(w: World, c: Settings): (r: World)
    requires Sound(w) && Supported(c)
    ensures Sound(r)
  {
    var changed := Changed(w, c);
    var entered := if EntersSine(changed, c) then SineEntered(changed) else changed;
    ArmingCounted(DutyLoaded(Kicked(Driven(entered, c))), c)
  }

  predicate PollsNow(w: World, handoff: bool) { !handoff && w.shared.motor.mode.OldRoutine? }

  function Rest(w: World, c: Settings, r: Readings): World
    requires Sound(w) && Supported(c)
  {
    var ready := Prepared(w, c);
    var polled := if PollsNow(ready, HandsOff(Directed(w))) then Polled(ready, c, r) else ready;
    Published(Output(Ceilinged(RampedWorld(polled, c)), c), r.final)
  }

  /** `ten_khz_tick`. */
  function Tick(w: World, c: Settings, r: Readings): World
    requires Sound(w) && Supported(c)
  {
    var v := MaskedUnlessRunning(w.(shared := Counted(w.shared, c)));
    if v.shared.commands.isrAction.KillAll? then Killed(v) else Rest(Acted(v, r), c, r)
  }

  // ----- the fast path -----

  predicate IsSteady(s: SharedComm, c: Settings) {
    s.motor.mode.Running? && !s.commands.toneActive && s.commands.isrAction.NoAction? && s.motor.changeover == 0 &&
    s.throttle.adjustedInput >= StartThreshold(c)
  }

  function SteadyKicked(w: World, c: Settings): World
    requires D.Configured(w.duty)
  {
    var clear := WithMotor(w, w.shared.motor.(changeover := 0));
    var set_ := WithThrottle(clear, clear.shared.throttle.(setpoint := SetpointOf(clear, c)));
    WithCommands(set_, set_.shared.commands.(kickDown := false)).(
      duty := if set_.shared.commands.kickDown then D.KickedDown(set_.duty) else set_.duty)
  }

  function SteadyFinal(w: World): World {
    var p := w.shared.protections;
    var clamped := D.Clamped(w.duty, p.stallAdjust, p.dutyMaximum, p.currentLimit);
    var duty := D.Finalized(clamped.(sineOutputsOn := false, activeBrakeOn := false));
    WithMotor(w, w.shared.motor.(dutyCycle := duty.cycle)).(duty := duty)
  }

  /** The duty calculation of a fast tick; it touches no hardware. */
  function SteadyComputed(w: World, c: Settings): (r: World)
    requires D.Configured(w.duty) && Supported(c)
    ensures r.hal == w.hal && r.comm == w.comm && r.bemf == w.bemf
    ensures r.shared.motor.mode == w.shared.motor.mode && r.shared.drive.tim1Arr == w.shared.drive.tim1Arr
  {
    hide D.Setpoint;
    hide D.Ramped;
    hide D.Clamped;
    hide D.KickedDown;
    hide TelemetryTicks;
    hide RampInputsOf;
    hide AverageInterval;
    SteadyFinal(RampedWorld(DutyLoaded(SteadyKicked(w.(shared := Counted(w.shared, c)), c)), c))
  }

  /** `steady_running_tick_unmasked`: the compare and period are applied only if no
      stop or tone arrived meanwhile. */
  function SteadyUnmasked(w: World, c: Settings): World
    requires D.Configured(w.duty) && Supported(c)
  {
    var v := SteadyComputed(w, c);
    if !v.shared.commands.toneActive && v.shared.commands.isrAction.NoAction?
    then DoSeq(v, [SetDutyAll(D.PwmCompare(v.duty.cycle, v.shared.drive.tim1Arr)), SetPeriod(v.shared.drive.tim1Arr)])
    else v
  }

  /** `steady_running_tick_sync_com`. */
  function SteadySync(w: World, count: U32): World {
    Published(Synced(Directed(w)), count)
  }

  // ----- commutation timer and comparator interrupts -----

  function ExitInterval(c: Settings, bidirectional: bool): nat
    requires Supported(c)
  {
    if bidirectional then Platform.UsToTicks(c.hz, 1000) / 2 else Platform.UsToTicks(c.hz, 1000)
  }

  function ZeroCrossCounted(w: World): World {
    var n := w.shared.motor.zeroCrosses;
    WithMotor(w, w.shared.motor.(zeroCrosses := if n < ZERO_CROSS_CAP then n + 1 else n))
  }

  /** Too slow for interrupt mode. */
  predicate FallsBack(w: World, c: Settings, bidirectional: bool)
    requires Supported(c)
  {
    Wrap32(AverageInterval(c, w.shared.motor.eComTime)) > ExitInterval(c, bidirectional) + Platform.UsToTicks(c.hz, 250)
  }

  /** Fast enough to leave polling; `before` is the interval the expiry found. */
  predicate Locks(w: World, c: Settings, before: U32, bidirectional: bool, strict: bool)
    requires Supported(c)
  {
    if strict then w.shared.motor.zeroCrosses >= OLD_ROUTINE_EXIT_ZC && before <= ExitInterval(c, bidirectional)
    else before < ExitInterval(c, bidirectional)
  }

  /** Advance, publish, drive and route. */
  function Commutated(w: World, c: Settings): World
    requires C.Consistent(w.comm) && Supported(c)
  {
    var stepped := Stepped(w, c.hz);
    var m := stepped.shared.motor;
    var noted := WithMotor(stepped, m.(desyncPending := m.desyncPending || stepped.comm.desyncCheck));
    DoSeq(noted.(comm := noted.comm.(desyncCheck := false)),
          [ComStep(stepped.comm.step, c.pwmMode), PulseToggle(stepped.comm.step),
           Route(stepped.comm.step, stepped.comm.rising)])
  }

  function InterruptModeExpiry(w: World, c: Settings, before: U32, bidirectional: bool): World
    requires Supported(c)
  {
    var back := FallsBack(w, c, bidirectional);
    var interval := B.AveragedInterval(w.bemf, before);
    var mode := if back then OldRoutine else w.shared.motor.mode;
    var v := WithMotor(w, w.shared.motor.(mode := mode, commutationInterval := interval)).(
                bemf := B.StepReset(B.TimingUpdated(w.bemf, before)));
    ZeroCrossCounted(if back then v else Do(v, EnableIrq))
  }

  function PollingExpiry(w: World, c: Settings, before: U32, bidirectional: bool, strict: bool): World
    requires Supported(c)
  {
    var v := ZeroCrossCounted(w.(bemf := B.StepReset(w.bemf)));
    if !Locks(v, c, before, bidirectional, strict) then v
    else
      var gate := if v.shared.motor.gateAvg == 0 then Wrap32(Max(AverageInterval(c, v.shared.motor.eComTime), 1))
                  else v.shared.motor.gateAvg;
      Do(Evented(WithMotor(v, v.shared.motor.(gateAvg := gate)), BemfLocked), EnableIrq)
  }

  /** `commutation_timer_expired`. */
  function Expired(w: World, c: Settings, bidirectional: bool, strict: bool): World
    requires C.Consistent(w.comm) && Supported(c)
  {
    var off := Do(w, TimerOff);
    if !IsRunning(w.shared.motor.mode) then Do(off, MaskIrq)
    else
      var v := Commutated(off, c);
      var before := w.shared.motor.commutationInterval;
      if w.shared.motor.mode.OldRoutine? then PollingExpiry(v, c, before, bidirectional, strict)
      else InterruptModeExpiry(v, c, before, bidirectional)
  }

  /** What the comparator interrupt reads, in order: pending, the gate's count, the
      level before and after the clear, the filter samples, the count on acceptance. */
  datatype Edge = Edge(pending: bool, count: U32, level: bool, levelAfter: bool, samples: seq<bool>, accepted: U32)

  predicate GateOpen(w: World, e: Edge) { w.shared.motor.gateAvg > 0 && e.count > w.shared.motor.gateAvg / 2 }

  /** All `filter_level` samples are past the crossing. */
  predicate SamplesAgree(w: World, e: Edge)
    requires |e.samples| >= w.bemf.filterLevel
  {
    forall i :: 0 <= i < w.bemf.filterLevel ==> e.samples[i] != w.comm.rising
  }

  function Accepted(w: World, e: Edge): World {
    var v := w.(bemf := B.ZcTimingRecorded(w.bemf, Saturate16(e.accepted)));
    DoSeq(v, [MaskIrq, SetCount(0), TimerSet(B.ComTimerDelay(v.bemf))])
  }

  /** `handle_comp_irq`: the mode check, `on_bemf_irq` and `bemf_zero_cross`. */
  function CompIrq(w: World, e: Edge): World
    requires |e.samples| >= w.bemf.filterLevel
  {
    if !w.shared.motor.mode.Running? then DoSeq(w, [MaskIrq, ClearPending])
    else if !e.pending then w
    else if w.shared.motor.gateAvg == 0 then Do(w, ClearPending)
    else if GateOpen(w, e) then
      if SamplesAgree(w, e) then Accepted(Do(w, ClearPending), e) else Do(w, ClearPending)
    else if e.level == w.comm.rising then
      if e.levelAfter != w.comm.rising then DoSeq(w, [ClearPending, Repend]) else Do(w, ClearPending)
    else w
  }
}
