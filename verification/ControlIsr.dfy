/** The interrupt bodies themselves, as methods that update the motor state in place
    (rm32/src/control/isr_logic.rs), each proved to leave the world its function in
    `Control` says. */
module ControlIsr {
  import opened Words
  import opened ModeWriters
  import opened Control
  import B = Bemf
  import Br = Bridge
  import C = Commutation
  import D = Duty
  import FastMath
  import G = Gating
  import Platform

  /** Clearing the output flags of branches not taken changes no output. */
  lemma OutputIgnoresClearedFlags(w: World, v: World, c: Settings)
    requires v == w.(duty := w.duty.(
      sineOutputsOn := w.duty.sineOutputsOn && SineDrive(w), activeBrakeOn := w.duty.activeBrakeOn &&
        ActiveBrake(w, c)))
    ensures OutputOps(v, c) == OutputOps(w, c)
  {
    hide D.PwmCompare;
    hide D.BrakeCompare;
    hide BrakeDuty;
    hide BrakeOps;
  }

  class MotorContext {
    const settings: Settings
    const duty: D.DutyState
    const bemf: B.BemfState
    const commutation: C.Commutation
    var shared: SharedComm
    var armedTimeoutCount: U32
    var hal: Hal

    constructor (settings: Settings, duty: D.DutyState, bemf: B.BemfState, commutation: C.Commutation,
                 shared: SharedComm, hal: Hal)
      requires Supported(settings) && commutation.Valid() && D.Configured(duty.View())
      ensures Valid() && this.duty == duty && this.bemf == bemf && this.commutation == commutation
      ensures View() == World(shared, duty.View(), bemf.View(), commutation.View(), 0, hal)
    {
      this.settings, this.duty, this.bemf, this.commutation := settings, duty, bemf, commutation;
      this.shared, this.hal, armedTimeoutCount := shared, hal, 0;
    }

    ghost function View(): World
      reads this, duty, bemf, commutation, commutation.intervals
    {
      World(shared, duty.View(), bemf.View(), commutation.View(), armedTimeoutCount, hal)
    }

    ghost predicate Valid()
      reads this, duty, bemf, commutation, commutation.intervals
    {
      Supported(settings) && Sound(View())
    }

    // ----- hardware and shared-state writes -----

    /** Issue operations in order. */
    method Issue(ops: seq<HalOp>)
      modifies this`hal
      ensures hal == DoneAll(old(hal), ops)
    {
      for i := 0 to |ops|
        invariant hal == DoneAll(old(hal), ops[..i])
      {
        assert ops[..i + 1][..i] == ops[..i];
        hal := Done(hal, ops[i]);
      }
      assert ops[..|ops|] == ops;
    }

    method SendEvent(e: MotorEvent)
      modifies this`shared
      ensures View() == Evented(old(View()), e)
    {
      shared := shared.(motor := shared.motor.(mode := Transition(shared.motor.mode, e)));
    }

    /** Advance the sector and publish the new electrical period. */
    method AdvanceAndRecord()
      requires Supported(settings) && commutation.Valid()
      modifies this`shared, commutation, commutation.intervals
      ensures commutation.Valid() && View() == Stepped(old(View()), settings.hz)
    {
      var _ := commutation.Advance();
      var eCom := commutation.RecordInterval(settings.hz, Wrap16(shared.motor.commutationInterval));
      shared := shared.(motor := shared.motor.(eComTime := eCom));
    }

    // ----- ten_khz_tick -----

    method CountTick()
      requires Supported(settings)
      modifies this`shared
      ensures View() == old(View()).(shared := Counted(old(shared), settings))
    {
      var k := shared.commands;
      shared := shared.(commands := k.(
        controlTicks := Wrap32(k.controlTicks + 1),
        oneKhzCounter := if k.oneKhzCounter == 255 then 255 else k.oneKhzCounter + 1));
      if settings.telemetryInterval != 0 {
        var limit := TelemetryTicks(settings);
        var count := shared.telemetry.telemCounter;
        var next := if count == 65535 then 65535 else count + 1;
        if next >= limit {
          shared := shared.(telemetry := shared.telemetry.(telemCounter := 0, sendTelemetry := true));
        } else {
          shared := shared.(telemetry := shared.telemetry.(telemCounter := next));
        }
      }
    }

    method Kill()
      modifies this`shared, this`hal, duty`sineOutputsOn, duty`activeBrakeOn
      ensures View() == Killed(old(View())) && Br.BridgeOff(View())
    {
      hide Br.BridgeOff;
      Br.KilledReleases(View().(duty := duty.View().(sineOutputsOn := false, activeBrakeOn := false)));
      shared := shared.(commands := shared.commands.(kickDown := false));
      duty.sineOutputsOn := false;
      duty.activeBrakeOn := false;
      shared := shared.(motor := shared.motor.(changeover := 0));
      Issue([TimerOff, AllOff, SetDutyAll(0), Latch, MaskIrq]);
      shared := shared.(commands := shared.commands.(isrAction := NoAction));
    }

    method TakeZeroCross(measured: U16)
      modifies this`shared, bemf
      ensures View() == ZeroCrossTaken(old(View()), measured)
    {
      var newInterval := bemf.RecordZeroCross(measured, shared.motor.commutationInterval);
      shared := shared.(motor := shared.motor.(commutationInterval := newInterval));
    }

    method ActOnRequest(r: Readings)
      modifies this`shared, this`hal, bemf
      ensures View() == Acted(old(View()), r)
    {
      match shared.commands.isrAction {
        case ResetIntervalTimer =>
          hal := Done(hal, SetCount(0));
          shared := shared.(commands := shared.commands.(isrAction := NoAction));
        case CommutateKick =>
          if IsRunning(shared.motor.mode) {
            TakeZeroCross(Saturate16(r.action));
            hal := Done(hal, TimerSet(COMMUTATE_KICK_DELAY_TICKS));
          }
          hal := Done(hal, SetCount(0));
          shared := shared.(commands := shared.commands.(isrAction := NoAction));
        case _ =>
      }
    }

    method HandOff()
      requires commutation.Valid()
      modifies this`shared, this`hal, bemf, commutation
      ensures View() == HandedOff(old(View()), settings)
    {
      var step, interval := shared.motor.changeover, shared.motor.commutationInterval;
      commutation.SetStep(step);
      bemf.ResetForStep();
      Issue([TimerOff, MaskIrq, SetDutyAll(0), Latch, ComStep(step, settings.pwmMode), SetCount(interval),
             Route(commutation.step, commutation.rising), TimerSet(Wrap16(interval))]);
      SendEvent(ExitSine);
    }

    method TakeChangeover()
      requires commutation.Valid()
      modifies this`shared, this`hal, bemf, commutation
      ensures View() == Changed(old(View()), settings)
    {
      hide HandedOff;
      commutation.SetForward(shared.motor.forward);
      var changeover := shared.motor.changeover;
      if 1 <= changeover <= 6 && shared.motor.mode.StepperSine? &&
        shared.throttle.adjustedInput > SINE_CHANGEOVER_THROTTLE {
        HandOff();
      }
      shared := shared.(motor := shared.motor.(changeover := 0));
      commutation.forward := shared.motor.forward;
    }

    method EnterSine()
      modifies this`shared, this`hal, bemf, duty`sineOutputsOn
      ensures View() == SineEntered(old(View()))
    {
      if !shared.motor.mode.StepperSine? {
        Issue([AllOff, SetDutyAll(0), Latch]);
        duty.sineOutputsOn := false;
      }
      SendEvent(StopMotor);
      SendEvent(MotorEvent.EnterSine);
      shared := shared.(throttle := shared.throttle.(setpoint := 0), motor := shared.motor.(zeroCrosses := 0));
      bemf.ResetForStep();
      Issue([TimerOff, MaskIrq]);
    }

    method ReleaseBrake()
      modifies this`hal, duty`activeBrakeOn
      ensures View() == BrakeReleased(old(View()))
    {
      if duty.activeBrakeOn {
        Issue([SetDutyAll(0), Latch]);
        duty.activeBrakeOn := false;
      }
    }

    method Start()
      requires Valid()
      modifies this`shared, this`hal, duty, commutation, commutation.intervals
      ensures View() == Started(old(View()), settings)
    {
      hide Stepped;
      hide DoneAll;
      hal := Done(hal, AllOff);
      ReleaseBrake();
      SendEvent(StartMotor);
      duty.StartMotor();
      AdvanceAndRecord();
      var interval := Platform.UsToTicks(settings.hz, 5000);
      shared := shared.(motor := shared.motor.(commutationInterval := interval));
      Issue([ComStep(commutation.step, settings.pwmMode), Route(commutation.step, commutation.rising),
        SetCount(interval / 2)]);
    }

    method DriveThrottle()
      requires Valid()
      modifies this`shared, this`hal, bemf, duty, commutation, commutation.intervals
      ensures View() == Driven(old(View()), settings)
    {
      hide Started;
      hide D.Setpoint;
      if IsArmed(shared.motor.mode) && !shared.motor.mode.StepperSine? {
        if shared.throttle.adjustedInput >= StartThreshold(settings) {
          var setpoint := duty.ComputeSetpoint(shared.throttle.adjustedInput, shared.motor.zeroCrosses,
                                               settings.stallProtection, settings.sineStart);
          shared := shared.(throttle := shared.throttle.(setpoint := setpoint));
          if !IsRunning(shared.motor.mode) { Start(); }
        } else {
          shared := shared.(throttle := shared.throttle.(setpoint := 0));
          if !IsRunning(shared.motor.mode) {
            shared := shared.(motor := shared.motor.(zeroCrosses := 0));
            bemf.ResetForStep();
          }
        }
      }
    }

    method TakeKickDown()
      modifies this`shared, duty`last
      ensures View() == Kicked(old(View()))
    {
      var kickDown := shared.commands.kickDown;
      shared := shared.(commands := shared.commands.(kickDown := false));
      if kickDown && IsRunning(shared.motor.mode) { duty.KickDown(); }
    }

    method LoadDuty()
      modifies this`shared, duty`cycle, duty`rampCount
      ensures View() == DutyLoaded(old(View()))
    {
      duty.cycle := shared.throttle.setpoint;
      if shared.throttle.signalTimeout < 0xFFFF_FFFF {
        shared := shared.(throttle := shared.throttle.(signalTimeout := shared.throttle.signalTimeout + 1));
      }
      duty.rampCount := Wrap16(duty.rampCount + 1);
    }

    method CountArming()
      modifies this`shared, this`armedTimeoutCount
      ensures View() == ArmingCounted(old(View()), settings)
    {
      if !IsArmed(shared.motor.mode) {
        if shared.throttle.inputSet && shared.throttle.adjustedInput == 0 {
          armedTimeoutCount := Wrap32(armedTimeoutCount + 1);
          if armedTimeoutCount > settings.tickHz {
            SendEvent(Arm);
            armedTimeoutCount := 0;
          }
        } else {
          armedTimeoutCount := 0;
        }
      }
    }

    method StepByPolling()
      requires Supported(settings) && commutation.Valid()
      modifies this`shared, this`hal, bemf, commutation, commutation.intervals
      ensures View() == SteppedByPolling(old(View()), settings)
    {
      hide Stepped;
      hide DoneAll;
      AdvanceAndRecord();
      bemf.ResetForStep();
      shared := shared.(motor := shared.motor.(zeroCrosses := shared.motor.zeroCrosses + 1));
      Issue([ComStep(commutation.step, settings.pwmMode), PulseToggle(commutation.step),
             Route(commutation.step, commutation.rising)]);
    }

    method PollBemf(r: Readings)
      requires Supported(settings) && commutation.Valid()
      modifies this`shared, this`hal, bemf, commutation, commutation.intervals
      ensures View() == Polled(old(View()), settings, r)
    {
      hide SteppedByPolling;
      hide B.Sampled;
      hide B.ZeroCrossDetected;
      hide ZeroCrossTaken;
      hide DoneAll;
      hal := Done(hal, MaskIrq);
      var rising := commutation.rising;
      bemf.Update(r.level, rising);
      if ZeroCrossSeen(rising) {
        hal := Done(hal, SetCount(0));
        TakeZeroCross(Saturate16(r.poll));
        if shared.motor.zeroCrosses < MIN_ZC_FOR_ADVANCE {
          StepByPolling();
        } else {
          hal := Done(hal, TimerSet(Wrap16(bemf.waitTime + 1)));
        }
      }
    }

    function ZeroCrossSeen(rising: bool): (seen: bool)
      reads bemf
      ensures seen == B.ZeroCrossDetected(bemf.View(), rising)
    {
      !bemf.zcFound && bemf.counter > if rising then bemf.minCountsUp else bemf.minCountsDown
    }

    method RampDuty()
      requires Supported(settings)
      modifies this`shared, duty`cycle, duty`rampCount, duty`maxChange
      ensures View() == RampedWorld(old(View()), settings)
    {
      hide D.Ramped;
      hide AverageInterval;
      var average := AverageInterval(settings, shared.motor.eComTime);
      shared := shared.(motor := shared.motor.(gateAvg := Wrap32(Max(average, 0))));
      duty.RampLimit(settings.hz, RampInputsOf(shared, settings));
    }

    method ApplyCeilings()
      modifies bemf, duty`cycle, duty`maximum
      ensures View() == Ceilinged(old(View()))
    {
      bemf.SyncConfig(shared.drive.filterLevel, shared.drive.autoAdvance, shared.drive.minBemfCounts);
      var boost := if IsRunning(shared.motor.mode) then shared.protections.stallAdjust else 0;
      duty.ClampCeilings(boost, shared.protections.dutyMaximum, shared.protections.currentLimit);
    }

    /** Exactly one of tone, sine, active brake, drive, drag brake and off has the bridge. */
    method WriteBridge(toneOwnsBridge: bool, sineDrive: bool, activeBrake: bool)
      requires toneOwnsBridge == ToneOwns(View(), settings) && sineDrive == SineDrive(View())
      requires activeBrake == ActiveBrake(View(), settings)
      modifies this`hal, duty`activeBrakeOn
      ensures hal == DoneAll(old(hal), OutputOps(old(View()), settings))
      ensures duty.activeBrakeOn == (activeBrake || old(duty.activeBrakeOn))
    {
      hide D.PwmCompare;
      hide D.BrakeCompare;
      hide BrakeDuty;
      hide BrakeOps;
      hide DoneAll;
      G.DoneAllEmpty(hal);
      var arr := shared.drive.tim1Arr;
      if toneOwnsBridge || sineDrive {
      } else if activeBrake {
        Brake(BrakeDuty(settings.activeBrakePower, arr));
      } else if IsArmed(shared.motor.mode) && IsRunning(shared.motor.mode) {
        Issue([SetDutyAll(D.PwmCompare(duty.cycle, arr))]);
      } else if shared.throttle.propBrake {
        Issue([ProportionalBrake, SetDutyAll(D.BrakeCompare(settings.dragBrakeStrength, arr))]);
      } else {
        Issue([AllOff, SetDutyAll(0)]);
      }
    }

    /** Set the brake sector up once, then keep its duty current. */
    method Brake(brakeDuty: U16)
      modifies this`hal, duty`activeBrakeOn
      ensures hal == DoneAll(old(hal), BrakeOps(old(duty.activeBrakeOn), settings) + [SetDutyAll(brakeDuty)])
      ensures duty.activeBrakeOn
    {
      hide DoneAll;
      G.DoneAllSplits(hal, BrakeOps(duty.activeBrakeOn, settings), [SetDutyAll(brakeDuty)]);
      G.DoneAllEmpty(hal);
      if !duty.activeBrakeOn {
        Issue([TimerOff, MaskIrq, SetDutyAll(0), Latch, ComStep(2, settings.pwmMode)]);
        duty.activeBrakeOn := true;
      }
      Issue([SetDutyAll(brakeDuty)]);
    }

    method WriteOutput()
      modifies this`shared, this`hal, duty
      ensures View() == Output(old(View()), settings)
    {
      hide OutputOps;
      hide DoneAll;
      hide BridgeBusy;
      hide DutyPublished;
      var sineDrive := shared.motor.mode.StepperSine? && shared.throttle.adjustedInput > D.THROTTLE_MIN_SIGNAL;
      if !sineDrive { duty.sineOutputsOn := false; }
      var activeBrake := BrakesNow();
      if !activeBrake { duty.activeBrakeOn := false; }
      var toneOwnsBridge := shared.commands.toneActive && !BridgeBusy(shared, activeBrake || duty.activeBrakeOn);
      OutputIgnoresClearedFlags(old(View()), View(), settings);
      WriteBridge(toneOwnsBridge, sineDrive, activeBrake);
      PublishDuty(toneOwnsBridge);
    }

    method PublishDuty(toneOwnsBridge: bool)
      modifies this`shared, this`hal, duty
      ensures View() == DutyPublished(old(View()), toneOwnsBridge)
    {
      hide Done;
      var finalDuty := duty.Finalize();
      shared := shared.(motor := shared.motor.(dutyCycle := finalDuty));
      if !toneOwnsBridge { hal := Done(hal, SetPeriod(shared.drive.tim1Arr)); }
    }

    function BrakesNow(): (b: bool)
      reads this, duty, bemf, commutation, commutation.intervals
      ensures b == ActiveBrake(View(), settings)
    {
      var mode, input := shared.motor.mode, shared.throttle.adjustedInput;
      IsArmed(mode) && !IsRunning(mode) && input < StartThreshold(settings) &&
      !(mode.StepperSine? && input > D.THROTTLE_MIN_SIGNAL) && settings.brakeOnStop == 2
    }

    method Publish(count: U32)
      modifies this`shared
      ensures View() == Published(old(View()), count)
    {
      shared := shared.(motor := shared.motor.(forward := commutation.forward, intervalCount := count));
    }

    /** From the one-shot actions to arming. */
    method Prepare()
      requires Valid()
      modifies this`shared, this`hal, this`armedTimeoutCount, bemf, duty, commutation, commutation.intervals
      ensures Valid() && View() == Prepared(old(View()), settings)
    {
      hide Changed;
      hide SineEntered;
      hide Driven;
      hide Kicked;
      hide DutyLoaded;
      hide ArmingCounted;
      TakeChangeover();
      if IsArmed(shared.motor.mode) && settings.sineStart && shared.throttle.adjustedInput < StartThreshold(settings) {
        EnterSine();
      }
      DriveThrottle();
      TakeKickDown();
      LoadDuty();
      CountArming();
    }

    /** After a request other than a kill. */
    method RunTick(r: Readings)
      requires Valid()
      modifies this`shared, this`hal, this`armedTimeoutCount, bemf, duty, commutation, commutation.intervals
      ensures View() == Rest(old(View()), settings, r)
    {
      hide Prepared;
      hide Polled;
      hide RampedWorld;
      hide Ceilinged;
      hide Output;
      hide Published;
      var handoff := 1 <= shared.motor.changeover <= 6 && shared.motor.mode.StepperSine?
        && shared.throttle.adjustedInput > SINE_CHANGEOVER_THROTTLE;
      Prepare();
      if !handoff && shared.motor.mode.OldRoutine? { PollBemf(r); }
      RampDuty();
      ApplyCeilings();
      WriteOutput();
      Publish(r.final);
    }

    /** The 20 kHz control tick. */
    method TenKhzTick(r: Readings)
      requires Valid()
      modifies this`shared, this`hal, this`armedTimeoutCount, bemf, duty, commutation, commutation.intervals
      ensures Valid() && View() == Tick(old(View()), settings, r)
    {
      hide Counted;
      hide Rest;
      G.TickKeepsSound(View(), settings, r);
      CountTick();
      if !IsRunning(shared.motor.mode) { hal := Done(hal, MaskIrq); }
      if shared.commands.isrAction.KillAll? {
        Kill();
        return;
      }
      G.ActedQuiet(View(), r);
      ActOnRequest(r);
      RunTick(r);
    }

    // ----- the fast path -----

    method SteadyRunningTickUnmasked()
      requires Valid()
      modifies this`shared, this`hal, duty
      ensures Valid() && View() == SteadyUnmasked(old(View()), settings)
    {
      hide Counted;
      hide D.Setpoint;
      hide D.PwmCompare;
      G.SteadyKeepsSound(View(), settings);
      ComputeSteady();
      hide SteadyComputed;
      if !shared.commands.toneActive && shared.commands.isrAction.NoAction? {
        Issue([SetDutyAll(D.PwmCompare(duty.cycle, shared.drive.tim1Arr)), SetPeriod(shared.drive.tim1Arr)]);
      }
    }

    method SetAndKick()
      requires Valid()
      modifies this`shared, duty`last
      ensures View() == SteadyKicked(old(View()), settings)
    {
      hide D.Setpoint;
      hide D.KickedDown;
      shared := shared.(motor := shared.motor.(changeover := 0));
      var setpoint := duty.ComputeSetpoint(shared.throttle.adjustedInput, shared.motor.zeroCrosses,
                                           settings.stallProtection, settings.sineStart);
      shared := shared.(throttle := shared.throttle.(setpoint := setpoint));
      var kickDown := shared.commands.kickDown;
      shared := shared.(commands := shared.commands.(kickDown := false));
      if kickDown { duty.KickDown(); }
    }

    method FinishSteady()
      modifies this`shared, duty
      ensures View() == SteadyFinal(old(View()))
    {
      hide D.Clamped;
      duty.ClampCeilings(shared.protections.stallAdjust, shared.protections.dutyMaximum,
        shared.protections.currentLimit);
      duty.sineOutputsOn := false;
      duty.activeBrakeOn := false;
      var finalDuty := duty.Finalize();
      shared := shared.(motor := shared.motor.(dutyCycle := finalDuty));
    }

    method ComputeSteady()
      requires Valid()
      modifies this`shared, duty
      ensures View() == SteadyComputed(old(View()), settings)
    {
      hide Counted;
      hide SteadyKicked;
      hide SteadyFinal;
      hide RampedWorld;
      hide DutyLoaded;
      CountTick();
      SetAndKick();
      LoadDuty();
      RampDuty();
      FinishSteady();
    }

    method SteadyRunningTickSyncCom(count: U32)
      modifies this`shared, bemf, commutation`forward
      ensures View() == SteadySync(old(View()), count)
    {
      commutation.forward := shared.motor.forward;
      bemf.SyncConfig(shared.drive.filterLevel, shared.drive.autoAdvance, shared.drive.minBemfCounts);
      shared := shared.(motor := shared.motor.(forward := commutation.forward, intervalCount := count));
    }

    // ----- commutation timer and comparator -----

    method Commutate()
      requires Supported(settings) && commutation.Valid()
      modifies this`shared, this`hal, commutation, commutation.intervals
      ensures commutation.Valid() && View() == Commutated(old(View()), settings)
      ensures commutation.step == C.Next(old(commutation.step), commutation.forward)
      ensures var n := commutation.step;
        hal.log == old(hal.log) +
          [ComStep(n, settings.pwmMode), PulseToggle(n), Route(n, C.RisingFor(n, commutation.forward))]
    {
      G.CommutatedLog(View(), settings);
      G.CommutatedQuiet(View(), settings);
      hide Stepped;
      hide DoneAll;
      AdvanceAndRecord();
      if commutation.desyncCheck {
        shared := shared.(motor := shared.motor.(desyncPending := true));
        commutation.SetDesyncCheck(false);
      }
      Issue([ComStep(commutation.step, settings.pwmMode), PulseToggle(commutation.step),
             Route(commutation.step, commutation.rising)]);
    }

    method CountZeroCross()
      modifies this`shared
      ensures View() == ZeroCrossCounted(old(View()))
    {
      if shared.motor.zeroCrosses < ZERO_CROSS_CAP {
        shared := shared.(motor := shared.motor.(zeroCrosses := shared.motor.zeroCrosses + 1));
      }
    }

    method ExpireInInterruptMode(before: U32, bidirectional: bool)
      requires Supported(settings) && shared.motor.mode.Running?
      modifies this`shared, this`hal, bemf
      ensures View() == InterruptModeExpiry(old(View()), settings, before, bidirectional)
    {
      hide AverageInterval;
      var toOld := Wrap32(AverageInterval(settings, shared.motor.eComTime)) >
        ExitInterval(settings, bidirectional) + Platform.UsToTicks(settings.hz, 250);
      if toOld { shared := shared.(motor := shared.motor.(mode := OldRoutine)); }
      var newInterval := bemf.UpdateTimingFromTimer(before);
      shared := shared.(motor := shared.motor.(commutationInterval := newInterval));
      if !toOld { hal := Done(hal, EnableIrq); }
      bemf.ResetForStep();
      CountZeroCross();
    }

    method ExpireInPolling(before: U32, bidirectional: bool, strict: bool)
      requires Supported(settings)
      modifies this`shared, this`hal, bemf
      ensures View() == PollingExpiry(old(View()), settings, before, bidirectional, strict)
    {
      hide AverageInterval;
      bemf.ResetForStep();
      CountZeroCross();
      var exit := ExitInterval(settings, bidirectional);
      var changeoverMet := if strict then shared.motor.zeroCrosses >= OLD_ROUTINE_EXIT_ZC && before <= exit
        else before < exit;
      if changeoverMet {
        if shared.motor.gateAvg == 0 {
          var average := Max(AverageInterval(settings, shared.motor.eComTime), 1);
          shared := shared.(motor := shared.motor.(gateAvg := Wrap32(average)));
        }
        SendEvent(BemfLocked);
        hal := Done(hal, EnableIrq);
      }
    }

    method CommutationTimerExpired(bidirectional: bool, strict: bool)
      requires Valid()
      modifies this`shared, this`hal, bemf, commutation, commutation.intervals
      ensures Valid() && View() == Expired(old(View()), settings, bidirectional, strict)
      ensures Br.Turning(View()) ==> Br.DrivesSector(View())
    {
      hide Commutated;
      hide Br.DrivesSector;
      Br.ExpiryDrives(View(), settings, bidirectional, strict);
      hide PollingExpiry;
      hide InterruptModeExpiry;
      G.ExpiryUnmasksOnlyRunning(View(), settings, bidirectional, strict);
      hal := Done(hal, TimerOff);
      if !IsRunning(shared.motor.mode) {
        hal := Done(hal, MaskIrq);
        return;
      }
      var before := shared.motor.commutationInterval;
      G.CommutatedQuiet(View(), settings);
      Commutate();
      if shared.motor.mode.OldRoutine? {
        ExpireInPolling(before, bidirectional, strict);
      } else {
        ExpireInInterruptMode(before, bidirectional);
      }
    }

    method AcceptCrossing(e: Edge)
      modifies this`hal, bemf
      ensures View() == Accepted(old(View()), e)
    {
      hide DoneAll;
      bemf.RecordZcTiming(Saturate16(e.accepted));
      Issue([MaskIrq, SetCount(0), TimerSet(Wrap16(bemf.waitTime + 1))]);
    }

    /** The comparator interrupt; `e` supplies what it reads. */
    method HandleCompIrq(e: Edge)
      requires |e.samples| >= bemf.filterLevel
      modifies this`hal, bemf
      ensures View() == CompIrq(old(View()), e)
    {
      hide DoneAll;
      hide Accepted;
      G.DoneAllEmpty(hal);
      G.DoneAllSplits(hal, [], [ClearPending]);
      if !IsRunning(shared.motor.mode) || shared.motor.mode.OldRoutine? {
        Issue([MaskIrq, ClearPending]);
        return;
      }
      if !e.pending { return; }
      if shared.motor.gateAvg == 0 {
        hal := Done(hal, ClearPending);
        return;
      }
      if e.count > shared.motor.gateAvg / 2 {
        hal := Done(hal, ClearPending);
        var agree := G.SamplesPersist(e.samples, bemf.filterLevel, commutation.rising);
        if !agree { return; }
        AcceptCrossing(e);
      } else if e.level == commutation.rising {
        if e.levelAfter != commutation.rising {
          Issue([ClearPending, Repend]);
        } else {
          hal := Done(hal, ClearPending);
        }
      }
    }
  }
}
