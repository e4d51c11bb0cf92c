/** When the comparator may act: per call and over every interleaving of control
    ticks, commutation expiries, comparator interrupts and main-loop changes
    (rm32/src/control/isr_logic.rs, rm32_stm32/src/isr_handlers.rs). */
module Gating {
  import opened Words
  import opened ModeWriters
  import opened Control
  import B = Bemf
  import C = Commutation
  import D = Duty
  import FastMath
  import Platform

  // ----- operations on the hardware -----

  lemma {:induction false} DoneAllLogs(h: Hal, ops: seq<HalOp>)
    ensures DoneAll(h, ops).log == h.log + ops
  {
    if ops == [] {
      assert h.log + ops == h.log;
    } else {
      DoneAllLogs(h, ops[..|ops| - 1]);
      assert h.log + ops == h.log + ops[..|ops| - 1] + [ops[|ops| - 1]];
    }
  }

  lemma DoneAllEmpty(h: Hal)
    ensures DoneAll(h, []) == h
  {
  }

  lemma {:induction false} DoneAllSplits(h: Hal, a: seq<HalOp>, b: seq<HalOp>)
    ensures DoneAll(h, a + b) == DoneAll(DoneAll(h, a), b)
  {
    if b == [] {
      assert a + b == a;
    } else {
      DoneAllSplits(h, a, b[..|b| - 1]);
      assert (a + b)[..|a + b| - 1] == a + b[..|b| - 1];
    }
  }

  lemma {:induction false} DoneAllMasks(h: Hal, ops: seq<HalOp>)
    requires EnableIrq !in ops
    ensures DoneAll(h, ops).irqEnabled == (h.irqEnabled && MaskIrq !in ops)
  {
    if ops != [] {
      var last := |ops| - 1;
      assert ops == ops[..last] + [ops[last]];
      DoneAllMasks(h, ops[..last]);
    }
  }

  // ----- what the parts of a tick leave alone -----

  lemma CountedKeeps(s: SharedComm, c: Settings)
    requires Supported(c)
    ensures var t := Counted(s, c);
      t.motor == s.motor && t.throttle == s.throttle && t.drive == s.drive && t.protections == s.protections &&
      t.commands.isrAction == s.commands.isrAction && t.commands.kickDown == s.commands.kickDown
  {
    hide Supported;
    hide TelemetryTicks;
    hide Wrap32;
  }

  lemma PolledKeeps(w: World, c: Settings, r: Readings)
    requires C.Consistent(w.comm) && Supported(c)
    ensures var v := Polled(w, c, r);
      v.duty == w.duty && v.armedTimeout == w.armedTimeout && v.shared.throttle == w.shared.throttle &&
      v.shared.drive == w.shared.drive && v.shared.protections == w.shared.protections &&
      v.shared.motor.mode == w.shared.motor.mode && v.shared.motor.changeover == w.shared.motor.changeover
  {
    hide Stepped;
    hide DoneAll;
    hide B.BlendedInterval;
    hide B.ZeroCrossDetected;
  }

  lemma FastHalfKeeps(w: World, c: Settings)
    requires Sound(w) && Supported(c)
    ensures var v := SteadyUnmasked(w, c);
      v.armedTimeout == w.armedTimeout && v.shared.motor.mode == w.shared.motor.mode && v.shared.motor.changeover == 0
  {
    hide D.Setpoint;
    hide D.Ramped;
    hide D.Clamped;
    hide D.PwmCompare;
    hide Counted;
    hide RampInputsOf;
    hide AverageInterval;
    hide DoneAll;
    CountedKeeps(w.shared, c);
  }

  /** The arming counter, the armed state and the changeover request are as before. */
  predicate SameRequests(w: World, v: World) {
    v.armedTimeout == w.armedTimeout && IsArmed(v.shared.motor.mode) == IsArmed(w.shared.motor.mode) &&
    v.shared.motor.changeover == w.shared.motor.changeover
  }

  lemma ExpiryParts(w: World, c: Settings, before: U32, bidirectional: bool, strict: bool)
    requires Supported(c) && IsRunning(w.shared.motor.mode)
    ensures SameRequests(w, InterruptModeExpiry(w, c, before, bidirectional))
    ensures SameRequests(w, PollingExpiry(w, c, before, bidirectional, strict))
  {
    hide FallsBack;
    hide Locks;
    hide AverageInterval;
    hide B.AveragedInterval;
    hide B.TimingUpdated;
    hide Done;
  }

  lemma CommutationKeeps(w: World, c: Settings)
    requires C.Consistent(w.comm) && Supported(c)
    ensures SameRequests(w, Commutated(w, c)) && Commutated(w, c).shared.motor.mode == w.shared.motor.mode
  {
    hide Stepped;
    hide DoneAll;
  }

  lemma ExpiryKeeps(w: World, c: Settings, bidirectional: bool, strict: bool)
    requires Sound(w) && Supported(c)
    ensures var v := Expired(w, c, bidirectional, strict);
      SameRequests(w, v)
  {
    hide Commutated;
    hide InterruptModeExpiry;
    hide PollingExpiry;
    var off := Do(w, TimerOff);
    CommutationKeeps(off, c);
    if IsRunning(w.shared.motor.mode) {
      ExpiryParts(Commutated(off, c), c, w.shared.motor.commutationInterval, bidirectional, strict);
    }
  }

  // ----- one comparator interrupt -----

  predicate Accepts(w: World, e: Edge)
    requires |e.samples| >= w.bemf.filterLevel
  {
    w.shared.motor.mode.Running? && e.pending && 0 < w.shared.motor.gateAvg && e.count > w.shared.motor.gateAvg / 2 &&
    forall i :: 0 <= i < w.bemf.filterLevel ==> e.samples[i] != w.comm.rising
  }

  /** The source's sample loop: stop at the first sample before the crossing. */
  method SamplesPersist(samples: seq<bool>, filterLevel: U8, rising: bool) returns (agree: bool)
    requires |samples| >= filterLevel
    ensures agree <==> forall i :: 0 <= i < filterLevel ==> samples[i] != rising
  {
    for i := 0 to filterLevel
      invariant forall j :: 0 <= j < i ==> samples[j] != rising
    {
      if samples[i] == rising { return false; }
    }
    return true;
  }

  /** An edge arms the commutation timer exactly when the mode is Running, the gate
      average is positive, the interval is past half of it and every filter sample
      agrees; it then masks the comparator and restarts the interval. Otherwise it
      arms nothing and touches nothing but the pending flag and the mask. */
  lemma EdgeArmsExactly(w: World, e: Edge)
    requires |e.samples| >= w.bemf.filterLevel
    ensures var v := CompIrq(w, e);
      if Accepts(w, e) then
        v.hal.log == w.hal.log + [ClearPending] + [MaskIrq, SetCount(0), TimerSet(B.ComTimerDelay(w.bemf))] &&
        v.bemf.lastZc == w.bemf.thisZc && v.bemf.thisZc == Saturate16(e.accepted) && !v.hal.irqEnabled &&
        v.hal.timerArmed
      else
        v.bemf == w.bemf && v.hal.timerArmed == w.hal.timerArmed &&
        (exists ops :: v.hal.log == w.hal.log + ops && forall op :: op in ops ==> op in {MaskIrq, ClearPending, Repend})
    ensures CompIrq(w, e).shared == w.shared && CompIrq(w, e).comm == w.comm && CompIrq(w, e).duty == w.duty
    ensures CompIrq(w, e).hal.irqEnabled ==> w.hal.irqEnabled
  {
    var v := CompIrq(w, e);
    if Accepts(w, e) {
      var cleared := Do(w, ClearPending);
      DoneAllLogs(cleared.hal, [MaskIrq, SetCount(0), TimerSet(B.ComTimerDelay(w.bemf))]);
      ThreeOps(cleared.hal, MaskIrq, SetCount(0), TimerSet(B.ComTimerDelay(w.bemf)));
    } else {
      var ops := if !w.shared.motor.mode.Running? then [MaskIrq, ClearPending]
                 else if !e.pending then []
                 else if w.shared.motor.gateAvg == 0 || GateOpen(w, e) then [ClearPending]
                 else if e.level != w.comm.rising then []
                 else if e.levelAfter != w.comm.rising then [ClearPending, Repend] else [ClearPending];
      RejectedOps(w, e, ops);
    }
  }

  lemma ShortOps(h: Hal, a: HalOp, b: HalOp)
    ensures DoneAll(h, []) == h && DoneAll(h, [a]) == Done(h, a) && DoneAll(h, [a, b]) == Done(Done(h, a), b)
  {
    assert [a, b][..1] == [a] && [a][..0] == [];
  }

  lemma ThreeOps(h: Hal, a: HalOp, b: HalOp, c: HalOp)
    ensures DoneAll(h, [a, b, c]) == Done(Done(Done(h, a), b), c)
  {
    hide Done;
    ShortOps(h, a, b);
    assert [a, b, c][..2] == [a, b];
  }

  lemma RejectedOps(w: World, e: Edge, ops: seq<HalOp>)
    requires |e.samples| >= w.bemf.filterLevel && !Accepts(w, e)
    requires ops == if !w.shared.motor.mode.Running? then [MaskIrq, ClearPending]
                    else if !e.pending then []
                    else if w.shared.motor.gateAvg == 0 || GateOpen(w, e) then [ClearPending]
                    else if e.level != w.comm.rising then []
                    else if e.levelAfter != w.comm.rising then [ClearPending, Repend] else [ClearPending]
    ensures var v := CompIrq(w, e);
      v.hal.log == w.hal.log + ops && v.bemf == w.bemf && v.hal.timerArmed == w.hal.timerArmed &&
      v.shared == w.shared && v.comm == w.comm && v.duty == w.duty && (v.hal.irqEnabled ==> w.hal.irqEnabled)
  {
    ShortOps(w.hal, MaskIrq, ClearPending);
    ShortOps(w.hal, ClearPending, Repend);
    DoneAllLogs(w.hal, ops);
  }

  /** With the gate closed, a pending edge is cleared only while the comparator still
      reads the level before the crossing; a crossing that arrives during the clear is
      re-raised, and one that is already there is left pending. With the gate open the
      edge is cleared, and without agreement nothing else happens. */
  lemma EdgeNotSwallowed(w: World, e: Edge)
    requires |e.samples| >= w.bemf.filterLevel && w.shared.motor.mode.Running? && e.pending
    requires w.shared.motor.gateAvg > 0 && !Accepts(w, e)
    ensures var rising, done := w.comm.rising, CompIrq(w, e).hal.log;
      if e.count > w.shared.motor.gateAvg / 2 then done == w.hal.log + [ClearPending]
      else if e.level != rising then done == w.hal.log
      else if e.levelAfter != rising then done == w.hal.log + [ClearPending] + [Repend]
      else done == w.hal.log + [ClearPending]
  {
    ShortOps(w.hal, ClearPending, Repend);
  }

  // ----- one full tick -----

  /** `v` does not unmask, and ends masked unless Running. */
  predicate Unmasks(w: World, v: World) { v.hal.irqEnabled && !w.hal.irqEnabled }

  lemma SeqMasks(w: World, ops: seq<HalOp>)
    requires EnableIrq !in ops
    ensures DoSeq(w, ops).hal.irqEnabled == (w.hal.irqEnabled && MaskIrq !in ops)
  {
    DoneAllMasks(w.hal, ops);
  }

  lemma HandoffMasks(w: World, c: Settings)
    ensures !HandedOff(w, c).hal.irqEnabled
  {
    var step := w.shared.motor.changeover;
    var comm := C.StepSet(w.comm, step);
    var ops := [TimerOff, MaskIrq, SetDutyAll(0), Latch, ComStep(step, c.pwmMode),
                SetCount(w.shared.motor.commutationInterval),
                Route(comm.step, comm.rising), TimerSet(Wrap16(w.shared.motor.commutationInterval))];
    assert ops[1] == MaskIrq;
    SeqMasks(w, ops);
  }

  /** Masked, or enabled as before in Running mode. */
  predicate Quiet(w: World, v: World) {
    (v.hal.irqEnabled ==> w.hal.irqEnabled) &&
    (v.hal.irqEnabled && !v.shared.motor.mode.OldRoutine? ==> v.shared.motor.mode.Running?)
  }

  lemma ChangedQuiet(w: World, c: Settings)
    requires w.hal.irqEnabled ==> IsRunning(w.shared.motor.mode)
    ensures Quiet(w, Changed(w, c))
  {
    hide HandedOff;
    HandoffMasks(Directed(w), c);
  }

  lemma EnteredQuiet(w: World)
    requires w.hal.irqEnabled ==> IsRunning(w.shared.motor.mode)
    ensures !SineEntered(w).hal.irqEnabled
  {
    var v := if w.shared.motor.mode.StepperSine? then w
             else DoSeq(w, [AllOff, SetDutyAll(0), Latch]).(duty := w.duty.(sineOutputsOn := false));
    var u := Evented(Evented(v, StopMotor), EnterSine);
    assert [TimerOff, MaskIrq][1] == MaskIrq;
    SeqMasks(IdleReset(u), [TimerOff, MaskIrq]);
  }

  lemma StartedQuiet(w: World, c: Settings)
    requires Sound(w) && Supported(c) && !w.hal.irqEnabled
    ensures !Started(w, c).hal.irqEnabled
  {
    hide Stepped;
    var off := Do(w, AllOff);
    SeqMasks(off, [SetDutyAll(0), Latch]);
    var clean := if w.duty.activeBrakeOn
                 then DoSeq(off, [SetDutyAll(0), Latch]).(duty := w.duty.(activeBrakeOn := false)) else off;
    var on := Stepped(Evented(clean, StartMotor).(duty := clean.duty.(last := clean.duty.minStartup)), c.hz);
    var interval: nat := Platform.UsToTicks(c.hz, 5000);
    SeqMasks(WithMotor(on, on.shared.motor.(commutationInterval := interval)),
             [ComStep(on.comm.step, c.pwmMode), Route(on.comm.step, on.comm.rising), SetCount(interval / 2)]);
  }

  lemma PolledQuiet(w: World, c: Settings, r: Readings)
    requires C.Consistent(w.comm) && Supported(c)
    ensures !Polled(w, c, r).hal.irqEnabled
  {
    hide Stepped;
    hide B.ZeroCrossDetected;
    var rising := w.comm.rising;
    var v := Do(w, MaskIrq).(bemf := B.Sampled(w.bemf, r.level, rising));
    var u := ZeroCrossTaken(Do(v, SetCount(0)), Saturate16(r.poll));
    var s := Stepped(u, c.hz);
    var counted := WithMotor(s, s.shared.motor.(zeroCrosses := s.shared.motor.zeroCrosses + 1));
    SeqMasks(counted.(bemf := B.StepReset(s.bemf)),
             [ComStep(s.comm.step, c.pwmMode), PulseToggle(s.comm.step), Route(s.comm.step, s.comm.rising)]);
  }

  lemma OutputQuiet(w: World, c: Settings)
    ensures Output(w, c).hal.irqEnabled ==> w.hal.irqEnabled
    ensures Output(w, c).shared.motor.mode == w.shared.motor.mode
  {
    hide D.PwmCompare;
    hide D.BrakeCompare;
    hide BrakeDuty;
    SeqMasks(w, OutputOps(w, c));
  }

  lemma DrivenQuiet(w: World, c: Settings)
    requires Sound(w) && Supported(c)
    requires w.hal.irqEnabled ==> w.shared.motor.mode.Running? || w.shared.motor.mode.OldRoutine?
    ensures var v := Driven(w, c);
      (v.hal.irqEnabled ==> w.hal.irqEnabled) && (v.hal.irqEnabled ==> v.shared.motor.mode == w.shared.motor.mode)
  {
    hide D.Setpoint;
    hide Started;
    if !IsRunning(w.shared.motor.mode) && IsArmed(w.shared.motor.mode) {
      StartedQuiet(WithThrottle(w, w.shared.throttle.(setpoint := SetpointOf(w, c))), c);
    }
  }

  lemma PreparedQuiet(w: World, c: Settings)
    requires Sound(w) && Supported(c)
    requires w.hal.irqEnabled ==> IsRunning(w.shared.motor.mode)
    ensures var v := Prepared(w, c);
      (v.hal.irqEnabled ==> w.hal.irqEnabled && IsRunning(v.shared.motor.mode)) &&
      (v.hal.irqEnabled ==> !HandsOff(Directed(w)))
  {
    hide Driven;
    hide SineEntered;
    hide Changed;
    var changed := Changed(w, c);
    ChangedQuiet(w, c);
    EnteredQuiet(changed);
    var entered := if EntersSine(changed, c) then SineEntered(changed) else changed;
    DrivenQuiet(entered, c);
    if HandsOff(Directed(w)) { HandoffAlwaysMasks(w, c); }
  }

  lemma HandoffAlwaysMasks(w: World, c: Settings)
    requires HandsOff(Directed(w))
    ensures !Changed(w, c).hal.irqEnabled
  {
    hide HandedOff;
    HandoffMasks(Directed(w), c);
  }

  /** No full tick unmasks the comparator, and each ends with it masked unless the
      mode is Running. */
  lemma TickEndsMaskedUnlessRunning(w: World, c: Settings, r: Readings)
    requires Sound(w) && Supported(c)
    ensures var v := Tick(w, c, r);
      v.hal.irqEnabled ==> w.hal.irqEnabled && v.shared.motor.mode.Running?
  {
    hide Rest;
    hide Counted;
    var v := MaskedUnlessRunning(w.(shared := Counted(w.shared, c)));
    if v.shared.commands.isrAction.KillAll? {
      KilledMasks(v);
    } else {
      ActedQuiet(v, r);
      RestQuiet(Acted(v, r), c, r);
    }
  }

  lemma KilledMasks(w: World)
    ensures !KilledBetween(w).hal.irqEnabled && !Killed(w).hal.irqEnabled
  {
    var ops := [TimerOff, AllOff, SetDutyAll(0), Latch, MaskIrq];
    assert ops[4] == MaskIrq;
    DoneAllMasks(w.hal, ops);
  }

  lemma ActedQuiet(w: World, r: Readings)
    ensures Acted(w, r).hal.irqEnabled == w.hal.irqEnabled && Acted(w, r).shared.motor.mode == w.shared.motor.mode
    ensures Acted(w, r).comm == w.comm && Acted(w, r).duty == w.duty
  {
    hide B.BlendedInterval;
    hide B.ZeroCrossRecorded;
  }

  lemma RestQuiet(w: World, c: Settings, r: Readings)
    requires Sound(w) && Supported(c)
    requires w.hal.irqEnabled ==> IsRunning(w.shared.motor.mode)
    ensures Rest(w, c, r).hal.irqEnabled ==> w.hal.irqEnabled && Rest(w, c, r).shared.motor.mode.Running?
  {
    hide Prepared;
    hide Polled;
    hide Output;
    hide D.Ramped;
    hide D.Clamped;
    hide RampInputsOf;
    hide HandsOff;
    PreparedQuiet(w, c);
    var ready := Prepared(w, c);
    PolledQuiet(ready, c, r);
    var polled := if PollsNow(ready, HandsOff(Directed(w))) then Polled(ready, c, r) else ready;
    OutputQuiet(Ceilinged(RampedWorld(polled, c)), c);
  }

  // ----- one commutation expiry -----

  lemma CommutatedQuiet(w: World, c: Settings)
    requires C.Consistent(w.comm) && Supported(c)
    ensures var v := Commutated(w, c);
      v.hal.irqEnabled == w.hal.irqEnabled && v.shared.motor.mode == w.shared.motor.mode && C.Consistent(v.comm) &&
      v.comm.step == C.Next(w.comm.step, w.comm.forward) && v.comm.forward == w.comm.forward && v.duty == w.duty
  {
    hide Platform.SixIntervalsToUs;
    var stepped := Stepped(w, c.hz);
    var m := stepped.shared.motor;
    var noted := WithMotor(stepped, m.(desyncPending := m.desyncPending || stepped.comm.desyncCheck));
    SeqMasks(noted.(comm := noted.comm.(desyncCheck := false)),
             [ComStep(stepped.comm.step, c.pwmMode), PulseToggle(stepped.comm.step),
              Route(stepped.comm.step, stepped.comm.rising)]);
  }

  lemma PollingExpiryUnmasks(w: World, c: Settings, before: U32, bidirectional: bool, strict: bool)
    requires Supported(c) && w.shared.motor.mode.OldRoutine?
    ensures var v := PollingExpiry(w, c, before, bidirectional, strict);
      v.comm == w.comm && v.duty == w.duty && (Unmasks(w, v) ==> v.shared.motor.mode.Running?)
  {
    hide Locks;
    hide AverageInterval;
  }

  lemma InterruptExpiryUnmasks(w: World, c: Settings, before: U32, bidirectional: bool)
    requires Supported(c) && w.shared.motor.mode.Running?
    ensures var v := InterruptModeExpiry(w, c, before, bidirectional);
      v.comm == w.comm && v.duty == w.duty && (Unmasks(w, v) ==> v.shared.motor.mode.Running?)
  {
    hide FallsBack;
    hide B.AveragedInterval;
    hide B.TimingUpdated;
  }

  lemma CommutatedLog(w: World, c: Settings)
    requires C.Consistent(w.comm) && Supported(c)
    ensures var v, n := Commutated(w, c), C.Next(w.comm.step, w.comm.forward);
      v.hal.log == w.hal.log + [ComStep(n, c.pwmMode), PulseToggle(n), Route(n, C.RisingFor(n, w.comm.forward))] &&
      v.comm.rising == C.RisingFor(n, w.comm.forward)
  {
    hide Platform.SixIntervalsToUs;
    var n := C.Next(w.comm.step, w.comm.forward);
    DoneAllLogs(w.hal, [ComStep(n, c.pwmMode), PulseToggle(n), Route(n, C.RisingFor(n, w.comm.forward))]);
  }

  lemma ModeExpiryLog(w: World, c: Settings, before: U32, bidirectional: bool, strict: bool)
    requires Supported(c)
    ensures var v := PollingExpiry(w, c, before, bidirectional, strict);
      w.shared.motor.mode.OldRoutine? ==>
        IsRunning(v.shared.motor.mode) && v.comm == w.comm &&
        v.hal.log == w.hal.log + (if v.shared.motor.mode.Running? then [EnableIrq] else []) &&
        v.hal.irqEnabled == (v.shared.motor.mode.Running? || w.hal.irqEnabled) && v.hal.timerArmed == w.hal.timerArmed
    ensures var v := InterruptModeExpiry(w, c, before, bidirectional);
      w.shared.motor.mode.Running? ==>
        IsRunning(v.shared.motor.mode) && v.comm == w.comm &&
        v.hal.log == w.hal.log + (if v.shared.motor.mode.Running? then [EnableIrq] else []) &&
        v.hal.irqEnabled == (v.shared.motor.mode.Running? || w.hal.irqEnabled) && v.hal.timerArmed == w.hal.timerArmed
  {
    hide FallsBack;
    hide Locks;
    hide AverageInterval;
    hide B.AveragedInterval;
    hide B.TimingUpdated;
    assert w.hal.log + [] == w.hal.log;
  }

  /** The operations of an expiry, all of them: while the motor turns, timer off, the
      next sector driven, the comparator routed to it, and unmasked exactly if the mode
      is Running by then; otherwise timer off and comparator masked. */
  lemma ExpiryLogged(w: World, c: Settings, bidirectional: bool, strict: bool)
    requires Sound(w) && Supported(c)
    ensures var v, n := Expired(w, c, bidirectional, strict), C.Next(w.comm.step, w.comm.forward);
      var rising := C.RisingFor(n, w.comm.forward);
      if IsRunning(w.shared.motor.mode) then
        IsRunning(v.shared.motor.mode) && v.comm.step == n && v.comm.rising == rising &&
        v.hal.log == w.hal.log + ([TimerOff, ComStep(n, c.pwmMode), PulseToggle(n), Route(n, rising)] +
                                  (if v.shared.motor.mode.Running? then [EnableIrq] else []))
      else v.hal.log == w.hal.log + [TimerOff] + [MaskIrq] && v.comm == w.comm && v.shared == w.shared
  {
    hide Commutated;
    hide PollingExpiry;
    hide InterruptModeExpiry;
    var off, before := Do(w, TimerOff), w.shared.motor.commutationInterval;
    CommutatedQuiet(off, c);
    CommutatedLog(off, c);
    if IsRunning(w.shared.motor.mode) { ModeExpiryLog(Commutated(off, c), c, before, bidirectional, strict); }
  }

  lemma TicksOf(hz: nat)
    requires Platform.SupportedTimer(hz)
    ensures Platform.UsToTicks(hz, 1000) == hz / 1000 && Platform.UsToTicks(hz, 1000) / 2 == hz / 2000
    ensures Platform.UsToTicks(hz, 250) == hz / 4000
  {
    assert 1000 * hz / 1_000_000 == hz / 1000 && 250 * hz / 1_000_000 == hz / 4000;
  }

  lemma AverageIsCount(hz: nat, eCom: I32)
    requires Platform.SupportedTimer(hz) && 0 <= eCom <= 1_000_000
    ensures 0 <= Platform.EComUsToAvgTicks(hz, eCom) < 0x1_0000_0000
  {
    ProductBelow(eCom, hz, 1_000_000, 2_000_000);
    AverageBounded(eCom as int * hz);
  }

  lemma AverageBounded(product: int)
    requires 0 <= product <= 2_000_000_000_000
    ensures 0 <= FastMath.TruncatingDiv(product, 6_000_000) <= 333_334
  {
  }

  /** An expiry hands the desync flag to main, raised once a turn: on leaving sector 6
      forward or sector 1 in reverse. */
  lemma ExpiryHandsOverDesync(w: World, c: Settings, bidirectional: bool, strict: bool)
    requires Sound(w) && Supported(c) && IsRunning(w.shared.motor.mode)
    ensures var v := Expired(w, c, bidirectional, strict);
      !v.comm.desyncCheck &&
      (v.shared.motor.desyncPending <==>
        w.shared.motor.desyncPending || w.comm.desyncCheck || w.comm.step == if w.comm.forward then 6 else 1)
  {
    hide Commutated;
    hide PollingExpiry;
    hide InterruptModeExpiry;
    var off := Do(w, TimerOff);
    CommutatedDesync(off, c);
    ModeExpiryDesync(Commutated(off, c), c, w.shared.motor.commutationInterval, bidirectional, strict);
  }

  lemma CommutatedDesync(w: World, c: Settings)
    requires C.Consistent(w.comm) && Supported(c)
    ensures var v := Commutated(w, c);
      !v.comm.desyncCheck &&
      (v.shared.motor.desyncPending <==>
        w.shared.motor.desyncPending || w.comm.desyncCheck || w.comm.step == if w.comm.forward then 6 else 1)
  {
    hide DoneAll;
    hide Platform.SixIntervalsToUs;
  }

  lemma ModeExpiryDesync(w: World, c: Settings, before: U32, bidirectional: bool, strict: bool)
    requires Supported(c)
    ensures var v := PollingExpiry(w, c, before, bidirectional, strict);
      v.comm == w.comm && v.shared.motor.desyncPending == w.shared.motor.desyncPending
    ensures var v := InterruptModeExpiry(w, c, before, bidirectional);
      v.comm == w.comm && v.shared.motor.desyncPending == w.shared.motor.desyncPending
  {
    hide FallsBack;
    hide Locks;
    hide AverageInterval;
    hide B.AveragedInterval;
    hide B.TimingUpdated;
    hide Done;
  }

  /** What an expiry records and publishes: the interval it found in its sector's slot, the
      period of the six slots, in interrupt mode the averaged interval and its wait, and a
      fresh count for the next crossing. */
  lemma ExpiryPublishes(w: World, c: Settings, bidirectional: bool, strict: bool)
    requires Sound(w) && Supported(c) && IsRunning(w.shared.motor.mode)
    ensures var v, found := Expired(w, c, bidirectional, strict), w.shared.motor.commutationInterval;
      var interval := if w.shared.motor.mode.Running? then B.AveragedInterval(w.bemf, found) else found;
      |v.comm.intervals| == 8 && v.comm.intervals == w.comm.intervals[v.comm.step - 1 := Wrap16(found)] &&
      v.shared.motor.eComTime == Platform.SixIntervalsToUs(c.hz, C.SumOf(v.comm.intervals)) &&
      v.shared.motor.commutationInterval == interval &&
      v.bemf.waitTime == (if w.shared.motor.mode.Running? then B.WaitTime(interval, w.bemf.tempAdvance)
                          else w.bemf.waitTime) &&
      v.bemf.counter == 0 && v.bemf.badCount == 0 && !v.bemf.zcFound
  {
    hide FallsBack;
    hide Locks;
    hide AverageInterval;
    hide B.AveragedInterval;
    hide B.WaitTime;
    hide DoneAll;
    hide Platform.SixIntervalsToUs;
    hide C.SumOf;
  }

  /** 1 ms per step, or half that for a bidirectional motor, in ticks. */
  function LockLimit(hz: nat, bidirectional: bool): nat { if bidirectional then hz / 2000 else hz / 1000 }

  /** Which mode an expiry leaves. Running falls back to polling exactly when the average
      step is longer than the limit and a quarter millisecond; polling locks exactly when
      the step found is short enough, strictly, or under the strict rule after 20
      crossings; a lock leaves the comparator's gate positive. */
  lemma ExpiryMovesMode(w: World, c: Settings, bidirectional: bool, strict: bool)
    requires Sound(w) && Supported(c) && IsRunning(w.shared.motor.mode) && w.shared.motor.zeroCrosses <= 10000
    ensures var v := Expired(w, c, bidirectional, strict);
      var limit, found := LockLimit(c.hz, bidirectional), w.shared.motor.commutationInterval;
      v.shared.motor.zeroCrosses == Min(w.shared.motor.zeroCrosses + 1, 10000) &&
      (w.shared.motor.mode.Running? ==>
        (v.shared.motor.mode.OldRoutine? <==> AverageInterval(c, v.shared.motor.eComTime) > limit + c.hz / 4000)) &&
      (w.shared.motor.mode.OldRoutine? ==>
        (v.shared.motor.mode.Running? <==>
          if strict then v.shared.motor.zeroCrosses >= 20 && found <= limit else found < limit)) &&
      (w.shared.motor.mode.OldRoutine? && v.shared.motor.mode.Running? ==> v.shared.motor.gateAvg > 0)
  {
    hide Commutated;
    hide PollingExpiry;
    hide InterruptModeExpiry;
    var off, found := Do(w, TimerOff), w.shared.motor.commutationInterval;
    CommutatedPeriod(off, c);
    if w.shared.motor.mode.Running? {
      InterruptModeLeft(Commutated(off, c), c, found, bidirectional);
    } else {
      PollingModeLeft(Commutated(off, c), c, found, bidirectional, strict);
    }
  }

  lemma CommutatedPeriod(w: World, c: Settings)
    requires C.Consistent(w.comm) && Supported(c)
    ensures var m, n := w.shared.motor, Commutated(w, c).shared.motor;
      0 <= n.eComTime <= 400_000 && n.mode == m.mode && n.zeroCrosses == m.zeroCrosses && n.gateAvg == m.gateAvg
  {
    hide DoneAll;
    SteppedPeriod(w, c.hz);
    hide Stepped;
  }

  lemma FallsBackWhen(w: World, c: Settings, bidirectional: bool)
    requires Supported(c) && 0 <= w.shared.motor.eComTime <= 400_000
    ensures FallsBack(w, c, bidirectional) <==>
      AverageInterval(c, w.shared.motor.eComTime) > LockLimit(c.hz, bidirectional) + c.hz / 4000
  {
    TicksOf(c.hz);
    AverageIsCount(c.hz, w.shared.motor.eComTime);
    B.NoWrap32(AverageInterval(c, w.shared.motor.eComTime));
    hide Platform.UsToTicks;
    hide Platform.EComUsToAvgTicks;
    hide Wrap32;
  }

  lemma LocksWhen(w: World, c: Settings, found: U32, bidirectional: bool, strict: bool)
    requires Supported(c)
    ensures var limit := LockLimit(c.hz, bidirectional);
      Locks(w, c, found, bidirectional, strict) <==>
        if strict then w.shared.motor.zeroCrosses >= 20 && found <= limit else found < limit
  {
    TicksOf(c.hz);
    hide Platform.UsToTicks;
  }

  lemma InterruptModeLeft(w: World, c: Settings, found: U32, bidirectional: bool)
    requires Supported(c) && w.shared.motor.mode.Running? && 0 <= w.shared.motor.eComTime <= 400_000
    ensures var v := InterruptModeExpiry(w, c, found, bidirectional);
      v.shared.motor.eComTime == w.shared.motor.eComTime &&
      (w.shared.motor.zeroCrosses <= 10000 ==>
        v.shared.motor.zeroCrosses == Min(w.shared.motor.zeroCrosses + 1, 10000)) &&
      (v.shared.motor.mode.OldRoutine? <==>
        AverageInterval(c, w.shared.motor.eComTime) > LockLimit(c.hz, bidirectional) + c.hz / 4000)
  {
    FallsBackWhen(w, c, bidirectional);
    hide FallsBack;
    hide LockLimit;
    hide AverageInterval;
    hide Done;
    hide B.AveragedInterval;
    hide B.TimingUpdated;
  }

  lemma PollingModeLeft(w: World, c: Settings, found: U32, bidirectional: bool, strict: bool)
    requires Supported(c) && w.shared.motor.mode.OldRoutine? && 0 <= w.shared.motor.eComTime <= 400_000
    requires w.shared.motor.zeroCrosses <= 10000
    ensures var v, limit := PollingExpiry(w, c, found, bidirectional, strict), LockLimit(c.hz, bidirectional);
      v.shared.motor.zeroCrosses == Min(w.shared.motor.zeroCrosses + 1, 10000) &&
      (v.shared.motor.mode.Running? <==>
        if strict then v.shared.motor.zeroCrosses >= 20 && found <= limit else found < limit) &&
      (v.shared.motor.mode.Running? ==> v.shared.motor.gateAvg > 0)
  {
    var counted := ZeroCrossCounted(w.(bemf := B.StepReset(w.bemf)));
    LocksWhen(counted, c, found, bidirectional, strict);
    AverageIsCount(c.hz, w.shared.motor.eComTime);
    hide Locks;
    hide LockLimit;
    hide AverageInterval;
    hide Done;
  }

  lemma SteppedPeriod(w: World, hz: nat)
    requires C.Consistent(w.comm) && Platform.SupportedTimer(hz)
    ensures 0 <= Stepped(w, hz).shared.motor.eComTime <= 400_000
  {
    var comm := C.Recorded(C.Advanced(w.comm), Wrap16(w.shared.motor.commutationInterval));
    C.ReplacedSlot(w.comm.intervals, C.Advanced(w.comm).step - 1, Wrap16(w.shared.motor.commutationInterval));
    var sum := C.SumOf(comm.intervals);
    if hz != 2_000_000 { Platform.RoundedPeriodFits(hz, sum); }
  }

  /** Only a commutation expiry unmasks the comparator: one that has just advanced
      the sector, and only into or within Running mode. */
  lemma ExpiryUnmasksOnlyRunning(w: World, c: Settings, bidirectional: bool, strict: bool)
    requires Sound(w) && Supported(c)
    ensures var v := Expired(w, c, bidirectional, strict);
      Sound(v) && (Unmasks(w, v) ==> v.shared.motor.mode.Running? && v.comm.step == C.Next(w.comm.step, w.comm.forward))
  {
    hide Commutated;
    hide PollingExpiry;
    hide InterruptModeExpiry;
    var off := Do(w, TimerOff);
    CommutatedQuiet(off, c);
    var v := Commutated(off, c);
    if w.shared.motor.mode.OldRoutine? {
      PollingExpiryUnmasks(v, c, w.shared.motor.commutationInterval, bidirectional, strict);
    } else if w.shared.motor.mode.Running? {
      InterruptExpiryUnmasks(v, c, w.shared.motor.commutationInterval, bidirectional);
    }
  }

  // ----- every interleaving -----

  /** What can happen to the motor state. The two halves of a fast tick are separate
      events, the second one either a sync or a kill; main may publish anything but
      never touches the hardware flags, the sector table or the duty limits. */
  datatype Event =
    | FullTick(readings: Readings)
    | FastHalf
    | SyncHalf(count: U32)
    | KillHalf
    | Expiry(bidirectional: bool, strict: bool)
    | Comparator(edge: Edge)
    | MainWrites(shared: SharedComm)

  /** A masked comparator raises no interrupt. */
  predicate Enabled(w: World, e: Event) {
    match e
    case Comparator(edge) => w.hal.irqEnabled && |edge.samples| >= w.bemf.filterLevel
    case _ => true
  }

  function Next(w: World, e: Event, c: Settings): World
    requires Sound(w) && Supported(c) && Enabled(w, e)
  {
    match e
    case FullTick(readings) => Tick(w, c, readings)
    case FastHalf => SteadyUnmasked(w, c)
    case SyncHalf(count) => SteadySync(w, count)
    case KillHalf => KilledBetween(w)
    case Expiry(bidirectional, strict) => Expired(w, c, bidirectional, strict)
    case Comparator(edge) => CompIrq(w, edge)
    case MainWrites(shared) => w.(shared := shared)
  }

  /** A run starts sound and every event is enabled when it happens. */
  ghost predicate Run(states: seq<World>, events: seq<Event>, c: Settings)
    requires Supported(c)
  {
    |states| == |events| + 1 && Sound(states[0]) &&
    forall i :: 0 <= i < |events| && Sound(states[i]) ==>
      Enabled(states[i], events[i]) && states[i + 1] == Next(states[i], events[i], c)
  }

  lemma TickKeepsSound(w: World, c: Settings, r: Readings)
    requires Sound(w) && Supported(c)
    ensures Sound(Tick(w, c, r))
  {
    hide Rest;
    hide Counted;
    var v := MaskedUnlessRunning(w.(shared := Counted(w.shared, c)));
    if !v.shared.commands.isrAction.KillAll? {
      ActedQuiet(v, r);
      RestKeepsSound(Acted(v, r), c, r);
    }
  }

  lemma RestKeepsSound(w: World, c: Settings, r: Readings)
    requires Sound(w) && Supported(c)
    ensures Sound(Rest(w, c, r))
  {
    hide Prepared;
    hide OutputOps;
    hide D.Ramped;
    hide RampInputsOf;
    var ready := Prepared(w, c);
    PolledKeeps(ready, c, r);
    var polled := if PollsNow(ready, HandsOff(Directed(w))) then Polled(ready, c, r) else ready;
    hide Polled;
    RampedKeepsLimits(polled.duty, c.hz, RampInputsOf(polled.shared, c));
  }

  lemma RampedKeepsLimits(d: D.Duty, hz: nat, r: D.RampInputs)
    requires Platform.SupportedTimer(hz)
    ensures D.Ramped(d, hz, r).minStartup == d.minStartup && D.Ramped(d, hz, r).startupMax == d.startupMax
  {
  }

  lemma SteadyKeepsSound(w: World, c: Settings)
    requires Sound(w) && Supported(c)
    ensures Sound(SteadyUnmasked(w, c))
  {
    hide D.Setpoint;
    hide D.Ramped;
    hide D.PwmCompare;
    hide Counted;
    hide RampInputsOf;
    var counted := w.(shared := Counted(w.shared, c).(motor := Counted(w.shared, c).motor.(changeover := 0)));
    var set_ := WithThrottle(counted, counted.shared.throttle.(setpoint := SetpointOf(counted, c)));
    var kicked := set_.(shared := set_.shared.(commands := set_.shared.commands.(kickDown := false)),
                        duty := if set_.shared.commands.kickDown then D.KickedDown(set_.duty) else set_.duty);
    var loaded := DutyLoaded(kicked);
    RampedKeepsLimits(loaded.duty, c.hz, RampInputsOf(loaded.shared, c));
  }

  lemma NextKeepsSound(w: World, e: Event, c: Settings)
    requires Sound(w) && Supported(c) && Enabled(w, e)
    ensures Sound(Next(w, e, c))
  {
    hide Tick;
    hide SteadyUnmasked;
    hide CompIrq;
    hide Expired;
    match e
    case FullTick(readings) => TickKeepsSound(w, c, readings);
    case FastHalf => SteadyKeepsSound(w, c);
    case Expiry(bidirectional, strict) => ExpiryUnmasksOnlyRunning(w, c, bidirectional, strict);
    case Comparator(edge) => EdgeArmsExactly(w, edge);
    case _ =>
  }

  lemma {:induction false} RunStaysSound(states: seq<World>, events: seq<Event>, c: Settings, n: nat)
    requires Supported(c) && Run(states, events, c) && n < |states|
    ensures Sound(states[n])
    ensures n < |events| ==> Enabled(states[n], events[n]) && states[n + 1] == Next(states[n], events[n], c)
  {
    hide Next;
    hide Sound;
    if n > 0 {
      RunStaysSound(states, events, c, n - 1);
      NextKeepsSound(states[n - 1], events[n - 1], c);
    }
  }

  lemma FastHalfQuiet(w: World, c: Settings)
    requires Sound(w) && Supported(c)
    ensures SteadyUnmasked(w, c).hal.irqEnabled == w.hal.irqEnabled
  {
    hide SteadyComputed;
    hide D.PwmCompare;
    var v := SteadyComputed(w, c);
    var arr := v.shared.drive.tim1Arr;
    DoneAllMasks(v.hal, [SetDutyAll(D.PwmCompare(v.duty.cycle, arr)), SetPeriod(arr)]);
  }

  /** In every interleaving, what unmasks the comparator is an expiry that drove the
      next sector and left the mode Running. */
  lemma UnmaskedByCommutation(w: World, e: Event, c: Settings)
    requires Sound(w) && Supported(c) && Enabled(w, e) && Unmasks(w, Next(w, e, c))
    ensures e.Expiry? && Next(w, e, c).shared.motor.mode.Running? &&
      Next(w, e, c).comm.step == C.Next(w.comm.step, w.comm.forward)
  {
    hide Tick;
    hide SteadyUnmasked;
    hide CompIrq;
    hide Expired;
    match e
    case FullTick(readings) => TickEndsMaskedUnlessRunning(w, c, readings);
    case FastHalf => FastHalfQuiet(w, c);
    case KillHalf => KilledMasks(w);
    case Expiry(bidirectional, strict) => ExpiryUnmasksOnlyRunning(w, c, bidirectional, strict);
    case Comparator(edge) => EdgeArmsExactly(w, edge);
    case _ =>
  }

  ghost predicate AcceptedAt(states: seq<World>, events: seq<Event>, i: nat)
    requires i < |events| && i < |states|
  {
    events[i].Comparator? && |events[i].edge.samples| >= states[i].bemf.filterLevel &&
    Accepts(states[i], events[i].edge)
  }

  lemma {:induction false} FindUnmask(states: seq<World>, i: nat, j: nat) returns (k: nat)
    requires i < j < |states|
    requires !states[i].hal.irqEnabled && states[j].hal.irqEnabled
    ensures i <= k < j && Unmasks(states[k], states[k + 1])
    decreases j - i
  {
    if states[i + 1].hal.irqEnabled { k := i; } else { k := FindUnmask(states, i + 1, j); }
  }

  /** One commutation per crossing: between any two accepted comparator edges of any
      run, the timer expired, drove the next sector and unmasked the comparator. */
  lemma OneCommutationPerCrossing(states: seq<World>, events: seq<Event>, c: Settings, i: nat, j: nat) returns (k: nat)
    requires Supported(c) && Run(states, events, c) && i < j < |events|
    requires AcceptedAt(states, events, i) && AcceptedAt(states, events, j)
    ensures i < k < j && events[k].Expiry? && states[k + 1].shared.motor.mode.Running?
    ensures IsStepOf(states[k]) && states[k + 1].comm.step == C.Next(states[k].comm.step, states[k].comm.forward)
    ensures var n, rising := states[k + 1].comm.step, states[k + 1].comm.rising;
      states[k + 1].hal.log ==
        states[k].hal.log + [TimerOff, ComStep(n, c.pwmMode), PulseToggle(n), Route(n, rising), EnableIrq] &&
      rising == C.RisingFor(n, states[k].comm.forward)
  {
    hide Next;
    hide Accepts;
    RunStaysSound(states, events, c, i);
    RunStaysSound(states, events, c, j);
    ComparatorNext(states[i], events[i], c);
    EdgeArmsExactly(states[i], events[i].edge);
    k := FindUnmask(states, i + 1, j);
    RunStaysSound(states, events, c, k);
    UnmaskedByCommutation(states[k], events[k], c);
    ExpiryNext(states[k], events[k], c);
    ExpiryLogged(states[k], c, events[k].bidirectional, events[k].strict);
  }

  lemma ExpiryNext(w: World, e: Event, c: Settings)
    requires Sound(w) && Supported(c) && e.Expiry?
    ensures Next(w, e, c) == Expired(w, c, e.bidirectional, e.strict)
  {
  }

  predicate IsStepOf(w: World) { C.IsStep(w.comm.step) }

  lemma ComparatorNext(w: World, e: Event, c: Settings)
    requires Sound(w) && Supported(c) && Enabled(w, e) && e.Comparator?
    ensures Next(w, e, c) == CompIrq(w, e.edge)
  {
  }

  /** In every run, each full tick ends with the comparator masked unless Running. */
  lemma EveryTickEndsMasked(states: seq<World>, events: seq<Event>, c: Settings, n: nat)
    requires Supported(c) && Run(states, events, c) && n < |events| && events[n].FullTick?
    ensures states[n + 1].hal.irqEnabled ==> states[n + 1].shared.motor.mode.Running?
  {
    hide Tick;
    RunStaysSound(states, events, c, n);
    TickEndsMaskedUnlessRunning(states[n], c, events[n].readings);
  }
}
