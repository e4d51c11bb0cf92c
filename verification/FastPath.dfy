/** The unmasked fast path of the control tick against the full tick
    (rm32/src/control/isr_logic.rs, rm32_stm32/src/isr_handlers.rs). */
module FastPath {
  import opened Words
  import opened ModeWriters
  import opened Control
  import B = Bemf
  import C = Commutation
  import D = Duty

  lemma OneOp(h: Hal, a: HalOp)
    ensures DoneAll(h, [a]) == Done(h, a)
  {
    assert [a][..0] == [];
  }

  lemma TwoOps(h: Hal, a: HalOp, b: HalOp)
    ensures DoneAll(h, [a, b]) == Done(Done(h, a), b)
  {
    assert [a, b][..1] == [a];
    OneOp(h, a);
  }

  /** No handoff and no sine entry: only the direction is taken over. */
  lemma SteadyChanged(w: World, c: Settings)
    requires IsSteady(w.shared, c)
    ensures Changed(w, c) == Directed(w) && !HandsOff(Directed(w)) && !EntersSine(Directed(w), c)
  {
    hide HandedOff;
  }

  lemma SteadyArmed(w: World, c: Settings)
    requires w.shared.motor.mode.Running?
    ensures ArmingCounted(DutyLoaded(w), c) == DutyLoaded(w)
  {
  }

  /** Nothing to hand over, enter, start or arm: the first half of a full tick is
      the setpoint, the kick and the counters. */
  lemma SteadyPrepared(w: World, c: Settings)
    requires Sound(w) && Supported(c) && IsSteady(w.shared, c)
    ensures var v := w.(comm := w.comm.(forward := w.shared.motor.forward),
                        shared := w.shared.(throttle := w.shared.throttle.(setpoint := SetpointOf(w, c)),
                                            commands := w.shared.commands.(kickDown := false)),
                        duty := if w.shared.commands.kickDown then D.KickedDown(w.duty) else w.duty);
      Prepared(w, c) == DutyLoaded(v) && !HandsOff(Directed(w))
  {
    hide D.Setpoint;
    hide D.KickedDown;
    hide DutyLoaded;
    hide Started;
    hide SineEntered;
    hide Changed;
    hide ArmingCounted;
    hide HandsOff;
    SteadyChanged(w, c);
    SteadyArmed(Kicked(Driven(Directed(w), c)), c);
  }

  /** The second half in steady state. */
  lemma SteadyFinished(w: World, c: Settings, count: U32)
    requires Supported(c) && w.shared.motor.mode.Running? && !w.shared.commands.toneActive &&
      w.shared.throttle.adjustedInput >= StartThreshold(c)
    ensures var p, d := w.shared.protections, w.shared.drive;
      var duty := D.Clamped(w.duty, p.stallAdjust, p.dutyMaximum, p.currentLimit);
      Published(Output(Ceilinged(w), c), count) ==
        DoSeq(w.(bemf := B.Configured(w.bemf, d.filterLevel, d.autoAdvance, d.minBemfCounts),
                 duty := D.Finalized(duty.(sineOutputsOn := false, activeBrakeOn := false)),
                 shared := w.shared.(motor := w.shared.motor.(
                   dutyCycle := duty.cycle, forward := w.comm.forward, intervalCount := count))),
              [SetDutyAll(D.PwmCompare(duty.cycle, w.shared.drive.tim1Arr)), SetPeriod(w.shared.drive.tim1Arr)])
  {
    hide D.Clamped;
    hide D.PwmCompare;
    hide B.Configured;
    hide Done;
    var p := w.shared.protections;
    var duty := D.Clamped(w.duty, p.stallAdjust, p.dutyMaximum, p.currentLimit);
    OneOp(w.hal, SetDutyAll(D.PwmCompare(duty.cycle, w.shared.drive.tim1Arr)));
    TwoOps(w.hal, SetDutyAll(D.PwmCompare(duty.cycle, w.shared.drive.tim1Arr)), SetPeriod(w.shared.drive.tim1Arr));
  }

  lemma SteadyStaysSteady(w: World, c: Settings)
    requires Supported(c) && IsSteady(w.shared, c)
    ensures IsSteady(Counted(w.shared, c), c)
    ensures MaskedUnlessRunning(w.(shared := Counted(w.shared, c))) == w.(shared := Counted(w.shared, c))
  {
  }

  lemma SteadyRest(w: World, c: Settings, r: Readings)
    requires Sound(w) && Supported(c) && IsSteady(w.shared, c)
    ensures Rest(w, c, r) == Published(Output(Ceilinged(RampedWorld(Prepared(w, c), c)), c), r.final)
  {
    hide D.Setpoint;
    hide RampedWorld;
    hide Output;
    hide Ceilinged;
    SteadyPrepared(w, c);
  }

  lemma SteadyTick(w: World, c: Settings, r: Readings)
    requires Sound(w) && Supported(c) && IsSteady(w.shared, c)
    ensures Tick(w, c, r) == Rest(w.(shared := Counted(w.shared, c)), c, r)
  {
    hide Rest;
    hide Counted;
    SteadyStaysSteady(w, c);
  }

  /** From every steady state the unmasked half followed by the sync half leaves the
      same world as the full tick: shared state, duty, comparator settings,
      direction, and the same hardware operations in the same order. */
  lemma FastPathRefinesTick(w: World, c: Settings, r: Readings)
    requires Sound(w) && Supported(c) && IsSteady(w.shared, c)
    ensures SteadySync(SteadyUnmasked(w, c), r.final) == Tick(w, c, r)
  {
    hide Tick;
    hide Rest;
    hide Prepared;
    hide Counted;
    hide D.Ramped;
    hide D.Clamped;
    hide D.Setpoint;
    hide D.PwmCompare;
    hide D.KickedDown;
    hide B.Configured;
    hide DoneAll;
    hide RampInputsOf;
    SteadyTick(w, c, r);
    var v := w.(shared := Counted(w.shared, c));
    SteadyStaysSteady(w, c);
    SteadyRest(v, c, r);
    SteadyPrepared(v, c);
    SteadyFinished(RampedWorld(Prepared(v, c), c), c, r.final);
  }

  /** A kill published between the halves is handled as the full tick handles it. */
  lemma KillBetweenHalves(w: World, c: Settings)
    requires Sound(w) && Supported(c)
    ensures var half := SteadyUnmasked(w, c);
      var late := WithCommands(half, half.shared.commands.(isrAction := KillAll));
      KilledBetween(late) == Killed(late)
  {
    hide D.Ramped;
    hide D.Setpoint;
    hide DoneAll;
    hide Counted;
  }
}
