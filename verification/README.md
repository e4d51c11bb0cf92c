# RM32 verification model

RM32 is motor-controller (ESC) firmware: a few interrupt handlers and a main loop share one block
of state and drive a three-phase bridge. This project models its control core and proves what that
core is for. To verify: `dafny verify dfyconfig.toml`.

What the modules cover, hardest first:

- **Shared state between priorities.** `ConfigQueue` runs the bounded configuration queue with its
  overflow flag, the snapshot recovery and the save claim as a step system in which every load and
  store of the main loop is a step of its own. `ModeWriters` runs compare-and-swap loops against a
  plain load and store at top priority. `IsrRequests` does the one-shot action register.
- **The 20 kHz tick.** `Control` gives the tick, its unmasked fast path, the commutation expiry and
  the comparator interrupt as functions of the whole motor state, hardware operations included;
  `ControlIsr`, `Duty` and `Bemf` are the in-place code proved against them. `FastPath`, `Gating`,
  `Bridge`, `DutyOutput`, `Arming` and `SineHandoff` hold the theorems; `Bridge` reads the logged
  operations back as the state of gates, compare and comparator routing.
- **The bridge.** `Phase` turns the six-step table into four ordered register writes; a register
  word is the set of its one bits.
- **Wire formats.** `Dshot`, `Transfer`, `Commands`, `Programming`, `FrameEffects`, `Crsf`, `Crc`.
- **Arithmetic.** `FastMath`, `Functions`, `Filter`, `Commutation`, `Platform`, over the integer
  ranges and wrap functions of `Words`.

Conventions. A datatype named after the state (`Duty`, `Bemf`, `Sector`, `World`) is the value of an
object; a class has the source's fields and a `View()` of that type; each method's contract equates
the new view with a function of the old one, and the lemmas are about that function. The source's
integer widths are subset types (`U8` to `U64`, `I32`); a plain `+=` that may overflow wraps, as in
a release build. Comparator levels and timer readings are arbitrary inputs. The source requires
`min_startup <= startup_max` for its clamp (`Duty.Configured`) and the clock ranges it checks at
build time (`Control.Supported`). Comparator interrupts are taken to fire only while unmasked.

Where code and comments differ, the model follows the code: `sine_step` speaks of a changeover when
phase A wraps to zero, but above the changeover throttle it first moves phase A to zero, so the
changeover comes at the first such step (rm32/src/sine.rs:139-160, `SineHandoff.StepIsNeverIdle`).
The note in rm32_stm32/src/phase.rs:243-245 that a port leaving alternate mode is switched first
holds for the incoming drive except in one wiring; `Phase.SingleDriveExactly` gives the condition
and `Phase.OverlapOccurs` an instance.

## Model

| member | source | states |
|---|---|---|
| ConfigQueue.ReplicaAgreement | rm32_stm32/src/isr_handlers.rs:286-316 | in every interleaving of atomic dispatches with the separate loads and stores of main's pops, snapshots and saves: while the overflow flag is clear, replaying the in-flight and queued bytes onto main's copy gives the authoritative bytes |
| ConfigQueue.MainReadsAuthoritative | rm32/src/system.rs:100-119 | main's copy equals the authoritative bytes whenever it is between pops with an empty queue and a clear flag, and right after every masked snapshot or claim |
| ConfigQueue.OverflowExactly | rm32/src/shared_state.rs:387-399 | a dispatch raises the flag exactly when its bytes do not all fit beside what is queued |
| ConfigQueue.PushAll | rm32/src/shared_state.rs:387-399 | several pushes: the flag is up exactly when they do not fit; while they fit the queue is the old contents followed by them |
| ConfigQueue.OfferedChangesCarryConfig | rm32/src/transfer.rs:687-696 | the bytes one command offers take the authoritative bytes from the old to the new configuration |
| ConfigQueue.SaveFlagIsPendingRequest | rm32/src/system.rs:124-136 | the save flag is up exactly while a request has not been claimed; a request made after a claim, even before its flash write, stays for the next one |
| ConfigQueue.FlashHoldsClaimedBytes | rm32/src/system.rs:121-136 | the bytes written to flash are the authoritative ones at the claim, whatever is dispatched before the write |
| ConfigQueue.ConfigRing.Push | rm32/src/shared_state.rs:387-399 | appends to the queue or, when full, keeps it and raises the overflow flag |
| ConfigQueue.ConfigRing.Pop | rm32/src/shared_state.rs:412-421 | takes the oldest write, or nothing when empty |
| ModeWriters.NoLostUpdate | rm32_stm32/src/init.rs:25-52 | under the priority scheduler, in every interleaving of CAS loops, plain stores and the top context's load and store, the two words equal the logged operations done one after another, and the log holds each context's operations once, in its order |
| ModeWriters.ModeFollowsEdges | rm32/src/motor_mode.rs:76-88 | in that order every operation keeps the mode byte a mode and the counter within 10000, moves the mode only along an edge, and every event takes its row of the table |
| ModeWriters.RunFollowsEdges | rm32/src/motor_mode.rs:76-88 | in every scheduled interleaving whose plain stores are within the cap, each single step leaves the mode alone or moves it along an edge of the transition table |
| ModeWriters.RunStaysInRange | rm32/src/shared_state.rs:439-443 | and after every such run the mode byte is a mode and the counter at most 10000 |
| ModeWriters.RunningEdges | rm32/src/motor_mode.rs:76-88 | Running is entered only from OldRoutine and left only to Disarmed, Armed or OldRoutine; sine mode is entered only from Armed |
| ModeWriters.UnscheduledStepLosesUpdate | rm32/src/shared_comm.rs:296-316 | without the priority condition one of two increments is lost (a concrete run) |
| ModeWriters.TransitionFollowsTable | rm32/src/motor_mode.rs:76-88 | an event leads to a mode exactly when the table of (mode, event, mode) rows says so, or has no row for it and the mode stays |
| ModeWriters.LoggedEventsLead | rm32/src/motor_mode.rs:76-88 | in every scheduled run each logged event takes its row of the table at the point where it takes effect, each polling bit moves only a running mode, and a motor disarmed with no later arming is Disarmed |
| ModeWriters.CrossingsAreCounted | rm32/src/shared_state.rs:439-443 | in every such run the counter is the crossings counted since the last store to it, up to 10000 |
| ModeWriters.LogExplainsWords | rm32/src/shared_state.rs:668-707 | the top context's loaded value is still current at its store, and the words are the fold of the log |
| ModeWriters.EachContextAccounted | rm32/src/shared_state.rs:199-212 | what a context finished, followed by what it has pending, is what it started |
| ModeWriters.SharedWords.TransitionIsr0 | rm32/src/shared_state.rs:669-680 | the plain load and store does one atomic transition, taking the event's row of the table |
| ModeWriters.SharedWords.SetOldRoutineIsr0 | rm32/src/shared_state.rs:682-691 | the same for the polling bit |
| ModeWriters.SharedWords.IncrementZeroCrossesIsr0 | rm32/src/shared_state.rs:702-707 | the same for the capped increment |
| ModeWriters.ModeRoundTrip | rm32/src/motor_mode.rs:25-34 | decoding inverts the stored mode byte |
| IsrRequests.RequestStaysUntilServed | rm32/src/shared_state.rs:612-622 | in every interleaving of requests with a tick's load and clear, a requested rank or more stays in the register until a tick has acted on an action of at least that rank |
| IsrRequests.KillStaysUntilServed | rm32/src/shared_comm.rs:26-41 | a kill stays pending until a tick that loaded the kill itself clears it |
| IsrRequests.RankRoundTrip | rm32/src/shared_comm.rs:43-52 | decoding inverts the stored action byte |
| IsrRequests.ActionRegister.Request | rm32/src/shared_state.rs:615-617 | raises the register to the higher of the two ranks |
| IsrRequests.ActionRegister.Clear | rm32/src/shared_state.rs:618-622 | clears only the action it names |
| FastPath.FastPathRefinesTick | rm32/src/control/isr_logic.rs:27-146 | from every steady state the unmasked half then the sync half leaves the same world as the full tick: shared state, duty, comparator settings, direction and the same hardware operations in order |
| FastPath.KillBetweenHalves | rm32_stm32/src/isr_handlers.rs:386-396 | a kill published between the halves is handled as the full tick handles it |
| FastPath.SteadyPrepared | rm32/src/control/isr_logic.rs:204-324 | in steady state the first half of a full tick is direction, setpoint, kick and counters |
| ControlIsr.MotorContext.TenKhzTick | rm32/src/control/isr_logic.rs:152-423 | the in-place tick computes the specified tick function on the whole motor state |
| ControlIsr.MotorContext.SteadyRunningTickUnmasked | rm32/src/control/isr_logic.rs:52-121 | the in-place unmasked half computes its function |
| ControlIsr.MotorContext.SteadyRunningTickSyncCom | rm32/src/control/isr_logic.rs:129-146 | the in-place sync half computes its function |
| ControlIsr.MotorContext.CommutationTimerExpired | rm32/src/control/isr_logic.rs:536-611 | the in-place expiry computes its function, keeps the state valid, and leaves a turning motor driven on its sector |
| ControlIsr.MotorContext.HandleCompIrq | rm32_stm32/src/isr_handlers.rs:498-527 | the in-place comparator interrupt computes its function |
| ControlIsr.MotorContext.PollBemf | rm32/src/control/isr_logic.rs:500-532 | polling: sample, and on a crossing commutate at once or arm the timer |
| ControlIsr.MotorContext.TakeChangeover | rm32/src/control/isr_logic.rs:204-229 | direction, handoff, request cleared whether or not it was taken |
| ControlIsr.MotorContext.HandOff | rm32/src/control/isr_logic.rs:211-224 | the handoff's eight hardware operations in order, then the mode event |
| ControlIsr.MotorContext.EnterSine | rm32/src/control/isr_logic.rs:240-255 | outputs off on entry, mode events, counters reset, timer and comparator quiesced |
| ControlIsr.MotorContext.Start | rm32/src/control/isr_logic.rs:265-287 | start-up: outputs off, brake compare cleared, first commutation |
| ControlIsr.MotorContext.DriveThrottle | rm32/src/control/isr_logic.rs:256-297 | setpoint, start or idle housekeeping |
| ControlIsr.MotorContext.ActOnRequest | rm32/src/control/isr_logic.rs:168-202 | the timer actions other than a kill |
| ControlIsr.MotorContext.Kill | rm32/src/control/isr_logic.rs:171-183 | all gates off at a latched zero compare, timer and comparator off, pending requests dropped |
| ControlIsr.MotorContext.WriteOutput | rm32/src/control/isr_logic.rs:363-417 | exactly one owner of the bridge writes it; the published duty is the one ramped |
| ControlIsr.MotorContext.RampDuty | rm32/src/control/isr_logic.rs:331-342 | the comparator gate is latched from the same average the ramp uses |
| ControlIsr.MotorContext.CountArming | rm32/src/control/isr_logic.rs:313-324 | a second of zero throttle arms |
| ControlIsr.MotorContext.Commutate | rm32/src/control/isr_logic.rs:561-571 | advance, publish, drive and route the sector after the old one, and hand the desync flag over |
| Bridge.RunStaysInPhase | rm32/src/control/isr_logic.rs:536-571 | in every interleaving from a motor at rest, while the motor turns the comparator listens to its sector and the bridge drives that sector or, after a kill, nothing; with no kill exactly that sector |
| Bridge.SectorChangeDrives | rm32/src/control/isr_logic.rs:561-571 | after any event that changes the sector, start, handoff, polling step or expiry, the last sector driven and the last one routed are the new one |
| Bridge.EventFollows | rm32/src/control/isr_logic.rs:152-423 | over every event but a kill: a motor that turns is driven on its own sector, unless the event left drive and sector as they were |
| Bridge.KillReleasesBridge | rm32/src/control/isr_logic.rs:171-183 | every full tick that finds a kill, and every kill between the halves, ends with all gates released, a zero compare latched, the timer off, the comparator masked, kick, request and action cleared, mode and sector unchanged |
| Bridge.TickMovesMode | rm32/src/control/isr_logic.rs:204-324 | the mode after a full tick: unchanged by a kill, polling on a handoff or start, sine on sine entry, armed after the zero second, else as before |
| Bridge.TickAtRest | rm32/src/control/isr_logic.rs:363-417 | a tick that ends at rest leaves the gates released at zero compare when nobody wants the bridge, on the proportional brake when that is on, on sector 2 when the brake is held |
| Bridge.SineEntryReleases | rm32/src/control/isr_logic.rs:240-255 | a tick that enters sine drive leaves the bridge off, zero latched, timer off and comparator masked |
| Bridge.StartLogged | rm32/src/control/isr_logic.rs:265-287 | the operations of a start, which drives and routes the sector after the old one |
| Bridge.PollLogged | rm32/src/control/isr_logic.rs:500-532 | the operations of a polling tick: only the mask without a crossing, the next sector for the first five crossings, the timer afterwards |
| Bridge.ActionServed | rm32/src/control/isr_logic.rs:184-202 | a commutate kick takes the reading as a crossing and arms the timer for one tick; kick and reset restart the interval; no action stays pending |
| Bridge.TickTakesOver | rm32/src/control/isr_logic.rs:326-423 | a full tick takes main's direction and comparator settings over, publishes reading and comparator gate, and clears request, kick and action |
| Bridge.TickSetpoint | rm32/src/control/isr_logic.rs:232-297 | the setpoint of a full tick case by case, and the run counters cleared when armed, at rest and below the threshold |
| Bridge.TelemetryCadence | rm32/src/control/isr_logic.rs:156-161 | telemetry is requested every 29 ms plus the configured interval, counted in ticks |
| Bridge.CrossingPolarity | rm32/src/bridge.rs:27-42 | each advance is reversible, goes to an adjacent sector, and the floating leg crosses upwards exactly when it was low before the sector and is driven after it |
| Bridge.BrakeDutyScaled | rm32/src/control/isr_logic.rs:395-403 | the brake compare is within ten counts below power / 200 of the period, at most the period |
| Gating.EdgeArmsExactly | rm32/src/control/isr_logic.rs:463-497 | a comparator edge arms the commutation timer exactly when the mode is Running, the gate average is positive, the count is past half of it and every filter sample agrees; otherwise it only clears, re-pends or masks |
| Gating.TickEndsMaskedUnlessRunning | rm32/src/control/isr_logic.rs:152-423 | no full tick unmasks the comparator, and each ends with it masked unless the mode is Running |
| Gating.EveryTickEndsMasked | rm32/src/control/isr_logic.rs:152-423 | the same at every tick of every interleaving |
| Gating.ExpiryUnmasksOnlyRunning | rm32/src/control/isr_logic.rs:536-611 | only an expiry that has just advanced the sector unmasks, and only into or within Running |
| Gating.EdgeNotSwallowed | rm32/src/control/isr_logic.rs:463-497 | with the gate closed a crossing already there is left pending and one arriving during the clear is re-raised; anything else is only cleared |
| Gating.ExpiryLogged | rm32/src/control/isr_logic.rs:555-571 | all operations of an expiry: timer off, the next sector driven, its toggle, the comparator routed to it with its polarity, and unmasked exactly if Running results; at rest timer off and masked |
| Gating.ExpiryMovesMode | rm32/src/control/isr_logic.rs:573-611 | Running falls back exactly when the average step exceeds 1.25 ms (0.75 bidirectional); polling locks exactly when the step found is below 1 ms (0.5), or at most that after 20 crossings under the strict rule; the crossings count on to 10000 |
| Gating.ExpiryPublishes | rm32/src/control/isr_logic.rs:561-592 | the found interval goes into the new sector's slot, the period is that of the six slots, interrupt mode averages the interval and recomputes the wait |
| Gating.ExpiryHandsOverDesync | rm32/src/control/isr_logic.rs:556-560 | the desync flag is handed to main once a turn |
| Gating.UnmaskedByCommutation | rm32/src/control/isr_logic.rs:536-611 | over all events, what unmasks the comparator is such an expiry |
| Gating.OneCommutationPerCrossing | rm32/src/control/isr_logic.rs:621-651 | in every run, between two accepted crossings the timer expired, advanced the sector, and logged exactly timer off, the new sector driven, its toggle, its route and the unmask |
| Gating.RunStaysSound | rm32/src/control/isr_logic.rs:152-423 | every event keeps the sector, the interval sum and the duty limits consistent |
| Gating.SamplesPersist | rm32/src/control/isr_logic.rs:640-644 | the sample loop accepts exactly when all samples are past the crossing |
| Arming.ArmsExactlyAfterZeroSecond | rm32/src/control/isr_logic.rs:313-324 | in every interleaving an event arms exactly when it is a tick with zero input that ends more than a second of such ticks in a row |
| Arming.CounterIsZeroRun | rm32/src/control/isr_logic.rs:313-324 | the counter of a disarmed motor is its run of zero-input ticks, 0 while armed |
| Arming.TickArms | rm32/src/control/isr_logic.rs:152-423 | what a whole tick does to the counter and the armed state |
| Duty.PublishedDutyBounded | rm32/src/control/state.rs:104-159 | one tick: the duty is within both ceilings, exceeds the ramp origin by at most the boost plus the step chosen (0 on a tick that does not ramp), and falls below it by no more than that step unless a ceiling makes it |
| Duty.PublishedDutyReaches | rm32/src/control/state.rs:104-159 | one tick publishes exactly the setpoint brought within one step of the ramp origin, plus the boost, under the ceilings |
| Duty.ThrottleNearLine | rm32/src/control/state.rs:76-92 | the mapped throttle is within 15 duty steps of the straight line from (47, minimum) to (2047, 2000) |
| Duty.SetpointMonotone | rm32/src/control/state.rs:69-100 | more throttle never means a lower setpoint |
| Duty.StartupClampWindow | rm32/src/control/state.rs:93-99 | the start-up clamp is on exactly while (crossings + 1) 2^min(stall protection, 5) is at most 30, and brings the mapped throttle into the start-up range |
| Duty.RampProfile | rm32/src/control/state.rs:112-136 | which ramp step a tick takes, in time and volts: start-up, slower or faster than 250 us a step; 10 steps at 8 V to 1 at 22 V, tripled up to 100 us |
| Duty.VoltageStepFalls | rm32/src/control/state.rs:114-127 | a higher battery voltage never means a larger step |
| Duty.RampOverRuns | rm32/src/control/state.rs:104-217 | over any run the duty rises by at most one ramp bound per ramping tick plus the boosts |
| Duty.RampCadence | rm32/src/control/state.rs:112-146 | over any run exactly one tick in divider + 1 ramps |
| Duty.LimitedNearOrigin | rm32/src/control/state.rs:137-143 | ramp limiting is the identity within one step of the origin and the step limit outside |
| Duty.CompareWithinPeriod | rm32/src/control/state.rs:199-202 | at full scale or below the compare is floor(duty * arr / 2000) + 1 and at most arr + 1 |
| Duty.PwmCompare | rm32/src/control/state.rs:199-202 | the shift-add compare is the divided one for every duty and period, truncated to 16 bits |
| Duty.BrakeCompare | rm32/src/control/state.rs:205-211 | the drag-brake compare, saturating at 0 above strength 10 |
| Duty.DutyState.ComputeSetpoint | rm32/src/control/state.rs:69-100 | the loop-based mapping and the start-up clamp compute the setpoint function |
| Duty.DutyState.RampLimit | rm32/src/control/state.rs:104-147 | the in-place ramp computes its function |
| Duty.DutyState.ClampCeilings | rm32/src/control/state.rs:150-159 | boost, then both ceilings |
| Duty.DutyState.KickDown | rm32/src/control/state.rs:168-170 | the ramp origin is at most half the start-up duty |
| Duty.DutyState.Finalize | rm32/src/control/state.rs:214-217 | the published duty is the next ramp origin |
| Duty.StartupWindowIsShift | rm32/src/control/state.rs:94-95 | the start-up window is the shifted base count |
| DutyOutput.TickDutyBounded | rm32/src/control/isr_logic.rs:307-417 | every full tick but a kill: the published duty is within both of main's ceilings, and exactly the setpoint brought within the step this tick chose of the ramp origin (old or start-up duty, kicked or not), plus the boost; while running the last writes are its compare and the period |
| DutyOutput.FastHalfDutyBounded | rm32/src/control/isr_logic.rs:78-120 | the same for every fast half from the old duty; with no stop request and no tone its last writes are its compare and the period, otherwise it writes nothing |
| DutyOutput.EveryCompareWithinPeriod | rm32/src/control/isr_logic.rs:78-120 | in every run whose maximum stays at full scale or below, every event that writes the running compare, full tick or fast half: the duty meets both ceilings and the step bound of its origin, and the last writes are a compare of exactly floor(duty * arr / 2000) + 1, at most arr + 1, and the period |
| DutyOutput.DutyStaysInScale | rm32/src/control/isr_logic.rs:307-417 | in every such interleaving the ramp origin stays at full scale or below |
| DutyOutput.RestRunsPipeline | rm32/src/control/isr_logic.rs:307-417 | each such tick runs the duty pipeline exactly once, from the start-up duty exactly when it starts the motor and from the old duty otherwise, kicked exactly when a kick is pending and the tick ends running |
| DutyOutput.SteadyPipes | rm32/src/control/isr_logic.rs:78-114 | the fast half runs it once, from the old duty, with main's boost |
| Bemf.BlendedStaysInRange | rm32/src/control/state.rs:554-566 | the blended interval lies between the measurement and the old interval; nothing wraps |
| Bemf.AveragedStaysInRange | rm32/src/control/state.rs:569-575 | the averaged interval lies between its inputs; nothing wraps |
| Bemf.WaitWithinHalf | rm32/src/control/state.rs:562-565 | the wait is half the interval less the advance, never negative, 0 from advance 32; the timer runs one tick longer |
| Bemf.IntervalWeights | rm32/src/control/state.rs:554-575 | a crossing moves the interval a quarter of the way to the measurement, an expiry halfway to the mean of the last two, both rounded down |
| Bemf.NoiseClearsCount | rm32/src/control/state.rs:605-624 | samples before the crossing keep the count up to the threshold and clear it beyond |
| Bemf.CleanCrossingDetected | rm32/src/control/state.rs:531-538 | n clean samples are a detected crossing exactly when n exceeds the threshold |
| Bemf.BemfState.RecordZeroCross | rm32/src/control/state.rs:554-566 | shifts the crossing times and returns the blended interval |
| Bemf.BemfState.UpdateTimingFromTimer | rm32/src/control/state.rs:569-575 | recomputes the wait from the mean of the last two crossings |
| Bemf.BemfState.Update | rm32/src/control/state.rs:605-624 | counts samples past the crossing, restarts after too many before it |
| SineHandoff.HandoffProtocol | rm32/src/system.rs:167-238 | in every interleaving, sine mode turns into polling only in a full tick consuming a sector main published and no tick cancelled; drive quiesced before the sector, timer re-armed after, request 0 at the end |
| SineHandoff.HandoffTick | rm32/src/control/isr_logic.rs:204-224 | the log of a handoff tick: timer off, masked, zero duty latched, sector, interval, route, timer on, then only duty and period |
| SineHandoff.OnlyHandoffLeavesSine | rm32/src/control/isr_logic.rs:204-224 | no other event leaves sine mode for polling |
| SineHandoff.RequestProvenance | rm32/src/system.rs:222-238 | a pending request was published by a service call in sine mode, and since then no tick ran and no service wrote to the bridge |
| SineHandoff.ServiceDrives | rm32/src/system.rs:178-238 | a service call above the signal threshold enables all phases if they are not, outputs the stepped angles last, and at a high throttle publishes sector 5, 4.5 ms and 20 crossings |
| SineHandoff.SlowDelayFalls | rm32/src/sine.rs:127-134 | the slow delay falls with the throttle from 7000 to 810 over the poles |
| SineHandoff.RequestClearedByTick | rm32/src/control/isr_logic.rs:225-226 | the request is 0 after every tick |
| SineHandoff.ServiceKeepsMode | rm32/src/system.rs:178-185 | main writes no output while a request is pending, and publishes only sector 5 at a high throttle |
| SineHandoff.StepIsNeverIdle | rm32/src/system.rs:205-218 | the unreachable Idle result cannot occur; a changeover results exactly above the changeover throttle |
| SineHandoff.PatternIsRigid | rm32/src/sine.rs:240-268 | stepping keeps the angles in range and their separations, and stepping back undoes it |
| SineHandoff.EntryPattern | rm32/src/sine.rs:220-227 | every entry sector gives angles 119 and 239 degrees apart, each sector 60 degrees on from the one before |
| SineHandoff.SystemTick.ServiceSine | rm32/src/system.rs:167-220 | the in-place service call computes its function on the motor state and the angles |
| SineHandoff.SineStep | rm32/src/sine.rs:100-181 | the in-place sine step computes its result and angles |
| SineHandoff.PhasePositions.Advance | rm32/src/sine.rs:240-268 | one degree for all three phases, wrapping at 360 |
| Phase.BreakBeforeMake | rm32_stm32/src/phase.rs:232-252 | for six distinct pins, any PWM modes and steps with no leg going from PWM straight to solid low: after each write no leg has PWM high with a solid low side, no high side is solid, at most one low side is |
| Phase.AdjacentStepsFloatBetween | rm32/src/bridge.rs:27-42 | adjacent steps, either way, meet that condition |
| Phase.SafeExactlyWithoutDirectTurn | rm32_stm32/src/phase.rs:232-252 | from diode mode the condition is also necessary |
| Phase.EndState | rm32_stm32/src/phase.rs:85-136 | from any registers the four writes end in exactly the roles of the step table, every other pin untouched |
| Phase.SingleDriveExactly | rm32_stm32/src/phase.rs:243-251 | at most one high side is in PWM at every point exactly unless the drive leaves port B for a complementary leg with its high side on A and its low side on B; so always when the high sides share a port |
| Phase.OverlapAfterThirdWrite | rm32_stm32/src/phase.rs:243-251 | in that wiring both high sides are in PWM after the third write |
| Phase.OverlapOccurs | rm32_stm32/src/phase.rs:243-251 | a concrete wiring and the adjacent steps 3 and 4 in complementary mode where this happens |
| Phase.OrderDependsOn | rm32_stm32/src/phase.rs:236-245 | what the two order tests look at |
| Phase.PlanStep | rm32_stm32/src/phase.rs:85-136 | the loop fills the six words of the plan |
| Phase.Gpio.ApplyPlan | rm32_stm32/src/phase.rs:232-252 | the four writes, with every intermediate register state recorded |
| Phase.Gpio.ComStep | rm32_stm32/src/phase.rs:269-283 | a step outside 1..=6 writes nothing |
| Transfer.PacketSimulatesCapture | rm32/src/transfer.rs:345-403 | over every sequence of well-timed frames the capture path and the packet path give equal actions, detections, zero-input counts and state, frame averages aside |
| Transfer.DetectionNeedsIdleLine | rm32/src/transfer.rs:425-485 | from power-on, a bidirectional detection means 104 idle frames and four inverted checksums in a row |
| Transfer.BidirectionalSenderDetected | rm32/src/transfer.rs:425-485 | from any state a bidirectional sender is detected by its 104th idle frame |
| Transfer.CalibrationNeedsSteadyStick | rm32/src/transfer.rs:489-516 | from power-on calibration is required exactly once the stick was above 1500 and within 50 of itself for more than 50 frames; until then the zero-input count is the zero frames since the last other one |
| Transfer.DetectedOnSecondMatch | rm32/src/transfer.rs:408-423 | an input is detected by exactly every second of a run of agreeing matches |
| Transfer.FramesAreAveraged | rm32/src/transfer.rs:287-305 | up to eight unarmed frames of one length after more than five zero inputs sum to their count times that length |
| Transfer.EqualFramesAccepted | rm32/src/transfer.rs:297-301 | eight equal frames give a window of one sixteenth either side that accepts them |
| Transfer.TransferState.Process | rm32/src/transfer.rs:206-343 | the capture path on a capture of any length: decode, probe, count, average, calibration entry; below 32 edges no frame, the rest as before |
| Transfer.TransferState.ProcessPacket | rm32/src/transfer.rs:355-403 | the packet path has the frame outcome of the two decodings |
| Transfer.TransferState.ConfirmProtocol | rm32/src/transfer.rs:408-423 | detection commits on the second consecutive match |
| Transfer.TransferState.DetectPacket | rm32/src/transfer.rs:366-385 | before input is set, a packet valid under either checksum counts |
| Transfer.TransferState.EnterCalibration | rm32/src/transfer.rs:489-516 | the calibration-entry counters, with wrapping sums |
| Programming.ConfigChangesOnlyBySequence | rm32/src/dshot_commands.rs:138-172 | after any history a frame changes the configuration only as a direction command, in its byte, or as the 37 ending six accepted 36s, a position below 192 and a value, the gate open throughout; only that byte changes, to the value mod 256, and exactly the changed bytes are offered |
| Programming.PacketsChangeConfigOnlyBySequence | rm32/src/transfer.rs:556-622 | the same for every sequence of received packets, under either checksum, with nothing assumed of the frames |
| Programming.DecoderYieldsDecoded | rm32/src/dshot.rs:46-73 | whatever the packet, a decoded command is 1 to 47 and a decoded throttle is not |
| Programming.PendingExactly | rm32/src/dshot_commands.rs:138-172 | a sequence is pending, with that position and value, exactly when the history holds one that nothing has ended |
| FrameEffects.ThrottleIsRead | rm32/src/transfer.rs:587-622 | after every history of frames the published throttle is what the last deciding frame decided: 0 for a command or during a sequence, else a throttle that is zero or came with EDT arming off or done |
| FrameEffects.EdtArmedExactly | rm32/src/transfer.rs:595-605 | EDT is armed exactly when an executed 13 armed it and no zero throttle has come since |
| FrameEffects.FrameTakesEffect | rm32/src/dshot_commands.rs:49-133 | after any history a command takes effect exactly on the sixth frame of its streak, tones at once, with exactly its own effect on tone, save, info, direction and telemetry; no other frame has any |
| Programming.SequenceCommits | rm32/src/dshot_commands.rs:138-172 | conversely every such sequence, with any undecoded frames between, writes exactly that byte |
| Programming.NoThrottleWhileProgramming | rm32/src/transfer.rs:587-622 | from the sixth 36 to the end of the sequence no non-zero throttle is published |
| Programming.HistoryExplains | rm32/src/dshot_commands.rs:49-172 | after any history the processor's registers say exactly what the history holds |
| Programming.PendingStep | rm32/src/transfer.rs:563-570 | a frame with its gate closed cancels a pending sequence; one with it open feeds it |
| Programming.OneChange | rm32/src/transfer.rs:687-696 | writing one byte offers it exactly if it changed |
| Commands.ChangesAreExact | rm32/src/transfer.rs:687-696 | a pair is offered exactly when that byte changed to that value |
| Commands.ChangesAscend | rm32/src/transfer.rs:687-696 | each changed byte is offered once, in order |
| Commands.ChangesReplay | rm32/src/transfer.rs:687-696 | replaying the offered pairs on the old configuration gives the new one |
| Commands.CommandProcessor.Process | rm32/src/dshot_commands.rs:49-133 | repetition counting and the sixth-frame effects |
| Commands.CommandProcessor.ProcessProgramming | rm32/src/dshot_commands.rs:138-172 | the three-stage programming register |
| Commands.InputIsr.ApplyCommand | rm32/src/transfer.rs:665-710 | processor, offered bytes, flags and telemetry requests of one value |
| Commands.InputIsr.Dispatch | rm32/src/transfer.rs:556-622 | one decoded frame: cancel, throttle or command; the throttle published is 0 for a command or a pending sequence, the frame's if zero or EDT arming is off or done, else the old one |
| Dshot.CaptureDecodes | rm32/src/dshot.rs:78-97 | a frame inside the window decodes to its bits whatever the 16-bit start count and the pulse widths either side of frametime / 32 |
| Dshot.DecodeFrame | rm32/src/dshot.rs:78-97 | the shift loop computes the capture decoding |
| Dshot.UnpackInvertsPack | rm32/src/dshot.rs:46-73 | unpacking inverts packing for all 2048 values, both telemetry bits and both checksums |
| Dshot.OneChecksumOnly | rm32/src/dshot.rs:46-73 | no packet is valid under both checksums |
| Dshot.TelemetryRoundTrip | rm32/src/dshot.rs:109-142 | undoing the transition coding and, by a flight controller's own table, the 5b/4b code gives back the low 12 bits and the inverted checksum, for every value and bit width |
| Dshot.NibbleOfEntry | rm32/src/dshot.rs:291-311 | a flight controller's decode table inverts the encode table |
| Dshot.AcceptedParity | rm32/src/dshot.rs:46-60 | a packet is accepted only if each of its four bit columns has even parity, odd under the inverted checksum |
| Dshot.ChecksumParity | rm32/src/dshot.rs:109-119 | each checksum bit makes the parity of its column of the four nibbles odd |
| Dshot.EncodeGcrFrame | rm32/src/dshot.rs:131-142 | writes exactly its 22 slots, with the wave of the coded word |
| Dshot.GcrBits | rm32/src/dshot.rs:109-126 | the checksum loop and the table give the coded word |
| Dshot.ErpmTo12Bit | rm32/src/dshot.rs:145-157 | the period read back is at most the period and within 2^exponent of it, with a normalised mantissa |
| Crsf.StreamIsParsed | rm32/src/crsf.rs:98-153 | for every stream of sync-free garbage and delimited frames, byte-by-byte feeding gives exactly one correct result per frame, at its last byte, and an empty buffer at the end |
| Crsf.BufferNeverFills | rm32/src/crsf.rs:98-153 | on every byte stream the 64-byte buffer never fills |
| Crsf.UnpackKeepsValue | rm32/src/crsf.rs:180-211 | the channels and the payload spell the same number, base 2048 and base 256 |
| Crsf.UnpackInvertsPack | rm32/src/crsf.rs:180-211 | unpacking inverts least-significant-first packing of sixteen 11-bit channels |
| Crsf.PackInvertsUnpack | rm32/src/crsf.rs:180-211 | and packing inverts unpacking |
| Crsf.ChannelFrameArrives | rm32/src/crsf.rs:98-153 | a channel frame delivers its channels |
| Crsf.CorruptedFrameIsRejected | rm32/src/crsf.rs:98-153 | a channel frame with any one byte changed is reported, not delivered |
| Crsf.CrsfParser.Feed | rm32/src/crsf.rs:98-153 | the in-place buffer update computes the feed step |
| Crsf.ChannelToThrottle | rm32/src/crsf.rs:156-165 | the throttle stays within 0..2047 |
| Crsf.ChannelIsLinear | rm32/src/crsf.rs:156-165 | between 172 and 1811 the throttle is the straight line to 2047, rounded down, and monotone |
| Crc.CrcIsRemainder | rm32/src/crsf.rs:28-56 | the CRC is the remainder of the message polynomial, which exists and is unique (CRC-8/DVB-S2, section 5.1.4 of ETSI EN 302 307-1) |
| Crc.Crc8DvbS2 | rm32/src/crsf.rs:50-56 | the table-driven loop computes the bitwise CRC |
| Crc.BuildTable | rm32/src/crsf.rs:29-47 | the table holds eight shifts of every byte |
| Crc.MessageWithCrcIsZero | rm32/src/crsf.rs:50-56 | a message followed by its CRC has CRC 0, for every generator |
| Crc.SingleByteChangeDetected | rm32/src/functions.rs:49-68 | any change confined to one byte of a message of any length changes the CRC, for any odd generator |
| Crc.GetCrc8 | rm32/src/functions.rs:62-68 | the telemetry CRC loop computes the CRC with generator 0x07 |
| Crc.UpdateCrc8 | rm32/src/functions.rs:49-59 | one byte of it |
| Functions.Map | rm32/src/functions.rs:16-41 | the loop equals the tail-recursive definition where no i32 sum overflows, stays between the output endpoints and near the straight line |
| Functions.MapMonotone | rm32/src/functions.rs:16-41 | monotone in the input, antitone for a reversed output range |
| Functions.MapNearLine | rm32/src/functions.rs:16-41 | the map is within k (2 rise + width) / (2 width) of the straight line, 2^k at most the width |
| Functions.MapMiddles | rm32/src/functions.rs:16-41 | exact at the midpoint, from both sides, and at the midpoint of either half |
| Functions.MapHalvingsBounded | rm32/src/functions.rs:16-41 | at most floor(log2(range)) halvings |
| Functions.MapStaysBetween | rm32/src/functions.rs:16-41 | both endpoints are hit exactly |
| Functions.SmallRangesFit | rm32/src/functions.rs:16-41 | endpoints up to 2^30 never overflow, whatever the input |
| Functions.DelayMicros | rm32/src/functions.rs:80-92 | returns at exactly the first read after the initial one where the true elapsed counts reach us * counts_per_us, over any number of wraps |
| Functions.MaskedDifference | rm32/src/functions.rs:80-92 | the masked wrapping difference of two reads less than a period apart is the true count |
| FastMath.Div3U32 | rm32/src/fast_math.rs:21-28 | exact for every u32, no intermediate overflow |
| FastMath.Div3I32 | rm32/src/fast_math.rs:11-18 | exact truncating division for every i32 |
| FastMath.Div5U32 | rm32/src/fast_math.rs:34-44 | exact for every u32 |
| FastMath.Div10U32 | rm32/src/fast_math.rs:47-50 | exact for every u32 |
| FastMath.Div2000U32 | rm32/src/fast_math.rs:55-58 | exact for every u32 |
| Filter.UnsignedUpdateIsExact | rm32/src/filter.rs:36-52 | the unsigned update never over- or underflows and equals the exact floored step |
| Filter.EwmaPow2.Update | rm32/src/filter.rs:36-52 | after any samples the state is the exact filter state |
| Filter.OutputWithinSamples | rm32/src/filter.rs:36-52 | outputs stay within the samples seen |
| Filter.ConstantInputStep | rm32/src/filter.rs:36-52 | a constant input strictly shrinks the distance, except exactly in (S - 2^K, S] |
| Filter.ConstantInputSettles | rm32/src/filter.rs:36-52 | and every start comes to rest there |
| Commutation.SumOfLatestIntervals | rm32/src/commutation.rs:34-48 | in every run the stored sum is that of the latest interval of each sector, and at 2 MHz the published period and average are (sum + 4) / 2 and floor((sum + 4) / 6) |
| Commutation.FullTurnAverages | rm32/src/commutation.rs:34-70 | after six commutations one way the motor is back on its sector and the sum is that of exactly those six intervals |
| Commutation.OneWrapPerTurn | rm32/src/commutation.rs:53-70 | of six advances one way exactly one raises the desync flag |
| Commutation.RisingIsFromLastStepChange | rm32/src/commutation.rs:53-98 | the crossing polarity follows the direction at the last step change, so it fits the current one exactly when no later call changed it |
| Commutation.Commutation.RecordInterval | rm32/src/commutation.rs:34-48 | the running sum never underflows and the published period is that of the six slots |
| Commutation.Commutation.Advance | rm32/src/commutation.rs:53-70 | next sector, polarity and wrap flag |
| Commutation.Commutation.SetStep | rm32/src/commutation.rs:80-88 | clamps to a sector and recomputes the polarity |
| Platform.AverageAt2MHz | rm32/src/platform.rs:52-97 | at 2 MHz the two conversions compose to the rounded average of six |
| Platform.PeriodIsNearest | rm32/src/platform.rs:52-58 | at other rates the period is the nearest microsecond |
| Platform.ConversionsRoundDown | rm32/src/platform.rs:27-97 | microseconds to ticks and period to average interval round down at every rate |

## Left out

- The `bridge_enable` path of `com_step`, `all_off`, `full_brake`, `all_pwm` and `proportional_brake` at pin level: they are sequences of single-pin writes with no ordering claim; the control model logs them as operations.
- Register, ADC, UART, DMA and flash drivers, MCU start-up, panic code, LED and tune playback: hardware I/O.
- Memory ordering and the critical-section variant of the atomics: sequential consistency on one core is assumed.
- Input signal classification, servo decoding and its calibration, the CRSF throttle dispatch and EDT scheduling: `Transfer` covers the DShot frames of both ports once input is set, and the packet port's detection.
- Speed, stall and current regulators, temperature and battery protection, the sine and NTC tables: the values they publish are arbitrary inputs; sine duties are logged as angles.
- Real time, interrupt latency and preemption inside a handler body: each masked handler is one step, and the two halves of a fast tick are two.
- Transfer.TransferState.Process: takes the capture path in DShot mode; frame-length averages are left out of the comparison with the packet path, which has none.
- Commands.InputIsr.Dispatch: covers DShot throttle and command frames; input-detected and servo actions and the frame-time window are not part of its state.
- FastPath.FastPathRefinesTick: is about a tick that nothing preempts; what may preempt between the halves is covered by `FastPath.KillBetweenHalves` and the runs of `Gating`.
- Bridge.RunStaysInPhase: main's writes may change everything shared except that they never start the motor, as no mode event of the main loop does; main's sine outputs are the subject of `SineHandoff`.
- SineHandoff.HandoffProtocol: main's other writes may change everything shared except the mode, which changes only by mode events other than the handoff's own, and the request.
- ControlIsr.MotorContext.TenKhzTick: shared state and hardware are record-valued fields of one object, so aliasing between separately borrowed peripherals is not modelled.
