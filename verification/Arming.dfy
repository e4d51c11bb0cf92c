/** Arming: the control tick alone arms, and only after more than a second of
    uninterrupted zero input (rm32/src/control/isr_logic.rs). */
module Arming {
  import opened Words
  import opened ModeWriters
  import opened Control
  import B = Bemf
  import C = Commutation
  import D = Duty
  import G = Gating

  predicate Armed(w: World) { IsArmed(w.shared.motor.mode) }

  predicate ZeroInput(w: World) { w.shared.throttle.inputSet && w.shared.throttle.adjustedInput == 0 }

  predicate Kills(w: World) { w.shared.commands.isrAction.KillAll? }

  // ----- one tick -----

  lemma ActedKeeps(w: World, r: Readings)
    ensures Acted(w, r).shared.throttle == w.shared.throttle && Acted(w, r).armedTimeout == w.armedTimeout
    ensures Acted(w, r).shared.motor.mode == w.shared.motor.mode
  {
    hide B.BlendedInterval;
    hide B.ZeroCrossRecorded;
  }

  lemma DisarmedPrepared(w: World, c: Settings)
    requires Sound(w) && Supported(c) && !Armed(w)
    ensures var v := Prepared(w, c);
      if ZeroInput(w) && Wrap32(w.armedTimeout + 1) > c.tickHz
      then v.shared.motor.mode.Armed? && v.armedTimeout == 0
      else !Armed(v) && v.armedTimeout == if ZeroInput(w) then Wrap32(w.armedTimeout + 1) else 0
  {
    hide HandedOff;
    hide SineEntered;
    hide Started;
    hide D.Setpoint;
    hide D.KickedDown;
    hide Wrap32;
  }

  lemma ArmedPrepared(w: World, c: Settings)
    requires Sound(w) && Supported(c) && Armed(w)
    ensures Armed(Prepared(w, c)) && Prepared(w, c).armedTimeout == w.armedTimeout
  {
    hide Driven;
    hide D.KickedDown;
    hide DoneAll;
    var changed := Changed(w, c);
    ChangedKeeps(w, c);
    hide Changed;
    var entered := if EntersSine(changed, c) then SineEntered(changed) else changed;
    assert Armed(entered) && entered.armedTimeout == w.armedTimeout;
    DrivenKeeps(entered, c);
  }

  lemma ChangedKeeps(w: World, c: Settings)
    requires Armed(w)
    ensures Armed(Changed(w, c)) && Changed(w, c).armedTimeout == w.armedTimeout
  {
    hide DoneAll;
  }

  lemma DrivenKeeps(w: World, c: Settings)
    requires Sound(w) && Supported(c) && Armed(w)
    ensures Armed(Driven(w, c)) && Driven(w, c).armedTimeout == w.armedTimeout
  {
    hide D.Setpoint;
    hide Stepped;
    hide DoneAll;
  }

  lemma RestKeepsPrepared(w: World, c: Settings, r: Readings)
    requires Sound(w) && Supported(c)
    ensures Rest(w, c, r).shared.motor.mode == Prepared(w, c).shared.motor.mode
    ensures Rest(w, c, r).armedTimeout == Prepared(w, c).armedTimeout
  {
    hide Prepared;
    hide Polled;
    hide OutputOps;
    hide D.Ramped;
    hide D.Clamped;
    hide RampInputsOf;
    hide HandsOff;
    hide DoneAll;
    G.PolledKeeps(Prepared(w, c), c, r);
  }

  /** What a tick does to the arming counter and the armed state. */
  lemma TickArms(w: World, c: Settings, r: Readings)
    requires Sound(w) && Supported(c)
    ensures var v := Tick(w, c, r);
      if Armed(w) || Kills(w) then Armed(v) == Armed(w) && v.armedTimeout == w.armedTimeout
      else if ZeroInput(w) && Wrap32(w.armedTimeout + 1) > c.tickHz
      then v.shared.motor.mode.Armed? && v.armedTimeout == 0
      else !Armed(v) && v.armedTimeout == if ZeroInput(w) then Wrap32(w.armedTimeout + 1) else 0
  {
    hide Rest;
    hide Prepared;
    hide Wrap32;
    G.CountedKeeps(w.shared, c);
    hide Counted;
    var u := MaskedUnlessRunning(w.(shared := Counted(w.shared, c)));
    if !Kills(w) {
      ActedKeeps(u, r);
      G.ActedQuiet(u, r);
      var a := Acted(u, r);
      RestKeepsPrepared(a, c, r);
      if Armed(w) { ArmedPrepared(a, c); } else { DisarmedPrepared(a, c); }
    }
  }

  // ----- every interleaving -----

  /** Interrupts, main's writes that leave the mode alone, and main's mode events,
      none of which is Arm. */
  datatype Event = Motor(e: G.Event) | ModeEvent(event: MotorEvent)

  predicate Enabled(w: World, e: Event) {
    match e
    case Motor(g) => G.Enabled(w, g) && (g.MainWrites? ==> g.shared.motor.mode == w.shared.motor.mode)
    case ModeEvent(event) => event != Arm
  }

  function Next(w: World, e: Event, c: Settings): World
    requires Sound(w) && Supported(c) && Enabled(w, e)
  {
    match e
    case Motor(g) => G.Next(w, g, c)
    case ModeEvent(event) => Evented(w, event)
  }

  ghost predicate Run(states: seq<World>, events: seq<Event>, c: Settings)
    requires Supported(c)
  {
    |states| == |events| + 1 && Sound(states[0]) && !Armed(states[0]) && states[0].armedTimeout == 0 &&
    forall i :: 0 <= i < |events| && Sound(states[i]) ==>
      Enabled(states[i], events[i]) && states[i + 1] == Next(states[i], events[i], c)
  }

  /** A full tick that gets as far as the arming counter of a disarmed motor. */
  predicate CountingTick(w: World, e: Event) { e.Motor? && e.e.FullTick? && !Armed(w) && !Kills(w) }

  /** The latest uninterrupted run of counting ticks with zero input. */
  function ZeroTicks(states: seq<World>, events: seq<Event>, n: nat): nat
    requires n <= |events| && n <= |states|
  {
    if n == 0 then 0
    else if Armed(states[n - 1]) then 0
    else if !CountingTick(states[n - 1], events[n - 1]) then ZeroTicks(states, events, n - 1)
    else if ZeroInput(states[n - 1]) then ZeroTicks(states, events, n - 1) + 1 else 0
  }

  lemma NextKeepsSound(w: World, e: Event, c: Settings)
    requires Sound(w) && Supported(c) && Enabled(w, e)
    ensures Sound(Next(w, e, c))
  {
    hide G.Next;
    match e
    case Motor(g) => G.NextKeepsSound(w, g, c);
    case ModeEvent(_) =>
  }

  lemma CompIrqKeeps(w: World, e: Edge)
    requires |e.samples| >= w.bemf.filterLevel
    ensures CompIrq(w, e).armedTimeout == w.armedTimeout
  {
    hide SamplesAgree;
    hide DoneAll;
  }

  /** Every event but a counting tick leaves the counter alone and arms nothing. */
  lemma OtherEventsDoNotArm(w: World, e: Event, c: Settings)
    requires Sound(w) && Supported(c) && Enabled(w, e) && !CountingTick(w, e)
    ensures Next(w, e, c).armedTimeout == w.armedTimeout && (Armed(Next(w, e, c)) ==> Armed(w))
  {
    hide Tick;
    hide SteadyUnmasked;
    hide Expired;
    hide CompIrq;
    match e
    case Motor(g) =>
      match g {
        case FullTick(r) => TickArms(w, c, r);
        case FastHalf => G.FastHalfKeeps(w, c);
        case Expiry(bidirectional, strict) => G.ExpiryKeeps(w, c, bidirectional, strict);
        case Comparator(edge) => CompIrqKeeps(w, edge); G.EdgeArmsExactly(w, edge);
        case _ =>
      }
    case ModeEvent(event) =>
  }

  /** The counter of a disarmed motor is the run of zero ticks; it is 0 while armed. */
  lemma {:induction false} CounterIsZeroRun(states: seq<World>, events: seq<Event>, c: Settings, n: nat)
    requires Supported(c) && Run(states, events, c) && n < |states|
    ensures Sound(states[n])
    ensures states[n].armedTimeout == (if Armed(states[n]) then 0 else ZeroTicks(states, events, n)) <= c.tickHz
  {
    hide Next;
    hide Enabled;
    hide Sound;
    hide Tick;
    if n > 0 {
      var w, e := states[n - 1], events[n - 1];
      CounterIsZeroRun(states, events, c, n - 1);
      NextKeepsSound(w, e, c);
      if CountingTick(w, e) {
        TickNext(w, e, c);
        TickArms(w, c, e.e.readings);
      } else {
        OtherEventsDoNotArm(w, e, c);
      }
    }
  }

  lemma TickNext(w: World, e: Event, c: Settings)
    requires Sound(w) && Supported(c) && Enabled(w, e) && e.Motor? && e.e.FullTick?
    ensures Next(w, e, c) == Tick(w, c, e.e.readings)
  {
    hide Tick;
  }

  /** In every interleaving, an event arms exactly when it is a counting tick with
      zero input that ends more than a second's worth of such ticks in a row. */
  lemma ArmsExactlyAfterZeroSecond(states: seq<World>, events: seq<Event>, c: Settings, n: nat)
    requires Supported(c) && Run(states, events, c) && n < |events| && !Armed(states[n])
    ensures Armed(states[n + 1]) <==>
      CountingTick(states[n], events[n]) && ZeroInput(states[n]) && ZeroTicks(states, events, n) >= c.tickHz
  {
    hide Next;
    hide Enabled;
    hide Sound;
    hide Tick;
    CounterIsZeroRun(states, events, c, n);
    var w, e := states[n], events[n];
    if CountingTick(w, e) {
      TickNext(w, e, c);
      TickArms(w, c, e.e.readings);
    } else {
      OtherEventsDoNotArm(w, e, c);
    }
  }
}
