/** DShot input frames: the edge-capture path and the packet path of the
    transfer dispatcher (rm32/src/transfer.rs). */
module Transfer {
  import opened Words
  import opened Dshot

  const BIDIR_CONFIRM_FRAMES: nat := 4
  const BIDIR_IDLE_HIGH_FRAMES: nat := 100
  const CALIBRATION_ENTRY_COUNT: nat := 50
  const CALIBRATION_MIN_THROTTLE: nat := 1500
  const CALIBRATION_MAX_JITTER: nat := 50

  datatype Protocol = DshotProtocol | ServoProtocol
  datatype Action =
    | NoAction
    | InputDetected(protocol: Protocol)
    | DshotThrottle(value: U16, telemetry: bool)
    | DshotCommand(cmd: U16, telemetry: bool)

  /** What the caller passes with each frame. */
  datatype Line = Line(armed: bool, telemetry: bool, pinHigh: bool, adjusted: U16, disableStickCal: bool)

  /** TransferState, with the two flags of its servo part that the DShot path uses. */
  datatype Counters = Counters(
    averageCount: U8, averageLength: U32, entryCount: U8, lastInput: U16, highPin: U8, confirms: U8,
    pending: Option<Protocol>, calibrationRequired: bool, highCalibrationSet: bool)

  /** An unarmed one-way DShot frame whose line idles high. */
  predicate Idle(l: Line) { !l.armed && !l.telemetry && l.pinHigh }

  predicate Probes(c: Counters, l: Line) { Idle(l) && c.highPin >= BIDIR_IDLE_HIGH_FRAMES }

  function SaturatingInc8(x: U8): U8 { if x == 255 then 255 else x + 1 }

  /** Confirms frames that decode under the inverted checksum. */
  function Probed(c: Counters, frame: DshotFrame, inverted: DshotFrame, l: Line): Counters {
    if !Probes(c, l) then c
    else if Decoded(inverted) then c.(confirms := SaturatingInc8(c.confirms))
    else c.(confirms := 0, highPin := if Decoded(frame) then 0 else c.highPin)
  }

  predicate Detects(c: Counters, inverted: DshotFrame, l: Line) {
    Probes(c, l) && Decoded(inverted) && SaturatingInc8(c.confirms) >= BIDIR_CONFIRM_FRAMES
  }

  function Counted(c: Counters, l: Line): Counters {
    if Idle(l) then c.(highPin := SaturatingInc8(c.highPin)) else c.(highPin := 0, confirms := 0)
  }

  function Jitter(a: U16, b: U16): nat { if a >= b then a - b else b - a }

  /** Stick-calibration entry; the second result is the zero-input count. The
      plain `+= 1` counters wrap. */
  function CalibrationEntry(c: Counters, zero: U16, l: Line): (Counters, U16) {
    if l.armed then (c, zero)
    else if l.adjusted == 0 && !c.calibrationRequired then (c, Wrap16(zero + 1))
    else if l.disableStickCal then (c, zero)
    else if l.adjusted <= CALIBRATION_MIN_THROTTLE then (c, 0)
    else
      var count := if Jitter(l.adjusted, c.lastInput) > CALIBRATION_MAX_JITTER then 0 else Wrap8(c.entryCount + 1);
      var enters := count > CALIBRATION_ENTRY_COUNT && !c.highCalibrationSet;
      (c.(entryCount := if enters then 0 else count, calibrationRequired := c.calibrationRequired || enters,
          lastInput := l.adjusted), 0)
  }

  function FrameAction(f: DshotFrame): Action {
    match f
    case Throttle(value, telemetry) => DshotThrottle(value, telemetry)
    case Command(cmd, telemetry) => DshotCommand(cmd, telemetry)
    case _ => NoAction
  }

  datatype Outcome = Outcome(state: Counters, zero: U16, action: Action, bidirDetected: bool)

  /** One input-set frame, given how it decodes. */
  function FrameOutcome(c: Counters, zero: U16, frame: DshotFrame, inverted: DshotFrame, l: Line): Outcome {
    var entry := CalibrationEntry(Counted(Probed(c, frame, inverted, l), l), zero, l);
    Outcome(entry.0, entry.1, FrameAction(frame), Detects(c, inverted, l))
  }

  /** Averaging of eight frame lengths after more than five zero inputs. */
  function Averaged(c: Counters, zero: U16, edges: seq<U32>, l: Line): Counters {
    if l.armed || c.averageCount >= 8 || zero <= 5 then c
    else c.(averageCount := c.averageCount + 1,
            averageLength := if |edges| >= 32 then Wrap32(c.averageLength + FrameTime(edges[..32]))
              else c.averageLength)
  }

  function FrameWindow(c: Counters): (U16, U16) {
    var avg, margin := c.averageLength / 8, c.averageLength / 128;
    (Wrap16(avg - margin), Wrap16(avg + margin))
  }

  /** Detection commits on the second consecutive matching frame. */
  function Confirmed(c: Counters, protocol: Option<Protocol>): (Counters, Action) {
    if protocol.Some? && c.pending == protocol then (c.(pending := None), InputDetected(protocol.value))
    else (c.(pending := protocol), NoAction)
  }

  class TransferState {
    var averageCount: U8
    var averagePacketLength: U32
    var enterCalibrationCount: U8
    var lastInput: U16
    var highPinCount: U8
    var bidirConfirms: U8
    var pendingProtocol: Option<Protocol>
    var calibrationRequired: bool
    var highCalibrationSet: bool

    ghost function View(): Counters
      reads this
    {
      Counters(averageCount, averagePacketLength, enterCalibrationCount, lastInput, highPinCount, bidirConfirms,
               pendingProtocol, calibrationRequired, highCalibrationSet)
    }

    constructor ()
      ensures View() == Counters(0, 0, 0, 0, 0, 0, None, false, false)
    {
      averageCount, averagePacketLength, enterCalibrationCount, lastInput := 0, 0, 0, 0;
      highPinCount, bidirConfirms := 0, 0;
      pendingProtocol, calibrationRequired, highCalibrationSet := None, false, false;
    }

    method ConfirmProtocol(protocol: Option<Protocol>) returns (action: Action)
      modifies this
      ensures (View(), action) == Confirmed(old(View()), protocol)
    {
      match (protocol, pendingProtocol) {
        case (Some(p), Some(q)) =>
          if p == q {
            pendingProtocol := None;
            return InputDetected(p);
          }
          pendingProtocol := protocol;
        case (_, _) =>
          pendingProtocol := protocol;
      }
      return NoAction;
    }

    method BidirProbe(frame: DshotFrame, l: Line, inverted: DshotFrame) returns (detected: bool)
      modifies this`bidirConfirms, this`highPinCount
      ensures View() == Probed(old(View()), frame, inverted, l)
      ensures detected == Detects(old(View()), inverted, l)
    {
      detected := false;
      if !l.armed && !l.telemetry && l.pinHigh && highPinCount >= BIDIR_IDLE_HIGH_FRAMES {
        if Decoded(inverted) {
          bidirConfirms := SaturatingInc8(bidirConfirms);
          detected := bidirConfirms >= BIDIR_CONFIRM_FRAMES;
        } else {
          bidirConfirms := 0;
          if Decoded(frame) { highPinCount := 0; }
        }
      }
    }

    method IdleHighCount(l: Line)
      modifies this`bidirConfirms, this`highPinCount
      ensures View() == Counted(old(View()), l)
    {
      if !l.armed {
        if !l.telemetry && l.pinHigh {
          highPinCount := SaturatingInc8(highPinCount);
        } else {
          highPinCount := 0;
          bidirConfirms := 0;
        }
      } else {
        highPinCount := 0;
        bidirConfirms := 0;
      }
    }

    method EnterCalibration(l: Line, zero: U16) returns (newZero: U16)
      requires !l.armed
      modifies this`enterCalibrationCount, this`calibrationRequired, this`lastInput
      ensures (View(), newZero) == CalibrationEntry(old(View()), zero, l)
    {
      newZero := zero;
      if l.adjusted == 0 && !calibrationRequired {
        newZero := Wrap16(zero + 1);
      } else if !l.disableStickCal {
        newZero := 0;
        if l.adjusted > CALIBRATION_MIN_THROTTLE {
          if Jitter(l.adjusted, lastInput) > CALIBRATION_MAX_JITTER {
            enterCalibrationCount := 0;
          } else {
            enterCalibrationCount := Wrap8(enterCalibrationCount + 1);
          }
          if enterCalibrationCount > CALIBRATION_ENTRY_COUNT && !highCalibrationSet {
            calibrationRequired := true;
            enterCalibrationCount := 0;
          }
          lastInput := l.adjusted;
        }
      }
    }

    /** The packet port: every word is one already sliced frame. */
    method ProcessPacket(packet: U16, l: Line, zero: U16) returns (action: Action, detected: bool, newZero: U16)
      modifies this
      ensures Outcome(View(), newZero, action, detected) ==
        FrameOutcome(old(View()), zero, Unpack(packet, l.telemetry), Unpack(packet, true), l)
    {
      var frame := Unpack(packet, l.telemetry);
      detected := BidirProbe(frame, l, Unpack(packet, true));
      action := FrameAction(frame);
      IdleHighCount(l);
      newZero := zero;
      if !l.armed { newZero := EnterCalibration(l, zero); }
    }

    /** Before input is set: a packet counts as DShot under either checksum. */
    method DetectPacket(packet: U16) returns (action: Action)
      modifies this
      ensures (View(), action) == Confirmed(old(View()),
        if Decoded(Unpack(packet, false)) || Decoded(Unpack(packet, true)) then Some(DshotProtocol) else None)
    {
      var valid := Decoded(Unpack(packet, false)) || Decoded(Unpack(packet, true));
      action := ConfirmProtocol(if valid then Some(DshotProtocol) else None);
    }

    /** Frame averaging while unarmed; yields a new frame-time window once. */
    method AverageFrame(edges: seq<U32>, l: Line, zero: U16) returns (frametime: Option<(U16, U16)>)
      requires averageCount <= 8
      modifies this`averageCount, this`averagePacketLength
      ensures averageCount <= 8
      ensures View() == Averaged(old(View()), zero, edges, l)
      ensures frametime == if averageCount == 8 && old(averageCount) == 7 then Some(FrameWindow(View())) else None
    {
      frametime := None;
      if !l.armed {
        if averageCount < 8 && zero > 5 {
          averageCount := averageCount + 1;
          if |edges| >= 32 {
            assert edges[..32][31] == edges[31] && edges[..32][0] == edges[0];
            averagePacketLength := Wrap32(averagePacketLength + Gap(edges[31], edges[0]));
          }
          if averageCount == 8 {
            var avg, margin := averagePacketLength / 8, averagePacketLength / 128;
            frametime := Some((Wrap16(avg - margin), Wrap16(avg + margin)));
          }
        }
      }
    }

    /** The capture port in DShot mode: `edges` are the captured timestamps and
        (low, high) the frame-time window. */
    method Process(edges: seq<U32>, low: U16, high: U16, l: Line, zero: U16)
      returns (action: Action, detected: bool, newZero: U16, frametime: Option<(U16, U16)>)
      requires averageCount <= 8
      modifies this
      ensures averageCount <= 8
      ensures CaptureOutcome(old(View()), zero, edges, low, high, l) == Outcome(View(), newZero, action, detected)
      ensures frametime == if averageCount == 8 && old(averageCount) == 7 then Some(FrameWindow(View())) else None
    {
      hide DecodeCapture;
      hide Averaged;
      hide Gap;
      action, detected := NoAction, false;
      if |edges| >= 32 {
        var frame := DecodeFrame(edges[..32], low, high, l.telemetry);
        if !l.armed && !l.telemetry && l.pinHigh && highPinCount >= BIDIR_IDLE_HIGH_FRAMES {
          var inverted := DecodeFrame(edges[..32], low, high, true);
          detected := BidirProbe(frame, l, inverted);
        }
        action := FrameAction(frame);
      }
      IdleHighCount(l);
      frametime := AverageFrame(edges, l, zero);
      newZero := zero;
      if !l.armed { newZero := EnterCalibration(l, zero); }
    }
  }

  /** One capture: the packet path's outcome on the decoded frames, with frame
      averaging before the calibration entry. A capture of fewer than 32 edges
      decodes to nothing and probes nothing, but is counted all the same. */
  function CaptureOutcome(c: Counters, zero: U16, edges: seq<U32>, low: U16, high: U16, l: Line): Outcome {
    if |edges| < 32 then
      var entry := CalibrationEntry(Averaged(Counted(c, l), zero, edges, l), zero, l);
      Outcome(entry.0, entry.1, NoAction, false)
    else
      var cut := edges[..32];
      var frame, inverted := DecodeCapture(cut, low, high, l.telemetry), DecodeCapture(cut, low, high, true);
      var entry := CalibrationEntry(Averaged(Counted(Probed(c, frame, inverted, l), l), zero, edges, l), zero, l);
      Outcome(entry.0, entry.1, FrameAction(frame), Detects(c, inverted, l))
  }

  // ----- the two ports agree -----

  /** A frame on the wire as the capture port sees it, with its current window;
      between frames other code may set the zero-input count. */
  datatype Event = Captured(edges: seq<U32>, low: U16, high: U16, line: Line) | ZeroSet(zero: U16)

  /** Every captured frame is complete and inside its window. */
  ghost predicate WellTimed(events: seq<Event>) {
    forall i :: 0 <= i < |events| && events[i].Captured? ==>
      |events[i].edges| >= 32 && InWindow(events[i].edges[..32], events[i].low, events[i].high)
  }

  function StartOutcome(c: Counters, zero: U16): Outcome { Outcome(c, zero, NoAction, false) }

  function ByCapture(o: Outcome, e: Event): Outcome
    requires e.Captured? ==> |e.edges| >= 32
  {
    match e
    case ZeroSet(zero) => StartOutcome(o.state, zero)
    case Captured(edges, low, high, line) => CaptureOutcome(o.state, o.zero, edges, low, high, line)
  }

  /** The packet port gets the word the frame carries and nothing else. */
  function ByPacket(o: Outcome, e: Event): Outcome
    requires e.Captured? ==> |e.edges| >= 32
  {
    match e
    case ZeroSet(zero) => StartOutcome(o.state, zero)
    case Captured(edges, _, _, line) =>
      var packet := CapturedPacket(edges[..32]);
      FrameOutcome(o.state, o.zero, Unpack(packet, line.telemetry), Unpack(packet, true), line)
  }

  /** Everything but the frame-length averages agrees. */
  predicate SameApartFromAverages(a: Outcome, b: Outcome) {
    a == b.(state := b.state.(averageCount := a.state.averageCount, averageLength := a.state.averageLength))
  }

  function CaptureRun(c: Counters, zero: U16, events: seq<Event>): Outcome
    requires WellTimed(events)
  {
    if events == [] then StartOutcome(c, zero)
    else ByCapture(CaptureRun(c, zero, events[..|events| - 1]), events[|events| - 1])
  }

  function PacketRun(c: Counters, zero: U16, events: seq<Event>): Outcome
    requires WellTimed(events)
  {
    if events == [] then StartOutcome(c, zero)
    else ByPacket(PacketRun(c, zero, events[..|events| - 1]), events[|events| - 1])
  }

  lemma SameOutcome(a: Counters, b: Counters, zero: U16, frame: DshotFrame, inverted: DshotFrame, edges: seq<U32>,
    l: Line)
    requires a == b.(averageCount := a.averageCount, averageLength := a.averageLength)
    ensures var entry := CalibrationEntry(Averaged(Counted(Probed(a, frame, inverted, l), l), zero, edges, l), zero, l);
      SameApartFromAverages(Outcome(entry.0, entry.1, FrameAction(frame), Detects(a, inverted, l)),
                            FrameOutcome(b, zero, frame, inverted, l))
  {
    var x, y := Counted(Probed(a, frame, inverted, l), l), Counted(Probed(b, frame, inverted, l), l);
    assert x == y.(averageCount := a.averageCount, averageLength := a.averageLength);
    hide Counted;
    hide Probed;
    EntryIgnoresAverages(Averaged(x, zero, edges, l), y, zero, l);
  }

  lemma EntryIgnoresAverages(a: Counters, b: Counters, zero: U16, l: Line)
    requires a == b.(averageCount := a.averageCount, averageLength := a.averageLength)
    ensures var x, y := CalibrationEntry(a, zero, l), CalibrationEntry(b, zero, l);
      x.1 == y.1 && x.0 == y.0.(averageCount := x.0.averageCount, averageLength := x.0.averageLength)
  {
  }

  lemma SameStep(a: Outcome, b: Outcome, e: Event)
    requires SameApartFromAverages(a, b)
    requires e.Captured? ==> |e.edges| >= 32 && InWindow(e.edges[..32], e.low, e.high)
    ensures SameApartFromAverages(ByCapture(a, e), ByPacket(b, e))
  {
    if e.Captured? {
      var packet := CapturedPacket(e.edges[..32]);
      SameOutcome(a.state, b.state, a.zero, Unpack(packet, e.line.telemetry), Unpack(packet, true), e.edges, e.line);
    }
  }

  /** Over every sequence of well-timed frames the two ports end with equal
      actions, bidirectional detections, zero-input counts and state. */
  lemma {:induction false} PacketSimulatesCapture(c: Counters, zero: U16, events: seq<Event>)
    requires WellTimed(events)
    ensures SameApartFromAverages(CaptureRun(c, zero, events), PacketRun(c, zero, events))
  {
    if events != [] {
      var last := |events| - 1;
      PacketSimulatesCapture(c, zero, events[..last]);
      SameStep(CaptureRun(c, zero, events[..last]), PacketRun(c, zero, events[..last]), events[last]);
    }
  }

  // ----- when bidirectional DShot is detected -----

  datatype Seen = Seen(packet: U16, line: Line)

  predicate InvertedOk(s: Seen) { Idle(s.line) && Decoded(Unpack(s.packet, true)) }

  function Received(o: Outcome, s: Seen): Outcome {
    FrameOutcome(o.state, o.zero, Unpack(s.packet, s.line.telemetry), Unpack(s.packet, true), s.line)
  }

  function ReceivedAll(c: Counters, zero: U16, seen: seq<Seen>): Outcome {
    if seen == [] then StartOutcome(c, zero) else Received(ReceivedAll(c, zero, seen[..|seen| - 1]), seen[|seen| - 1])
  }

  /** Frames at the end of the sequence with the line idle, and with the inverted
      checksum right as well. */
  function TrailingIdle(seen: seq<Seen>): nat {
    if seen == [] || !Idle(seen[|seen| - 1].line) then 0 else TrailingIdle(seen[..|seen| - 1]) + 1
  }

  function TrailingInverted(seen: seq<Seen>): nat {
    if seen == [] || !InvertedOk(seen[|seen| - 1]) then 0 else TrailingInverted(seen[..|seen| - 1]) + 1
  }

  /** How one frame moves the two counters. */
  lemma CounterStep(o: Outcome, s: Seen)
    ensures var r, high, confirms := Received(o, s), o.state.highPin, o.state.confirms;
      var probes := Idle(s.line) && high >= BIDIR_IDLE_HIGH_FRAMES;
      (!Idle(s.line) ==> r.state.highPin == 0 && r.state.confirms == 0 && !r.bidirDetected) &&
      (Idle(s.line) && !probes ==>
        r.state.highPin == high + 1 && r.state.confirms == confirms && !r.bidirDetected) &&
      (probes && InvertedOk(s) ==>
        r.state.highPin == SaturatingInc8(high) && r.state.confirms == SaturatingInc8(confirms) &&
        (r.bidirDetected <==> r.state.confirms >= BIDIR_CONFIRM_FRAMES)) &&
      (probes && !InvertedOk(s) ==>
        r.state.highPin == (if Decoded(Unpack(s.packet, false)) then 1 else SaturatingInc8(high)) &&
        r.state.confirms == 0 && !r.bidirDetected)
  {
  }

  ghost predicate CountersFollow(o: Outcome, seen: seq<Seen>) {
    o.state.highPin <= TrailingIdle(seen) && o.state.confirms <= TrailingInverted(seen) &&
    (o.state.confirms > 0 ==>
      o.state.highPin > BIDIR_IDLE_HIGH_FRAMES && TrailingIdle(seen) >= BIDIR_IDLE_HIGH_FRAMES + o.state.confirms)
  }

  lemma CountersFollowStep(o: Outcome, seen: seq<Seen>, s: Seen)
    requires CountersFollow(o, seen)
    ensures CountersFollow(Received(o, s), seen + [s])
    ensures Received(o, s).bidirDetected ==> Received(o, s).state.confirms >= BIDIR_CONFIRM_FRAMES
  {
    CounterStep(o, s);
    assert (seen + [s])[..|seen|] == seen;
  }

  /** From power-on, detection means the last 104 frames were unarmed one-way
      frames with the line high and the last four had the inverted checksum right. */
  lemma {:induction false} DetectionNeedsIdleLine(c: Counters, zero: U16, seen: seq<Seen>)
    requires c.highPin == 0 && c.confirms == 0
    ensures CountersFollow(ReceivedAll(c, zero, seen), seen)
    ensures ReceivedAll(c, zero, seen).bidirDetected ==>
      TrailingIdle(seen) >= BIDIR_IDLE_HIGH_FRAMES + BIDIR_CONFIRM_FRAMES &&
        TrailingInverted(seen) >= BIDIR_CONFIRM_FRAMES
  {
    if seen != [] {
      var last := |seen| - 1;
      DetectionNeedsIdleLine(c, zero, seen[..last]);
      CountersFollowStep(ReceivedAll(c, zero, seen[..last]), seen[..last], seen[last]);
      assert seen[..last] + [seen[last]] == seen;
    }
  }

  lemma InvertedStep(o: Outcome, s: Seen)
    requires InvertedOk(s)
    ensures var r, high, confirms := Received(o, s), o.state.highPin, o.state.confirms;
      r.state.highPin == SaturatingInc8(high) &&
      r.state.confirms == (if high >= BIDIR_IDLE_HIGH_FRAMES then SaturatingInc8(confirms) else confirms) &&
      (r.bidirDetected <==> high >= BIDIR_IDLE_HIGH_FRAMES && r.state.confirms >= BIDIR_CONFIRM_FRAMES)
  {
    CounterStep(o, s);
  }

  /** A bidirectional sender is detected by its 104th idle frame, from any state. */
  lemma {:induction false} BidirectionalSenderDetected(c: Counters, zero: U16, seen: seq<Seen>)
    requires forall i :: 0 <= i < |seen| ==> InvertedOk(seen[i])
    ensures var o := ReceivedAll(c, zero, seen);
      o.state.highPin >= Min(|seen|, 255) && o.state.confirms >= Min(SaturatingSub(|seen|, BIDIR_IDLE_HIGH_FRAMES), 255)
    ensures |seen| >= BIDIR_IDLE_HIGH_FRAMES + BIDIR_CONFIRM_FRAMES ==> ReceivedAll(c, zero, seen).bidirDetected
  {
    hide Received;
    hide InvertedOk;
    if seen != [] {
      var last := |seen| - 1;
      BidirectionalSenderDetected(c, zero, seen[..last]);
      InvertedStep(ReceivedAll(c, zero, seen[..last]), seen[last]);
    }
  }

  // ----- when calibration is entered -----

  /** An unarmed frame with the stick above the calibration minimum. */
  predicate Steers(l: Line) { !l.armed && !l.disableStickCal && l.adjusted > 1500 }

  /** The stick of the latest such frame. */
  function LastSteered(c: Counters, seen: seq<Seen>): U16 {
    if seen == [] then c.lastInput
    else if Steers(seen[|seen| - 1].line) then seen[|seen| - 1].line.adjusted
    else LastSteered(c, seen[..|seen| - 1])
  }

  /** How many of the latest such frames kept within 50 of the one before. */
  function SteadyRun(c: Counters, seen: seq<Seen>): nat {
    if seen == [] then 0
    else
      var before, l := seen[..|seen| - 1], seen[|seen| - 1].line;
      if !Steers(l) then SteadyRun(c, before)
      else if -50 <= l.adjusted as int - LastSteered(c, before) <= 50 then SteadyRun(c, before) + 1 else 0
  }

  /** Zero throttles since the last other unarmed frame, from `zero` on. */
  function ZeroRun(zero: U16, seen: seq<Seen>): nat {
    if seen == [] then zero
    else
      var before, l := seen[..|seen| - 1], seen[|seen| - 1].line;
      if l.armed then ZeroRun(zero, before)
      else if l.adjusted == 0 then ZeroRun(zero, before) + 1
      else if l.disableStickCal then ZeroRun(zero, before) else 0
  }

  ghost predicate HeldSteady(c: Counters, seen: seq<Seen>) {
    exists n: nat :: n <= |seen| && SteadyRun(c, seen[..n]) > 50
  }

  /** The calibration part of one frame. */
  lemma CalibrationStep(o: Outcome, s: Seen)
    requires o.state.entryCount <= 50 && !o.state.highCalibrationSet
    ensures var a, b, l := o.state, Received(o, s).state, s.line;
      var steady := -50 <= l.adjusted as int - a.lastInput <= 50;
      b.highCalibrationSet == a.highCalibrationSet &&
      b.lastInput == (if Steers(l) then l.adjusted else a.lastInput) &&
      (a.calibrationRequired ==> b.calibrationRequired) &&
      (!Steers(l) ==> b.entryCount == a.entryCount && b.calibrationRequired == a.calibrationRequired) &&
      (Steers(l) && !steady ==> b.entryCount == 0 && b.calibrationRequired == a.calibrationRequired) &&
      (Steers(l) && steady && a.entryCount < 50 ==>
        b.entryCount == a.entryCount + 1 && b.calibrationRequired == a.calibrationRequired) &&
      (Steers(l) && steady && a.entryCount == 50 ==> b.entryCount == 0 && b.calibrationRequired) &&
      (!a.calibrationRequired ==>
        Received(o, s).zero == if l.armed then o.zero else if l.adjusted == 0 then (o.zero + 1) % 0x1_0000
          else if l.disableStickCal then o.zero else 0)
  {
  }

  /** From power-on: calibration is required exactly once the stick was held high and
      steady for more than 50 frames; until then the zero-input count is the zero frames
      since the last other one. */
  lemma {:induction false} CalibrationNeedsSteadyStick(c: Counters, zero: U16, seen: seq<Seen>)
    requires c.entryCount == 0 && !c.calibrationRequired && !c.highCalibrationSet
    ensures var o := ReceivedAll(c, zero, seen);
      (o.state.calibrationRequired <==> HeldSteady(c, seen)) &&
      (!HeldSteady(c, seen) ==>
        o.state.entryCount == SteadyRun(c, seen) <= 50 && o.zero == ZeroRun(zero, seen) % 0x1_0000) &&
      o.state.lastInput == LastSteered(c, seen) && !o.state.highCalibrationSet && o.state.entryCount <= 50
  {
    hide Received;
    hide Steers;
    if seen != [] {
      var last := |seen| - 1;
      CalibrationNeedsSteadyStick(c, zero, seen[..last]);
      CalibrationStep(ReceivedAll(c, zero, seen[..last]), seen[last]);
      HeldLonger(c, seen);
    }
  }

  lemma HeldLonger(c: Counters, seen: seq<Seen>)
    requires seen != []
    ensures HeldSteady(c, seen) <==> HeldSteady(c, seen[..|seen| - 1]) || SteadyRun(c, seen) > 50
  {
    hide SteadyRun;
    var before := seen[..|seen| - 1];
    assert seen[..|seen|] == seen;
    if HeldSteady(c, seen) {
      var n: nat :| n <= |seen| && SteadyRun(c, seen[..n]) > 50;
      if n < |seen| { assert before[..n] == seen[..n]; }
    }
    if HeldSteady(c, before) {
      var n: nat :| n <= |before| && SteadyRun(c, before[..n]) > 50;
      assert seen[..n] == before[..n];
    }
  }

  // ----- detection and the frame window -----

  /** The state after a run of detection attempts, and the last action. */
  function ConfirmedAll(c: Counters, attempts: seq<Option<Protocol>>): (Counters, Action) {
    if attempts == [] then (c, NoAction)
    else Confirmed(ConfirmedAll(c, attempts[..|attempts| - 1]).0, attempts[|attempts| - 1])
  }

  /** How many of the latest attempts agree with the last one. */
  function Agreeing(attempts: seq<Option<Protocol>>): nat {
    if attempts == [] then 0
    else
      var before := attempts[..|attempts| - 1];
      if before != [] && before[|before| - 1] == attempts[|attempts| - 1] then Agreeing(before) + 1 else 1
  }

  /** An input is detected by exactly every second of a run of agreeing matches; no
      interrupted match is. */
  lemma {:induction false} DetectedOnSecondMatch(c: Counters, attempts: seq<Option<Protocol>>)
    requires attempts != [] && c.pending.None?
    ensures var (r, action) := ConfirmedAll(c, attempts);
      var last, second := attempts[|attempts| - 1], Agreeing(attempts) % 2 == 0;
      (last.None? ==> action == NoAction && r.pending == None) &&
      (last.Some? ==>
        if second then action == InputDetected(last.value) && r.pending == None
        else action == NoAction && r.pending == last)
  {
    var before := attempts[..|attempts| - 1];
    if before != [] {
      DetectedOnSecondMatch(c, before);
    } else {
      assert ConfirmedAll(c, before) == (c, NoAction);
    }
  }

  /** Eight equal frames give a window one sixteenth either side that accepts them. */
  lemma EqualFramesAccepted(c: Counters, length: U16)
    requires 16 <= length <= 61680 && c.averageLength == 8 * length
    ensures var (low, high) := FrameWindow(c);
      low == length - length / 16 && high == length + length / 16 && low < length < high
  {
    assert (8 * length) / 128 == length / 16 && (8 * length) / 8 == length;
  }

  /** Eight unarmed frames of that length after more than five zero inputs are averaged. */
  function AveragedAll(c: Counters, zero: U16, frames: seq<seq<U32>>, l: Line): Counters {
    if frames == [] then c
    else Averaged(AveragedAll(c, zero, frames[..|frames| - 1], l), zero, frames[|frames| - 1], l)
  }

  lemma {:induction false} FramesAreAveraged(c: Counters, zero: U16, frames: seq<seq<U32>>, l: Line, length: U16)
    requires !l.armed && zero > 5 && c.averageCount == 0 && c.averageLength == 0 && |frames| <= 8
    requires forall i :: 0 <= i < |frames| ==> |frames[i]| >= 32 && FrameTime(frames[i][..32]) == length
    ensures var r := AveragedAll(c, zero, frames, l);
      r.averageCount == |frames| && r.averageLength == |frames| * length
  {
    if frames != [] {
      hide FrameTime;
      FramesAreAveraged(c, zero, frames[..|frames| - 1], l, length);
      ProductBelow(|frames|, length, 8, 65535);
      OneFrameMore(|frames| - 1, length);
    }
  }

  lemma OneFrameMore(k: nat, length: nat)
    ensures (k + 1) * length == k * length + length
  {
  }
}
