/** What a dispatched frame publishes, read off the whole history of frames
    (rm32/src/transfer.rs, rm32/src/dshot_commands.rs). */
module FrameEffects {
  import opened Words
  import Transfer
  import opened Commands
  import opened Programming

  // ----- which command frames take effect -----

  /** How many of the latest accepted commands are `cmd`. */
  function Streak(w: World, en: bool, h: seq<Event>, cmd: U16): nat {
    if h == [] then 0
    else
      var before, e := h[..|h| - 1], h[|h| - 1];
      if !AcceptsCommand(w, en, before, e) then Streak(w, en, before, cmd)
      else if e.action.cmd == cmd then Streak(w, en, before, cmd) + 1 else 0
  }

  /** A tone at once, any other command on every sixth frame of an unbroken streak. */
  predicate Executes(w: World, en: bool, h: seq<Event>, e: Event) {
    AcceptsCommand(w, en, h, e) && (e.action.cmd <= 5 || (Streak(w, en, h, e.action.cmd) + 1) % 6 == 0)
  }

  predicate ExecutesAs(w: World, en: bool, h: seq<Event>, e: Event, cmd: U16) {
    Executes(w, en, h, e) && e.action.cmd == cmd
  }

  /** Nothing counted and no telemetry request waiting. */
  predicate Unused(w: World) { w.proc.mode == 0 && w.proc.count == 0 && !w.proc.edtInit && !w.proc.edtDeinit }

  predicate CountsStreak(p: Proc, streak: nat, cmd: U16) {
    if cmd != p.last then streak == 0 else if cmd <= 5 then p.count == 0 else p.count == streak % 6
  }

  /** The registers count the streak of the last command. */
  ghost predicate Counting(w: World, en: bool, h: seq<Event>) {
    var p := After(w, en, h).proc;
    p.count < 6 && !p.edtInit && !p.edtDeinit && forall cmd: U16 :: CountsStreak(p, Streak(w, en, h, cmd), cmd)
  }

  predicate SixthOf(p: Proc, cmd: U16) { Bumped(p, cmd).count >= 6 }

  lemma StreakStep(p: Proc, streak: nat, cmd: U16)
    requires CountsStreak(p, streak, cmd) && p.count < 6 && 1 <= cmd <= 47
    ensures SixthOf(p, cmd) <==> cmd <= 5 || (streak + 1) % 6 == 0
    ensures Bumped(p, cmd).last == cmd
    ensures !SixthOf(p, cmd) ==> Bumped(p, cmd).count == (streak + 1) % 6
  {
  }

  /** What an executed command does to flags and direction, command by command. */
  predicate FlagsDo(s: World, t: World, executes: bool, cmd: U16) {
    t.out.tone == (if executes && 1 <= cmd <= 5 then cmd else s.out.tone) &&
    t.out.escInfo == (s.out.escInfo || (executes && cmd == 6)) &&
    t.out.saveSettings == (s.out.saveSettings || (executes && cmd == 12)) &&
    t.target.forward ==
      (if executes && (cmd == 7 || cmd == 8) then cmd == 7
       else if executes && (cmd == 20 || cmd == 21) then (s.target.config[DIR_REVERSED] == 0) == (cmd == 20)
       else s.target.forward) &&
    t.proc.extended == (if executes && (cmd == 13 || cmd == 14) then cmd == 13 else s.proc.extended) &&
    t.out.edtRequests == s.out.edtRequests + (if executes && (cmd == 13 || cmd == 14) then [cmd == 13] else []) &&
    !t.proc.edtInit && !t.proc.edtDeinit
  }

  /** A command publishes the direction; 7 to 10 write their byte and 36 opens a
      programming sequence. */
  predicate Effects(s: World, t: World, executes: bool, cmd: U16, en: bool) {
    FlagsDo(s, t, executes, cmd) && t.out.forward == t.target.forward &&
    t.target.config ==
      (if executes && 7 <= cmd <= 10 then DirectionWritten(s.target.config, cmd) else s.target.config) &&
    t.target.edtArmed == (s.target.edtArmed || (executes && cmd == 13 && en)) &&
    t.proc.mode == (if executes && cmd == 36 then 1 else 0)
  }

  lemma ProcessorEffects(p: Proc, t: Target, cmd: U16, en: bool)
    requires p.mode == 0 && !p.edtInit && !p.edtDeinit && 1 <= cmd <= 47
    ensures var q, executes := Processed(p, t, cmd, true, en).proc, SixthOf(p, cmd);
      q.mode == (if executes && cmd == 36 then 1 else 0) && q.last == Bumped(p, cmd).last &&
      q.extended == (if executes && (cmd == 13 || cmd == 14) then cmd == 13 else p.extended) &&
      q.edtInit == (executes && cmd == 13) && q.edtDeinit == (executes && cmd == 14) &&
      q.count == if executes then 0 else Bumped(p, cmd).count
  {
    hide Effect;
    hide ResultOf;
  }

  lemma TargetEffects(p: Proc, t: Target, cmd: U16, en: bool)
    requires 1 <= cmd <= 47
    ensures var u, executes := Processed(p, t, cmd, true, en).target, SixthOf(p, cmd);
      u.config == (if executes && 7 <= cmd <= 10 then DirectionWritten(t.config, cmd) else t.config) &&
      u.forward == (if executes && (cmd == 7 || cmd == 8) then cmd == 7
                    else if executes && (cmd == 20 || cmd == 21) then (t.config[DIR_REVERSED] == 0) == (cmd == 20)
                    else t.forward) &&
      u.edtArmed == (t.edtArmed || (executes && cmd == 13 && en))
  {
    hide Executed;
    hide ResultOf;
    hide Bumped;
  }

  lemma ResultEffects(p: Proc, t: Target, cmd: U16, en: bool)
    ensures Processed(p, t, cmd, true, en).result == if SixthOf(p, cmd) then ResultOf(cmd) else NoResult
  {
    hide Executed;
    hide Effect;
    hide Bumped;
  }

  lemma IdleEffects(s: World, cmd: U16, en: bool)
    requires s.proc.mode == 0 && !s.proc.edtInit && !s.proc.edtDeinit && 1 <= cmd <= 47
    ensures Effects(s, Applied(s, cmd, true, en), SixthOf(s.proc, cmd), cmd, en)
    ensures var t := Applied(s, cmd, true, en);
      t.proc.last == Bumped(s.proc, cmd).last &&
      t.proc.count == (if SixthOf(s.proc, cmd) then 0 else Bumped(s.proc, cmd).count) &&
      t.out.newinput == s.out.newinput && t.out.sendTelemetry == s.out.sendTelemetry &&
      t.out.signalTimeout == s.out.signalTimeout && t.out.heard == s.out.heard
  {
    ProcessorEffects(s.proc, s.target, cmd, en);
    TargetEffects(s.proc, s.target, cmd, en);
    ResultEffects(s.proc, s.target, cmd, en);
    hide Changes;
    hide Processed;
    hide SixthOf;
    hide Bumped;
    hide DirectionWritten;
    assert s.out.edtRequests + [] == s.out.edtRequests;
  }

  // ----- one frame -----

  function CommandOf(e: Event): U16 { if e.action.DshotCommand? then e.action.cmd else 0 }

  predicate Telemeters(e: Event) {
    (e.action.DshotThrottle? || e.action.DshotCommand?) && e.action.telemetry
  }

  predicate ClearsEdt(e: Event, pending: bool, en: bool) {
    en && !pending && e.action.DshotThrottle? && e.action.value == 0
  }

  predicate FrameDoes(s: World, t: World, e: Event, executes: bool, en: bool) {
    var pending := s.proc.mode > 0;
    FlagsDo(s, t, executes, CommandOf(e)) &&
    t.out.newinput == PublishedThrottle(s.out.newinput, e.action, pending, s.target.edtArmed, en) &&
    t.target.edtArmed ==
      ((s.target.edtArmed && !ClearsEdt(e, pending, en)) || (executes && CommandOf(e) == 13 && en)) &&
    t.out.sendTelemetry == (s.out.sendTelemetry || Telemeters(e)) &&
    t.out.signalTimeout == (if Data(e).Some? then 0 else s.out.signalTimeout) &&
    t.out.heard == s.out.heard + (if e.action.DshotCommand? then [e.action.cmd] else [])
  }

  lemma ClosedEffects(s: World, cmd: U16, en: bool)
    requires s.proc.mode == 0 && !s.proc.edtInit && !s.proc.edtDeinit
    ensures var t := Applied(s, cmd, false, en);
      t.out == s.out.(offered := t.out.offered, forward := s.target.forward) && t.target == s.target && t.proc == s.proc
  {
    hide Changes;
    assert s.out.edtRequests + [] == s.out.edtRequests;
  }

  /** A command as the processor meets it: heard, acknowledged, throttle zeroed. */
  function Heard(s: World, cmd: U16, telemetry: bool): World {
    Noted(s.(out := s.out.(newinput := 0, heard := s.out.heard + [cmd])), telemetry)
  }

  lemma CommandFrame(s: World, e: Event, en: bool)
    requires e.action.DshotCommand?
    ensures var v := if s.proc.mode > 0 && !Gate(e) then s.(proc := s.proc.(mode := 0)) else s;
      var heard := Heard(v, e.action.cmd, e.action.telemetry);
      Programming.Next(s, e, en) ==
        if s.proc.mode > 0 && !Gate(e) then heard else Applied(heard, e.action.cmd, Gate(e), en)
  {
    hide Applied;
  }

  lemma HeardDoes(s: World, cmd: U16, telemetry: bool, t: World, e: Event, executes: bool, en: bool)
    requires e.action.DshotCommand? && e.action.cmd == cmd && e.action.telemetry == telemetry
    requires var u := Heard(s, cmd, telemetry);
      FlagsDo(u, t, executes, cmd) && t.target.edtArmed == (s.target.edtArmed || (executes && cmd == 13 && en)) &&
      t.out.newinput == u.out.newinput && t.out.sendTelemetry == u.out.sendTelemetry &&
      t.out.signalTimeout == u.out.signalTimeout && t.out.heard == u.out.heard
    ensures FrameDoes(s, t, e, executes, en)
  {
  }

  lemma IdleCommandFrame(s: World, e: Event, en: bool)
    requires s.proc.mode == 0 && !s.proc.edtInit && !s.proc.edtDeinit && IsDecoded(e.action) && e.action.DshotCommand?
    ensures FrameDoes(s, Programming.Next(s, e, en), e, Gate(e) && SixthOf(s.proc, e.action.cmd), en)
    ensures Gate(e) ==>
      var t := Programming.Next(s, e, en);
      t.proc.last == Bumped(s.proc, e.action.cmd).last &&
      t.proc.count == if SixthOf(s.proc, e.action.cmd) then 0 else Bumped(s.proc, e.action.cmd).count
    ensures !Gate(e) ==> SameCounting(s, Programming.Next(s, e, en))
  {
    CommandFrame(s, e, en);
    var cmd, heard := e.action.cmd, Heard(s, e.action.cmd, e.action.telemetry);
    hide Programming.Next;
    hide FrameDoes;
    if Gate(e) {
      IdleEffects(heard, cmd, en);
    } else {
      ClosedEffects(heard, cmd, en);
      SameFlags(heard, Applied(heard, cmd, false, en), cmd);
    }
    hide Applied;
    HeardDoes(s, cmd, e.action.telemetry, Programming.Next(s, e, en), e, Gate(e) && SixthOf(s.proc, cmd), en);
  }

  lemma SameFlags(s: World, t: World, cmd: U16)
    requires t.out == s.out.(newinput := t.out.newinput, sendTelemetry := t.out.sendTelemetry,
      signalTimeout := t.out.signalTimeout, offered := t.out.offered, forward := t.out.forward, heard := t.out.heard)
    requires t.target.forward == s.target.forward && t.proc.extended == s.proc.extended
    requires !t.proc.edtInit && !t.proc.edtDeinit
    ensures FlagsDo(s, t, false, cmd)
  {
    assert s.out.edtRequests + [] == s.out.edtRequests;
  }

  /** A throttle frame before it is acknowledged. */
  function ThrottleTaken(s: World, e: Event, en: bool): World
    requires e.action.DshotThrottle?
  {
    var zeroed := s.(out := s.out.(newinput := 0));
    if s.proc.mode == 0 then ThrottlePassed(s, e.action.value, en)
    else if Gate(e) then Applied(zeroed, e.action.value, true, en)
    else zeroed.(proc := s.proc.(mode := 0))
  }

  lemma ThrottleFrame(s: World, e: Event, en: bool)
    requires e.action.DshotThrottle?
    ensures Programming.Next(s, e, en) == Noted(ThrottleTaken(s, e, en), e.action.telemetry)
  {
    hide Applied;
  }

  /** What a frame that executes nothing leaves before it is acknowledged. */
  predicate Leaves(s: World, t: World, e: Event, en: bool) {
    var pending := s.proc.mode > 0;
    t.out == s.out.(newinput := t.out.newinput, offered := t.out.offered, forward := t.out.forward) &&
    t.out.newinput == PublishedThrottle(s.out.newinput, e.action, pending, s.target.edtArmed, en) &&
    t.target.forward == s.target.forward && t.proc.extended == s.proc.extended &&
    t.target.edtArmed == (s.target.edtArmed && !ClearsEdt(e, pending, en)) &&
    !t.proc.edtInit && !t.proc.edtDeinit && SameCounting(s, t)
  }

  lemma LeavesDoes(s: World, t: World, e: Event, en: bool)
    requires Leaves(s, t, e, en) && !e.action.DshotCommand?
    ensures e.action.DshotThrottle? ==> FrameDoes(s, Noted(t, e.action.telemetry), e, false, en)
    ensures !e.action.DshotThrottle? ==> FrameDoes(s, t, e, false, en)
  {
    hide PublishedThrottle;
    hide ClearsEdt;
    assert s.out.heard + [] == s.out.heard && s.out.edtRequests + [] == s.out.edtRequests;
  }

  lemma TakenLeaves(s: World, e: Event, en: bool)
    requires !s.proc.edtInit && !s.proc.edtDeinit && e.action.DshotThrottle?
    ensures Leaves(s, ThrottleTaken(s, e, en), e, en)
  {
    if s.proc.mode > 0 && Gate(e) {
      ProgrammedEffects(s.(out := s.out.(newinput := 0)), e.action.value, true, en);
    }
    hide Applied;
  }

  lemma OtherFrame(s: World, e: Event, en: bool)
    requires !s.proc.edtInit && !s.proc.edtDeinit && !e.action.DshotCommand?
    ensures FrameDoes(s, Programming.Next(s, e, en), e, false, en) && SameCounting(s, Programming.Next(s, e, en))
  {
    hide FrameDoes;
    hide Leaves;
    if e.action.DshotThrottle? {
      ThrottleFrame(s, e, en);
      hide Programming.Next;
      TakenLeaves(s, e, en);
      LeavesDoes(s, ThrottleTaken(s, e, en), e, en);
      LeavesCounting(s, ThrottleTaken(s, e, en), e, en);
    } else {
      QuietLeaves(s, e, en);
      LeavesDoes(s, Programming.Next(s, e, en), e, en);
      LeavesCounting(s, Programming.Next(s, e, en), e, en);
    }
  }

  lemma LeavesCounting(s: World, t: World, e: Event, en: bool)
    requires Leaves(s, t, e, en)
    ensures SameCounting(s, t)
  {
  }

  lemma QuietLeaves(s: World, e: Event, en: bool)
    requires !s.proc.edtInit && !s.proc.edtDeinit && !e.action.DshotCommand? && !e.action.DshotThrottle?
    ensures Leaves(s, Programming.Next(s, e, en), e, en)
  {
  }

  lemma IdleFrame(s: World, e: Event, en: bool)
    requires s.proc.mode == 0 && !s.proc.edtInit && !s.proc.edtDeinit && IsDecoded(e.action)
    ensures var executes := Gate(e) && e.action.DshotCommand? && SixthOf(s.proc, CommandOf(e));
      FrameDoes(s, Programming.Next(s, e, en), e, executes, en)
    ensures Gate(e) && e.action.DshotCommand? ==>
      var t := Programming.Next(s, e, en);
      t.proc.last == Bumped(s.proc, e.action.cmd).last &&
      t.proc.count == if SixthOf(s.proc, e.action.cmd) then 0 else Bumped(s.proc, e.action.cmd).count
    ensures !(Gate(e) && e.action.DshotCommand?) ==> SameCounting(s, Programming.Next(s, e, en))
  {
    hide Programming.Next;
    hide FrameDoes;
    hide SixthOf;
    hide Bumped;
    if e.action.DshotCommand? { IdleCommandFrame(s, e, en); } else { OtherFrame(s, e, en); }
  }

  lemma ProgrammedEffects(s: World, value: U16, gate: bool, en: bool)
    requires s.proc.mode > 0 && !s.proc.edtInit && !s.proc.edtDeinit
    ensures var t := Applied(s, value, gate, en);
      t.out == s.out.(offered := t.out.offered, forward := s.target.forward) &&
      t.target == s.target.(config := t.target.config) && SameCounting(s, t) && t.proc.extended == s.proc.extended &&
      !t.proc.edtInit && !t.proc.edtDeinit
  {
    hide Changes;
    assert s.out.edtRequests + [] == s.out.edtRequests;
  }

  lemma PendingCommandFrame(s: World, e: Event, en: bool)
    requires s.proc.mode > 0 && !s.proc.edtInit && !s.proc.edtDeinit && e.action.DshotCommand?
    ensures FrameDoes(s, Programming.Next(s, e, en), e, false, en) && SameCounting(s, Programming.Next(s, e, en))
  {
    CommandFrame(s, e, en);
    var v := if Gate(e) then s else s.(proc := s.proc.(mode := 0));
    var cmd, heard := e.action.cmd, Heard(v, e.action.cmd, e.action.telemetry);
    hide Programming.Next;
    hide FrameDoes;
    if Gate(e) { ProgrammedEffects(heard, cmd, true, en); }
    hide Applied;
    var t := Programming.Next(s, e, en);
    SameFlags(Heard(s, cmd, e.action.telemetry), t, cmd);
    HeardDoes(s, cmd, e.action.telemetry, t, e, false, en);
  }

  lemma PendingFrame(s: World, e: Event, en: bool)
    requires s.proc.mode > 0 && !s.proc.edtInit && !s.proc.edtDeinit
    ensures FrameDoes(s, Programming.Next(s, e, en), e, false, en) && SameCounting(s, Programming.Next(s, e, en))
  {
    hide Programming.Next;
    hide FrameDoes;
    if e.action.DshotCommand? { PendingCommandFrame(s, e, en); } else { OtherFrame(s, e, en); }
  }

  // ----- every history -----

  lemma StreakAppend(w: World, en: bool, h: seq<Event>, e: Event, cmd: U16)
    ensures Streak(w, en, h + [e], cmd) ==
      if !AcceptsCommand(w, en, h, e) then Streak(w, en, h, cmd)
      else if e.action.cmd == cmd then Streak(w, en, h, cmd) + 1 else 0
  {
    hide Programming.After;
    assert (h + [e])[..|h|] == h;
  }

  lemma NextCounts(p: Proc, q: Proc, streak: nat, c: U16, cmd: U16)
    requires CountsStreak(p, streak, cmd) && p.count < 6 && 1 <= c <= 47
    requires q.last == Bumped(p, c).last && q.count == if SixthOf(p, c) then 0 else Bumped(p, c).count
    ensures CountsStreak(q, if c == cmd then streak + 1 else 0, cmd) && q.count < 6
  {
  }

  lemma FrameFollows(w: World, en: bool, h: seq<Event>, e: Event)
    requires Counting(w, en, h) && IsDecoded(e.action)
    ensures Counting(w, en, h + [e])
    ensures FrameDoes(After(w, en, h), After(w, en, h + [e]), e, Executes(w, en, h, e), en)
  {
    hide Programming.Next;
    hide Programming.After;
    hide FrameDoes;
    hide Bumped;
    hide SixthOf;
    hide Streak;
    var s, t := After(w, en, h), After(w, en, h + [e]);
    Unfold(w, en, h, e);
    if s.proc.mode > 0 { PendingFrame(s, e, en); } else { IdleFrame(s, e, en); }
    FlagsCleared(s, t, e, en);
    if AcceptsCommand(w, en, h, e) { StreakStep(s.proc, Streak(w, en, h, e.action.cmd), e.action.cmd); }
    forall cmd: U16
      ensures CountsStreak(t.proc, Streak(w, en, h + [e], cmd), cmd)
    {
      StreakAppend(w, en, h, e, cmd);
      if AcceptsCommand(w, en, h, e) { NextCounts(s.proc, t.proc, Streak(w, en, h, cmd), e.action.cmd, cmd); }
    }
    if AcceptsCommand(w, en, h, e) { NextCounts(s.proc, t.proc, Streak(w, en, h, 0), e.action.cmd, 0); }
  }

  lemma FlagsCleared(s: World, t: World, e: Event, en: bool)
    requires FrameDoes(s, t, e, true, en) || FrameDoes(s, t, e, false, en)
    ensures !t.proc.edtInit && !t.proc.edtDeinit
  {
  }

  lemma {:induction false} HistoryCounts(w: World, en: bool, h: seq<Event>)
    requires Unused(w) && AllDecoded(h)
    ensures Counting(w, en, h)
  {
    if h != [] {
      hide Counting;
      var before, e := h[..|h| - 1], h[|h| - 1];
      HistoryCounts(w, en, before);
      FrameFollows(w, en, before, e);
      assert before + [e] == h;
    }
  }

  /** After any history of frames, what the next one does: a command takes effect on the
      sixth frame of its streak, tones at once, each with exactly its own effect; the
      throttle published follows the rule of `PublishedThrottle`. */
  lemma FrameTakesEffect(w: World, en: bool, h: seq<Event>, e: Event)
    requires Unused(w) && AllDecoded(h) && IsDecoded(e.action)
    ensures FrameDoes(After(w, en, h), After(w, en, h + [e]), e, Executes(w, en, h, e), en)
  {
    hide FrameDoes;
    HistoryCounts(w, en, h);
    FrameFollows(w, en, h, e);
  }

  predicate Pends(w: World, en: bool, h: seq<Event>) { After(w, en, h).proc.mode > 0 }

  predicate ArmsAt(w: World, en: bool, h: seq<Event>, i: nat) {
    i < |h| && en && Executes(w, en, h[..i], h[i]) && h[i].action.cmd == 13
  }

  predicate ClearsAt(w: World, en: bool, h: seq<Event>, i: nat) {
    i < |h| && ClearsEdt(h[i], Pends(w, en, h[..i]), en)
  }

  /** EDT was armed by an executed 13, or from the start, and no zero throttle since. */
  ghost predicate EdtArmedBy(w: World, en: bool, h: seq<Event>) {
    (w.target.edtArmed && forall j: nat :: j < |h| ==> !ClearsAt(w, en, h, j)) ||
    exists i: nat :: ArmsAt(w, en, h, i) && forall j: nat :: i < j < |h| ==> !ClearsAt(w, en, h, j)
  }

  lemma SameBefore(w: World, en: bool, h: seq<Event>, e: Event, i: nat)
    requires i < |h|
    ensures (h + [e])[..i] == h[..i] && (h + [e])[i] == h[i]
  {
  }

  lemma {:induction false} EdtArmedExactly(w: World, en: bool, h: seq<Event>)
    requires Unused(w) && AllDecoded(h)
    ensures After(w, en, h).target.edtArmed <==> EdtArmedBy(w, en, h)
  {
    hide Executes;
    hide ClearsEdt;
    hide Pends;
    if h != [] {
      hide Programming.After;
      var last := |h| - 1;
      var before, e := h[..last], h[last];
      EdtArmedExactly(w, en, before);
      FrameTakesEffect(w, en, before, e);
      assert before + [e] == h;
      forall j: nat | j < last
        ensures ClearsAt(w, en, h, j) == ClearsAt(w, en, before, j) && ArmsAt(w, en, h, j) == ArmsAt(w, en, before, j)
      {
        SameBefore(w, en, before, e, j);
      }
      EdtLast(w, en, before, e);
    }
  }

  /** The last frame arms, clears, or leaves the arming as it was. */
  lemma EdtLast(w: World, en: bool, h: seq<Event>, e: Event)
    requires After(w, en, h).target.edtArmed <==> EdtArmedBy(w, en, h)
    requires FrameDoes(After(w, en, h), After(w, en, h + [e]), e, Executes(w, en, h, e), en)
    requires forall j: nat :: j < |h| ==>
      ClearsAt(w, en, h + [e], j) == ClearsAt(w, en, h, j) && ArmsAt(w, en, h + [e], j) == ArmsAt(w, en, h, j)
    ensures After(w, en, h + [e]).target.edtArmed <==> EdtArmedBy(w, en, h + [e])
  {
    hide FlagsDo;
    hide Streak;
    hide Programming.After;
    var g := h + [e];
    assert g[..|h|] == h && g[|h|] == e;
    assert ClearsAt(w, en, g, |h|) == ClearsEdt(e, Pends(w, en, h), en);
    assert ArmsAt(w, en, g, |h|) == (en && Executes(w, en, h, e) && e.action.cmd == 13);
  }

  /** Frame `i` decides the published throttle. */
  ghost predicate Decides(w: World, en: bool, h: seq<Event>, i: nat) {
    i < |h| &&
    (h[i].action.DshotCommand? ||
     (h[i].action.DshotThrottle? &&
      (Pends(w, en, h[..i]) || h[i].action.value == 0 || !en || EdtArmedBy(w, en, h[..i]))))
  }

  /** What it decides: its throttle value, or zero for a command and during a sequence. */
  function Decided(w: World, en: bool, h: seq<Event>, i: nat): U16
    requires i < |h|
  {
    if h[i].action.DshotThrottle? && !Pends(w, en, h[..i]) then h[i].action.value else 0
  }

  /** The published throttle is what the last deciding frame decided, or the initial one. */
  ghost predicate ThrottleRead(w: World, en: bool, h: seq<Event>, newinput: U16) {
    (newinput == w.out.newinput && forall j: nat :: j < |h| ==> !Decides(w, en, h, j)) ||
    exists i: nat :: Decides(w, en, h, i) && newinput == Decided(w, en, h, i) &&
      forall j: nat :: i < j < |h| ==> !Decides(w, en, h, j)
  }

  /** After every history of frames the throttle that reaches the control loop is read off
      that history: the last frame that decides decides it. */
  lemma {:induction false} ThrottleIsRead(w: World, en: bool, h: seq<Event>)
    requires Unused(w) && AllDecoded(h)
    ensures ThrottleRead(w, en, h, After(w, en, h).out.newinput)
  {
    hide EdtArmedBy;
    hide Pends;
    if h != [] {
      hide Programming.After;
      var last := |h| - 1;
      var before, e := h[..last], h[last];
      ThrottleIsRead(w, en, before);
      FrameTakesEffect(w, en, before, e);
      EdtArmedExactly(w, en, before);
      assert before + [e] == h;
      forall j: nat | j < last
        ensures Decides(w, en, h, j) == Decides(w, en, before, j) && Decided(w, en, h, j) == Decided(w, en, before, j)
      {
        SameBefore(w, en, before, e, j);
      }
      ThrottleLast(w, en, before, e);
    }
  }

  lemma ThrottleLast(w: World, en: bool, h: seq<Event>, e: Event)
    requires ThrottleRead(w, en, h, After(w, en, h).out.newinput)
    requires After(w, en, h).target.edtArmed <==> EdtArmedBy(w, en, h)
    requires FrameDoes(After(w, en, h), After(w, en, h + [e]), e, Executes(w, en, h, e), en)
    requires forall j: nat :: j < |h| ==>
      Decides(w, en, h + [e], j) == Decides(w, en, h, j) && Decided(w, en, h + [e], j) == Decided(w, en, h, j)
    ensures ThrottleRead(w, en, h + [e], After(w, en, h + [e]).out.newinput)
  {
    hide FlagsDo;
    hide Executes;
    hide EdtArmedBy;
    hide Programming.After;
    var g := h + [e];
    assert g[..|h|] == h && g[|h|] == e;
    if Decides(w, en, g, |h|) {
      assert After(w, en, g).out.newinput == Decided(w, en, g, |h|);
    }
  }
}
