/** The motor mode, the zero-cross counter and the contexts that write them
    (rm32/src/motor_mode.rs, rm32/src/shared_state.rs, rm32/src/shared_comm.rs).
    Lower-priority contexts use compare-and-swap loops; the commutation interrupt,
    the top context, uses a plain load and a plain store. */
module ModeWriters {
  import opened Words

  datatype MotorMode = Disarmed | Armed | StepperSine | OldRoutine | Running

  datatype MotorEvent = Arm | Disarm | StartMotor | StopMotor | EnterSine | ExitSine | BemfLocked | DesyncFallback

  function AsU8(m: MotorMode): (v: U8) {
    match m
    case Disarmed => 0
    case Armed => 1
    case StepperSine => 2
    case OldRoutine => 3
    case Running => 4
  }

  function FromU8(v: int): MotorMode {
    if v == 1 then Armed
    else if v == 2 then StepperSine
    else if v == 3 then OldRoutine
    else if v == 4 then Running
    else Disarmed
  }

  lemma ModeRoundTrip(m: MotorMode)
    ensures FromU8(AsU8(m)) == m
  {
  }

  predicate IsArmed(m: MotorMode) { AsU8(m) >= AsU8(Armed) }

  predicate IsRunning(m: MotorMode) { m.OldRoutine? || m.Running? }

  function Transition(m: MotorMode, e: MotorEvent): MotorMode {
    match (m, e)
    case (Disarmed, Arm) => Armed
    case (_, Disarm) => Disarmed
    case (Armed, StartMotor) => OldRoutine
    case (OldRoutine, StopMotor) => Armed
    case (Running, StopMotor) => Armed
    case (Armed, EnterSine) => StepperSine
    case (StepperSine, ExitSine) => OldRoutine
    case (OldRoutine, BemfLocked) => Running
    case (Running, DesyncFallback) => OldRoutine
    case _ => m
  }

  /** The edges of the mode machine, as a table of pairs. */
  const EDGES: set<(MotorMode, MotorMode)> :=
    {(Disarmed, Armed), (Armed, Disarmed), (StepperSine, Disarmed), (OldRoutine, Disarmed), (Running, Disarmed),
     (Armed, OldRoutine), (OldRoutine, Armed), (Running, Armed), (Armed, StepperSine), (StepperSine, OldRoutine),
     (OldRoutine, Running), (Running, OldRoutine)}

  /** The mode machine as a table: mode, event, next mode. */
  const TABLE: set<(MotorMode, MotorEvent, MotorMode)> :=
    {(Disarmed, Arm, Armed), (Armed, StartMotor, OldRoutine), (Armed, EnterSine, StepperSine),
     (StepperSine, ExitSine, OldRoutine), (OldRoutine, BemfLocked, Running), (Running, DesyncFallback, OldRoutine),
     (OldRoutine, StopMotor, Armed), (Running, StopMotor, Armed),
     (Disarmed, Disarm, Disarmed), (Armed, Disarm, Disarmed), (StepperSine, Disarm, Disarmed),
     (OldRoutine, Disarm, Disarmed), (Running, Disarm, Disarmed)}

  /** The table says where an event leads, or has no row for it and the mode stays. */
  ghost predicate Leads(m: MotorMode, e: MotorEvent, n: MotorMode) {
    (m, e, n) in TABLE || (n == m && forall k :: (m, e, k) !in TABLE)
  }

  lemma TransitionFollowsTable(m: MotorMode, e: MotorEvent, n: MotorMode)
    ensures Transition(m, e) == n <==> Leads(m, e, n)
  {
    assert (m, e, Transition(m, e)) in TABLE || Transition(m, e) == m;
    assert Transition(m, e) != n ==> (m, e, n) !in TABLE;
  }

  const ZERO_CROSS_CAP: nat := 10000

  // ----- operations on the two words -----

  datatype Op =
    | Event(event: MotorEvent)
    | SetOldRoutine(v: bool)
    | IncrementZeroCrosses
    | SetZeroCrosses(count: nat)

  datatype Shared = Shared(mode: int, zeroCrosses: int)

  predicate OnMode(op: Op) { op.Event? || op.SetOldRoutine? }

  function Read(op: Op, s: Shared): int { if OnMode(op) then s.mode else s.zeroCrosses }

  function Write(op: Op, s: Shared, v: int): Shared { if OnMode(op) then s.(mode := v) else s.(zeroCrosses := v) }

  /** Whether the update closure yields a value to store. */
  predicate Stores(op: Op, v: int) {
    match op
    case Event(event) => Transition(FromU8(v), event) != FromU8(v)
    case SetOldRoutine(on) => if on then IsRunning(FromU8(v)) else FromU8(v) == OldRoutine
    case IncrementZeroCrosses => v < ZERO_CROSS_CAP
    case SetZeroCrosses(_) => true
  }

  /** The value an operation leaves in its word. */
  function Updated(op: Op, v: int): int {
    if !Stores(op, v) then v
    else
      match op
      case Event(event) => AsU8(Transition(FromU8(v), event))
      case SetOldRoutine(on) => AsU8(if on then OldRoutine else Running)
      case IncrementZeroCrosses => v + 1
      case SetZeroCrosses(count) => count
  }

  /** The operation done at once. */
  function Atomically(op: Op, s: Shared): Shared { Write(op, s, Updated(op, Read(op, s))) }

  class SharedWords {
    var motorMode: U8
    var zeroCrosses: U32

    ghost function View(): Shared
      reads this
    {
      Shared(motorMode, zeroCrosses)
    }

    constructor ()
      ensures View() == Shared(AsU8(Disarmed), 0)
    {
      motorMode, zeroCrosses := AsU8(Disarmed), 0;
    }

    method TransitionIsr0(event: MotorEvent)
      modifies this
      ensures View() == Atomically(Event(event), old(View()))
      ensures Leads(ModeOf(old(View())), event, ModeOf(View()))
    {
      EventLeads(View(), event);
      var mode := FromU8(motorMode);
      var new_ := Transition(mode, event);
      if new_ != mode { motorMode := AsU8(new_); }
    }

    method SetOldRoutineIsr0(v: bool)
      modifies this
      ensures View() == Atomically(SetOldRoutine(v), old(View()))
    {
      var mode := FromU8(motorMode);
      if v && IsRunning(mode) {
        motorMode := AsU8(OldRoutine);
      } else if !v && mode == OldRoutine {
        motorMode := AsU8(Running);
      }
    }

    method IncrementZeroCrossesIsr0()
      modifies this
      ensures View() == Atomically(IncrementZeroCrosses, old(View()))
    {
      var v := zeroCrosses;
      if v < ZERO_CROSS_CAP { zeroCrosses := v + 1; }
    }
  }

  // ----- contexts and their steps -----

  datatype Pc = Inactive | Begin(op: Op) | Loaded(op: Op, value: int)

  /** One entry per finished operation, in the order they took effect. */
  datatype Entry = Entry(context: nat, op: Op)

  /** Context 0 has the lowest priority; the last is the plain-store writer. */
  datatype System = System(shared: Shared, contexts: seq<Pc>, log: seq<Entry>)

  datatype Step =
    | Start(context: nat, op: Op)
    | Go(context: nat, spuriousFailure: bool)

  predicate NoneActiveAbove(s: System, i: nat) {
    forall j :: i < j < |s.contexts| ==> s.contexts[j].Inactive?
  }

  /** A context starts when idle and steps while active. */
  predicate Ready(s: System, t: Step) {
    t.context < |s.contexts| &&
    if t.Start? then s.contexts[t.context].Inactive? else !s.contexts[t.context].Inactive?
  }

  /** The priority scheduler: nothing runs below an active context. */
  predicate Scheduled(s: System, t: Step) { Ready(s, t) && NoneActiveAbove(s, t.context) }

  function Finish(s: System, i: nat, op: Op, shared: Shared): System
    requires i < |s.contexts|
  {
    System(shared, s.contexts[i := Inactive], s.log + [Entry(i, op)])
  }

  /** The value just read needs no store, or is kept for the store attempt. */
  function AfterRead(s: System, i: nat, op: Op): System
    requires i < |s.contexts|
  {
    var v := Read(op, s.shared);
    if !Stores(op, v) then Finish(s, i, op, s.shared) else s.(contexts := s.contexts[i := Loaded(op, v)])
  }

  /** A load, a plain store, a compare-and-swap attempt (which may fail though the
      word matches, and then yields the current value). */
  function Next(s: System, t: Step): System
    requires Ready(s, t)
  {
    match t
    case Start(i, op) => s.(contexts := s.contexts[i := Begin(op)])
    case Go(i, spuriousFailure) =>
      match s.contexts[i]
      case Begin(op) =>
        if op.SetZeroCrosses? then Finish(s, i, op, Write(op, s.shared, op.count)) else AfterRead(s, i, op)
      case Loaded(op, value) =>
        if i == |s.contexts| - 1 then Finish(s, i, op, Write(op, s.shared, Updated(op, value)))
        else if !spuriousFailure && Read(op, s.shared) == value then
          Finish(s, i, op, Write(op, s.shared, Updated(op, value)))
        else AfterRead(s, i, op)
      case Inactive => s
  }

  function Initial(shared: Shared, contexts: nat): System { System(shared, seq(contexts, _ => Inactive), []) }

  function After(s: System, steps: seq<Step>): System
    requires Runs(s, steps)
    decreases |steps|, 1
  {
    if steps == [] then s else Next(After(s, steps[..|steps| - 1]), steps[|steps| - 1])
  }

  /** Every step is scheduled when it is taken. */
  predicate Runs(s: System, steps: seq<Step>)
    decreases |steps|, 0
  {
    steps == [] ||
    (Runs(s, steps[..|steps| - 1]) && Scheduled(After(s, steps[..|steps| - 1]), steps[|steps| - 1]))
  }

  // ----- the sequential order -----

  /** The words after the logged operations, each done at once. */
  function Sequentially(s: Shared, log: seq<Entry>): Shared {
    if log == [] then s else Atomically(log[|log| - 1].op, Sequentially(s, log[..|log| - 1]))
  }

  function DoneBy(log: seq<Entry>, i: nat): seq<Op> {
    if log == [] then []
    else DoneBy(log[..|log| - 1], i) + (if log[|log| - 1].context == i then [log[|log| - 1].op] else [])
  }

  function StartedBy(steps: seq<Step>, i: nat): seq<Op> {
    if steps == [] then []
    else
      var t := steps[|steps| - 1];
      StartedBy(steps[..|steps| - 1], i) + (if t.Start? && t.context == i then [t.op] else [])
  }

  function Pending(pc: Pc): seq<Op> { if pc.Inactive? then [] else [pc.op] }

  /** The top context's load is still current: nothing ran in between. */
  predicate TopCurrent(s: System) {
    s.contexts != [] && s.contexts[|s.contexts| - 1].Loaded? ==>
      var pc := s.contexts[|s.contexts| - 1];
      pc.value == Read(pc.op, s.shared)
  }

  /** A store is only attempted for an operation that changes the value read. */
  predicate NoPlainLoad(s: System) {
    forall i :: 0 <= i < |s.contexts| && s.contexts[i].Loaded? ==> !s.contexts[i].op.SetZeroCrosses?
  }

  lemma NextKeepsTop(s: System, t: Step)
    requires TopCurrent(s) && NoPlainLoad(s) && Scheduled(s, t)
    ensures TopCurrent(Next(s, t)) && NoPlainLoad(Next(s, t))
  {
  }

  /** A step either leaves words and log alone, or does its context's pending
      operation at once and logs it. */
  lemma NextLogs(s: System, t: Step)
    requires TopCurrent(s) && Scheduled(s, t)
    ensures var n := Next(s, t);
      (n.log == s.log && n.shared == s.shared) ||
      (t.Go? && n.log == s.log + [Entry(t.context, s.contexts[t.context].op)] &&
       n.shared == Atomically(s.contexts[t.context].op, s.shared))
  {
  }

  lemma {:induction false} LogExplainsWords(shared: Shared, contexts: nat, steps: seq<Step>)
    requires Runs(Initial(shared, contexts), steps)
    ensures var s := After(Initial(shared, contexts), steps);
      TopCurrent(s) && NoPlainLoad(s) && s.shared == Sequentially(shared, s.log)
  {
    if steps != [] {
      var before, t := steps[..|steps| - 1], steps[|steps| - 1];
      LogExplainsWords(shared, contexts, before);
      var s := After(Initial(shared, contexts), before);
      NextKeepsTop(s, t);
      NextLogs(s, t);
      var n := Next(s, t);
      if n.log != s.log { assert n.log[..|n.log| - 1] == s.log; }
    }
  }

  /** A step touches its own context only: it starts an operation, keeps it
      pending, or logs it. */
  lemma NextPending(s: System, t: Step)
    requires Ready(s, t)
    ensures var n, i := Next(s, t), t.context;
      |n.contexts| == |s.contexts| &&
        (forall j :: 0 <= j < |s.contexts| && j != i ==> n.contexts[j] == s.contexts[j]) &&
      (t.Start? ==> n.log == s.log && Pending(s.contexts[i]) == [] && Pending(n.contexts[i]) == [t.op]) &&
      (t.Go? ==>
        (n.log == s.log && Pending(n.contexts[i]) == Pending(s.contexts[i])) ||
        (n.log == s.log + [Entry(i, s.contexts[i].op)] && Pending(n.contexts[i]) == [] &&
         Pending(s.contexts[i]) == [s.contexts[i].op]))
  {
    hide Updated;
    hide Stores;
  }

  lemma DoneByAppend(log: seq<Entry>, e: Entry, i: nat)
    ensures DoneBy(log + [e], i) == DoneBy(log, i) + (if e.context == i then [e.op] else [])
  {
    assert (log + [e])[..|log|] == log;
  }

  lemma StartedByAppend(steps: seq<Step>, t: Step, i: nat)
    ensures StartedBy(steps + [t], i) == StartedBy(steps, i) + (if t.Start? && t.context == i then [t.op] else [])
  {
    assert (steps + [t])[..|steps|] == steps;
  }

  lemma NextAccounts(s: System, t: Step, steps: seq<Step>, i: nat)
    requires Ready(s, t) && i < |s.contexts|
    requires DoneBy(s.log, i) + Pending(s.contexts[i]) == StartedBy(steps, i)
    ensures |Next(s, t).contexts| == |s.contexts|
    ensures DoneBy(Next(s, t).log, i) + Pending(Next(s, t).contexts[i]) == StartedBy(steps + [t], i)
  {
    hide Next;
    hide Pending;
    hide DoneBy;
    hide StartedBy;
    NextPending(s, t);
    StartedByAppend(steps, t, i);
    if t.Go? { DoneByAppend(s.log, Entry(t.context, s.contexts[t.context].op), i); }
  }

  lemma NothingAccounted(shared: Shared, contexts: nat, i: nat)
    requires i < contexts
    ensures var s := Initial(shared, contexts); DoneBy(s.log, i) + Pending(s.contexts[i]) == StartedBy([], i)
  {
  }

  lemma {:induction false} EachContextAccounted(shared: Shared, contexts: nat, steps: seq<Step>, i: nat)
    requires Runs(Initial(shared, contexts), steps) && i < contexts
    ensures var s := After(Initial(shared, contexts), steps);
      |s.contexts| == contexts && DoneBy(s.log, i) + Pending(s.contexts[i]) == StartedBy(steps, i)
  {
    hide Next;
    hide Pending;
    hide DoneBy;
    hide StartedBy;
    if steps == [] {
      NothingAccounted(shared, contexts, i);
    } else {
      var before, t := steps[..|steps| - 1], steps[|steps| - 1];
      EachContextAccounted(shared, contexts, before, i);
      NextAccounts(After(Initial(shared, contexts), before), t, before, i);
      assert before + [t] == steps;
    }
  }

  /** No update is lost: under the priority scheduler, in every interleaving of
      loads, plain stores and compare-and-swap attempts by any number of contexts,
      the two words are those of the logged operations done one after another, and
      the log holds each context's operations exactly once, in its own order. */
  lemma NoLostUpdate(shared: Shared, contexts: nat, steps: seq<Step>)
    requires Runs(Initial(shared, contexts), steps)
    ensures var s := After(Initial(shared, contexts), steps);
      s.shared == Sequentially(shared, s.log) && |s.contexts| == contexts &&
      forall i :: 0 <= i < contexts ==> DoneBy(s.log, i) + Pending(s.contexts[i]) == StartedBy(steps, i)
  {
    LogExplainsWords(shared, contexts, steps);
    ContextCount(shared, contexts, steps);
    var s := After(Initial(shared, contexts), steps);
    forall i | 0 <= i < contexts
      ensures DoneBy(s.log, i) + Pending(s.contexts[i]) == StartedBy(steps, i)
    {
      EachContextAccounted(shared, contexts, steps, i);
    }
  }

  lemma {:induction false} ContextCount(shared: Shared, contexts: nat, steps: seq<Step>)
    requires Runs(Initial(shared, contexts), steps)
    ensures |After(Initial(shared, contexts), steps).contexts| == contexts
  {
    if steps != [] { ContextCount(shared, contexts, steps[..|steps| - 1]); }
  }

  /** Mode bytes that name a mode, a count within its cap. */
  predicate InRange(s: Shared) { 0 <= s.mode <= 4 && 0 <= s.zeroCrosses <= ZERO_CROSS_CAP }

  predicate StoresSmall(log: seq<Entry>) {
    forall k :: 0 <= k < |log| ==> StoresWithinCap(log[k].op)
  }

  lemma OpFollowsEdges(op: Op, s: Shared)
    requires InRange(s) && StoresWithinCap(op)
    ensures var t := Atomically(op, s);
      InRange(t) && (t.mode == s.mode || (FromU8(s.mode), FromU8(t.mode)) in EDGES)
  {
    match op
    case Event(event) =>
      assert (FromU8(s.mode), Transition(FromU8(s.mode), event)) in EDGES ||
        Transition(FromU8(s.mode), event) == FromU8(s.mode);
    case _ =>
  }

  /** At every point of the sequential order the words stay in range, and each
      operation leaves the mode alone or moves it along an edge. */
  lemma {:induction false} ModeFollowsEdges(shared: Shared, log: seq<Entry>)
    requires InRange(shared) && StoresSmall(log)
    ensures InRange(Sequentially(shared, log))
    ensures log != [] ==>
      var before, after := Sequentially(shared, log[..|log| - 1]), Sequentially(shared, log);
      (after.mode == before.mode || (FromU8(before.mode), FromU8(after.mode)) in EDGES) &&
      (log[|log| - 1].op.Event? ==> Leads(ModeOf(before), log[|log| - 1].op.event, ModeOf(after)))
  {
    if log != [] {
      hide Leads;
      ModeFollowsEdges(shared, log[..|log| - 1]);
      if log[|log| - 1].op.Event? {
        EventLeads(Sequentially(shared, log[..|log| - 1]), log[|log| - 1].op.event);
      }
      OpFollowsEdges(log[|log| - 1].op, Sequentially(shared, log[..|log| - 1]));
    }
  }

  predicate StoresWithinCap(op: Op) { op.SetZeroCrosses? ==> op.count <= ZERO_CROSS_CAP }

  /** Every plain store that a run starts is within the cap. */
  ghost predicate StartsSmall(steps: seq<Step>) {
    forall k :: 0 <= k < |steps| && steps[k].Start? ==> StoresWithinCap(steps[k].op)
  }

  ghost predicate PendingSmall(s: System) {
    forall i :: 0 <= i < |s.contexts| && !s.contexts[i].Inactive? ==> StoresWithinCap(s.contexts[i].op)
  }

  lemma NextKeepsSmall(s: System, t: Step)
    requires PendingSmall(s) && Ready(s, t) && (t.Start? ==> StoresWithinCap(t.op))
    ensures PendingSmall(Next(s, t))
  {
    hide Updated;
    hide Stores;
  }

  lemma StepFollowsEdges(s: System, t: Step)
    requires TopCurrent(s) && PendingSmall(s) && InRange(s.shared) && Scheduled(s, t)
    ensures var n := Next(s, t).shared;
      InRange(n) && (n.mode == s.shared.mode || (FromU8(s.shared.mode), FromU8(n.mode)) in EDGES)
  {
    hide Next;
    hide Atomically;
    NextLogs(s, t);
    if t.Go? { OpFollowsEdges(s.contexts[t.context].op, s.shared); }
  }

  lemma {:induction false} RunStaysInRange(shared: Shared, contexts: nat, steps: seq<Step>)
    requires Runs(Initial(shared, contexts), steps) && InRange(shared) && StartsSmall(steps)
    ensures var s := After(Initial(shared, contexts), steps);
      InRange(s.shared) && PendingSmall(s)
  {
    if steps != [] {
      hide Next;
      hide InRange;
      hide Scheduled;
      var before, t := steps[..|steps| - 1], steps[|steps| - 1];
      RunStaysInRange(shared, contexts, before);
      LogExplainsWords(shared, contexts, before);
      var s := After(Initial(shared, contexts), before);
      ScheduledIsReady(s, t);
      NextKeepsSmall(s, t);
      StepFollowsEdges(s, t);
    }
  }

  lemma ScheduledIsReady(s: System, t: Step)
    requires Scheduled(s, t)
    ensures Ready(s, t)
  {
  }

  /** In every scheduled run whose plain stores are within the cap, at every state the
      mode byte is a mode and the counter at most 10000, and every single step, a load,
      a store or a compare-and-swap attempt, leaves the mode or moves it along an edge. */
  lemma RunFollowsEdges(shared: Shared, contexts: nat, steps: seq<Step>, t: Step)
    requires Runs(Initial(shared, contexts), steps) && InRange(shared) && StartsSmall(steps)
    requires Scheduled(After(Initial(shared, contexts), steps), t)
    ensures var s := After(Initial(shared, contexts), steps);
      var before, after := s.shared, Next(s, t).shared;
      InRange(before) && InRange(after) &&
      (after.mode == before.mode || (FromU8(before.mode), FromU8(after.mode)) in EDGES)
  {
    hide Next;
    hide InRange;
    RunStaysInRange(shared, contexts, steps);
    LogExplainsWords(shared, contexts, steps);
    StepFollowsEdges(After(Initial(shared, contexts), steps), t);
  }

  // ----- what the log says of the words -----

  function ModeOf(s: Shared): MotorMode { FromU8(s.mode) }

  /** A mode event leads where the table says, whatever the stored byte. */
  lemma EventLeads(s: Shared, e: MotorEvent)
    ensures Leads(ModeOf(s), e, ModeOf(Atomically(Event(e), s)))
  {
    hide Leads;
    hide Transition;
    var n := Transition(ModeOf(s), e);
    TransitionFollowsTable(ModeOf(s), e, n);
    ModeRoundTrip(n);
  }

  /** The polling bit moves between the two running modes only. */
  lemma PollingBitLeads(s: Shared, on: bool)
    ensures ModeOf(Atomically(SetOldRoutine(on), s)) ==
      if IsRunning(ModeOf(s)) then (if on then OldRoutine else Running) else ModeOf(s)
  {
  }

  ghost predicate Disarms(log: seq<Entry>, k: nat) {
    k < |log| && log[k].op == Event(Disarm) && forall i :: k < i < |log| ==> log[i].op != Event(Arm)
  }

  lemma {:induction false} DisarmedStays(shared: Shared, log: seq<Entry>, k: nat)
    requires Disarms(log, k)
    ensures ModeOf(Sequentially(shared, log)).Disarmed?
  {
    var last := |log| - 1;
    if k < last { DisarmedStays(shared, log[..last], k); }
    OpOnDisarmed(Sequentially(shared, log[..last]), log[last].op);
  }

  lemma OpOnDisarmed(s: Shared, op: Op)
    requires op == Event(Disarm) || (ModeOf(s).Disarmed? && op != Event(Arm))
    ensures ModeOf(Atomically(op, s)).Disarmed?
  {
  }

  /** In every scheduled run: each logged event took its row of the table at the point
      where it took effect, each polling bit moved only a running mode, and a motor
      disarmed with no later arming is disarmed. */
  lemma LoggedEventsLead(shared: Shared, contexts: nat, steps: seq<Step>, k: nat)
    requires Runs(Initial(shared, contexts), steps) && k < |After(Initial(shared, contexts), steps).log|
    ensures var s := After(Initial(shared, contexts), steps);
      var before, after := Sequentially(shared, s.log[..k]), Sequentially(shared, s.log[..k + 1]);
      s.shared == Sequentially(shared, s.log) &&
      (Disarms(s.log, k) ==> ModeOf(s.shared).Disarmed?) &&
      match s.log[k].op
      case Event(event) => Leads(ModeOf(before), event, ModeOf(after))
      case SetOldRoutine(on) =>
        ModeOf(after) == if IsRunning(ModeOf(before)) then (if on then OldRoutine else Running) else ModeOf(before)
      case _ => after.mode == before.mode
  {
    hide Leads;
    hide Updated;
    LogExplainsWords(shared, contexts, steps);
    var log := After(Initial(shared, contexts), steps).log;
    var before := Sequentially(shared, log[..k]);
    assert log[..k + 1][..k] == log[..k];
    match log[k].op {
      case Event(event) => EventLeads(before, event);
      case SetOldRoutine(on) => PollingBitLeads(before, on);
      case _ =>
    }
    if Disarms(log, k) { DisarmedStays(shared, log, k); }
  }

  /** Crossings counted since the last plain store, from the value stored. */
  function CountedSince(log: seq<Entry>, start: int): int {
    if log == [] then start
    else
      var last := |log| - 1;
      match log[last].op
      case IncrementZeroCrosses => CountedSince(log[..last], start) + 1
      case SetZeroCrosses(count) => count
      case _ => CountedSince(log[..last], start)
  }

  lemma {:induction false} CountsToCap(shared: Shared, log: seq<Entry>)
    requires InRange(shared) && StoresSmall(log)
    ensures Sequentially(shared, log).zeroCrosses == Min(CountedSince(log, shared.zeroCrosses), ZERO_CROSS_CAP)
    ensures CountedSince(log, shared.zeroCrosses) >= 0
  {
    if log != [] { CountsToCap(shared, log[..|log| - 1]); }
  }

  lemma {:induction false} LoggedSmall(shared: Shared, contexts: nat, steps: seq<Step>)
    requires Runs(Initial(shared, contexts), steps) && InRange(shared) && StartsSmall(steps)
    ensures StoresSmall(After(Initial(shared, contexts), steps).log)
  {
    if steps != [] {
      var before, t := steps[..|steps| - 1], steps[|steps| - 1];
      LoggedSmall(shared, contexts, before);
      RunStaysInRange(shared, contexts, before);
      LogExplainsWords(shared, contexts, before);
      NextLogs(After(Initial(shared, contexts), before), t);
    }
  }

  /** In every such run the counter is the crossings counted since the last store to it,
      up to its cap: none is lost. */
  lemma CrossingsAreCounted(shared: Shared, contexts: nat, steps: seq<Step>)
    requires Runs(Initial(shared, contexts), steps) && InRange(shared) && StartsSmall(steps)
    ensures var s := After(Initial(shared, contexts), steps);
      s.shared.zeroCrosses == Min(CountedSince(s.log, shared.zeroCrosses), ZERO_CROSS_CAP)
  {
    LogExplainsWords(shared, contexts, steps);
    LoggedSmall(shared, contexts, steps);
    CountsToCap(shared, After(Initial(shared, contexts), steps).log);
  }

  /** Running is left only by disarming, stopping or demotion to polling, and is
      entered only from polling. */
  lemma RunningEdges(a: MotorMode, b: MotorMode)
    requires (a, b) in EDGES
    ensures a == Running ==> b in {Disarmed, Armed, OldRoutine}
    ensures b == Running ==> a == OldRoutine
    ensures b == StepperSine ==> a == Armed
  {
  }

  /** The scheduler matters: let a lower context step between the top context's
      load and store, and one of two increments is lost. */
  lemma UnscheduledStepLosesUpdate()
    ensures var s0 := Initial(Shared(4, 5), 2);
      var s1 := Next(s0, Start(1, IncrementZeroCrosses));
      var s2 := Next(s1, Go(1, false));
      var s3 := Next(s2, Start(0, IncrementZeroCrosses));
      var s4 := Next(s3, Go(0, false));
      var s5 := Next(s4, Go(0, false));
      var s6 := Next(s5, Go(1, false));
      !Scheduled(s2, Start(0, IncrementZeroCrosses)) &&
      |s6.log| == 2 && s6.shared.zeroCrosses == 6 && Sequentially(Shared(4, 5), s6.log).zeroCrosses == 7
  {
    var s0 := Initial(Shared(4, 5), 2);
    var s1 := Next(s0, Start(1, IncrementZeroCrosses));
    var s2 := Next(s1, Go(1, false));
    assert s2.contexts[1] == Loaded(IncrementZeroCrosses, 5);
    var s3 := Next(s2, Start(0, IncrementZeroCrosses));
    var s4 := Next(s3, Go(0, false));
    assert s4.contexts[0] == Loaded(IncrementZeroCrosses, 5);
    var s5 := Next(s4, Go(0, false));
    var s6 := Next(s5, Go(1, false));
    assert s6.log == [Entry(0, IncrementZeroCrosses), Entry(1, IncrementZeroCrosses)];
    assert s6.log[..1] == [Entry(0, IncrementZeroCrosses)] && s6.log[..1][..0] == [];
    assert Sequentially(Shared(4, 5), s6.log[..1]) == Shared(4, 6);
  }
}
