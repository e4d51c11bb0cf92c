/** The configuration replica: the input interrupt owns the authoritative bytes and
    queues each change for the main loop (rm32/src/shared_state.rs,
    rm32/src/system.rs, rm32_stm32/src/isr_handlers.rs). */
module ConfigQueue {
  import opened Words
  import opened Commands

  const SLOTS: nat := 9
  const CAPACITY: nat := 8

  // ----- the ring -----

  function Packed(w: Write): (p: U16) { w.0 * 256 + w.1 }

  function Unpacked(p: U16): (w: Write) { (p / 256, p % 256) }

  lemma PackRoundTrip(w: Write)
    ensures Unpacked(Packed(w)) == w
  {
  }

  datatype Ring = Ring(slots: seq<U16>, head: U8, tail: U8, overflow: bool)

  predicate Valid(r: Ring) { |r.slots| == SLOTS && r.head < SLOTS && r.tail < SLOTS }

  function Next(i: U8): (n: U8)
    requires i < SLOTS
    ensures n < SLOTS
  {
    (i + 1) % SLOTS
  }

  function Length(r: Ring): (n: nat)
    requires Valid(r)
    ensures n <= CAPACITY
  {
    if r.head >= r.tail then r.head - r.tail else r.head + SLOTS - r.tail
  }

  function SlotOf(r: Ring, i: nat): (k: nat)
    requires Valid(r) && i <= CAPACITY
    ensures k < SLOTS
  {
    if r.tail + i < SLOTS then r.tail + i else r.tail + i - SLOTS
  }

  /** The queued writes, oldest first. */
  function Contents(r: Ring): (c: seq<Write>)
    requires Valid(r)
    ensures |c| == Length(r)
  {
    seq(Length(r), i requires 0 <= i < Length(r) => Unpacked(r.slots[SlotOf(r, i)]))
  }

  function Pushed(r: Ring, w: Write): (q: Ring)
    requires Valid(r)
    ensures Valid(q)
  {
    if Next(r.head) != r.tail then r.(slots := r.slots[r.head := Packed(w)], head := Next(r.head))
    else r.(overflow := true)
  }

  lemma PushAppends(r: Ring, w: Write)
    requires Valid(r)
    ensures Contents(Pushed(r, w)) == if Length(r) < CAPACITY then Contents(r) + [w] else Contents(r)
    ensures Pushed(r, w).overflow == (r.overflow || Length(r) == CAPACITY) && Pushed(r, w).tail == r.tail
  {
    hide Packed;
    hide Unpacked;
    hide Length;
    hide SlotOf;
    PackRoundTrip(w);
    PushRoom(r, w);
    var q := Pushed(r, w);
    if Length(r) < CAPACITY {
      forall i | 0 <= i <= Length(r)
        ensures Contents(q)[i] == (Contents(r) + [w])[i]
      {
        HeadSlot(r, q, i);
      }
      assert Contents(q) == Contents(r) + [w];
    } else {
      assert q.slots == r.slots;
      forall i | 0 <= i < Length(r)
        ensures SlotOf(q, i) == SlotOf(r, i)
      {
        HeadSlot(r, q, i);
      }
      assert Contents(q) == Contents(r);
    }
  }

  lemma PushRoom(r: Ring, w: Write)
    requires Valid(r)
    ensures Next(r.head) != r.tail <==> Length(r) < CAPACITY
    ensures Length(Pushed(r, w)) == if Length(r) < CAPACITY then Length(r) + 1 else Length(r)
  {
  }

  lemma HeadSlot(r: Ring, q: Ring, i: nat)
    requires Valid(r) && Valid(q) && q.tail == r.tail && i <= Length(r)
    ensures SlotOf(q, i) == SlotOf(r, i)
    ensures SlotOf(r, i) == r.head <==> i == Length(r)
  {
  }

  lemma PopRemoves(r: Ring)
    requires Valid(r) && r.tail != r.head
    ensures var q := r.(tail := Next(r.tail));
      Valid(q) && Contents(r) == [Unpacked(r.slots[r.tail])] + Contents(q)
  {
  }

  class ConfigRing {
    const configWriteQueue: array<U16>
    var configWriteHead: U8
    var configWriteTail: U8
    var configWriteOverflow: bool

    ghost function View(): Ring
      reads this, configWriteQueue
    {
      Ring(configWriteQueue[..], configWriteHead, configWriteTail, configWriteOverflow)
    }

    constructor ()
      ensures Valid(View()) && Contents(View()) == [] && !View().overflow && fresh(configWriteQueue)
    {
      configWriteQueue := new U16[SLOTS](_ => 0);
      configWriteHead, configWriteTail, configWriteOverflow := 0, 0, false;
    }

    /** Producer side: a full ring keeps its bytes and raises the flag. */
    method Push(offset: U8, value: U8) returns (queued: bool)
      requires Valid(View())
      modifies this`configWriteHead, this`configWriteOverflow, configWriteQueue
      ensures View() == Pushed(old(View()), (offset, value))
      ensures queued == (Length(old(View())) < CAPACITY)
      ensures Contents(View()) == if queued then old(Contents(View())) + [(offset, value)] else old(Contents(View()))
      ensures configWriteOverflow == (old(configWriteOverflow) || !queued)
    {
      PushAppends(View(), (offset, value));
      var next := (configWriteHead + 1) % SLOTS;
      if next != configWriteTail {
        configWriteQueue[configWriteHead] := Packed((offset, value));
        configWriteHead := next;
        queued := true;
      } else {
        configWriteOverflow := true;
        queued := false;
      }
    }

    /** Consumer side, here without the producer in between. */
    method Pop() returns (r: Option<Write>)
      requires Valid(View())
      modifies this`configWriteTail
      ensures Valid(View())
      ensures r.None? ==> old(Contents(View())) == [] && View() == old(View())
      ensures r.Some? ==> old(Contents(View())) == [r.value] + Contents(View())
      ensures r.Some? ==> configWriteTail == Next(old(configWriteTail))
    {
      if configWriteTail == configWriteHead { return None; }
      PopRemoves(View());
      var packed := configWriteQueue[configWriteTail];
      configWriteTail := (configWriteTail + 1) % SLOTS;
      return Some((packed / 256, packed % 256));
    }
  }

  // ----- several pushes in one dispatch -----

  function PushedAll(r: Ring, ws: seq<Write>): (q: Ring)
    requires Valid(r)
    ensures Valid(q)
  {
    if ws == [] then r else Pushed(PushedAll(r, ws[..|ws| - 1]), ws[|ws| - 1])
  }

  /** The flag is raised exactly when the bytes do not all fit; while it is clear
      the queue holds exactly what was pushed. */
  lemma {:induction false} PushAll(r: Ring, ws: seq<Write>)
    requires Valid(r)
    ensures PushedAll(r, ws).overflow == (r.overflow || Length(r) + |ws| > CAPACITY)
    ensures Length(r) + |ws| <= CAPACITY ==> Contents(PushedAll(r, ws)) == Contents(r) + ws
    ensures Length(r) + |ws| > CAPACITY ==> Length(PushedAll(r, ws)) == CAPACITY
    ensures PushedAll(r, ws).tail == r.tail
  {
    hide Contents;
    hide Pushed;
    hide Length;
    if ws == [] {
      assert Contents(r) + ws == Contents(r);
    } else {
      var last := |ws| - 1;
      PushAll(r, ws[..last]);
      PushAppends(PushedAll(r, ws[..last]), ws[last]);
      assert Contents(r) + ws == Contents(r) + ws[..last] + [ws[last]];
    }
  }

  lemma {:induction false} ReplayAppends(a: seq<Write>, b: seq<Write>, c: Config)
    ensures Replay(a + b, c) == Replay(b, Replay(a, c))
  {
    if b == [] {
      assert a + b == a;
    } else {
      ReplayAppends(a, b[..|b| - 1], c);
      assert (a + b)[..|a + b| - 1] == a + b[..|b| - 1];
    }
  }

  // ----- the interleaved system -----

  /** Where the main loop is inside its pop loop: each load and store is a step. */
  datatype MainPc =
    | Idle
    | HaveTail(tail: U8)
    | NotEmpty(tail: U8)
    | HavePacked(tail: U8, packed: U16)
    | Popped(w: Write)
    | Saving

  datatype System = System(
    ring: Ring, authoritative: Config, saveFlag: bool,
    pc: MainPc, main: Config, flash: Config, claimed: Config)

  datatype Event =
    | Dispatch(writes: seq<Write>, save: bool)
    | PopStep
    | Snapshot
    | ClaimSave
    | FlashWrite

  /** Masked main-loop sections start only between pops. */
  predicate Enabled(s: System, e: Event) {
    match e
    case Dispatch(_, _) => true
    case PopStep => !s.pc.Saving?
    case Snapshot => s.pc.Idle?
    case ClaimSave => s.pc.Idle? && s.saveFlag
    case FlashWrite => s.pc.Saving?
  }

  /** One load or store of `pop_config_write` or of the byte it returns. */
  function PopStepped(s: System): System
    requires Valid(s.ring) && !s.pc.Saving?
    requires s.pc.HaveTail? || s.pc.NotEmpty? || s.pc.HavePacked? ==> s.pc.tail < SLOTS
  {
    match s.pc
    case Idle => s.(pc := HaveTail(s.ring.tail))
    case HaveTail(tail) => s.(pc := if tail == s.ring.head then Idle else NotEmpty(tail))
    case NotEmpty(tail) => s.(pc := HavePacked(tail, s.ring.slots[tail]))
    case HavePacked(tail, packed) => s.(ring := s.ring.(tail := Next(tail)), pc := Popped(Unpacked(packed)))
    case Popped(w) => s.(main := Put(s.main, w), pc := Idle)
    case Saving => s
  }

  /** Drain, copy, clear the flag: with the producer excluded. */
  function Snapshotted(s: System): System {
    s.(ring := s.ring.(tail := s.ring.head, overflow := false), main := s.authoritative)
  }

  ghost predicate PcValid(s: System) {
    Valid(s.ring) &&
    match s.pc
    case HaveTail(tail) => tail == s.ring.tail
    case NotEmpty(tail) => tail == s.ring.tail && tail != s.ring.head
    case HavePacked(tail, packed) => tail == s.ring.tail && tail != s.ring.head && packed == s.ring.slots[tail]
    case _ => true
  }

  function Stepped(s: System, e: Event): System
    requires PcValid(s) && Enabled(s, e)
  {
    match e
    case Dispatch(writes, save) =>
      s.(ring := PushedAll(s.ring, writes), authoritative := Replay(writes, s.authoritative),
         saveFlag := s.saveFlag || save)
    case PopStep => PopStepped(s)
    case Snapshot => Snapshotted(s)
    case ClaimSave => Snapshotted(s).(saveFlag := false, claimed := s.authoritative, pc := Saving)
    case FlashWrite => s.(flash := s.main, pc := Idle)
  }

  /** A byte already popped but not yet applied. */
  function InFlight(s: System): seq<Write> { if s.pc.Popped? then [s.pc.w] else [] }

  /** Replaying what is in flight and queued onto main's copy gives the
      authoritative bytes, unless the overflow flag is up. */
  ghost predicate Agrees(s: System) {
    PcValid(s) &&
    (!s.ring.overflow ==> Replay(InFlight(s) + Contents(s.ring), s.main) == s.authoritative) &&
    (s.pc.Saving? ==> s.main == s.claimed)
  }

  lemma SlotKept(r: Ring, ws: seq<Write>, k: nat)
    requires Valid(r) && r.tail != r.head && k == r.tail
    ensures PushedAll(r, ws).tail != PushedAll(r, ws).head && PushedAll(r, ws).slots[k] == r.slots[k]
    ensures PushedAll(r, ws).tail == r.tail
    decreases |ws|
  {
    if ws != [] { SlotKept(r, ws[..|ws| - 1], k); }
  }

  lemma DispatchKeepsPc(s: System, writes: seq<Write>, save: bool)
    requires PcValid(s)
    ensures PcValid(Stepped(s, Dispatch(writes, save)))
  {
    if s.ring.tail != s.ring.head {
      SlotKept(s.ring, writes, s.ring.tail);
    } else {
      PushAll(s.ring, writes);
    }
  }

  lemma DispatchAgrees(s: System, writes: seq<Write>, save: bool)
    requires Agrees(s)
    ensures Agrees(Stepped(s, Dispatch(writes, save)))
  {
    hide Replay;
    hide PushedAll;
    hide Length;
    hide Put;
    hide Contents;
    var t := Stepped(s, Dispatch(writes, save));
    DispatchKeepsPc(s, writes, save);
    PushAll(s.ring, writes);
    if !t.ring.overflow {
      var held := InFlight(s) + Contents(s.ring);
      ReplayAppends(held, writes, s.main);
      assert InFlight(t) + Contents(t.ring) == held + writes;
    }
  }

  lemma PopAgrees(s: System)
    requires Agrees(s) && !s.pc.Saving?
    ensures Agrees(Stepped(s, PopStep))
  {
    var t := Stepped(s, PopStep);
    match s.pc
    case HavePacked(tail, packed) =>
      PopRemoves(s.ring);
      assert InFlight(s) + Contents(s.ring) == InFlight(t) + Contents(t.ring);
    case Popped(w) =>
      ReplayAppends([w], Contents(s.ring), s.main);
      assert [w][..0] == [];
      assert Replay([w], s.main) == Put(s.main, w);
      assert InFlight(t) + Contents(t.ring) == Contents(s.ring);
    case _ =>
  }

  lemma StepAgrees(s: System, e: Event)
    requires Agrees(s) && Enabled(s, e)
    ensures Agrees(Stepped(s, e))
  {
    match e
    case Dispatch(writes, save) => DispatchAgrees(s, writes, save);
    case PopStep => PopAgrees(s);
    case _ =>
  }

  /** At power-on both copies are the stored bytes. */
  ghost predicate Initial(s: System) {
    Valid(s.ring) && Contents(s.ring) == [] && !s.ring.overflow && s.pc.Idle? && !s.saveFlag &&
    s.main == s.authoritative
  }

  /** Every interleaving: a run is a sequence of events, each enabled when it happens.
      That main's loaded tail stays current is proved, not required. */
  ghost predicate Run(states: seq<System>, events: seq<Event>) {
    |states| == |events| + 1 &&
    forall i :: 0 <= i < |events| && PcValid(states[i]) ==>
      Enabled(states[i], events[i]) && states[i + 1] == Stepped(states[i], events[i])
  }

  /** In every interleaving of dispatches with main's separate loads and stores,
      main's copy with the in-flight and queued bytes replayed is the
      authoritative configuration whenever the overflow flag is clear. */
  lemma {:induction false} ReplicaAgreement(states: seq<System>, events: seq<Event>, n: nat)
    requires Run(states, events) && Initial(states[0]) && n < |states|
    ensures Agrees(states[n])
  {
    if n > 0 {
      ReplicaAgreement(states, events, n - 1);
      StepAgrees(states[n - 1], events[n - 1]);
    } else {
      assert InFlight(states[0]) + Contents(states[0].ring) == [];
    }
  }

  /** So main reads the authoritative bytes whenever it is between pops with an
      empty queue and a clear flag, and always after a masked snapshot. */
  lemma MainReadsAuthoritative(states: seq<System>, events: seq<Event>, n: nat)
    requires Run(states, events) && Initial(states[0]) && n < |states|
    ensures Valid(states[n].ring)
    ensures states[n].pc.Idle? && Length(states[n].ring) == 0 && !states[n].ring.overflow ==>
      states[n].main == states[n].authoritative
    ensures n > 0 && (events[n - 1].Snapshot? || events[n - 1].ClaimSave?) ==>
      states[n].main == states[n].authoritative && !states[n].ring.overflow && Length(states[n].ring) == 0
  {
    ReplicaAgreement(states, events, n);
    if n > 0 { ReplicaAgreement(states, events, n - 1); }
    if states[n].pc.Idle? && Length(states[n].ring) == 0 {
      assert InFlight(states[n]) + Contents(states[n].ring) == [];
    }
  }

  /** The flag goes up exactly when one dispatch offers more bytes than fit. */
  lemma OverflowExactly(s: System, writes: seq<Write>, save: bool)
    requires PcValid(s)
    ensures Stepped(s, Dispatch(writes, save)).ring.overflow <==>
      s.ring.overflow || Length(s.ring) + |writes| > CAPACITY
  {
    PushAll(s.ring, writes);
  }

  /** A command's offered changes carry the authoritative bytes from the old
      configuration to the new one. */
  lemma OfferedChangesCarryConfig(s: System, new_: Config, save: bool)
    requires PcValid(s)
    ensures Stepped(s, Dispatch(Changes(s.authoritative, new_, CONFIG_SIZE), save)).authoritative == new_
  {
    ChangesReplay(s.authoritative, new_, CONFIG_SIZE);
    assert Replay(Changes(s.authoritative, new_, CONFIG_SIZE), s.authoritative) == new_;
  }

  // ----- saving -----

  ghost predicate PendingRequest(events: seq<Event>, n: nat)
    requires n <= |events|
  {
    exists m: nat :: m < n && events[m].Dispatch? && events[m].save && (forall k :: m < k < n ==> !events[k].ClaimSave?)
  }

  /** The save flag is up exactly while some request has not been claimed: one made
      after a claim, even before its flash write, stays pending for the next. */
  lemma {:induction false} SaveFlagIsPendingRequest(states: seq<System>, events: seq<Event>, n: nat)
    requires Run(states, events) && Initial(states[0]) && n < |states|
    ensures states[n].saveFlag <==> PendingRequest(events, n)
  {
    if n > 0 {
      var e := events[n - 1];
      ReplicaAgreement(states, events, n - 1);
      SaveFlagIsPendingRequest(states, events, n - 1);
      if PendingRequest(events, n - 1) && !e.ClaimSave? {
        var m: nat :| m < n - 1 && events[m].Dispatch? && events[m].save &&
          (forall k :: m < k < n - 1 ==> !events[k].ClaimSave?);
        assert forall k :: m < k < n ==> !events[k].ClaimSave?;
      }
      if e.Dispatch? && e.save { assert PendingRequest(events, n); }
    }
  }

  ghost predicate ClaimedAt(states: seq<System>, events: seq<Event>, n: nat, c: nat)
    requires Run(states, events) && n < |states|
  {
    c < n && events[c].ClaimSave? && states[n].claimed == states[c].authoritative &&
    forall k :: c < k < n ==> events[k].Dispatch?
  }

  lemma {:induction false} SavingSinceClaim(states: seq<System>, events: seq<Event>, n: nat)
    requires Run(states, events) && Initial(states[0]) && n < |states|
    ensures states[n].pc.Saving? ==> exists c: nat :: ClaimedAt(states, events, n, c)
  {
    if n > 0 && states[n].pc.Saving? {
      ReplicaAgreement(states, events, n - 1);
      if events[n - 1].ClaimSave? {
        assert ClaimedAt(states, events, n, n - 1);
      } else {
        SavingSinceClaim(states, events, n - 1);
        var c: nat :| ClaimedAt(states, events, n - 1, c);
        assert events[n - 1].Dispatch?;
        assert ClaimedAt(states, events, n, c);
      }
    }
  }

  /** What reaches flash is the authoritative configuration as it was at the claim,
      whatever was dispatched while the write was in progress. */
  lemma FlashHoldsClaimedBytes(states: seq<System>, events: seq<Event>, n: nat)
    requires Run(states, events) && Initial(states[0]) && n < |events| && events[n].FlashWrite?
    ensures exists c: nat :: ClaimedAt(states, events, n, c) && states[n + 1].flash == states[c].authoritative
  {
    ReplicaAgreement(states, events, n);
    SavingSinceClaim(states, events, n);
    var c: nat :| ClaimedAt(states, events, n, c);
  }
}
