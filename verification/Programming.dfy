/** What a whole history of dispatched frames can do to the configuration
    (rm32/src/dshot_commands.rs, rm32/src/transfer.rs). */
module Programming {
  import opened Words
  import Dshot
  import opened Transfer
  import opened Commands

  datatype Event = Event(action: Action, armed: bool, running: bool)

  /** Frames as the decoder yields them: values 1 to 47 are commands. */
  predicate IsDecoded(action: Action) {
    (action.DshotCommand? ==> 1 <= action.cmd <= 47) && (action.DshotThrottle? ==> !(1 <= action.value <= 47))
  }

  ghost predicate AllDecoded(h: seq<Event>) { forall i :: 0 <= i < |h| ==> IsDecoded(h[i].action) }

  lemma DecoderYieldsDecoded(packet: U16, bidirectional: bool)
    ensures IsDecoded(FrameAction(Dshot.Unpack(packet, bidirectional)))
  {
  }

  predicate Gate(e: Event) { e.armed && !e.running }

  /** The value a decoded frame carries. */
  function Data(e: Event): Option<U16> {
    match e.action
    case DshotThrottle(value, _) => Some(value)
    case DshotCommand(cmd, _) => Some(cmd)
    case _ => None
  }

  function Next(w: World, e: Event, edtArmEnable: bool): World { Dispatched(w, e.action, Gate(e), edtArmEnable) }

  function After(w: World, en: bool, h: seq<Event>): World {
    if h == [] then w else Next(After(w, en, h[..|h| - 1]), h[|h| - 1], en)
  }

  // ----- one frame -----

  predicate SameTarget(w: World, v: World) { v.target.config == w.target.config && v.out.offered == w.out.offered }

  predicate SameCounting(w: World, v: World) { v.proc.count == w.proc.count && v.proc.last == w.proc.last }

  predicate SameSequence(w: World, v: World) {
    v.proc.mode == w.proc.mode && v.proc.position == w.proc.position && v.proc.newByte == w.proc.newByte
  }

  lemma NoChanges(c: Config, n: nat)
    requires n <= CONFIG_SIZE
    ensures Changes(c, c, n) == []
  {
    ChangesAreExact(c, c, n);
    if Changes(c, c, n) != [] { assert Changes(c, c, n)[0] in Changes(c, c, n); }
  }

  lemma OneChange(c: Config, p: nat, b: U8)
    requires p < CONFIG_SIZE
    ensures Changes(c, c[p := b], CONFIG_SIZE) == if c[p] == b then [] else [(p, b)]
  {
    if c[p] == b {
      assert c[p := b] == c;
      NoChanges(c, CONFIG_SIZE);
    } else {
      var changes := Changes(c, c[p := b], CONFIG_SIZE);
      ChangesAreExact(c, c[p := b], CONFIG_SIZE);
      forall i | 0 <= i < |changes|
        ensures changes[i] == (p, b)
      {
        assert changes[i] in changes;
      }
      if |changes| > 1 { ChangesAscend(c, c[p := b], CONFIG_SIZE, 0, 1); }
      assert (p, b) in changes;
      assert changes == [(p, b)];
    }
  }

  /** While a sequence is pending, a frame with its gate closed ends it and one
      with its gate open feeds it; either way no throttle is published. */
  lemma PendingStep(w: World, e: Event, en: bool)
    requires w.proc.mode > 0
    ensures var v := Next(w, e, en);
      if Gate(e) && Data(e).Some? then Fed(w, v, Data(e).value)
      else
        SameCounting(w, v) && SameTarget(w, v) && v.out.newinput == (if Data(e).Some? then 0 else w.out.newinput) &&
        (if Gate(e) then SameSequence(w, v) else v.proc.mode == 0)
  {
    hide Fed;
    hide Applied;
    if Gate(e) && Data(e).Some? {
      var zeroed := w.(out := w.out.(newinput := 0));
      FeedZeroed(zeroed, Data(e).value, en);
      if e.action.DshotCommand? {
        var heard := zeroed.(out := zeroed.out.(heard := w.out.heard + [e.action.cmd]));
        FeedZeroed(Noted(heard, e.action.telemetry), Data(e).value, en);
        var noted := Noted(heard, e.action.telemetry);
        FedFrom(w, noted, Applied(noted, Data(e).value, true, en), Data(e).value);
      } else {
        FedFrom(w, zeroed, Noted(Applied(zeroed, Data(e).value, true, en), e.action.telemetry), Data(e).value);
      }
    }
  }

  /** `v` is `w` after one programming byte. */
  predicate Fed(w: World, v: World, value: U16) {
    var step := Programmed(w.proc, w.target, value);
    SameCounting(w, v) && v.out.newinput == 0 &&
    v.proc.mode == step.proc.mode && v.proc.position == step.proc.position && v.proc.newByte == step.proc.newByte &&
    v.target.config == step.target.config &&
    v.out.offered == w.out.offered + Changes(w.target.config, step.target.config, CONFIG_SIZE)
  }

  lemma FeedZeroed(w: World, value: U16, en: bool)
    requires w.proc.mode > 0 && w.out.newinput == 0
    ensures Fed(w, Applied(w, value, true, en), value)
  {
    hide Changes;
  }

  lemma FedFrom(w: World, u: World, v: World, value: U16)
    requires u.proc == w.proc && u.target == w.target && u.out.offered == w.out.offered
    requires Fed(u, v, value) || (exists t: bool, x: World :: Fed(u, x, value) && v == Noted(x, t))
    ensures Fed(w, v, value)
  {
    hide Programmed;
    hide Changes;
  }

  lemma IdleCommand(w: World, cmd: U16, en: bool)
    requires w.proc.mode == 0
    ensures var v, step := Applied(w, cmd, true, en), Processed(w.proc, w.target, cmd, true, en);
      v.proc.count == step.proc.count && v.proc.last == step.proc.last && v.proc.mode == step.proc.mode &&
      v.target.config == step.target.config && v.out.newinput == w.out.newinput &&
      v.out.offered == w.out.offered + Changes(w.target.config, step.target.config, CONFIG_SIZE)
  {
    hide Changes;
    hide Processed;
  }

  lemma ClosedGate(w: World, cmd: U16, en: bool)
    requires w.proc.mode == 0
    ensures var v := Applied(w, cmd, false, en);
      SameCounting(w, v) && SameSequence(w, v) && SameTarget(w, v)
  {
    hide Changes;
    NoChanges(w.target.config, CONFIG_SIZE);
    assert w.out.offered + [] == w.out.offered;
  }

  lemma IdleStep(w: World, e: Event, en: bool)
    requires w.proc.mode == 0
    ensures var v := Next(w, e, en);
      if Gate(e) && e.action.DshotCommand? then
        var step := Processed(w.proc, w.target, e.action.cmd, true, en);
        v.proc.count == step.proc.count && v.proc.last == step.proc.last && v.proc.mode == step.proc.mode &&
        v.target.config == step.target.config && v.out.newinput == 0 &&
        v.out.offered == w.out.offered + Changes(w.target.config, step.target.config, CONFIG_SIZE)
      else SameCounting(w, v) && SameSequence(w, v) && SameTarget(w, v)
  {
    hide Applied;
    hide Processed;
    hide Changes;
    if e.action.DshotCommand? && Gate(e) {
      var heard := w.(out := w.out.(newinput := 0, heard := w.out.heard + [e.action.cmd]));
      IdleCommand(Noted(heard, e.action.telemetry), e.action.cmd, en);
    } else if e.action.DshotCommand? {
      var heard := w.(out := w.out.(newinput := 0, heard := w.out.heard + [e.action.cmd]));
      ClosedGate(Noted(heard, e.action.telemetry), e.action.cmd, en);
    }
  }

  // ----- reading a programming sequence off the history -----

  /** A command the idle processor takes. */
  predicate AcceptsCommand(w: World, en: bool, before: seq<Event>, e: Event) {
    After(w, en, before).proc.mode == 0 && Gate(e) && e.action.DshotCommand?
  }

  /** How many of the latest accepted commands are 36, since programming last ended. */
  function Accepted36(w: World, en: bool, h: seq<Event>): nat {
    if h == [] || After(w, en, h).proc.mode > 0 then 0
    else
      var before, e := h[..|h| - 1], h[|h| - 1];
      if !AcceptsCommand(w, en, before, e) then Accepted36(w, en, before)
      else if e.action.cmd == PROGRAMMING_MODE then Accepted36(w, en, before) + 1 else 0
  }

  /** Frame `i` is the sixth accepted 36 in a row. */
  ghost predicate Entry(w: World, en: bool, h: seq<Event>, i: nat) {
    i < |h| && AcceptsCommand(w, en, h[..i], h[i]) && h[i].action.cmd == PROGRAMMING_MODE &&
    Accepted36(w, en, h[..i]) == 5
  }

  /** From `a` up to `b`: gate open, nothing decoded. */
  ghost predicate Quiet(h: seq<Event>, a: nat, b: nat) {
    forall m :: a <= m < b && m < |h| ==> Gate(h[m]) && Data(h[m]).None?
  }

  ghost predicate ReadPosition(w: World, en: bool, h: seq<Event>, i: nat, j: nat, p: U16) {
    Entry(w, en, h, i) && i < j < |h| && Quiet(h, i + 1, j) && Gate(h[j]) && Data(h[j]) == Some(p)
  }

  ghost predicate ReadValue(w: World, en: bool, h: seq<Event>, i: nat, j: nat, k: nat, p: U16, v: U16) {
    ReadPosition(w, en, h, i, j, p) && j < k < |h| && Quiet(h, j + 1, k) && Gate(h[k]) && Data(h[k]) == Some(v)
  }

  /** From `a` on: gate open, no 37. */
  ghost predicate Waiting(h: seq<Event>, a: nat) {
    forall m :: a <= m < |h| ==> Gate(h[m]) && Data(h[m]) != Some(PROGRAMMING_COMMIT)
  }

  ghost predicate WantsPosition(w: World, en: bool, h: seq<Event>) {
    exists i: nat :: Entry(w, en, h, i) && Quiet(h, i + 1, |h|)
  }

  ghost predicate WantsValue(w: World, en: bool, h: seq<Event>, p: U16) {
    exists i: nat, j: nat :: ReadPosition(w, en, h, i, j, p) && Quiet(h, j + 1, |h|)
  }

  ghost predicate WantsCommit(w: World, en: bool, h: seq<Event>, p: U16, b: U8) {
    exists i: nat, j: nat, k: nat, v: U16 ::
      ReadValue(w, en, h, i, j, k, p, v) && b == Wrap8(v) && Waiting(h, k + 1)
  }

  /** The processor's registers say exactly this of the history. */
  ghost predicate Explained(w: World, en: bool, h: seq<Event>) {
    var s := After(w, en, h);
    s.proc.mode <= 3 && s.proc.count < 6 &&
    (s.proc.mode == 0 ==> Accepted36(w, en, h) == if s.proc.last == PROGRAMMING_MODE then s.proc.count else 0) &&
    (s.proc.mode > 0 ==> s.proc.count == 0 && s.proc.last == PROGRAMMING_MODE && s.out.newinput == 0) &&
    (s.proc.mode == 1 ==> WantsPosition(w, en, h)) &&
    (s.proc.mode == 2 ==> WantsValue(w, en, h, s.proc.position)) &&
    (s.proc.mode == 3 ==> WantsCommit(w, en, h, s.proc.position, s.proc.newByte))
  }

  /** A fresh processor. */
  predicate Fresh(w: World) { w.proc.mode == 0 && w.proc.count == 0 && w.proc.last != PROGRAMMING_MODE }

  lemma EntryStays(w: World, en: bool, h: seq<Event>, e: Event, i: nat)
    requires Entry(w, en, h, i)
    ensures Entry(w, en, h + [e], i)
  {
    assert (h + [e])[..i] == h[..i];
  }

  lemma PositionStays(w: World, en: bool, h: seq<Event>, e: Event, i: nat, j: nat, p: U16)
    requires ReadPosition(w, en, h, i, j, p)
    ensures ReadPosition(w, en, h + [e], i, j, p)
  {
    hide Accepted36;
    EntryStays(w, en, h, e, i);
  }

  lemma ValueStays(w: World, en: bool, h: seq<Event>, e: Event, i: nat, j: nat, k: nat, p: U16, v: U16)
    requires ReadValue(w, en, h, i, j, k, p, v)
    ensures ReadValue(w, en, h + [e], i, j, k, p, v)
  {
    hide Entry;
    PositionStays(w, en, h, e, i, j, p);
  }

  lemma Unfold(w: World, en: bool, h: seq<Event>, e: Event)
    ensures After(w, en, h + [e]) == Next(After(w, en, h), e, en)
  {
    assert (h + [e])[..|h|] == h;
  }

  lemma AcceptedStep(w: World, en: bool, h: seq<Event>, e: Event)
    requires After(w, en, h).proc.mode == 0
    ensures Accepted36(w, en, h + [e]) ==
      if After(w, en, h + [e]).proc.mode > 0 then 0
      else if !(Gate(e) && e.action.DshotCommand?) then Accepted36(w, en, h)
      else if e.action.cmd == PROGRAMMING_MODE then Accepted36(w, en, h) + 1 else 0
  {
    hide Next;
    assert (h + [e])[..|h|] == h;
  }

  lemma EnteredNow(w: World, en: bool, h: seq<Event>, e: Event)
    requires AcceptsCommand(w, en, h, e) && e.action.cmd == PROGRAMMING_MODE && Accepted36(w, en, h) == 5
    ensures WantsPosition(w, en, h + [e])
  {
    hide Next;
    hide Accepted36;
    assert (h + [e])[..|h|] == h;
    assert Entry(w, en, h + [e], |h|) && Quiet(h + [e], |h| + 1, |h| + 1);
  }

  /** Counting while idle. */
  lemma ExplainedIdle(w: World, en: bool, h: seq<Event>, e: Event)
    requires Explained(w, en, h) && After(w, en, h).proc.mode == 0 && IsDecoded(e.action)
    ensures Explained(w, en, h + [e])
  {
    hide Next;
    hide Effect;
    hide Changes;
    hide Accepted36;
    hide After;
    hide WantsPosition;
    hide WantsValue;
    hide WantsCommit;
    var s := After(w, en, h);
    IdleStep(s, e, en);
    Unfold(w, en, h, e);
    AcceptedStep(w, en, h, e);
    if After(w, en, h + [e]).proc.mode > 0 { EnteredNow(w, en, h, e); }
  }

  lemma ExplainedPending(w: World, en: bool, h: seq<Event>, e: Event)
    requires Explained(w, en, h) && After(w, en, h).proc.mode > 0
    ensures Explained(w, en, h + [e])
  {
    hide Next;
    hide Changes;
    hide Entry;
    hide ReadPosition;
    hide ReadValue;
    var s, g := After(w, en, h), h + [e];
    PendingStep(s, e, en);
    Unfold(w, en, h, e);
    assert g[..|h|] == h && g[|h|] == e;
    if Gate(e) { PendingWitness(w, en, h, e); }
    assert Accepted36(w, en, h) == 0;
  }

  /** The witnesses of a pending sequence after one more gated frame. */
  lemma PendingWitness(w: World, en: bool, h: seq<Event>, e: Event)
    requires Explained(w, en, h) && After(w, en, h).proc.mode > 0 && Gate(e)
    ensures var mode, s, g := After(w, en, h).proc.mode, After(w, en, h), h + [e];
      if Data(e).None? then
        (mode == 1 ==> WantsPosition(w, en, g)) &&
        (mode == 2 ==> WantsValue(w, en, g, s.proc.position)) &&
        (mode == 3 ==> WantsCommit(w, en, g, s.proc.position, s.proc.newByte))
      else
        (mode == 1 ==> WantsValue(w, en, g, Data(e).value)) &&
        (mode == 2 ==> WantsCommit(w, en, g, s.proc.position, Wrap8(Data(e).value))) &&
        (mode == 3 && Data(e).value != PROGRAMMING_COMMIT ==> WantsCommit(w, en, g, s.proc.position, s.proc.newByte))
  {
    hide Entry;
    hide After;
    hide Accepted36;
    hide Changes;
    var s, g := After(w, en, h), h + [e];
    if s.proc.mode == 1 {
      var i: nat :| Entry(w, en, h, i) && Quiet(h, i + 1, |h|);
      EntryInside(w, en, h, i);
      EntryStays(w, en, h, e, i);
      if Data(e).None? {
        assert Quiet(g, i + 1, |g|);
      } else {
        assert ReadPosition(w, en, g, i, |h|, Data(e).value) && Quiet(g, |h| + 1, |g|);
      }
    } else if s.proc.mode == 2 {
      var p := s.proc.position;
      var i: nat, j: nat :| ReadPosition(w, en, h, i, j, p) && Quiet(h, j + 1, |h|);
      PositionStays(w, en, h, e, i, j, p);
      if Data(e).None? {
        assert Quiet(g, j + 1, |g|);
      } else {
        assert ReadValue(w, en, g, i, j, |h|, p, Data(e).value) && Waiting(g, |h| + 1);
      }
    } else {
      var p, b := s.proc.position, s.proc.newByte;
      var i: nat, j: nat, k: nat, v: U16 :| ReadValue(w, en, h, i, j, k, p, v) && b == Wrap8(v) && Waiting(h, k + 1);
      ValueStays(w, en, h, e, i, j, k, p, v);
      if Data(e) != Some(PROGRAMMING_COMMIT) { assert Waiting(g, k + 1); }
    }
  }

  lemma EntryInside(w: World, en: bool, h: seq<Event>, i: nat)
    requires Entry(w, en, h, i)
    ensures i < |h|
  {
  }

  lemma FreshExplained(w: World, en: bool)
    requires Fresh(w)
    ensures Explained(w, en, [])
  {
  }

  lemma {:induction false} HistoryExplains(w: World, en: bool, h: seq<Event>)
    requires Fresh(w) && AllDecoded(h)
    ensures Explained(w, en, h)
  {
    hide Explained;
    hide Next;
    if h == [] {
      FreshExplained(w, en);
    } else {
      var before, e := h[..|h| - 1], h[|h| - 1];
      HistoryExplains(w, en, before);
      assert before + [e] == h;
      if After(w, en, before).proc.mode == 0 {
        ExplainedIdle(w, en, before, e);
      } else {
        ExplainedPending(w, en, before, e);
      }
    }
  }

  // ----- and the history says exactly what the registers hold -----

  /** A sequence read off the history is what the registers hold. */
  ghost predicate Tracked(w: World, en: bool, h: seq<Event>) {
    var s := After(w, en, h);
    (WantsPosition(w, en, h) ==> s.proc.mode == 1) &&
    (forall p: U16 :: WantsValue(w, en, h, p) ==> s.proc.mode == 2 && s.proc.position == p) &&
    (forall p: U16, b: U8 :: WantsCommit(w, en, h, p, b) ==>
      s.proc.mode == 3 && s.proc.position == p && s.proc.newByte == b)
  }

  lemma EntryBefore(w: World, en: bool, h: seq<Event>, e: Event, i: nat)
    requires Entry(w, en, h + [e], i) && i < |h|
    ensures Entry(w, en, h, i)
  {
    hide Accepted36;
    hide After;
    assert (h + [e])[..i] == h[..i];
  }

  /** The sixth 36 opens the sequence. */
  lemma EntryOpens(w: World, en: bool, h: seq<Event>, e: Event)
    requires Explained(w, en, h) && Entry(w, en, h + [e], |h|)
    ensures After(w, en, h + [e]).proc.mode == 1
  {
    hide Next;
    hide After;
    hide Accepted36;
    hide Effect;
    hide Changes;
    assert (h + [e])[..|h|] == h && (h + [e])[|h|] == e;
    Unfold(w, en, h, e);
    IdleStep(After(w, en, h), e, en);
  }

  lemma PositionTracked(w: World, en: bool, h: seq<Event>, e: Event)
    requires Tracked(w, en, h) && Explained(w, en, h)
    ensures WantsPosition(w, en, h + [e]) ==> After(w, en, h + [e]).proc.mode == 1
  {
    hide Next;
    hide After;
    hide Accepted36;
    hide AcceptsCommand;
    hide Changes;
    var g := h + [e];
    assert g[|h|] == e;
    if WantsPosition(w, en, g) {
      var i: nat :| Entry(w, en, g, i) && Quiet(g, i + 1, |g|);
      if i == |h| {
        EntryOpens(w, en, h, e);
      } else {
        EntryBefore(w, en, h, e, i);
        QuietBefore(h, e, i + 1);
        assert WantsPosition(w, en, h);
        PendingStep(After(w, en, h), e, en);
        Unfold(w, en, h, e);
      }
    }
  }

  lemma QuietBefore(h: seq<Event>, e: Event, a: nat)
    requires Quiet(h + [e], a, |h| + 1) && a <= |h|
    ensures Quiet(h, a, |h|) && Gate(e) && Data(e).None?
  {
    assert (h + [e])[|h|] == e;
    forall m | a <= m < |h|
      ensures Gate(h[m]) && Data(h[m]).None?
    {
      assert (h + [e])[m] == h[m];
    }
  }

  lemma ReadBefore(w: World, en: bool, h: seq<Event>, e: Event, i: nat, j: nat, p: U16)
    requires ReadPosition(w, en, h + [e], i, j, p)
    ensures j < |h| ==> ReadPosition(w, en, h, i, j, p)
    ensures j == |h| ==> Entry(w, en, h, i) && Quiet(h, i + 1, |h|) && Gate(e) && Data(e) == Some(p)
  {
    hide Accepted36;
    hide AcceptsCommand;
    EntryBefore(w, en, h, e, i);
    var g := h + [e];
    forall m | i + 1 <= m < j && m < |h|
      ensures Gate(h[m]) && Data(h[m]).None?
    {
      assert g[m] == h[m];
    }
  }

  lemma ValueTracked(w: World, en: bool, h: seq<Event>, e: Event, p: U16)
    requires Tracked(w, en, h) && WantsValue(w, en, h + [e], p)
    ensures After(w, en, h + [e]).proc.mode == 2 && After(w, en, h + [e]).proc.position == p
  {
    hide Next;
    hide After;
    hide Entry;
    hide Changes;
    var g := h + [e];
    var i: nat, j: nat :| ReadPosition(w, en, g, i, j, p) && Quiet(g, j + 1, |g|);
    ReadBefore(w, en, h, e, i, j, p);
    if j < |h| {
      QuietBefore(h, e, j + 1);
      assert WantsValue(w, en, h, p);
    } else {
      assert WantsPosition(w, en, h);
    }
    PendingStep(After(w, en, h), e, en);
    Unfold(w, en, h, e);
  }

  lemma CommitTracked(w: World, en: bool, h: seq<Event>, e: Event, p: U16, b: U8)
    requires Tracked(w, en, h) && WantsCommit(w, en, h + [e], p, b)
    ensures var s := After(w, en, h + [e]); s.proc.mode == 3 && s.proc.position == p && s.proc.newByte == b
  {
    hide Next;
    hide After;
    hide Entry;
    hide Changes;
    var g := h + [e];
    var i: nat, j: nat, k: nat, v: U16 :| ReadValue(w, en, g, i, j, k, p, v) && b == Wrap8(v) && Waiting(g, k + 1);
    ReadBefore(w, en, h, e, i, j, p);
    assert g[|h|] == e;
    forall m | j + 1 <= m < |h|
      ensures g[m] == h[m]
    {
    }
    if k < |h| {
      assert ReadValue(w, en, h, i, j, k, p, v) && Waiting(h, k + 1);
      assert WantsCommit(w, en, h, p, b);
    } else {
      assert ReadPosition(w, en, h, i, j, p) && Quiet(h, j + 1, |h|);
      assert WantsValue(w, en, h, p);
    }
    PendingStep(After(w, en, h), e, en);
    Unfold(w, en, h, e);
  }

  /** After any history a sequence is pending, with that position and value, exactly when
      the history holds one that nothing has ended. */
  lemma PendingExactly(w: World, en: bool, h: seq<Event>)
    requires Fresh(w) && AllDecoded(h)
    ensures Tracked(w, en, h)
    ensures After(w, en, h).proc.mode > 0 <==>
      WantsPosition(w, en, h) || (exists p: U16 :: WantsValue(w, en, h, p)) ||
      exists p: U16, b: U8 :: WantsCommit(w, en, h, p, b)
  {
    HistoryTracked(w, en, h);
    HistoryExplains(w, en, h);
    hide After;
    hide WantsPosition;
    hide WantsValue;
    hide WantsCommit;
  }

  lemma {:induction false} HistoryTracked(w: World, en: bool, h: seq<Event>)
    requires Fresh(w) && AllDecoded(h)
    ensures Tracked(w, en, h)
  {
    hide After;
    hide Explained;
    hide WantsPosition;
    hide WantsValue;
    hide WantsCommit;
    if h == [] {
      NothingPending(w, en);
    } else {
      var before, e := h[..|h| - 1], h[|h| - 1];
      HistoryTracked(w, en, before);
      HistoryExplains(w, en, before);
      assert before + [e] == h;
      PositionTracked(w, en, before, e);
      forall p: U16 | WantsValue(w, en, h, p)
        ensures After(w, en, h).proc.mode == 2 && After(w, en, h).proc.position == p
      {
        ValueTracked(w, en, before, e, p);
      }
      forall p: U16, b: U8 | WantsCommit(w, en, h, p, b)
        ensures var s := After(w, en, h); s.proc.mode == 3 && s.proc.position == p && s.proc.newByte == b
      {
        CommitTracked(w, en, before, e, p, b);
      }
    }
  }

  lemma NothingPending(w: World, en: bool)
    ensures Tracked(w, en, [])
  {
    hide Accepted36;
    hide AcceptsCommand;
  }

  // ----- main results -----

  /** Frame `e` is the 37 that ends a complete sequence writing `v` to byte `p`. */
  ghost predicate Commits(w: World, en: bool, h: seq<Event>, e: Event, p: U16, v: U16) {
    Gate(e) && Data(e) == Some(PROGRAMMING_COMMIT) &&
    exists i: nat, j: nat, k: nat :: ReadValue(w, en, h, i, j, k, p, v) && Waiting(h, k + 1)
  }

  /** A direction or bidirectional command taken while idle. */
  predicate ChangesDirection(w: World, en: bool, h: seq<Event>, e: Event) {
    AcceptsCommand(w, en, h, e) && 7 <= e.action.cmd <= 10
  }

  /** Commands 7 and 9 clear, 8 and 10 set, the direction or the bidirectional byte. */
  function DirectionWritten(config: Config, cmd: U16): Config {
    config[(if cmd <= 8 then DIR_REVERSED else BI_DIRECTION) := if cmd % 2 == 1 then 0 else 1]
  }

  /** What frame `e` does to the configuration after `h`: it offers exactly the changed
      bytes, and changes nothing, or one byte as a direction command, or the byte a
      sequence read off the history names, to that value modulo 256. */
  ghost predicate ChangeExplained(w: World, en: bool, h: seq<Event>, e: Event) {
    var s, t := After(w, en, h), After(w, en, h + [e]);
    t.out.offered == s.out.offered + Changes(s.target.config, t.target.config, CONFIG_SIZE) &&
    (t.target.config == s.target.config ||
     (ChangesDirection(w, en, h, e) && t.target.config == DirectionWritten(s.target.config, e.action.cmd)) ||
     (exists p: U16, v: U16 :: p < CONFIG_SIZE && Commits(w, en, h, e, p, v) &&
        t.target.config == s.target.config[p := Wrap8(v)] &&
        t.out.offered == s.out.offered + [(p, Wrap8(v))]))
  }

  /** After any history, a frame changes the configuration only as a direction
      command, in its own byte, or as the commit of a sequence read off the
      history: six accepted 36s, a position below 192, a value, then 37, with the
      gate open at every frame since the sixth 36. */
  lemma ConfigChangesOnlyBySequence(w: World, en: bool, h: seq<Event>, e: Event)
    requires Fresh(w) && AllDecoded(h) && IsDecoded(e.action)
    ensures ChangeExplained(w, en, h, e)
  {
    var s := After(w, en, h);
    Unfold(w, en, h, e);
    HistoryExplains(w, en, h);
    if s.proc.mode == 0 { IdleChange(s, e, en); } else { PendingChange(w, en, h, e); }
  }

  /** A packet as it reaches the dispatch. */
  datatype Received = Received(packet: U16, bidirectional: bool, armed: bool, running: bool)

  function Dispatching(r: Received): Event {
    Event(FrameAction(Dshot.Unpack(r.packet, r.bidirectional)), r.armed, r.running)
  }

  function DispatchingAll(received: seq<Received>): (h: seq<Event>)
    ensures |h| == |received|
  {
    seq(|received|, i requires 0 <= i < |received| => Dispatching(received[i]))
  }

  /** So for every sequence of packets whatever, under either checksum: nothing need
      be assumed of the frames. */
  lemma PacketsChangeConfigOnlyBySequence(w: World, en: bool, received: seq<Received>, next: Received)
    requires Fresh(w)
    ensures ChangeExplained(w, en, DispatchingAll(received), Dispatching(next))
  {
    hide ChangeExplained;
    hide Fresh;
    forall i | 0 <= i < |received|
      ensures IsDecoded(DispatchingAll(received)[i].action)
    {
      DecoderYieldsDecoded(received[i].packet, received[i].bidirectional);
    }
    DecoderYieldsDecoded(next.packet, next.bidirectional);
    ConfigChangesOnlyBySequence(w, en, DispatchingAll(received), Dispatching(next));
  }

  lemma IdleChange(s: World, e: Event, en: bool)
    requires s.proc.mode == 0 && IsDecoded(e.action)
    ensures var t := Next(s, e, en);
      t.out.offered == s.out.offered + Changes(s.target.config, t.target.config, CONFIG_SIZE) &&
      (t.target.config == s.target.config ||
       (Gate(e) && e.action.DshotCommand? && 7 <= e.action.cmd <= 10 && 
        t.target.config == DirectionWritten(s.target.config, e.action.cmd)))
  {
    hide Next;
    hide Changes;
    IdleStep(s, e, en);
    NoChanges(s.target.config, CONFIG_SIZE);
    assert s.out.offered + [] == s.out.offered;
  }

  lemma PendingChange(w: World, en: bool, h: seq<Event>, e: Event)
    requires Explained(w, en, h) && After(w, en, h).proc.mode > 0
    ensures var s, t := After(w, en, h), Next(After(w, en, h), e, en);
      t.out.offered == s.out.offered + Changes(s.target.config, t.target.config, CONFIG_SIZE) &&
      (t.target.config == s.target.config ||
       (exists p: U16, v: U16 :: p < CONFIG_SIZE && Commits(w, en, h, e, p, v) &&
          t.target.config == s.target.config[p := Wrap8(v)] &&
          t.out.offered == s.out.offered + [(p, Wrap8(v))]))
  {
    hide Next;
    hide ReadValue;
    hide Changes;
    var s, t := After(w, en, h), Next(After(w, en, h), e, en);
    PendingStep(s, e, en);
    NoChanges(s.target.config, CONFIG_SIZE);
    assert s.out.offered + [] == s.out.offered;
    var p := s.proc.position;
    if t.target.config != s.target.config {
      assert s.proc.mode == 3 && Data(e) == Some(PROGRAMMING_COMMIT);
      var i: nat, j: nat, k: nat, v: U16 :|
        ReadValue(w, en, h, i, j, k, p, v) && s.proc.newByte == Wrap8(v) && Waiting(h, k + 1);
      OneChange(s.target.config, p, Wrap8(v));
      assert Commits(w, en, h, e, p, v);
    }
  }

  /** From the sixth 36 to the frame that ends the sequence, no frame leaves a
      non-zero throttle published. */
  lemma NoThrottleWhileProgramming(w: World, en: bool, h: seq<Event>, e: Event)
    requires Fresh(w) && AllDecoded(h) && IsDecoded(e.action)
    ensures After(w, en, h).proc.mode > 0 ==> After(w, en, h).out.newinput == 0
    ensures After(w, en, h).proc.mode > 0 ==> After(w, en, h + [e]).out.newinput == 0
    ensures After(w, en, h + [e]).proc.mode > 0 ==> After(w, en, h + [e]).out.newinput == 0
  {
    HistoryExplains(w, en, h);
    Unfold(w, en, h, e);
    assert AllDecoded(h + [e]);
    HistoryExplains(w, en, h + [e]);
    if After(w, en, h).proc.mode > 0 { PendingStep(After(w, en, h), e, en); }
  }

  // ----- and every such sequence commits -----

  /** The values of the decoded frames, in order. */
  function Values(h: seq<Event>): seq<U16> {
    if h == [] then []
    else
      var last := Data(h[|h| - 1]);
      Values(h[..|h| - 1]) + (if last.Some? then [last.value] else [])
  }

  function Sequence(p: U16, v: U16): (s: seq<U16>)
    ensures |s| == 9
  {
    [36, 36, 36, 36, 36, 36, p, v, 37]
  }

  function Written(c: Config, p: U16, v: U16): Config { if p < CONFIG_SIZE then c[p := Wrap8(v)] else c }

  /** The processor after the first `n` values of a sequence. */
  predicate Progress(w: World, s: World, n: nat, p: U16, v: U16) {
    (n < 9 ==> s.target.config == w.target.config) &&
    (n == 0 ==> s.proc.mode == 0 && (s.proc.last == PROGRAMMING_MODE ==> s.proc.count == 0)) &&
    (1 <= n <= 5 ==> s.proc.mode == 0 && s.proc.last == PROGRAMMING_MODE && s.proc.count == n) &&
    (n == 6 ==> s.proc.mode == 1) &&
    (n == 7 ==> s.proc.mode == 2 && s.proc.position == p) &&
    (n == 8 ==> s.proc.mode == 3 && s.proc.position == p && s.proc.newByte == Wrap8(v)) &&
    (n == 9 ==> s.proc.mode == 0 && s.target.config == Written(w.target.config, p, v))
  }

  lemma ProgressStep(w: World, s: World, n: nat, p: U16, v: U16, e: Event, en: bool)
    requires n < 9 && Progress(w, s, n, p, v) && Gate(e) && IsDecoded(e.action)
    requires Data(e) == Some(Sequence(p, v)[n])
    ensures Progress(w, Next(s, e, en), n + 1, p, v)
  {
    hide Next;
    hide Changes;
    if n < 6 { IdleStep(s, e, en); } else { PendingStep(s, e, en); }
  }

  lemma ProgressQuiet(w: World, s: World, n: nat, p: U16, v: U16, e: Event, en: bool)
    requires Progress(w, s, n, p, v) && Gate(e) && Data(e).None?
    ensures Progress(w, Next(s, e, en), n, p, v)
  {
  }

  /** From any idle processor not already counting 36s, six 36s, a position, a
      value and 37, with the gate open and any undecoded frames in between, write
      exactly that byte, or nothing when the position is past the end. */
  lemma {:induction false} SequenceCommits(w: World, en: bool, h: seq<Event>, n: nat, p: U16, v: U16)
    requires w.proc.mode == 0 && (w.proc.last == PROGRAMMING_MODE ==> w.proc.count == 0)
    requires forall i :: 0 <= i < |h| ==> Gate(h[i])
    requires AllDecoded(h) && n <= 9 && Values(h) == Sequence(p, v)[..n]
    ensures Progress(w, After(w, en, h), n, p, v)
  {
    if h == [] {
      assert n == 0;
    } else {
      var before, e := h[..|h| - 1], h[|h| - 1];
      if Data(e).None? {
        assert Values(before) == Values(h);
        SequenceCommits(w, en, before, n, p, v);
        ProgressQuiet(w, After(w, en, before), n, p, v, e, en);
      } else {
        assert Values(h) == Values(before) + [Data(e).value];
        assert Values(before) == Values(h)[..n - 1] == Sequence(p, v)[..n - 1];
        assert Data(e).value == Values(h)[n - 1];
        SequenceCommits(w, en, before, n - 1, p, v);
        ProgressStep(w, After(w, en, before), n - 1, p, v, e, en);
      }
    }
  }
}
