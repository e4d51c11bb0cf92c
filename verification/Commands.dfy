/** DShot commands and in-band programming: the command processor
    (rm32/src/dshot_commands.rs) and the dispatch that drives it
    (rm32/src/transfer.rs). */
module Commands {
  import opened Words
  import opened Transfer

  const CONFIG_SIZE: nat := 192
  const DIR_REVERSED: nat := 17
  const BI_DIRECTION: nat := 18
  const PROGRAMMING_MODE: nat := 36
  const PROGRAMMING_COMMIT: nat := 37

  type Config = s: seq<U8> | |s| == 192 witness seq(192, _ => 0)

  datatype CommandResult =
    | NoResult | PlayTone(tone: U8) | SendEscInfo | SaveSettings | ProgrammingCommit(position: U16, value: U8)

  datatype Proc = Proc(
    count: U8, last: U8, mode: U8, position: U16, newByte: U8, extended: bool, edtInit: bool, edtDeinit: bool)

  /** What a command may touch besides the processor. */
  datatype Target = Target(config: Config, forward: bool, edtArmed: bool)

  /** Six in a row execute; beacons at once. */
  function Bumped(p: Proc, cmd: U16): Proc {
    var count := if cmd <= 5 then 6 else if cmd != p.last then 0 else p.count;
    p.(last := if cmd != p.last then Wrap8(cmd) else p.last, count := Wrap8(count + 1))
  }

  function Effect(t: Target, cmd: U16, edtArmEnable: bool): Target {
    if cmd == 7 then t.(config := t.config[DIR_REVERSED := 0], forward := true)
    else if cmd == 8 then t.(config := t.config[DIR_REVERSED := 1], forward := false)
    else if cmd == 9 then t.(config := t.config[BI_DIRECTION := 0])
    else if cmd == 10 then t.(config := t.config[BI_DIRECTION := 1])
    else if cmd == 13 && edtArmEnable then t.(edtArmed := true)
    else if cmd == 20 then t.(forward := t.config[DIR_REVERSED] == 0)
    else if cmd == 21 then t.(forward := t.config[DIR_REVERSED] != 0)
    else t
  }

  function Executed(p: Proc, cmd: U16): Proc {
    var q := p.(count := 0, last := Wrap8(cmd));
    if cmd == 13 then q.(extended := true, edtInit := true)
    else if cmd == 14 then q.(extended := false, edtDeinit := true)
    else if cmd == PROGRAMMING_MODE then q.(mode := 1)
    else q
  }

  function ResultOf(cmd: U16): CommandResult {
    if 1 <= cmd <= 5 then PlayTone(cmd)
    else if cmd == 6 then SendEscInfo
    else if cmd == 12 then SaveSettings
    else NoResult
  }

  datatype Step = Step(proc: Proc, target: Target, result: CommandResult)

  function Processed(p: Proc, t: Target, cmd: U16, gate: bool, edtArmEnable: bool): Step {
    if !gate then Step(p, t, NoResult)
    else
      var q := Bumped(p, cmd);
      if q.count < 6 then Step(q, t, NoResult)
      else Step(Executed(q, cmd), Effect(t, cmd, edtArmEnable), ResultOf(cmd))
  }

  function Programmed(p: Proc, t: Target, value: U16): Step {
    if p.mode == 1 then Step(p.(position := value, mode := 2), t, NoResult)
    else if p.mode == 2 then Step(p.(newByte := Wrap8(value), mode := 3), t, NoResult)
    else if p.mode == 3 && value == PROGRAMMING_COMMIT then
      if p.position < CONFIG_SIZE then
        Step(p.(mode := 0), t.(config := t.config[p.position := p.newByte]), ProgrammingCommit(p.position, p.newByte))
      else Step(p.(mode := 0), t, NoResult)
    else Step(p, t, NoResult)
  }

  class CommandProcessor {
    var commandCount: U8
    var lastCommand: U8
    var programmingMode: U8
    var position: U16
    var newByte: U8
    var extendedTelemetry: bool
    var sendEdtInit: bool
    var sendEdtDeinit: bool

    ghost function View(): Proc
      reads this
    {
      Proc(commandCount, lastCommand, programmingMode, position, newByte, extendedTelemetry, sendEdtInit, sendEdtDeinit)
    }

    constructor ()
      ensures View() == Proc(0, 0, 0, 0, 0, false, false, false)
    {
      commandCount, lastCommand, programmingMode, position, newByte := 0, 0, 0, 0, 0;
      extendedTelemetry, sendEdtInit, sendEdtDeinit := false, false, false;
    }

    /** Count repetitions; the command runs on the sixth. */
    method Process(cmd: U16, armed: bool, running: bool, config: array<U8>, forward: bool, edtArmed: bool,
      edtArmEnable: bool)
      returns (result: CommandResult, newForward: bool, newEdtArmed: bool)
      requires config.Length == CONFIG_SIZE
      modifies this, config
      ensures Step(View(), Target(config[..], newForward, newEdtArmed), result) ==
        Processed(old(View()), Target(old(config[..]), forward, edtArmed), cmd, armed && !running, edtArmEnable)
    {
      hide Executed;
      hide Effect;
      hide ResultOf;
      newForward, newEdtArmed := forward, edtArmed;
      if !armed || running { return NoResult, newForward, newEdtArmed; }
      if cmd != lastCommand {
        lastCommand := Wrap8(cmd);
        commandCount := 0;
      }
      if cmd <= 5 { commandCount := 6; }
      commandCount := Wrap8(commandCount + 1);
      if commandCount < 6 { return NoResult, newForward, newEdtArmed; }
      result, newForward, newEdtArmed := Execute(cmd, config, forward, edtArmed, edtArmEnable);
    }

    /** The effect of a command that has been repeated often enough. */
    method Execute(cmd: U16, config: array<U8>, forward: bool, edtArmed: bool, edtArmEnable: bool)
      returns (result: CommandResult, newForward: bool, newEdtArmed: bool)
      requires config.Length == CONFIG_SIZE
      modifies this, config
      ensures View() == Executed(old(View()), cmd)
      ensures Target(config[..], newForward, newEdtArmed) ==
        Effect(Target(old(config[..]), forward, edtArmed), cmd, edtArmEnable)
      ensures result == ResultOf(cmd)
    {
      newForward, newEdtArmed := forward, edtArmed;
      commandCount := 0;
      result := NoResult;
      if 1 <= cmd <= 5 {
        result := PlayTone(cmd);
      } else if cmd == 6 {
        result := SendEscInfo;
      } else if cmd == 7 {
        config[DIR_REVERSED] := 0;
        newForward := true;
      } else if cmd == 8 {
        config[DIR_REVERSED] := 1;
        newForward := false;
      } else if cmd == 9 {
        config[BI_DIRECTION] := 0;
      } else if cmd == 10 {
        config[BI_DIRECTION] := 1;
      } else if cmd == 12 {
        result := SaveSettings;
      } else if cmd == 13 {
        extendedTelemetry := true;
        sendEdtInit := true;
        if edtArmEnable { newEdtArmed := true; }
      } else if cmd == 14 {
        extendedTelemetry := false;
        sendEdtDeinit := true;
      } else if cmd == 20 {
        newForward := config[DIR_REVERSED] == 0;
      } else if cmd == 21 {
        newForward := config[DIR_REVERSED] != 0;
      } else if cmd == PROGRAMMING_MODE {
        programmingMode := 1;
      }
      lastCommand := Wrap8(cmd);
    }

    method ProcessProgramming(value: U16, config: array<U8>) returns (result: CommandResult)
      requires config.Length == CONFIG_SIZE
      modifies this`position, this`newByte, this`programmingMode, config
      ensures forall t: Target :: t.config == old(config[..]) ==>
        Step(View(), t.(config := config[..]), result) == Programmed(old(View()), t, value)
    {
      result := NoResult;
      if programmingMode == 1 {
        position := value;
        programmingMode := 2;
      } else if programmingMode == 2 {
        newByte := Wrap8(value);
        programmingMode := 3;
      } else if programmingMode == 3 {
        if value == PROGRAMMING_COMMIT {
          programmingMode := 0;
          if position < CONFIG_SIZE {
            config[position] := newByte;
            result := ProgrammingCommit(position, newByte);
          }
        }
      }
    }
  }

  // ----- changed bytes offered to the queue -----

  type Write = (U8, U8)

  /** Offset and new value of each changed byte below `n`, in order. */
  function Changes(old_: Config, new_: Config, n: nat): seq<Write>
    requires n <= CONFIG_SIZE
  {
    if n == 0 then []
    else Changes(old_, new_, n - 1) + (if old_[n - 1] == new_[n - 1] then [] else [(n - 1, new_[n - 1])])
  }

  /** Applying one queued byte; an offset past the end is ignored. */
  function Put(config: Config, w: Write): Config { if w.0 < CONFIG_SIZE then config[w.0 := w.1] else config }

  function Replay(writes: seq<Write>, config: Config): Config {
    if writes == [] then config else Put(Replay(writes[..|writes| - 1], config), writes[|writes| - 1])
  }

  /** Each changed byte is in the list once: offsets ascend, and a pair is listed
      exactly when that byte changed to that value. */
  lemma {:induction false} ChangesAreExact(old_: Config, new_: Config, n: nat)
    requires n <= CONFIG_SIZE
    ensures forall w :: w in Changes(old_, new_, n) <==> w.0 < n && old_[w.0] != new_[w.0] && w.1 == new_[w.0]
  {
    if n > 0 { ChangesAreExact(old_, new_, n - 1); }
  }

  lemma {:induction false} ChangesAscend(old_: Config, new_: Config, n: nat, i: nat, j: nat)
    requires n <= CONFIG_SIZE && i < j < |Changes(old_, new_, n)|
    ensures Changes(old_, new_, n)[i].0 < Changes(old_, new_, n)[j].0
  {
    var before := Changes(old_, new_, n - 1);
    if j < |before| {
      ChangesAscend(old_, new_, n - 1, i, j);
    } else {
      ChangesAreExact(old_, new_, n - 1);
      assert before[i] in before;
    }
  }

  /** Replaying the changes on the old configuration gives the new one. */
  lemma {:induction false} ChangesReplay(old_: Config, new_: Config, n: nat)
    requires n <= CONFIG_SIZE
    ensures forall i :: 0 <= i < CONFIG_SIZE ==>
      Replay(Changes(old_, new_, n), old_)[i] == if i < n then new_[i] else old_[i]
  {
    if n > 0 {
      ChangesReplay(old_, new_, n - 1);
      var before := Changes(old_, new_, n - 1);
      if old_[n - 1] != new_[n - 1] {
        assert (before + [(n - 1, new_[n - 1])])[..|before|] == before;
      } else {
        assert before + [] == before;
      }
    }
  }

  // ----- dispatch -----

  /** Flags and values the dispatch publishes, and what it hands to others: bytes
      offered to the config queue, telemetry schedule requests, command callbacks. */
  datatype Published = Published(
    newinput: U16, sendTelemetry: bool, signalTimeout: U16, saveSettings: bool, tone: U8, escInfo: bool,
    forward: bool, edtRequests: seq<bool>, offered: seq<Write>, heard: seq<U16>)

  datatype World = World(proc: Proc, target: Target, out: Published)

  function AfterResult(o: Published, result: CommandResult): Published {
    match result
    case SaveSettings => o.(saveSettings := true)
    case PlayTone(tone) => o.(tone := tone)
    case SendEscInfo => o.(escInfo := true)
    case _ => o
  }

  function StepOf(w: World, value: U16, gate: bool, edtArmEnable: bool): Step {
    if w.proc.mode > 0 then Programmed(w.proc, w.target, value)
    else Processed(w.proc, w.target, value, gate, edtArmEnable)
  }

  function EdtTaken(w: World): World {
    var requests := (if w.proc.edtInit then [true] else []) + (if w.proc.edtDeinit then [false] else []);
    w.(proc := w.proc.(edtInit := false, edtDeinit := false),
      out := w.out.(edtRequests := w.out.edtRequests + requests))
  }

  function Applied(w: World, value: U16, gate: bool, edtArmEnable: bool): World {
    var step := StepOf(w, value, gate, edtArmEnable);
    var out := w.out.(offered := w.out.offered + Changes(w.target.config, step.target.config, CONFIG_SIZE));
    EdtTaken(World(step.proc, step.target, AfterResult(out, step.result).(forward := step.target.forward)))
  }

  /** A pending sequence is dropped when the motor is disarmed or running. */
  predicate Cancels(w: World, gate: bool) { w.proc.mode > 0 && !gate }

  function Cancelled(w: World, gate: bool): World {
    if Cancels(w, gate) then w.(proc := w.proc.(mode := 0)) else w
  }

  function Noted(w: World, telemetry: bool): World {
    w.(out := w.out.(sendTelemetry := w.out.sendTelemetry || telemetry, signalTimeout := 0))
  }

  function ThrottlePassed(w: World, value: U16, edtArmEnable: bool): World {
    var pass := !edtArmEnable || w.target.edtArmed || value == 0;
    w.(target := if value == 0 && edtArmEnable then w.target.(edtArmed := false) else w.target,
       out := if pass then w.out.(newinput := value) else w.out)
  }

  function ThrottleHandled(w: World, value: U16, telemetry: bool, cancelled: bool, gate: bool,
    edtArmEnable: bool): World {
    var zeroed := w.(out := w.out.(newinput := 0));
    Noted(if cancelled then zeroed
          else if w.proc.mode > 0 then Applied(zeroed, value, gate, edtArmEnable)
          else ThrottlePassed(w, value, edtArmEnable), telemetry)
  }

  /** The throttle a frame publishes: zero for a command and while a sequence is
      pending; a throttle value if it is zero, or EDT arming is off or done. */
  function PublishedThrottle(newinput: U16, action: Action, pending: bool, edtArmed: bool, edtArmEnable: bool): U16 {
    if action.DshotCommand? || (pending && action.DshotThrottle?) then 0
    else if action.DshotThrottle? && (action.value == 0 || !edtArmEnable || edtArmed) then action.value
    else newinput
  }

  lemma AppliedKeepsThrottle(w: World, value: U16, gate: bool, en: bool)
    ensures Applied(w, value, gate, en).out.newinput == w.out.newinput
  {
    hide Changes;
    hide StepOf;
  }

  lemma DispatchPublishes(w: World, action: Action, gate: bool, en: bool)
    ensures Dispatched(w, action, gate, en).out.newinput ==
      PublishedThrottle(w.out.newinput, action, w.proc.mode > 0, w.target.edtArmed, en)
  {
    hide Applied;
    var v := Cancelled(w, gate);
    match action {
      case DshotThrottle(value, _) => AppliedKeepsThrottle(v.(out := v.out.(newinput := 0)), value, gate, en);
      case DshotCommand(cmd, telemetry) =>
        AppliedKeepsThrottle(Noted(v.(out := v.out.(newinput := 0, heard := v.out.heard + [cmd])), telemetry),
          cmd, gate, en);
      case _ =>
    }
  }

  function Dispatched(w: World, action: Action, gate: bool, edtArmEnable: bool): World {
    var v := Cancelled(w, gate);
    match action
    case NoAction => v
    case InputDetected(_) => v
    case DshotThrottle(value, telemetry) => ThrottleHandled(v, value, telemetry, Cancels(w, gate), gate, edtArmEnable)
    case DshotCommand(cmd, telemetry) =>
      var u := Noted(v.(out := v.out.(newinput := 0, heard := v.out.heard + [cmd])), telemetry);
      if Cancels(w, gate) then u else Applied(u, cmd, gate, edtArmEnable)
  }

  /** A fresh processor over a stored configuration. */
  function Initial(bytes: Config, forward: bool): World {
    World(Proc(0, 0, 0, 0, 0, false, false, false), Target(bytes, forward, false),
          Published(0, false, 0, false, 0, false, true, [], [], []))
  }

  class InputIsr {
    const cmd: CommandProcessor
    const config: array<U8>
    var forward: bool
    var edtArmed: bool
    const edtArmEnable: bool
    var newinput: U16
    var sendTelemetry: bool
    var signalTimeout: U16
    var saveSettings: bool
    var tone: U8
    var escInfo: bool
    var publishedForward: bool
    var edtRequests: seq<bool>
    var offered: seq<Write>
    var heard: seq<U16>

    ghost predicate Valid()
      reads this
    {
      config.Length == CONFIG_SIZE
    }

    ghost function View(): World
      requires Valid()
      reads this, cmd, config
    {
      World(cmd.View(), Target(config[..], forward, edtArmed),
            Published(newinput, sendTelemetry, signalTimeout, saveSettings, tone, escInfo, publishedForward,
                      edtRequests, offered, heard))
    }

    constructor (bytes: Config, forward: bool, edtArmEnable: bool)
      ensures Valid() && fresh(cmd) && fresh(config) && this.edtArmEnable == edtArmEnable
      ensures View() == Initial(bytes, forward)
    {
      cmd := new CommandProcessor();
      config := new U8[CONFIG_SIZE](i requires 0 <= i < CONFIG_SIZE => bytes[i]);
      this.forward, edtArmed, this.edtArmEnable := forward, false, edtArmEnable;
      newinput, sendTelemetry, signalTimeout, saveSettings, tone, escInfo := 0, false, 0, false, 0, false;
      publishedForward, edtRequests, offered, heard := true, [], [], [];
    }

    /** The source's byte loop: offer every changed byte. */
    method OfferChanges(old_: Config)
      requires Valid()
      modifies this`offered
      ensures View() == old(View()).(out := old(View()).out.(
        offered := old(offered) + Changes(old_, config[..], CONFIG_SIZE)))
    {
      assert offered + [] == offered;
      for offset := 0 to CONFIG_SIZE
        invariant offered == old(offered) + Changes(old_, config[..], offset)
      {
        if old_[offset] != config[offset] {
          offered := offered + [(offset, config[offset])];
        }
      }
    }

    /** The byte goes to the sequence in progress, or else is a command. */
    method RunProcessor(value: U16, armed: bool, running: bool) returns (result: CommandResult)
      requires Valid()
      modifies cmd, config, this`forward, this`edtArmed
      ensures Step(View().proc, View().target, result) == StepOf(old(View()), value, armed && !running, edtArmEnable)
      ensures View().out == old(View()).out
    {
      if cmd.programmingMode > 0 {
        result := cmd.ProcessProgramming(value, config);
      } else {
        result, forward, edtArmed := cmd.Process(value, armed, running, config, forward, edtArmed, edtArmEnable);
      }
    }

    method PublishResult(result: CommandResult)
      requires Valid()
      modifies this`saveSettings, this`tone, this`escInfo, this`publishedForward
      ensures View() == old(View()).(out := AfterResult(old(View()).out, result).(forward := forward))
    {
      match result {
        case SaveSettings => saveSettings := true;
        case PlayTone(t) => tone := t;
        case SendEscInfo => escInfo := true;
        case _ =>
      }
      publishedForward := forward;
    }

    method TakeEdt()
      requires Valid()
      modifies this`edtRequests, cmd`sendEdtInit, cmd`sendEdtDeinit
      ensures View() == EdtTaken(old(View()))
    {
      if cmd.sendEdtInit {
        cmd.sendEdtInit := false;
        edtRequests := edtRequests + [true];
      }
      if cmd.sendEdtDeinit {
        cmd.sendEdtDeinit := false;
        edtRequests := edtRequests + [false];
      }
    }

    method ApplyCommand(value: U16, armed: bool, running: bool)
      requires Valid()
      modifies this, cmd, config
      ensures View() == Applied(old(View()), value, armed && !running, edtArmEnable)
    {
      hide StepOf;
      hide AfterResult;
      hide EdtTaken;
      hide Changes;
      var oldConfig: Config := config[..];
      var result := RunProcessor(value, armed, running);
      OfferChanges(oldConfig);
      PublishResult(result);
      TakeEdt();
    }

    method HandleThrottle(value: U16, telemetry: bool, cancelled: bool, armed: bool, running: bool)
      requires Valid()
      modifies this, cmd, config
      ensures View() == ThrottleHandled(old(View()), value, telemetry, cancelled, armed && !running, edtArmEnable)
    {
      hide Applied;
      if cancelled {
        newinput := 0;
      } else if cmd.programmingMode > 0 {
        newinput := 0;
        ApplyCommand(value, armed, running);
      } else {
        var pass := !edtArmEnable || edtArmed || value == 0;
        if value == 0 && edtArmEnable { edtArmed := false; }
        if pass { newinput := value; }
      }
      Note(telemetry);
    }

    method Note(telemetry: bool)
      requires Valid()
      modifies this`sendTelemetry, this`signalTimeout
      ensures View() == Noted(old(View()), telemetry)
    {
      if telemetry { sendTelemetry := true; }
      signalTimeout := 0;
    }

    /** One decoded frame, in one masked section. */
    method Dispatch(action: Action, armed: bool, running: bool)
      requires Valid()
      modifies this, cmd, config
      ensures View() == Dispatched(old(View()), action, armed && !running, edtArmEnable)
      ensures newinput ==
        PublishedThrottle(old(newinput), action, old(cmd.programmingMode) > 0, old(edtArmed), edtArmEnable)
    {
      hide Dispatched;
      hide PublishedThrottle;
      DispatchPublishes(View(), action, armed && !running, edtArmEnable);
      DispatchFrame(action, armed, running);
    }

    method DispatchFrame(action: Action, armed: bool, running: bool)
      requires Valid()
      modifies this, cmd, config
      ensures View() == Dispatched(old(View()), action, armed && !running, edtArmEnable)
    {
      hide Applied;
      hide ThrottleHandled;
      var cancelled := cmd.programmingMode > 0 && (!armed || running);
      if cancelled { cmd.programmingMode := 0; }
      match action {
        case DshotThrottle(value, telemetry) =>
          HandleThrottle(value, telemetry, cancelled, armed, running);
        case DshotCommand(command, telemetry) =>
          heard := heard + [command];
          newinput := 0;
          Note(telemetry);
          if !cancelled { ApplyCommand(command, armed, running); }
        case _ =>
      }
    }
  }
}
