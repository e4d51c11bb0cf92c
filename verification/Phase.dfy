/** The six-step table (rm32/src/bridge.rs) and its register plan
    (rm32_stm32/src/phase.rs). A register word is the set of its one bits, so
    `|` is union and `& !` is set difference. */
module Phase {

  type Bits = set<nat>

  datatype LegRole = Float | LowSolid | PwmDiode | PwmComplementary | LowPwm
  datatype PwmMode = Diode | Complementary

  function DrivenRole(mode: PwmMode): LegRole { if mode.Complementary? then PwmComplementary else PwmDiode }

  /** Roles of phases A, B, C; any step outside 1..=6 leaves every leg floating. */
  function StepLegs(step: int, mode: PwmMode): (legs: seq<LegRole>)
    ensures |legs| == 3
  {
    var pwm := DrivenRole(mode);
    if step == 1 then [pwm, LowSolid, Float]
    else if step == 2 then [Float, LowSolid, pwm]
    else if step == 3 then [LowSolid, Float, pwm]
    else if step == 4 then [LowSolid, pwm, Float]
    else if step == 5 then [Float, pwm, LowSolid]
    else if step == 6 then [pwm, Float, LowSolid]
    else [Float, Float, Float]
  }

  // ----- pins and registers -----

  datatype Pin = Pin(portB: bool, pin: nat)
  datatype Half = Half(high: Pin, low: Pin)

  /** Six distinct pins, sixteen to a port. */
  ghost predicate Wiring(halves: seq<Half>) {
    |halves| == 3 &&
    (forall i :: 0 <= i < 3 ==> halves[i].high.pin < 16 && halves[i].low.pin < 16 && halves[i].high != halves[i].low) &&
    (forall i, j :: 0 <= i < j < 3 ==>
      halves[i].high != halves[j].high && halves[i].high != halves[j].low &&
      halves[i].low != halves[j].high && halves[i].low != halves[j].low)
  }

  datatype Registers = Registers(odrA: Bits, odrB: Bits, moderA: Bits, moderB: Bits) {
    predicate Latched(p: Pin) { p.pin in (if p.portB then odrB else odrA) }

    function Moder(p: Pin): Bits { if p.portB then moderB else moderA }

    predicate IsOutput(p: Pin) { 2 * p.pin in Moder(p) && 2 * p.pin + 1 !in Moder(p) }

    predicate IsAlternate(p: Pin) { 2 * p.pin !in Moder(p) && 2 * p.pin + 1 in Moder(p) }

    /** Pin `p` reads the same in both registers as it does in `other`. */
    predicate SameAs(other: Registers, p: Pin) {
      (Latched(p) <==> other.Latched(p)) &&
      (2 * p.pin in Moder(p) <==> 2 * p.pin in other.Moder(p)) &&
      (2 * p.pin + 1 in Moder(p) <==> 2 * p.pin + 1 in other.Moder(p))
    }
  }

  // ----- the plan: [bsrr_a, bsrr_b, moder_a_mask, moder_a_val, moder_b_mask, moder_b_val] -----

  predicate HighAlternate(role: LegRole) { role.PwmComplementary? || role.PwmDiode? }

  predicate LowAlternate(role: LegRole) { role.PwmComplementary? || role.LowPwm? }

  /** What one pin adds to word `k`: a level, two mask bits and one mode bit, all
      in its own port's words. */
  function PinPart(p: Pin, setHigh: bool, alternate: bool, k: nat): Bits {
    if k == (if p.portB then 1 else 0) then {if setHigh then p.pin else p.pin + 16}
    else if k == (if p.portB then 4 else 2) then {2 * p.pin, 2 * p.pin + 1}
    else if k == (if p.portB then 5 else 3) then {if alternate then 2 * p.pin + 1 else 2 * p.pin}
    else {}
  }

  function LegPart(h: Half, role: LegRole, k: nat): Bits {
    PinPart(h.high, false, HighAlternate(role), k) + PinPart(h.low, role.LowSolid?, LowAlternate(role), k)
  }

  /** Word `k` after the first `n` legs. */
  function Word(halves: seq<Half>, legs: seq<LegRole>, k: nat, n: nat): Bits
    requires |halves| == 3 && |legs| == 3 && n <= 3
  {
    if n == 0 then {} else Word(halves, legs, k, n - 1) + LegPart(halves[n - 1], legs[n - 1], k)
  }

  function Plan(halves: seq<Half>, step: int, mode: PwmMode): (r: seq<Bits>)
    requires |halves| == 3
    ensures |r| == 6
  {
    seq(6, k requires 0 <= k < 6 => Word(halves, StepLegs(step, mode), k, 3))
  }

  method AddPin(r: array<Bits>, p: Pin, setHigh: bool, alternate: bool)
    requires r.Length == 6
    modifies r
    ensures forall k :: 0 <= k < 6 ==> r[k] == old(r[k]) + PinPart(p, setHigh, alternate, k)
  {
    var level := if setHigh then {p.pin} else {p.pin + 16};
    var mode := if alternate then {2 * p.pin + 1} else {2 * p.pin};
    if p.portB {
      r[1] := r[1] + level;
      r[4] := r[4] + {2 * p.pin, 2 * p.pin + 1};
      r[5] := r[5] + mode;
    } else {
      r[0] := r[0] + level;
      r[2] := r[2] + {2 * p.pin, 2 * p.pin + 1};
      r[3] := r[3] + mode;
    }
  }

  method PlanStep(halves: seq<Half>, stepIx: nat, mode: PwmMode) returns (r: array<Bits>)
    requires |halves| == 3
    ensures fresh(r) && r.Length == 6 && r[..] == Plan(halves, stepIx + 1, mode)
  {
    var legs := StepLegs(stepIx + 1, mode);
    r := new Bits[6](_ => {});
    var idx := 0;
    while idx < 3
      invariant idx <= 3
      invariant forall k :: 0 <= k < 6 ==> r[k] == Word(halves, legs, k, idx)
    {
      var h, role := halves[idx], legs[idx];
      AddPin(r, h.high, false, HighAlternate(role));
      AddPin(r, h.low, role.LowSolid?, LowAlternate(role));
      idx := idx + 1;
      forall k | 0 <= k < 6
        ensures r[k] == Word(halves, legs, k, idx)
      {
        assert r[k] == Word(halves, legs, k, idx - 1) + LegPart(h, role, k);
      }
    }
  }

  // ----- applying a plan: four writes -----

  /** Upper half resets, lower half sets. */
  function AfterBsrr(odr: Bits, w: Bits): Bits {
    (set q | q in odr && q + 16 !in w) + (set q | q in w && q < 16)
  }

  function AfterModer(moder: Bits, mask: Bits, value: Bits): Bits { (moder - mask) + value }

  datatype Write = LatchA | LatchB | ModeA | ModeB

  function Do(r: Registers, p: seq<Bits>, w: Write): Registers
    requires |p| == 6
  {
    match w
    case LatchA => r.(odrA := AfterBsrr(r.odrA, p[0]))
    case LatchB => r.(odrB := AfterBsrr(r.odrB, p[1]))
    case ModeA => r.(moderA := AfterModer(r.moderA, p[2], p[3]))
    case ModeB => r.(moderB := AfterModer(r.moderB, p[4], p[5]))
  }

  /** The plan asserts a low gate on port A: `p[0] & 0xFFFF != 0`. */
  predicate SetsLatchA(p: seq<Bits>)
    requires |p| == 6
  {
    exists b :: b in p[0] && b < 16
  }

  /** The plan puts a port B pin in alternate mode: `p[5] & 0xAAAA_AAAA != 0`. */
  predicate AlternateOnB(p: seq<Bits>)
    requires |p| == 6
  {
    exists b :: b in p[5] && b % 2 == 1
  }

  function Order(p: seq<Bits>): seq<Write>
    requires |p| == 6
  {
    (if SetsLatchA(p) then [LatchB, LatchA] else [LatchA, LatchB]) +
    (if AlternateOnB(p) then [ModeA, ModeB] else [ModeB, ModeA])
  }

  /** The registers after each of the first `n` writes, starting with none. */
  function Stage(r: Registers, p: seq<Bits>, n: nat): Registers
    requires |p| == 6 && n <= 4
  {
    if n == 0 then r else Do(Stage(r, p, n - 1), p, Order(p)[n - 1])
  }

  class Gpio {
    var odrA: Bits
    var odrB: Bits
    var moderA: Bits
    var moderB: Bits
    ghost var history: seq<Registers>

    ghost function View(): Registers
      reads this
    {
      Registers(odrA, odrB, moderA, moderB)
    }

    method WriteBsrrA(w: Bits)
      modifies this
      ensures View() == old(View()).(odrA := AfterBsrr(old(odrA), w))
      ensures history == old(history) + [View()]
    {
      odrA := AfterBsrr(odrA, w);
      history := history + [View()];
    }

    method WriteBsrrB(w: Bits)
      modifies this
      ensures View() == old(View()).(odrB := AfterBsrr(old(odrB), w))
      ensures history == old(history) + [View()]
    {
      odrB := AfterBsrr(odrB, w);
      history := history + [View()];
    }

    method ModifyModerA(mask: Bits, value: Bits)
      modifies this
      ensures View() == old(View()).(moderA := AfterModer(old(moderA), mask, value))
      ensures history == old(history) + [View()]
    {
      moderA := AfterModer(moderA, mask, value);
      history := history + [View()];
    }

    method ModifyModerB(mask: Bits, value: Bits)
      modifies this
      ensures View() == old(View()).(moderB := AfterModer(old(moderB), mask, value))
      ensures history == old(history) + [View()]
    {
      moderB := AfterModer(moderB, mask, value);
      history := history + [View()];
    }

    /** Latches of the port without the incoming low gate first; modes of the
        port without an incoming alternate pin first. */
    method ApplyPlan(p: seq<Bits>)
      requires |p| == 6
      modifies this
      ensures View() == Stage(old(View()), p, 4)
      ensures history == old(history) +
        [Stage(old(View()), p, 1), Stage(old(View()), p, 2), Stage(old(View()), p, 3), Stage(old(View()), p, 4)]
    {
      ghost var start := View();
      if exists b :: b in p[0] && b < 16 {
        WriteBsrrB(p[1]);
        assert View() == Stage(start, p, 1);
        WriteBsrrA(p[0]);
      } else {
        WriteBsrrA(p[0]);
        assert View() == Stage(start, p, 1);
        WriteBsrrB(p[1]);
      }
      assert View() == Stage(start, p, 2);
      if !(exists b :: b in p[5] && b % 2 == 1) {
        ModifyModerB(p[4], p[5]);
        assert View() == Stage(start, p, 3);
        ModifyModerA(p[2], p[3]);
      } else {
        ModifyModerA(p[2], p[3]);
        assert View() == Stage(start, p, 3);
        ModifyModerB(p[4], p[5]);
      }
    }

    /** A step outside 1..=6 has no plan and writes nothing. */
    method ComStep(halves: seq<Half>, step: int, mode: PwmMode)
      requires |halves| == 3 && 0 <= step < 256
      modifies this
      ensures 1 <= step <= 6 ==>
        var p := Plan(halves, step, mode);
        View() == Stage(old(View()), p, 4) && history == old(history) +
          [Stage(old(View()), p, 1), Stage(old(View()), p, 2), Stage(old(View()), p, 3), Stage(old(View()), p, 4)]
      ensures !(1 <= step <= 6) ==> View() == old(View()) && history == old(history)
    {
      if 1 <= step <= 6 {
        var p := PlanStep(halves, step - 1, mode);
        ApplyPlan(p[..]);
      }
    }
  }

  // ----- what a plan does to each pin -----

  ghost predicate Holds(r: Registers, p: Pin, alternate: bool, latched: bool) {
    (if alternate then r.IsAlternate(p) else r.IsOutput(p)) && (r.Latched(p) <==> latched)
  }

  ghost predicate LegHolds(r: Registers, h: Half, role: LegRole) {
    Holds(r, h.high, HighAlternate(role), false) && Holds(r, h.low, LowAlternate(role), role.LowSolid?)
  }

  /** The registers are exactly the bridge state of a step. */
  ghost predicate Drives(r: Registers, halves: seq<Half>, legs: seq<LegRole>)
    requires |halves| == 3 && |legs| == 3
  {
    LegHolds(r, halves[0], legs[0]) && LegHolds(r, halves[1], legs[1]) && LegHolds(r, halves[2], legs[2])
  }

  /** The plan words mention pin `q` with exactly this level and mode. */
  ghost predicate Plans(p: seq<Bits>, q: Pin, alternate: bool, setHigh: bool)
    requires |p| == 6
  {
    var bsrr, mask, value := p[if q.portB then 1 else 0], p[if q.portB then 4 else 2], p[if q.portB then 5 else 3];
    (q.pin in bsrr <==> setHigh) && (q.pin + 16 in bsrr <==> !setHigh) &&
    2 * q.pin in mask && 2 * q.pin + 1 in mask &&
    (2 * q.pin in value <==> !alternate) && (2 * q.pin + 1 in value <==> alternate)
  }

  ghost predicate Ignores(p: seq<Bits>, q: Pin)
    requires |p| == 6
  {
    var bsrr, mask, value := p[if q.portB then 1 else 0], p[if q.portB then 4 else 2], p[if q.portB then 5 else 3];
    q.pin !in bsrr && q.pin + 16 !in bsrr && 2 * q.pin !in mask && 2 * q.pin + 1 !in mask &&
    2 * q.pin !in value && 2 * q.pin + 1 !in value
  }

  lemma InWord(halves: seq<Half>, legs: seq<LegRole>, k: nat, b: nat)
    requires |halves| == 3 && |legs| == 3
    ensures b in Word(halves, legs, k, 3) <==>
      b in LegPart(halves[0], legs[0], k) || b in LegPart(halves[1], legs[1], k) || b in LegPart(halves[2], legs[2], k)
  {
    assert Word(halves, legs, k, 0) == {};
    assert Word(halves, legs, k, 1) == LegPart(halves[0], legs[0], k);
  }

  /** Bit `b` of word `k` belongs to pin `q`. */
  predicate Owns(q: Pin, k: nat, b: nat) {
    var own := if q.portB then 1 else 0;
    (k == own && (b == q.pin || b == q.pin + 16)) ||
    ((k == 2 + 2 * own || k == 3 + 2 * own) && (b == 2 * q.pin || b == 2 * q.pin + 1))
  }

  lemma OnlyOwnBits(p: Pin, setHigh: bool, alternate: bool, q: Pin, k: nat, b: nat)
    requires p.pin < 16 && q.pin < 16 && p != q && Owns(q, k, b)
    ensures b !in PinPart(p, setHigh, alternate, k)
  {
  }

  lemma OtherLeg(h: Half, role: LegRole, q: Pin, k: nat, b: nat)
    requires h.high.pin < 16 && h.low.pin < 16 && q.pin < 16 && Owns(q, k, b)
    requires h.high != q && h.low != q
    ensures b !in LegPart(h, role, k)
  {
    OnlyOwnBits(h.high, false, HighAlternate(role), q, k, b);
    OnlyOwnBits(h.low, role.LowSolid?, LowAlternate(role), q, k, b);
  }

  /** A word's bits of pin `q` come from the leg that has `q`, and from that
      leg's part for `q` alone. */
  lemma PinBits(halves: seq<Half>, legs: seq<LegRole>, i: nat, high: bool, k: nat, b: nat)
    requires Wiring(halves) && |legs| == 3 && i < 3
    requires Owns(if high then halves[i].high else halves[i].low, k, b)
    ensures b in Word(halves, legs, k, 3) <==>
      if high then b in PinPart(halves[i].high, false, HighAlternate(legs[i]), k)
      else b in PinPart(halves[i].low, legs[i].LowSolid?, LowAlternate(legs[i]), k)
  {
    var q := if high then halves[i].high else halves[i].low;
    InWord(halves, legs, k, b);
    if i != 0 { OtherLeg(halves[0], legs[0], q, k, b); }
    if i != 1 { OtherLeg(halves[1], legs[1], q, k, b); }
    if i != 2 { OtherLeg(halves[2], legs[2], q, k, b); }
    if high {
      OnlyOwnBits(halves[i].low, legs[i].LowSolid?, LowAlternate(legs[i]), q, k, b);
    } else {
      OnlyOwnBits(halves[i].high, false, HighAlternate(legs[i]), q, k, b);
    }
  }

  lemma HighPlanned(halves: seq<Half>, step: int, mode: PwmMode, i: nat)
    requires Wiring(halves) && i < 3
    ensures Plans(Plan(halves, step, mode), halves[i].high, HighAlternate(StepLegs(step, mode)[i]), false)
  {
    hide LegPart;
    hide Word;
    var legs, q := StepLegs(step, mode), halves[i].high;
    var own := if q.portB then 1 else 0;
    PinBits(halves, legs, i, true, own, q.pin);
    PinBits(halves, legs, i, true, own, q.pin + 16);
    PinBits(halves, legs, i, true, 2 + 2 * own, 2 * q.pin);
    PinBits(halves, legs, i, true, 2 + 2 * own, 2 * q.pin + 1);
    PinBits(halves, legs, i, true, 3 + 2 * own, 2 * q.pin);
    PinBits(halves, legs, i, true, 3 + 2 * own, 2 * q.pin + 1);
  }

  lemma LowPlanned(halves: seq<Half>, step: int, mode: PwmMode, i: nat)
    requires Wiring(halves) && i < 3
    ensures var role := StepLegs(step, mode)[i];
      Plans(Plan(halves, step, mode), halves[i].low, LowAlternate(role), role.LowSolid?)
  {
    hide LegPart;
    hide Word;
    var legs, q := StepLegs(step, mode), halves[i].low;
    var own := if q.portB then 1 else 0;
    PinBits(halves, legs, i, false, own, q.pin);
    PinBits(halves, legs, i, false, own, q.pin + 16);
    PinBits(halves, legs, i, false, 2 + 2 * own, 2 * q.pin);
    PinBits(halves, legs, i, false, 2 + 2 * own, 2 * q.pin + 1);
    PinBits(halves, legs, i, false, 3 + 2 * own, 2 * q.pin);
    PinBits(halves, legs, i, false, 3 + 2 * own, 2 * q.pin + 1);
  }

  lemma StrangerIgnored(halves: seq<Half>, step: int, mode: PwmMode, q: Pin)
    requires Wiring(halves) && q.pin < 16
    requires forall i :: 0 <= i < 3 ==> halves[i].high != q && halves[i].low != q
    ensures Ignores(Plan(halves, step, mode), q)
  {
    var legs := StepLegs(step, mode);
    forall k: nat, b: nat | k < 6 && Owns(q, k, b)
      ensures b !in Word(halves, legs, k, 3)
    {
      InWord(halves, legs, k, b);
      OtherLeg(halves[0], legs[0], q, k, b);
      OtherLeg(halves[1], legs[1], q, k, b);
      OtherLeg(halves[2], legs[2], q, k, b);
    }
    var own := if q.portB then 1 else 0;
    assert Owns(q, own, q.pin) && Owns(q, own, q.pin + 16);
    assert Owns(q, 2 + 2 * own, 2 * q.pin) && Owns(q, 2 + 2 * own, 2 * q.pin + 1);
    assert Owns(q, 3 + 2 * own, 2 * q.pin) && Owns(q, 3 + 2 * own, 2 * q.pin + 1);
  }

  // ----- pins at every intermediate point -----

  predicate LatchDone(p: seq<Bits>, q: Pin, n: nat)
    requires |p| == 6
  {
    n >= 2 || (n == 1 && q.portB == SetsLatchA(p))
  }

  predicate ModeDone(p: seq<Bits>, q: Pin, n: nat)
    requires |p| == 6
  {
    n >= 4 || (n == 3 && q.portB == !AlternateOnB(p))
  }

  /** After `n` writes a planned pin has its new level if its port's latch word
      was written and its new mode if its port's mode word was. */
  ghost predicate Midway(r: Registers, p: seq<Bits>, q: Pin, alternate: bool, setHigh: bool, n: nat)
    requires |p| == 6 && n <= 4
  {
    var s := Stage(r, p, n);
    (s.Latched(q) <==> if LatchDone(p, q, n) then setHigh else r.Latched(q)) &&
    (s.IsAlternate(q) <==> if ModeDone(p, q, n) then alternate else r.IsAlternate(q)) &&
    (s.IsOutput(q) <==> if ModeDone(p, q, n) then !alternate else r.IsOutput(q))
  }

  lemma {:induction false} StagePin(r: Registers, p: seq<Bits>, q: Pin, alternate: bool, setHigh: bool, n: nat)
    requires |p| == 6 && n <= 4 && q.pin < 16 && Plans(p, q, alternate, setHigh)
    ensures Midway(r, p, q, alternate, setHigh, n)
  {
    if n > 0 {
      StagePin(r, p, q, alternate, setHigh, n - 1);
    }
  }

  lemma {:induction false} StageIgnored(r: Registers, p: seq<Bits>, q: Pin, n: nat)
    requires |p| == 6 && n <= 4 && q.pin < 16 && Ignores(p, q)
    ensures Stage(r, p, n).SameAs(r, q)
  {
    if n > 0 { StageIgnored(r, p, q, n - 1); }
  }

  /** From any registers, the four writes leave exactly the bridge state of the
      step, and no other pin of either port changes. */
  lemma EndState(r: Registers, halves: seq<Half>, step: int, mode: PwmMode)
    requires Wiring(halves)
    ensures Drives(Stage(r, Plan(halves, step, mode), 4), halves, StepLegs(step, mode))
    ensures forall q: Pin :: q.pin < 16 && (forall i :: 0 <= i < 3 ==> halves[i].high != q && halves[i].low != q) ==>
      Stage(r, Plan(halves, step, mode), 4).SameAs(r, q)
  {
    var p := Plan(halves, step, mode);
    forall i | 0 <= i < 3
      ensures LegHolds(Stage(r, p, 4), halves[i], StepLegs(step, mode)[i])
    {
      AllMidway(r, halves, step, mode, i, 4);
    }
    forall q: Pin | q.pin < 16 && (forall i :: 0 <= i < 3 ==> halves[i].high != q && halves[i].low != q)
      ensures Stage(r, p, 4).SameAs(r, q)
    {
      StrangerIgnored(halves, step, mode, q);
      StageIgnored(r, p, q, 4);
    }
  }

  lemma AllMidway(r: Registers, halves: seq<Half>, step: int, mode: PwmMode, i: nat, n: nat)
    requires Wiring(halves) && i < 3 && n <= 4
    ensures var p, role := Plan(halves, step, mode), StepLegs(step, mode)[i];
      Midway(r, p, halves[i].high, HighAlternate(role), false, n) &&
      Midway(r, p, halves[i].low, LowAlternate(role), role.LowSolid?, n)
  {
    var p, role := Plan(halves, step, mode), StepLegs(step, mode)[i];
    HighPlanned(halves, step, mode, i);
    LowPlanned(halves, step, mode, i);
    StagePin(r, p, halves[i].high, HighAlternate(role), false, n);
    StagePin(r, p, halves[i].low, LowAlternate(role), role.LowSolid?, n);
  }

  // ----- break before make -----

  predicate IsStep(step: int) { 1 <= step <= 6 }

  /** The leg that is PWM driven in a step, and the leg whose low side is solid on. */
  function DrivenLeg(step: int): (i: nat)
    requires IsStep(step)
    ensures i < 3
  {
    if step == 1 || step == 6 then 0 else if step == 4 || step == 5 then 1 else 2
  }

  function LowLeg(step: int): (i: nat)
    requires IsStep(step)
    ensures i < 3
  {
    if step == 3 || step == 4 then 0 else if step == 1 || step == 2 then 1 else 2
  }

  lemma Roles(step: int, mode: PwmMode, i: nat)
    requires IsStep(step) && i < 3
    ensures StepLegs(step, mode)[i] ==
      if i == DrivenLeg(step) then DrivenRole(mode) else if i == LowLeg(step) then LowSolid else Float
    ensures DrivenLeg(step) != LowLeg(step)
  {
  }

  predicate Adjacent(a: int, b: int) {
    IsStep(a) && IsStep(b) && (a == b || b == a + 1 || a == b + 1 || (a == 1 && b == 6) || (a == 6 && b == 1))
  }

  /** No leg goes straight from PWM to solid low between adjacent steps. */
  lemma AdjacentStepsFloatBetween(a: int, b: int)
    requires Adjacent(a, b)
    ensures DrivenLeg(a) != LowLeg(b)
  {
  }

  predicate PwmHigh(r: Registers, h: Half) { r.IsAlternate(h.high) }

  predicate SolidLow(r: Registers, h: Half) { r.IsOutput(h.low) && r.Latched(h.low) }

  predicate SolidHigh(r: Registers, h: Half) { r.IsOutput(h.high) && r.Latched(h.high) }

  /** No leg has its PWM high side and a solid-on low side together, no high side
      is solid on, and at most one low side is. */
  predicate Safe(r: Registers, halves: seq<Half>)
    requires |halves| == 3
  {
    (forall i :: 0 <= i < 3 ==> !(PwmHigh(r, halves[i]) && SolidLow(r, halves[i])) && !SolidHigh(r, halves[i])) &&
    (forall i, j :: 0 <= i < j < 3 ==> !(SolidLow(r, halves[i]) && SolidLow(r, halves[j])))
  }

  /** The write order looks at two facts only: where the incoming solid gate is,
      and whether any incoming alternate pin is on port B. */
  lemma OrderDependsOn(halves: seq<Half>, step: int, mode: PwmMode)
    requires Wiring(halves) && IsStep(step)
    ensures SetsLatchA(Plan(halves, step, mode)) <==> !halves[LowLeg(step)].low.portB
    ensures AlternateOnB(Plan(halves, step, mode)) <==>
      halves[DrivenLeg(step)].high.portB || (mode.Complementary? && halves[DrivenLeg(step)].low.portB)
  {
    SetsLatchAWhen(halves, step, mode);
    AlternateOnBWhen(halves, step, mode);
  }

  lemma SetsLatchAWhen(halves: seq<Half>, step: int, mode: PwmMode)
    requires Wiring(halves) && IsStep(step)
    ensures SetsLatchA(Plan(halves, step, mode)) <==> !halves[LowLeg(step)].low.portB
  {
    var p, legs := Plan(halves, step, mode), StepLegs(step, mode);
    forall i | 0 <= i < 3
      ensures legs[i].LowSolid? <==> i == LowLeg(step)
    {
      Roles(step, mode, i);
    }
    if SetsLatchA(p) {
      var b :| b in p[0] && b < 16;
      InWord(halves, legs, 0, b);
    }
    var low := halves[LowLeg(step)].low;
    InWord(halves, legs, 0, low.pin);
    if !low.portB { assert low.pin in p[0]; }
  }

  lemma AlternateOnBWhen(halves: seq<Half>, step: int, mode: PwmMode)
    requires Wiring(halves) && IsStep(step)
    ensures AlternateOnB(Plan(halves, step, mode)) <==>
      halves[DrivenLeg(step)].high.portB || (mode.Complementary? && halves[DrivenLeg(step)].low.portB)
  {
    hide StepLegs;
    hide LegPart;
    hide Word;
    var p, legs, h := Plan(halves, step, mode), StepLegs(step, mode), halves[DrivenLeg(step)];
    Roles(step, mode, 0);
    Roles(step, mode, 1);
    Roles(step, mode, 2);
    forall b: nat | b % 2 == 1
      ensures b in p[5] <==>
        (h.high.portB && b == 2 * h.high.pin + 1) || (mode.Complementary? && h.low.portB && b == 2 * h.low.pin + 1)
    {
      InWord(halves, legs, 5, b);
      OddModeBit(halves[0], legs[0], b);
      OddModeBit(halves[1], legs[1], b);
      OddModeBit(halves[2], legs[2], b);
    }
    if h.high.portB { assert 2 * h.high.pin + 1 in p[5]; }
    if mode.Complementary? && h.low.portB { assert 2 * h.low.pin + 1 in p[5]; }
  }

  /** An odd bit of the port B mode word is the alternate mode of a pin of port B. */
  lemma OddModeBit(h: Half, role: LegRole, b: nat)
    requires b % 2 == 1
    ensures b in LegPart(h, role, 5) <==>
      (h.high.portB && HighAlternate(role) && b == 2 * h.high.pin + 1) ||
      (h.low.portB && LowAlternate(role) && b == 2 * h.low.pin + 1)
  {
  }

  /** The registers drive step `a` in mode `m`, and `n` writes of the plan for
      step `b` in mode `m2` have been done. */
  lemma Intermediate(r: Registers, halves: seq<Half>, a: int, m: PwmMode, b: int, m2: PwmMode, i: nat, n: nat)
    requires Wiring(halves) && IsStep(a) && IsStep(b) && i < 3 && n <= 4
    requires Drives(r, halves, StepLegs(a, m))
    ensures var s, p, h := Stage(r, Plan(halves, b, m2), n), Plan(halves, b, m2), halves[i];
      !SolidHigh(s, h) &&
      (PwmHigh(s, h) <==> if ModeDone(p, h.high, n) then i == DrivenLeg(b) else i == DrivenLeg(a)) &&
      (s.Latched(h.low) <==> if LatchDone(p, h.low, n) then i == LowLeg(b) else i == LowLeg(a)) &&
      (s.IsOutput(h.low) <==>
        if ModeDone(p, h.low, n) then !(i == DrivenLeg(b) && m2.Complementary?)
        else !(i == DrivenLeg(a) && m.Complementary?))
  {
    AllMidway(r, halves, b, m2, i, n);
    Roles(a, m, i);
    Roles(b, m2, i);
    assert LegHolds(r, halves[i], StepLegs(a, m)[i]);
  }

  /** Break before make: between steps with no leg going straight from PWM to
      solid low, in particular adjacent ones, with any mode change, every
      intermediate point is safe. */
  lemma BreakBeforeMake(r: Registers, halves: seq<Half>, a: int, m: PwmMode, b: int, m2: PwmMode, n: nat)
    requires Wiring(halves) && IsStep(a) && IsStep(b) && n <= 4
    requires Drives(r, halves, StepLegs(a, m))
    requires DrivenLeg(a) != LowLeg(b)
    ensures Safe(Stage(r, Plan(halves, b, m2), n), halves)
  {
    var s, p := Stage(r, Plan(halves, b, m2), n), Plan(halves, b, m2);
    OrderDependsOn(halves, b, m2);
    Roles(a, m, 0);
    Roles(b, m2, 0);
    forall i | 0 <= i < 3
      ensures !(PwmHigh(s, halves[i]) && SolidLow(s, halves[i])) && !SolidHigh(s, halves[i])
      ensures s.Latched(halves[i].low) ==> i == (if n >= 2 then LowLeg(b) else LowLeg(a))
    {
      Intermediate(r, halves, a, m, b, m2, i, n);
    }
  }

  /** In diode mode that condition is also necessary: a jump that takes the driven
      leg straight to solid low turns both its sides on after the latch writes. */
  lemma SafeExactlyWithoutDirectTurn(r: Registers, halves: seq<Half>, a: int, b: int, m2: PwmMode)
    requires Wiring(halves) && IsStep(a) && IsStep(b)
    requires Drives(r, halves, StepLegs(a, Diode))
    ensures (forall n :: 0 <= n <= 4 ==> Safe(Stage(r, Plan(halves, b, m2), n), halves)) <==> DrivenLeg(a) != LowLeg(b)
  {
    if DrivenLeg(a) != LowLeg(b) {
      forall n | 0 <= n <= 4
        ensures Safe(Stage(r, Plan(halves, b, m2), n), halves)
      {
        BreakBeforeMake(r, halves, a, Diode, b, m2, n);
      }
    } else {
      var i := DrivenLeg(a);
      Intermediate(r, halves, a, Diode, b, m2, i, 2);
      var s := Stage(r, Plan(halves, b, m2), 2);
      assert PwmHigh(s, halves[i]) && SolidLow(s, halves[i]);
    }
  }

  predicate SingleDrive(r: Registers, halves: seq<Half>)
    requires |halves| == 3
  {
    forall i, j :: 0 <= i < j < 3 ==> !(PwmHigh(r, halves[i]) && PwmHigh(r, halves[j]))
  }

  /** The one wiring in which the incoming drive is enabled first: it leaves port B
      for a complementary leg whose high side is on A and whose low side is on B. */
  predicate OverlappingHandoff(halves: seq<Half>, a: int, b: int, m2: PwmMode)
    requires |halves| == 3 && IsStep(a) && IsStep(b)
  {
    DrivenLeg(a) != DrivenLeg(b) && halves[DrivenLeg(a)].high.portB && !halves[DrivenLeg(b)].high.portB &&
    m2.Complementary? && halves[DrivenLeg(b)].low.portB
  }

  /** In such a handoff both high sides are in PWM after the third write. */
  lemma OverlapAfterThirdWrite(r: Registers, halves: seq<Half>, a: int, m: PwmMode, b: int, m2: PwmMode)
    requires Wiring(halves) && IsStep(a) && IsStep(b) && OverlappingHandoff(halves, a, b, m2)
    requires Drives(r, halves, StepLegs(a, m))
    ensures !SingleDrive(Stage(r, Plan(halves, b, m2), 3), halves)
  {
    OrderDependsOn(halves, b, m2);
    Intermediate(r, halves, a, m, b, m2, DrivenLeg(a), 3);
    Intermediate(r, halves, a, m, b, m2, DrivenLeg(b), 3);
    var s := Stage(r, Plan(halves, b, m2), 3);
    assert PwmHigh(s, halves[DrivenLeg(a)]) && PwmHigh(s, halves[DrivenLeg(b)]);
  }

  /** At most one high side is in PWM at every point, exactly unless the wiring
      overlaps; so always when the high sides share a port. */
  lemma SingleDriveExactly(r: Registers, halves: seq<Half>, a: int, m: PwmMode, b: int, m2: PwmMode)
    requires Wiring(halves) && IsStep(a) && IsStep(b)
    requires Drives(r, halves, StepLegs(a, m))
    ensures (forall n :: 0 <= n <= 4 ==> SingleDrive(Stage(r, Plan(halves, b, m2), n), halves)) <==>
      !OverlappingHandoff(halves, a, b, m2)
    ensures halves[0].high.portB == halves[1].high.portB == halves[2].high.portB ==>
      !OverlappingHandoff(halves, a, b, m2)
  {
    if OverlappingHandoff(halves, a, b, m2) {
      OverlapAfterThirdWrite(r, halves, a, m, b, m2);
    } else {
      OrderDependsOn(halves, b, m2);
      forall n | 0 <= n <= 4
        ensures SingleDrive(Stage(r, Plan(halves, b, m2), n), halves)
      {
        Intermediate(r, halves, a, m, b, m2, 0, n);
        Intermediate(r, halves, a, m, b, m2, 1, n);
        Intermediate(r, halves, a, m, b, m2, 2, n);
      }
    }
  }

  /** Phase C drives from port B; phase B has its high side on A and its low on B. */
  const OVERLAP_WIRING: seq<Half> :=
    [Half(Pin(false, 0), Pin(false, 1)), Half(Pin(false, 2), Pin(true, 0)), Half(Pin(true, 1), Pin(false, 3))]

  lemma OverlapWired()
    ensures Wiring(OVERLAP_WIRING) && Adjacent(3, 4) && OverlappingHandoff(OVERLAP_WIRING, 3, 4, Complementary)
  {
    var h := OVERLAP_WIRING;
    assert h[0].low.pin == 1 && h[1].high.pin == 2 && h[2].high.pin == 1 && h[2].low.pin == 3;
  }

  /** The exception does occur: on this wiring, the adjacent steps 3 and 4 in
      complementary mode, from the registers the plan of step 3 itself leaves. */
  lemma OverlapOccurs()
    ensures Wiring(OVERLAP_WIRING) && Adjacent(3, 4)
    ensures var r := Stage(Registers({}, {}, {}, {}), Plan(OVERLAP_WIRING, 3, Complementary), 4);
      Drives(r, OVERLAP_WIRING, StepLegs(3, Complementary)) &&
      !SingleDrive(Stage(r, Plan(OVERLAP_WIRING, 4, Complementary), 3), OVERLAP_WIRING)
  {
    hide Stage;
    hide Plan;
    hide SingleDrive;
    hide Drives;
    hide Wiring;
    hide OverlappingHandoff;
    hide StepLegs;
    OverlapWired();
    var start := Registers({}, {}, {}, {});
    EndState(start, OVERLAP_WIRING, 3, Complementary);
    var r := Stage(start, Plan(OVERLAP_WIRING, 3, Complementary), 4);
    OverlapAfterThirdWrite(r, OVERLAP_WIRING, 3, Complementary, 4, Complementary);
  }
}
