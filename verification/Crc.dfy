/** The two 8-bit checksums: CRC-8/DVB-S2 by table (rm32/src/crsf.rs) and the
    KISS telemetry CRC bit by bit (rm32/src/functions.rs). */
module Crc {
  import opened Words

  const DVB_S2: U8 := 0xD5
  const KISS: U8 := 0x07

  /** Xor of two bytes. */
  function Xor8(a: U8, b: U8): (r: U8)
    ensures Xor8(a, b) == Xor(a, b)
  {
    XorBound(a, b, 8);
    Xor(a, b)
  }

  /** `c << 1` in eight bits. */
  function ShiftLeft(c: U8): (r: U8)
    ensures r == (2 * c) % 0x100
  {
    if c >= 0x80 then 2 * c - 0x100 else 2 * c
  }

  /** Multiply the register by x, reducing by the generator: `crc & 0x80` is the
      top bit and `crc << 1` drops it. */
  function ShiftStep(poly: U8, c: U8): U8 {
    if c >= 0x80 then Xor8(ShiftLeft(c), poly) else 2 * c
  }

  function Shift(poly: U8, c: U8, n: nat): U8 {
    if n == 0 then c else ShiftStep(poly, Shift(poly, c, n - 1))
  }

  /** Checksum of `data`, continuing from register `crc`. */
  function CrcFrom(poly: U8, crc: U8, data: seq<U8>): U8
    decreases |data|
  {
    if data == [] then crc else CrcFrom(poly, Shift(poly, Xor8(crc, data[0]), 8), data[1..])
  }

  function CrcOf(poly: U8, data: seq<U8>): U8 { CrcFrom(poly, 0, data) }

  // ----- the source's loops -----

  ghost predicate IsTable(table: seq<U8>) {
    |table| == 256 && forall k :: 0 <= k < 256 ==> table[k] == Shift(DVB_S2, k, 8)
  }

  method BuildTable() returns (table: array<U8>)
    ensures fresh(table) && IsTable(table[..])
  {
    table := new U8[256];
    var i := 0;
    while i < 256
      invariant 0 <= i <= 256
      invariant forall k :: 0 <= k < i ==> table[k] == Shift(DVB_S2, k, 8)
    {
      var crc: U8 := i;
      var j := 0;
      while j < 8
        invariant 0 <= j <= 8
        invariant crc == Shift(DVB_S2, i, j)
      {
        if crc >= 0x80 {
          crc := Xor8(ShiftLeft(crc), 0xD5);
        } else {
          crc := 2 * crc;
        }
        j := j + 1;
      }
      table[i] := crc;
      i := i + 1;
    }
  }

  method Crc8DvbS2(table: array<U8>, data: seq<U8>) returns (crc: U8)
    requires IsTable(table[..])
    ensures crc == CrcOf(DVB_S2, data)
  {
    crc := 0;
    for i := 0 to |data|
      invariant CrcFrom(DVB_S2, crc, data[i..]) == CrcOf(DVB_S2, data)
    {
      assert data[i..][1..] == data[i + 1..];
      crc := table[..][Xor8(crc, data[i])];
    }
  }

  method UpdateCrc8(crc: U8, seed: U8) returns (r: U8)
    ensures r == Shift(KISS, Xor8(crc, seed), 8)
  {
    r := Xor8(crc, seed);
    for i := 0 to 8
      invariant r == Shift(KISS, Xor8(crc, seed), i)
    {
      XorCommutes(0x07, ShiftLeft(r));
      r := if r >= 0x80 then Xor8(0x07, ShiftLeft(r)) else 2 * r;
    }
  }

  method GetCrc8(buf: seq<U8>) returns (crc: U8)
    ensures crc == CrcOf(KISS, buf)
  {
    crc := 0;
    for i := 0 to |buf|
      invariant CrcFrom(KISS, crc, buf[i..]) == CrcOf(KISS, buf)
    {
      assert buf[i..][1..] == buf[i + 1..];
      XorCommutes(buf[i], crc);
      crc := UpdateCrc8(buf[i], crc);
    }
  }

  // ----- polynomials over GF(2), highest coefficient first -----

  function Zeros(n: nat): (z: seq<bool>)
    ensures |z| == n && forall i :: 0 <= i < n ==> !z[i]
  {
    seq(n, i => false)
  }

  function Add(a: seq<bool>, b: seq<bool>): (c: seq<bool>)
    requires |a| == |b|
    ensures |c| == |a| && forall i :: 0 <= i < |a| ==> c[i] == (a[i] != b[i])
  {
    seq(|a|, i requires 0 <= i < |a| => a[i] != b[i])
  }

  /** Product with a polynomial of degree 8, by Horner's rule. */
  function Times(q: seq<bool>, g: seq<bool>): (p: seq<bool>)
    requires |g| == 9
    ensures |p| == |q| + 8
  {
    if q == [] then Zeros(8)
    else
      var n := |q| - 1;
      Add(Times(q[..n], g) + [false], Zeros(n) + (if q[n] then g else Zeros(9)))
  }

  ghost predicate IsDivision(g: seq<bool>, m: seq<bool>, q: seq<bool>, r: seq<bool>)
    requires |g| == 9
  {
    |r| == 8 && |q| == |m| && m + Zeros(8) == Add(Times(q, g), Zeros(|m|) + r)
  }

  /** `r` is the remainder of m(x) * x^8 modulo g(x): m * x^8 = q * g + r. */
  ghost predicate IsRemainder(g: seq<bool>, m: seq<bool>, r: seq<bool>)
    requires |g| == 9
  {
    exists q: seq<bool> :: IsDivision(g, m, q, r)
  }

  /** The coefficients of a byte, most significant bit first. */
  function Bits(c: U8): (b: seq<bool>)
    ensures |b| == 8
  {
    seq(8, j requires 0 <= j < 8 => Bit(c, 7 - j))
  }

  function MessageBits(data: seq<U8>): seq<bool> {
    if data == [] then [] else Bits(data[0]) + MessageBits(data[1..])
  }

  /** x^8 followed by the low coefficients in `poly`. */
  function Generator(poly: U8): (g: seq<bool>)
    ensures |g| == 9
  {
    [true] + Bits(poly)
  }

  /** Long division, one coefficient of the message at a time. */
  function BitStep(poly: U8, c: U8, bit: bool): U8 {
    ShiftStep(poly, if bit then Xor8(c, 0x80) else c)
  }

  lemma ToggleTop(c: U8)
    ensures Xor8(c, 0x80) == if c >= 0x80 then c - 0x80 else c + 0x80
  {
    hide Xor;
    var low, top := c % 0x80, c / 0x80;
    SplitAtBit7(low, top, 0, 1);
    XorUnits(low);
    XorBits(top, 1);
  }

  lemma TopBit(c: U8)
    ensures Bit(c, 7) == (c >= 0x80)
    ensures Bits(c)[0] == (c >= 0x80)
  {
    assert Pow2(7) == 0x80;
  }

  lemma ShiftedBit(c: U8, k: nat)
    requires k < 8
    ensures Bit(ShiftLeft(c), k) == (k > 0 && Bit(c, k - 1))
  {
    if k == 0 {
      assert Pow2(0) == 1;
    } else {
      HalvingDrops(ShiftLeft(c), k - 1);
      if c >= 0x80 {
        LowBitsOnly(c - 0x80, 1, k - 1);
        assert ShiftLeft(c) / 2 == c - 0x80;
      } else {
        assert ShiftLeft(c) / 2 == c;
      }
    }
  }

  /** Bits below position 7 do not see what is added above. */
  lemma LowBitsOnly(low: nat, high: nat, k: nat)
    requires k < 7
    ensures Bit(low + 0x80 * high, k) == Bit(low, k)
  {
    var p, e := Pow2(k), Pow2(6 - k);
    SplitByte(k);
    Expand(p, e, high);
    hide Pow2;
    AddMultiples(low, p, 2 * (e * high));
    EvenMultiple(low / p, e * high);
  }

  lemma SplitByte(k: nat)
    requires k < 7
    ensures Pow2(k) * (2 * Pow2(6 - k)) == 0x80
  {
    Pow2Adds(k, 7 - k);
    assert Pow2(7) == 0x80;
    assert Pow2(7 - k) == 2 * Pow2(6 - k);
  }

  lemma EvenMultiple(x: nat, t: int)
    ensures (x + 2 * t) % 2 == x % 2
  {
  }

  lemma Expand(p: int, e: int, high: int)
    ensures (p * (2 * e)) * high == (2 * (e * high)) * p
  {
  }

  lemma AddMultiples(low: int, p: int, t: int)
    requires p > 0
    ensures (low + t * p) / p == low / p + t
  {
    DivMod(low, p);
    assert low + t * p == (low / p + t) * p + low % p;
    ModUnique(low + t * p, p, low / p + t, low % p);
  }

  lemma ShiftStepBit(poly: U8, c: U8, k: nat)
    requires k < 8
    ensures Bit(ShiftStep(poly, c), k) == ((k > 0 && Bit(c, k - 1)) != (Bit(c, 7) && Bit(poly, k)))
  {
    TopBit(c);
    ShiftedBit(c, k);
    if c >= 0x80 {
      XorBit(ShiftLeft(c), poly, k);
    }
  }

  /** A bit step subtracts the generator when the leading coefficient and the
      incoming bit differ. */
  lemma BitStepBit(poly: U8, c: U8, bit: bool, k: nat)
    requires k < 8
    ensures Bit(BitStep(poly, c, bit), k) ==
      ((k > 0 && Bit(c, k - 1)) != ((Bit(c, 7) != bit) && Bit(poly, k)))
  {
    if bit {
      var toggled := Xor8(c, 0x80);
      ShiftStepBit(poly, toggled, k);
      ToggleTop(c);
      TopBit(c);
      TopBit(toggled);
      if k > 0 {
        if c >= 0x80 {
          LowBitsOnly(toggled, 1, k - 1);
        } else {
          LowBitsOnly(c, 1, k - 1);
        }
      }
    } else {
      ShiftStepBit(poly, c, k);
    }
  }

  lemma TimesAppend(q: seq<bool>, t: bool, g: seq<bool>, i: nat)
    requires |g| == 9 && i < |q| + 9
    ensures Times(q + [t], g)[i] ==
      ((i < |q| + 8 && Times(q, g)[i]) != (i >= |q| && t && g[i - |q|]))
  {
    var n, q' := |q|, q + [t];
    assert q'[..n] == q;
    assert Times(q', g) == Add(Times(q, g) + [false], Zeros(n) + (if t then g else Zeros(9)));
  }

  lemma DivisionAt(g: seq<bool>, m: seq<bool>, q: seq<bool>, r: seq<bool>, i: nat)
    requires |g| == 9 && IsDivision(g, m, q, r) && i < |m| + 8
    ensures (i < |m| && m[i]) == (Times(q, g)[i] != (i >= |m| && r[i - |m|]))
  {
    assert (m + Zeros(8))[i] == Add(Times(q, g), Zeros(|m|) + r)[i];
  }

  lemma DivideOneBit(g: seq<bool>, m: seq<bool>, q: seq<bool>, r: seq<bool>, bit: bool, next: seq<bool>)
    requires |g| == 9 && g[0] && IsDivision(g, m, q, r) && |next| == 8
    requires forall j :: 0 <= j < 8 ==>
      next[j] == ((j < 7 && r[j + 1]) != ((r[0] != bit) && g[j + 1]))
    ensures IsDivision(g, m + [bit], q + [r[0] != bit], next)
  {
    hide Times;
    var n, t := |m|, r[0] != bit;
    var lhs := (m + [bit]) + Zeros(8);
    var rhs := Add(Times(q + [t], g), Zeros(n + 1) + next);
    forall i | 0 <= i < n + 9
      ensures lhs[i] == rhs[i]
    {
      TimesAppend(q, t, g, i);
      if i < n + 8 {
        DivisionAt(g, m, q, r, i);
      }
    }
    assert lhs == rhs;
  }

  lemma BitStepDivides(poly: U8, m: seq<bool>, c: U8, bit: bool)
    requires IsRemainder(Generator(poly), m, Bits(c))
    ensures IsRemainder(Generator(poly), m + [bit], Bits(BitStep(poly, c, bit)))
  {
    hide BitStep;
    hide Bit;
    hide IsDivision;
    var g := Generator(poly);
    var q :| IsDivision(g, m, q, Bits(c));
    forall j | 0 <= j < 8
      ensures Bits(BitStep(poly, c, bit))[j] ==
        ((j < 7 && Bits(c)[j + 1]) != ((Bits(c)[0] != bit) && g[j + 1]))
    {
      BitStepBit(poly, c, bit, 7 - j);
    }
    DivideOneBit(g, m, q, Bits(c), bit, Bits(BitStep(poly, c, bit)));
  }

  // ----- a byte at a time is eight bits at a time -----

  /** The register after the `k` most significant bits of `b`. */
  function BitSteps(poly: U8, c: U8, b: U8, k: nat): U8
    requires k <= 8
  {
    if k == 0 then c else BitStep(poly, BitSteps(poly, c, b, k - 1), Bits(b)[k - 1])
  }

  /** `b` after its `k` most significant bits are gone. */
  function Drop(b: U8, k: nat): U8 {
    if k == 0 then b else ShiftLeft(Drop(b, k - 1))
  }

  /** A byte as its low seven bits and its top bit. */
  lemma XorTop(a0: nat, a1: nat, b0: nat, b1: nat)
    requires a0 < 0x80 && a1 <= 1 && b0 < 0x80 && b1 <= 1
    ensures Xor(a0 + 0x80 * a1, b0 + 0x80 * b1) == Xor(a0, b0) + (if a1 == b1 then 0 else 0x80)
    ensures Xor(a0, b0) < 0x80
    ensures Xor(2 * a0, 2 * b0) == 2 * Xor(a0, b0)
  {
    hide Xor;
    SplitAtBit7(a0, a1, b0, b1);
    XorBits(a1, b1);
    XorHalves(2 * a0, 2 * b0);
  }

  lemma SplitAtBit7(a0: nat, a1: nat, b0: nat, b1: nat)
    requires a0 < 0x80 && b0 < 0x80
    ensures Xor(a0 + 0x80 * a1, b0 + 0x80 * b1) == Xor(a0, b0) + 0x80 * Xor(a1, b1)
    ensures Xor(a0, b0) < 0x80
  {
    assert Pow2(7) == 0x80;
    XorSplits(7, a0, a1, b0, b1);
    XorBound(a0, b0, 7);
  }

  lemma XorShifted(a: U8, b: U8)
    ensures (Xor8(a, b) >= 0x80) == ((a >= 0x80) != (b >= 0x80))
    ensures ShiftLeft(Xor8(a, b)) == Xor8(ShiftLeft(a), ShiftLeft(b))
  {
    hide Xor;
    var a1, b1 := if a >= 0x80 then 1 else 0, if b >= 0x80 then 1 else 0;
    XorTop(a - 0x80 * a1, a1, b - 0x80 * b1, b1);
  }

  lemma XorSwap(a: nat, b: nat, c: nat)
    ensures Xor(Xor(a, b), c) == Xor(Xor(a, c), b)
  {
    XorAssociates(a, b, c);
    XorCommutes(b, c);
    XorAssociates(a, c, b);
  }

  lemma PeelBit(poly: U8, r: U8, x: U8)
    ensures ShiftStep(poly, Xor8(r, x)) == Xor8(BitStep(poly, r, x >= 0x80), ShiftLeft(x))
  {
    XorShifted(r, x);
    ToggleTop(r);
    assert ShiftLeft(Xor8(r, 0x80)) == ShiftLeft(r);
    XorSwap(ShiftLeft(r), ShiftLeft(x), poly);
  }

  lemma {:induction false} DropBit(b: U8, k: nat, i: nat)
    requires k <= 8 && i < 8
    ensures Bit(Drop(b, k), i) == (i >= k && Bit(b, i - k))
    decreases k
  {
    if k > 0 {
      ShiftedBit(Drop(b, k - 1), i);
      if i > 0 { DropBit(b, k - 1, i - 1); }
    }
  }

  lemma DropTop(b: U8, k: nat)
    requires k < 8
    ensures (Drop(b, k) >= 0x80) == Bits(b)[k]
  {
    DropBit(b, k, 7);
    TopBit(Drop(b, k));
  }

  lemma DropAll(b: U8)
    ensures Drop(b, 8) == 0
  {
    forall i | 0 <= i < 8
      ensures !Bit(Drop(b, 8), i)
    {
      DropBit(b, 8, i);
    }
    assert Pow2(8) == 0x100;
    NoBitsIsZero(Drop(b, 8), 8);
  }

  lemma {:induction false} NoBitsIsZero(x: nat, n: nat)
    requires x < Pow2(n) && forall i :: 0 <= i < n ==> !Bit(x, i)
    ensures x == 0
    decreases n
  {
    if n > 0 {
      assert !Bit(x, 0) && Pow2(0) == 1;
      forall i | 0 <= i < n - 1
        ensures !Bit(x / 2, i)
      {
        HalvingDrops(x, i);
        assert !Bit(x, i + 1);
      }
      NoBitsIsZero(x / 2, n - 1);
    }
  }

  /** XORing the byte in first and shifting eight times is the same as feeding
      its bits one at a time, most significant first. */
  lemma {:induction false} ByteStepIsBitSteps(poly: U8, c: U8, b: U8, k: nat)
    requires k <= 8
    ensures Shift(poly, Xor8(c, b), k) == Xor8(BitSteps(poly, c, b, k), Drop(b, k))
  {
    if k > 0 {
      ByteStepIsBitSteps(poly, c, b, k - 1);
      DropTop(b, k - 1);
      PeelBit(poly, BitSteps(poly, c, b, k - 1), Drop(b, k - 1));
    }
  }

  lemma {:induction false} BitStepsDivide(poly: U8, m: seq<bool>, c: U8, b: U8, k: nat)
    requires k <= 8 && IsRemainder(Generator(poly), m, Bits(c))
    ensures IsRemainder(Generator(poly), m + Bits(b)[..k], Bits(BitSteps(poly, c, b, k)))
  {
    if k == 0 {
      assert m + Bits(b)[..0] == m;
    } else {
      BitStepsDivide(poly, m, c, b, k - 1);
      BitStepDivides(poly, m + Bits(b)[..k - 1], BitSteps(poly, c, b, k - 1), Bits(b)[k - 1]);
      TakeOneMore(m, Bits(b), k);
    }
  }

  lemma TakeOneMore(m: seq<bool>, s: seq<bool>, k: nat)
    requires 0 < k <= |s|
    ensures (m + s[..k - 1]) + [s[k - 1]] == m + s[..k]
  {
  }

  lemma {:induction false} CrcFromDivides(poly: U8, m: seq<bool>, c: U8, data: seq<U8>)
    requires IsRemainder(Generator(poly), m, Bits(c))
    ensures IsRemainder(Generator(poly), m + MessageBits(data), Bits(CrcFrom(poly, c, data)))
    decreases |data|
  {
    if data == [] {
      assert m + [] == m;
    } else {
      var b := data[0];
      BitStepsDivide(poly, m, c, b, 8);
      ByteStepIsBitSteps(poly, c, b, 8);
      DropAll(b);
      XorUnits(BitSteps(poly, c, b, 8));
      assert Bits(b)[..8] == Bits(b);
      CrcFromDivides(poly, m + Bits(b), Shift(poly, Xor8(c, b), 8), data[1..]);
      assert m + Bits(b) + MessageBits(data[1..]) == m + MessageBits(data);
    }
  }

  lemma {:induction false} QuotientIsUnique(g: seq<bool>, q: seq<bool>, q': seq<bool>)
    requires |g| == 9 && g[0] && |q| == |q'|
    requires forall i :: 0 <= i < |q| ==> Times(q, g)[i] == Times(q', g)[i]
    ensures q == q'
  {
    if q != [] {
      var n := |q| - 1;
      var a, b := q[..n], q'[..n];
      assert q == a + [q[n]] && q' == b + [q'[n]];
      forall i | 0 <= i <= n
        ensures Times(q, g)[i] == (Times(a, g)[i] != (i == n && q[n]))
        ensures Times(q', g)[i] == (Times(b, g)[i] != (i == n && q'[n]))
      {
        TimesAppend(a, q[n], g, i);
        TimesAppend(b, q'[n], g, i);
      }
      forall i | 0 <= i < n
        ensures Times(a, g)[i] == Times(b, g)[i]
      {
        assert Times(q, g)[i] == Times(q', g)[i];
      }
      QuotientIsUnique(g, a, b);
      assert Times(q, g)[n] == Times(q', g)[n];
    }
  }

  lemma RemainderIsUnique(g: seq<bool>, m: seq<bool>, r: seq<bool>, r': seq<bool>)
    requires |g| == 9 && g[0]
    requires IsRemainder(g, m, r) && IsRemainder(g, m, r')
    ensures r == r'
  {
    var q :| IsDivision(g, m, q, r);
    var q' :| IsDivision(g, m, q', r');
    forall i | 0 <= i < |m|
      ensures Times(q, g)[i] == Times(q', g)[i]
    {
      DivisionAt(g, m, q, r, i);
      DivisionAt(g, m, q', r', i);
    }
    QuotientIsUnique(g, q, q');
    SameQuotient(g, m, q, r, r');
  }

  lemma SameQuotient(g: seq<bool>, m: seq<bool>, q: seq<bool>, r: seq<bool>, r': seq<bool>)
    requires |g| == 9 && IsDivision(g, m, q, r) && IsDivision(g, m, q, r')
    ensures r == r'
  {
    forall j | 0 <= j < 8
      ensures r[j] == r'[j]
    {
      DivisionAt(g, m, q, r, |m| + j);
      DivisionAt(g, m, q, r', |m| + j);
    }
  }

  /** The checksum is the remainder of the message polynomial times x^8: it is
      one, and there is no other. */
  lemma CrcIsRemainder(poly: U8, data: seq<U8>)
    ensures IsRemainder(Generator(poly), MessageBits(data), Bits(CrcOf(poly, data)))
    ensures forall r :: IsRemainder(Generator(poly), MessageBits(data), r) ==> r == Bits(CrcOf(poly, data))
  {
    var g, m := Generator(poly), MessageBits(data);
    assert IsDivision(g, [], [], Bits(0)) by {
      assert [] + Zeros(8) == Add(Times([], g), Zeros(0) + Bits(0));
    }
    CrcFromDivides(poly, [], 0, data);
    assert [] + m == m;
    forall r | IsRemainder(g, m, r)
      ensures r == Bits(CrcOf(poly, data))
    {
      RemainderIsUnique(g, m, r, Bits(CrcOf(poly, data)));
    }
  }

  // ----- error detection -----

  lemma ShiftStepInjective(poly: U8, a: U8, b: U8)
    requires poly % 2 == 1 && a != b
    ensures ShiftStep(poly, a) != ShiftStep(poly, b)
  {
    XorHalves(ShiftLeft(a), poly);
    XorHalves(ShiftLeft(b), poly);
    XorCancels(ShiftLeft(a), poly);
    XorCancels(ShiftLeft(b), poly);
  }

  lemma {:induction false} ShiftInjective(poly: U8, a: U8, b: U8, n: nat)
    requires poly % 2 == 1 && a != b
    ensures Shift(poly, a, n) != Shift(poly, b, n)
  {
    if n > 0 {
      ShiftInjective(poly, a, b, n - 1);
      ShiftStepInjective(poly, Shift(poly, a, n - 1), Shift(poly, b, n - 1));
    }
  }

  lemma {:induction false} DifferentRegistersStayDifferent(poly: U8, a: U8, b: U8, data: seq<U8>)
    requires poly % 2 == 1 && a != b
    ensures CrcFrom(poly, a, data) != CrcFrom(poly, b, data)
    decreases |data|
  {
    if data != [] {
      XorCancels(a, data[0]);
      XorCancels(b, data[0]);
      ShiftInjective(poly, Xor8(a, data[0]), Xor8(b, data[0]), 8);
      DifferentRegistersStayDifferent(poly, Shift(poly, Xor8(a, data[0]), 8), Shift(poly, Xor8(b, data[0]), 8),
        data[1..]);
    }
  }

  lemma {:induction false} CrcFromSplits(poly: U8, c: U8, a: seq<U8>, b: seq<U8>)
    ensures CrcFrom(poly, c, a + b) == CrcFrom(poly, CrcFrom(poly, c, a), b)
    decreases |a|
  {
    if a == [] {
      assert a + b == b;
    } else {
      assert (a + b)[1..] == a[1..] + b;
      CrcFromSplits(poly, Shift(poly, Xor8(c, a[0]), 8), a[1..], b);
    }
  }

  lemma {:induction false} ZeroShifts(poly: U8, n: nat)
    ensures Shift(poly, 0, n) == 0
  {
    if n > 0 { ZeroShifts(poly, n - 1); }
  }

  lemma CrcOfOneByte(poly: U8, c: U8, x: U8)
    ensures CrcFrom(poly, c, [x]) == Shift(poly, Xor8(c, x), 8)
  {
    assert CrcFrom(poly, c, [x]) == CrcFrom(poly, Shift(poly, Xor8(c, x), 8), [x][1..]);
  }

  /** A message followed by its checksum has checksum zero. */
  lemma MessageWithCrcIsZero(poly: U8, data: seq<U8>)
    ensures CrcOf(poly, data + [CrcOf(poly, data)]) == 0
  {
    var c := CrcOf(poly, data);
    CrcFromSplits(poly, 0, data, [c]);
    CrcOfOneByte(poly, c, c);
    XorUnits(c);
    ZeroShifts(poly, 8);
  }

  lemma CrcThroughByte(poly: U8, before: seq<U8>, x: U8, after: seq<U8>)
    ensures CrcOf(poly, before + [x] + after) == CrcFrom(poly, Shift(poly, Xor8(CrcOf(poly, before), x), 8), after)
  {
    CrcFromSplits(poly, 0, before + [x], after);
    CrcFromSplits(poly, 0, before, [x]);
    CrcOfOneByte(poly, CrcOf(poly, before), x);
  }

  lemma FirstByteMatters(poly: U8, c: U8, x: U8, y: U8, after: seq<U8>)
    requires poly % 2 == 1 && x != y
    ensures CrcFrom(poly, Shift(poly, Xor8(c, x), 8), after) != CrcFrom(poly, Shift(poly, Xor8(c, y), 8), after)
  {
    XorCommutes(c, x);
    XorCommutes(c, y);
    XorCancels(x, c);
    XorCancels(y, c);
    ShiftInjective(poly, Xor8(c, x), Xor8(c, y), 8);
    DifferentRegistersStayDifferent(poly, Shift(poly, Xor8(c, x), 8), Shift(poly, Xor8(c, y), 8), after);
  }

  /** Changing one byte anywhere in a message of any length changes the checksum, for
      every generator with constant term 1; both of the source's have it. */
  lemma SingleByteChangeDetected(poly: U8, before: seq<U8>, x: U8, y: U8, after: seq<U8>)
    requires poly % 2 == 1 && x != y
    ensures CrcOf(poly, before + [x] + after) != CrcOf(poly, before + [y] + after)
  {
    CrcThroughByte(poly, before, x, after);
    CrcThroughByte(poly, before, y, after);
    FirstByteMatters(poly, CrcOf(poly, before), x, y, after);
  }
}
