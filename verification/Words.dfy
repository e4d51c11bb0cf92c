/** Fixed-width unsigned words and the powers of two behind every shift. */
module Words {

  type U8 = x: int | 0 <= x < 0x100
  type U16 = x: int | 0 <= x < 0x1_0000
  type U32 = x: int | 0 <= x < 0x1_0000_0000
  type U64 = x: int | 0 <= x < 0x1_0000_0000_0000_0000
  type I32 = x: int | -0x8000_0000 <= x < 0x8000_0000

  datatype Option<+T> = None | Some(value: T)

  function Min(a: int, b: int): int { if a <= b then a else b }

  function Max(a: int, b: int): int { if a >= b then a else b }

  /** A truncating cast to 16 bits; also the release-build meaning of a `u16` sum. */
  function Wrap16(x: int): (r: U16) { x % 0x1_0000 }

  function Wrap8(x: int): (r: U8) { x % 0x100 }

  function Wrap32(x: int): (r: U32) { x % 0x1_0000_0000 }

  function SaturatingSub(a: nat, b: nat): (r: nat)
    ensures r <= a
  {
    if a <= b then 0 else a - b
  }

  function Pow2(n: nat): (p: nat)
    ensures p >= 1
  {
    if n == 0 then 1 else 2 * Pow2(n - 1)
  }

  lemma {:induction false} Pow2Adds(a: nat, b: nat)
    ensures Pow2(a + b) == Pow2(a) * Pow2(b)
  {
    if a > 0 {
      Pow2Adds(a - 1, b);
      assert Pow2(a + b) == 2 * Pow2(a - 1 + b);
    }
  }

  lemma Pow2Of32()
    ensures Pow2(16) == 0x1_0000 && Pow2(32) == 0x1_0000_0000
  {
    assert Pow2(8) == 0x100;
    Pow2Adds(8, 8);
    Pow2Adds(16, 16);
  }

  lemma {:induction false} Pow2Monotone(a: nat, b: nat)
    requires a <= b
    ensures Pow2(a) <= Pow2(b)
  {
    if a < b { Pow2Monotone(a, b - 1); }
  }

  /** Floor division by a positive constant is determined by its remainder bounds. */
  lemma QuotientUnique(x: int, d: int, q: int)
    requires d > 0
    requires q * d <= x < q * d + d
    ensures x / d == q
  {
    var e := x / d - q;
    assert d * e == d * (x / d) - q * d;
    assert -d < d * e < d;
    FactorIsZero(d, e);
  }

  lemma FactorIsZero(d: int, e: int)
    requires d > 0
    requires -d < d * e < d
    ensures e == 0
  {
    assert e >= 1 ==> d * e >= d * 1;
    assert e <= -1 ==> d * e <= d * -1;
  }

  lemma DivMod(x: int, d: int)
    requires d > 0
    ensures x == (x / d) * d + x % d
    ensures 0 <= x % d < d
  {
  }

  lemma ModUnique(x: int, d: int, q: int, r: int)
    requires d > 0
    requires x == q * d + r && 0 <= r < d
    ensures x % d == r && x / d == q
  {
    QuotientUnique(x, d, q);
  }

  lemma ModShift(x: int, d: int, k: int)
    requires d > 0
    ensures (x + k * d) % d == x % d
  {
    var q, r := x / d, x % d;
    assert x + k * d == (q + k) * d + r;
    ModUnique(x + k * d, d, q + k, r);
  }


  lemma ProductBelow(x: nat, p: nat, xMax: nat, pMax: nat)
    requires x <= xMax && p <= pMax
    ensures 0 <= x * p <= xMax * pMax
  {
    assert x * p <= xMax * p <= xMax * pMax;
  }

  // ----- bitwise operations on naturals -----

  /** Bit `k` of `x`, counting from the least significant. */
  predicate Bit(x: nat, k: nat) { (x / Pow2(k)) % 2 == 1 }

  function Xor(a: nat, b: nat): nat
    decreases a + b
  {
    if a == 0 && b == 0 then 0 else (if a % 2 == b % 2 then 0 else 1) + 2 * Xor(a / 2, b / 2)
  }

  function Or(a: nat, b: nat): nat
    decreases a + b
  {
    if a == 0 && b == 0 then 0 else (if a % 2 == 0 && b % 2 == 0 then 0 else 1) + 2 * Or(a / 2, b / 2)
  }

  lemma HalvingDrops(x: nat, k: nat)
    ensures x / Pow2(k + 1) == (x / 2) / Pow2(k)
  {
    var p, y := Pow2(k), x / 2;
    DivMod(y, p);
    var q, r := y / p, y % p;
    Double(q, p);
    QuotientUnique(x, 2 * p, q);
  }

  lemma Double(q: int, p: int)
    ensures q * (2 * p) == 2 * (q * p)
  {
  }

  lemma {:induction false} XorBit(a: nat, b: nat, k: nat)
    ensures Bit(Xor(a, b), k) == (Bit(a, k) != Bit(b, k))
    decreases k
  {
    if k > 0 {
      XorBit(a / 2, b / 2, k - 1);
      HalvingDrops(a, k - 1);
      HalvingDrops(b, k - 1);
      HalvingDrops(Xor(a, b), k - 1);
      assert Xor(a, b) / 2 == Xor(a / 2, b / 2);
    }
  }

  lemma {:induction false} XorBound(a: nat, b: nat, n: nat)
    requires a < Pow2(n) && b < Pow2(n)
    ensures Xor(a, b) < Pow2(n)
    decreases n
  {
    if n > 0 { XorBound(a / 2, b / 2, n - 1); }
  }

  lemma {:induction false} XorCommutes(a: nat, b: nat)
    ensures Xor(a, b) == Xor(b, a)
    decreases a + b
  {
    if a != 0 || b != 0 { XorCommutes(a / 2, b / 2); }
  }

  lemma XorHalves(a: nat, b: nat)
    ensures Xor(a, b) / 2 == Xor(a / 2, b / 2)
    ensures Xor(a, b) % 2 == if a % 2 == b % 2 then 0 else 1
  {
  }

  lemma SameHalves(x: nat, y: nat)
    requires x / 2 == y / 2 && x % 2 == y % 2
    ensures x == y
  {
  }

  lemma {:induction false} XorAssociates(a: nat, b: nat, c: nat)
    ensures Xor(Xor(a, b), c) == Xor(a, Xor(b, c))
    decreases a + b + c
  {
    if a != 0 || b != 0 || c != 0 {
      XorAssociates(a / 2, b / 2, c / 2);
      XorHalves(a, b);
      XorHalves(b, c);
      XorHalves(Xor(a, b), c);
      XorHalves(a, Xor(b, c));
      SameHalves(Xor(Xor(a, b), c), Xor(a, Xor(b, c)));
    }
  }

  lemma {:induction false} XorUnits(a: nat)
    ensures Xor(a, 0) == a && Xor(0, a) == a && Xor(a, a) == 0
  {
    if a != 0 { XorUnits(a / 2); }
  }

  lemma XorBits(a: nat, b: nat)
    requires a <= 1 && b <= 1
    ensures Xor(a, b) == if a == b then 0 else 1
  {
  }

  lemma XorCancels(a: nat, x: nat)
    ensures Xor(Xor(a, x), x) == a
  {
    XorAssociates(a, x, x);
    XorUnits(x);
    XorUnits(a);
  }

  /** Xor acts separately above and below bit `n`. */
  lemma XorSplitStep(p: nat, q: nat, a: nat, s: nat, b: nat, t: nat)
    requires q == 2 * p
    requires Xor(a / 2 + p * s, b / 2 + p * t) == Xor(a / 2, b / 2) + p * Xor(s, t)
    ensures Xor(a + q * s, b + q * t) == Xor(a, b) + q * Xor(s, t)
  {
    hide Xor;
    DoubleSplit(a, p, s);
    DoubleSplit(b, p, t);
    XorHalves(a, b);
    XorHalves(a + q * s, b + q * t);
    DoubleSplit(Xor(a, b), p, Xor(s, t));
    SameHalves(Xor(a + q * s, b + q * t), Xor(a, b) + q * Xor(s, t));
  }

  lemma {:induction false} XorSplits(n: nat, a: nat, s: nat, b: nat, t: nat)
    requires a < Pow2(n) && b < Pow2(n)
    ensures Xor(a + Pow2(n) * s, b + Pow2(n) * t) == Xor(a, b) + Pow2(n) * Xor(s, t)
    decreases n
  {
    if n == 0 {
      XorUnits(0);
    } else {
      hide Xor;
      XorSplits(n - 1, a / 2, s, b / 2, t);
      XorSplitStep(Pow2(n - 1), Pow2(n), a, s, b, t);
    }
  }

  lemma DoubleSplit(a: nat, p: nat, s: nat)
    ensures (a + (2 * p) * s) / 2 == a / 2 + p * s
    ensures (a + (2 * p) * s) % 2 == a % 2
    ensures p * s >= 0 && (2 * p) * s >= 0
  {
    assert (2 * p) * s == 2 * (p * s);
    assert p * s >= 0;
  }

  /** Disjoint bit ranges: `|` is `+`. */
  lemma {:induction false} OrOfDisjoint(low: nat, high: nat, n: nat)
    requires low < Pow2(n)
    ensures Or(low, Pow2(n) * high) == low + Pow2(n) * high
    decreases n
  {
    if n == 0 {
      OrZero(high);
    } else {
      var p := Pow2(n - 1);
      OrOfDisjoint(low / 2, high, n - 1);
      DoubleSplit(0, p, high);
      assert Pow2(n) * high == (2 * p) * high;
    }
  }

  lemma {:induction false} OrZero(high: nat)
    ensures Or(0, high) == high
  {
    if high != 0 { OrZero(high / 2); }
  }
}
