/** The multiply-free exponential filter of the ADC readings (rm32/src/filter.rs):
    Q16.16 state in a `u32`, weight 1/2^k for a new sample. */
module Filter {
  import opened Words

  const ONE := 0x1_0000

  /** The exact signed update: move 1/2^k of the way to the sample, rounding down. */
  function Smooth(k: nat, bits: int, sample: int): int {
    bits + (sample * ONE - bits) / Pow2(k)
  }

  /** State after a whole run of samples; the first one is taken as it is. */
  function State(k: nat, samples: seq<U16>): int
    requires samples != []
  {
    var last := |samples| - 1;
    if last == 0 then samples[0] * ONE else Smooth(k, State(k, samples[..last]), samples[last])
  }

  class EwmaPow2 {
    const k: nat
    var bits: U32
    var initialized: bool
    ghost var fed: seq<U16>

    ghost predicate Valid()
      reads this
    {
      1 <= k <= 16 && initialized == (fed != []) && bits <= 0xFFFF * ONE &&
      (initialized ==> bits == State(k, fed))
    }

    constructor (k: nat)
      requires 1 <= k <= 16
      ensures Valid() && this.k == k && fed == []
    {
      this.k := k;
      bits, initialized, fed := 0, false, [];
    }

    /** The source's unsigned arithmetic, every step typed `U32`. */
    method Update(sample: U16) returns (filtered: U16)
      requires Valid()
      modifies this
      ensures Valid() && fed == old(fed) + [sample]
      ensures filtered == State(k, fed) / ONE
    {
      hide Pow2;
      hide Smooth;
      fed := fed + [sample];
      if !initialized {
        bits := sample * ONE;
        initialized := true;
        return sample;
      }
      ghost var before := fed[..|fed| - 1];
      assert before == old(fed);
      UnsignedUpdateIsExact(k, bits, sample);
      SmoothStaysBetween(k, bits, sample);
      var ceilingBias: U32 := bits + (Pow2(k) - 1);
      var decayed: U32 := bits - ceilingBias / Pow2(k);
      bits := decayed + sample * Pow2(16 - k);
      filtered := bits / ONE;
    }
  }

  lemma CeilingIsNegatedFloor(x: int, p: int)
    requires p > 0
    ensures (x + (p - 1)) / p == -((-x) / p)
  {
    var q, r := (-x) / p, (-x) % p;
    assert (-q) * p == -(q * p);
    if r == 0 {
      ModUnique(x + (p - 1), p, -q, p - 1);
    } else {
      ModUnique(x + (p - 1), p, -q, p - 1 - r);
    }
  }

  lemma Bounds(k: nat)
    requires 1 <= k <= 16
    ensures Pow2(k) * Pow2(16 - k) == ONE && Pow2(k) <= ONE
  {
    Pow2Adds(k, 16 - k);
    Pow2Monotone(k, 16);
    assert Pow2(16) == ONE by {
      assert Pow2(8) == 0x100;
      Pow2Adds(8, 8);
    }
  }

  /** The unsigned evaluation never leaves `u32` and equals the signed update. */
  lemma UnsignedUpdateIsExact(k: nat, bits: int, sample: int)
    requires 1 <= k <= 16
    requires 0 <= bits <= 0xFFFF * ONE && 0 <= sample <= 0xFFFF
    ensures bits + (Pow2(k) - 1) < 0x1_0000_0000
    ensures 0 <= (bits + (Pow2(k) - 1)) / Pow2(k) <= bits
    ensures 0 <= sample * Pow2(16 - k)
    ensures bits - (bits + (Pow2(k) - 1)) / Pow2(k) + sample * Pow2(16 - k) == Smooth(k, bits, sample)
  {
    hide Pow2;
    Bounds(k);
    UpdateWith(bits, sample, Pow2(k), Pow2(16 - k));
  }

  /** The same for any split of 2^16 into two factors. */
  lemma UpdateWith(bits: int, sample: int, p: nat, r: nat)
    requires p * r == ONE && 1 <= p <= ONE
    requires 0 <= bits <= 0xFFFF * ONE && 0 <= sample
    ensures bits + (p - 1) < 0x1_0000_0000
    ensures 0 <= (bits + (p - 1)) / p <= bits
    ensures 0 <= sample * r
    ensures bits - (bits + (p - 1)) / p + sample * r == bits + (sample * ONE - bits) / p
  {
    CeilingIsNegatedFloor(bits, p);
    FloorBetween(-bits, p);
    NonNegativeProduct(sample, r);
    Regroup(sample, r, p);
    AddMultiple(-bits, sample * r, p);
  }

  lemma Regroup(a: int, b: int, c: int)
    ensures (a * b) * c == a * (c * b)
  {
  }

  lemma AddMultiple(x: int, t: int, p: int)
    requires p > 0
    ensures (t * p + x) / p == t + x / p
  {
    assert t * p + x == (t + x / p) * p + x % p;
    ModUnique(t * p + x, p, t + x / p, x % p);
  }

  lemma Scale(q: int, p: int)
    requires p > 0
    ensures q >= 1 ==> q * p >= q && q * p >= p
    ensures q <= -1 ==> q * p <= -p && q * p + p <= q + 1
    ensures q == 0 ==> q * p == 0
  {
    if q >= 1 {
      NonNegativeProduct(q - 1, p);
      NonNegativeProduct(q, p - 1);
    } else if q <= -1 {
      NonNegativeProduct(-q - 1, p);
      NonNegativeProduct(-q - 1, p - 1);
    }
  }

  lemma NonNegativeProduct(a: int, b: int)
    requires a >= 0 && b >= 0
    ensures a * b >= 0
  {
  }

  ghost predicate FloorFacts(d: int, p: int, q: int) {
    (d >= 0 ==> 0 <= q <= d) &&
    (d < 0 ==> d <= q <= -1) &&
    (d >= p ==> q >= 1) &&
    (0 <= d < p ==> q == 0)
  }

  lemma FloorFactsHold(d: int, p: int, q: int, r: int, product: int)
    requires p > 0 && d == product + r && 0 <= r < p
    requires q >= 1 ==> product >= q && product >= p
    requires q <= -1 ==> product <= -p && product + p <= q + 1
    requires q == 0 ==> product == 0
    ensures FloorFacts(d, p, q)
  {
  }

  lemma FloorBetween(d: int, p: int)
    requires p > 0
    ensures FloorFacts(d, p, d / p)
  {
    DivMod(d, p);
    Scale(d / p, p);
    FloorFactsHold(d, p, d / p, d % p, (d / p) * p);
  }

  lemma SmoothStaysBetween(k: nat, bits: int, sample: int)
    ensures Min(bits, sample * ONE) <= Smooth(k, bits, sample) <= Max(bits, sample * ONE)
  {
    FloorBetween(sample * ONE - bits, Pow2(k));
  }

  /** Over any run, the output lies within the range of the samples seen. */
  lemma {:induction false} OutputWithinSamples(k: nat, samples: seq<U16>, low: int, high: int)
    requires samples != []
    requires forall i :: 0 <= i < |samples| ==> low <= samples[i] <= high
    ensures low * ONE <= State(k, samples) <= high * ONE
    ensures low <= State(k, samples) / ONE <= high
  {
    var last := |samples| - 1;
    if last > 0 {
      OutputWithinSamples(k, samples[..last], low, high);
      SmoothStaysBetween(k, State(k, samples[..last]), samples[last]);
    }
  }

  // ----- constant input -----

  /** Where a constant input comes to rest. */
  predicate AtRest(k: nat, bits: int, sample: int) {
    sample * ONE - Pow2(k) < bits <= sample * ONE
  }

  function Distance(bits: int, sample: int): nat {
    if bits <= sample * ONE then sample * ONE - bits else bits - sample * ONE
  }

  lemma ConstantInputStep(k: nat, bits: int, sample: int)
    requires k >= 1
    ensures AtRest(k, bits, sample) <==> Smooth(k, bits, sample) == bits
    ensures !AtRest(k, bits, sample) ==>
      Distance(Smooth(k, bits, sample), sample) < Distance(bits, sample)
  {
    assert Pow2(k) == 2 * Pow2(k - 1);
    FloorBetween(sample * ONE - bits, Pow2(k));
  }

  function Repeated(k: nat, bits: int, sample: int, n: nat): int
    decreases n
  {
    if n == 0 then bits else Repeated(k, Smooth(k, bits, sample), sample, n - 1)
  }

  /** Every start comes to rest within as many updates as its distance, and stays. */
  lemma {:induction false} ConstantInputSettles(k: nat, bits: int, sample: int, n: nat)
    requires k >= 1 && n >= Distance(bits, sample)
    ensures AtRest(k, Repeated(k, bits, sample, n), sample)
    ensures Repeated(k, bits, sample, n + 1) == Repeated(k, bits, sample, n)
    decreases n
  {
    ConstantInputStep(k, bits, sample);
    var next := Smooth(k, bits, sample);
    if n == 0 {
      assert AtRest(k, bits, sample);
      assert Repeated(k, bits, sample, 1) == Repeated(k, next, sample, 0);
    } else if AtRest(k, bits, sample) {
      RestIsKept(k, bits, sample, n);
      RestIsKept(k, bits, sample, n + 1);
    } else {
      ConstantInputSettles(k, next, sample, n - 1);
    }
  }

  lemma {:induction false} RestIsKept(k: nat, bits: int, sample: int, n: nat)
    requires k >= 1 && AtRest(k, bits, sample)
    ensures Repeated(k, bits, sample, n) == bits
  {
    ConstantInputStep(k, bits, sample);
    if n > 0 { RestIsKept(k, bits, sample, n - 1); }
  }
}
