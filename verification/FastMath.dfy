/** Division by constants with shifts and adds only (rm32/src/fast_math.rs).
    Every intermediate value is typed `U32`, so Dafny proves that no step
    of the source's `u32` arithmetic overflows or goes below zero; a right shift
    by k is a division by 2^k. */
module FastMath {
  import opened Words

  function Div3U32(n: U32): (r: U32)
    ensures r == n / 3
  {
    var q0: U32 := n / 4 + n / 16;
    var q1: U32 := q0 + q0 / 16;
    var q2: U32 := q1 + q1 / 256;
    var q3: U32 := q2 + q2 / 65536;
    var triple: U32 := q3 * 3;
    var rest: U32 := n - triple;
    var scaled: U32 := 11 * rest;
    q3 + scaled / 32
  }

  /** Rust's `i32` division truncates toward zero. */
  function TruncatingDiv(n: int, d: int): int
    requires d > 0
  {
    if n < 0 then -(-n / d) else n / d
  }

  function Div3I32(n: I32): (r: I32)
    ensures r == TruncatingDiv(n, 3)
    ensures 0 <= n - 3 * r <= 2 || -2 <= n - 3 * r <= 0
  {
    if n < 0 then
      var magnitude: int := -(n as int);
      var quotient: int := Div3U32(magnitude);
      -quotient
    else
      Div3U32(n)
  }

  function Div5U32(n: U32): (r: U32)
    ensures r == n / 5
  {
    var q0: U32 := n / 2 + n / 4;
    var q1: U32 := q0 + q0 / 16;
    var q2: U32 := q1 + q1 / 256;
    var q3: U32 := q2 + q2 / 65536;
    var q4: U32 := q3 / 4;
    var fivefold: U32 := q4 * 5;
    var rest: U32 := n - fivefold;
    var scaled: U32 := 7 * rest;
    q4 + scaled / 32
  }

  function Div10U32(n: U32): (r: U32)
    ensures r == n / 10
  {
    Div5U32(n) / 2
  }

  function Div2000U32(n: U32): (r: U32)
    ensures r == n / 2000
  {
    Div5U32(Div5U32(Div5U32(n / 16)))
  }
}
