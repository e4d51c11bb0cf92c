/** CRSF frames: byte-by-byte parsing and the 11-bit channel packing (rm32/src/crsf.rs). */
module Crsf {
  import opened Words
  import Crc

  const SYNC: U8 := 0xC8
  const RC_CHANNELS: U8 := 0x16
  const CAPACITY: nat := 64
  const CHANNEL_MIN: U16 := 172
  const CHANNEL_MAX: U16 := 1811

  datatype CrsfResult = Channels(channels: seq<U16>) | OtherFrame(frameType: U8) | BadCrc | Incomplete

  // ----- 16-bit words as bits, least significant first -----

  type Word = w: seq<bool> | |w| == 16 witness seq(16, i => false)

  /** `b as u16`. */
  function Widen(b: U8): Word { seq(16, i => 0 <= i < 8 && Bit(b, i)) }

  function ShiftRight(w: Word, n: nat): Word { seq(16, i => 0 <= i && i + n < 16 && w[i + n]) }

  function ShiftLeft(w: Word, n: nat): Word { seq(16, i => n <= i < 16 && w[i - n]) }

  function BitOr(a: Word, b: Word): Word { seq(16, i requires 0 <= i < 16 => a[i] || b[i]) }

  /** The number with the given bits, least significant first. */
  function Number(bits: seq<bool>): (n: nat)
    ensures n < Pow2(|bits|)
  {
    if bits == [] then 0 else (if bits[0] then 1 else 0) + 2 * Number(bits[1..])
  }

  /** `w & 0x7FF`. */
  function Low11(w: Word): (c: U16)
    ensures c < 2048
  {
    assert Pow2(11) == 2048 by { Pow2Adds(8, 3); assert Pow2(8) == 256 && Pow2(3) == 8; }
    Number(w[..11])
  }

  /** Byte `a` from bit `s` on, continued by byte `b`. */
  function Two(a: U8, s: nat, b: U8): Word
    requires s <= 8
  {
    BitOr(ShiftRight(Widen(a), s), ShiftLeft(Widen(b), 8 - s))
  }

  function Three(a: U8, s: nat, b: U8, c: U8): Word
    requires s <= 8
  {
    BitOr(Two(a, s, b), ShiftLeft(Widen(c), 16 - s))
  }

  /** For each channel, its first byte and the right shift of that byte. */
  const SPANS: seq<(nat, nat)> :=
    [(0, 0), (1, 3), (2, 6), (4, 1), (5, 4), (6, 7), (8, 2), (9, 5),
     (11, 0), (12, 3), (13, 6), (15, 1), (16, 4), (17, 7), (19, 2), (20, 5)]

  lemma SpansAreElevenBitsApart(j: nat)
    requires j < 16
    ensures |SPANS| == 16 && SPANS[j] == ((11 * j) / 8, (11 * j) % 8)
  {
  }

  /** The channel at byte `q`, shift `s`; three bytes where eleven bits need them. */
  function Channel(p: seq<U8>, q: nat, s: nat): (c: U16)
    requires s < 8 && q + 1 < |p| && (s >= 6 ==> q + 2 < |p|)
    ensures c < 2048
  {
    if s >= 6 then Low11(Three(p[q], s, p[q + 1], p[q + 2])) else Low11(Two(p[q], s, p[q + 1]))
  }

  /** Sixteen 11-bit channels from a 22-byte payload. */
  function UnpackChannels(p: seq<U8>): (channels: seq<U16>)
    requires |p| == 22
    ensures |channels| == 16 && forall j :: 0 <= j < 16 ==> channels[j] < 2048
  {
    seq(16, j requires 0 <= j < 16 =>
      SpanOf(j);
      Channel(p, SPANS[j].0, SPANS[j].1))
  }

  /** The number whose base-`base` digits, least significant first, are `d`. */
  function Value(base: nat, d: seq<nat>): nat {
    if d == [] then 0 else d[0] + base * Value(base, d[1..])
  }

  function Power(base: nat, n: nat): nat {
    if n == 0 then 1 else base * Power(base, n - 1)
  }

  function Digits(base: nat, n: nat, v: nat): (d: seq<nat>)
    requires base > 0
    ensures |d| == n && forall i :: 0 <= i < n ==> d[i] < base
  {
    if n == 0 then [] else [v % base] + Digits(base, n - 1, v / base)
  }

  /** All bits of a payload, least significant first. */
  function PayloadBits(p: seq<U8>): (bits: seq<bool>)
    ensures |bits| == 8 * |p|
  {
    seq(8 * |p|, k requires 0 <= k < 8 * |p| => Bit(p[k / 8], k % 8))
  }

  lemma TwoSpans(p: seq<U8>, q: nat, s: nat)
    requires q + 1 < |p| && s <= 5
    ensures Two(p[q], s, p[q + 1])[..11] == PayloadBits(p)[8 * q + s..8 * q + s + 11]
  {
    var w := Two(p[q], s, p[q + 1]);
    forall i | 0 <= i < 11
      ensures w[i] == PayloadBits(p)[8 * q + s + i]
    {
      if s + i < 8 {
        assert (8 * q + s + i) / 8 == q && (8 * q + s + i) % 8 == s + i;
      } else {
        assert (8 * q + s + i) / 8 == q + 1 && (8 * q + s + i) % 8 == s + i - 8;
      }
    }
  }

  lemma ThreeSpans(p: seq<U8>, q: nat, s: nat)
    requires q + 2 < |p| && 6 <= s <= 8
    ensures Three(p[q], s, p[q + 1], p[q + 2])[..11] == PayloadBits(p)[8 * q + s..8 * q + s + 11]
  {
    var w := Three(p[q], s, p[q + 1], p[q + 2]);
    forall i | 0 <= i < 11
      ensures w[i] == PayloadBits(p)[8 * q + s + i]
    {
      if s + i < 8 {
        assert (8 * q + s + i) / 8 == q && (8 * q + s + i) % 8 == s + i;
      } else if s + i < 16 {
        assert (8 * q + s + i) / 8 == q + 1 && (8 * q + s + i) % 8 == s + i - 8;
      } else {
        assert (8 * q + s + i) / 8 == q + 2 && (8 * q + s + i) % 8 == s + i - 16;
      }
    }
  }

  lemma ChannelSpan(p: seq<U8>, q: nat, s: nat)
    requires s < 8 && q + 1 < |p| && (s >= 6 ==> q + 2 < |p|)
    ensures Channel(p, q, s) == Number(PayloadBits(p)[8 * q + s..8 * q + s + 11])
  {
    if s <= 5 { TwoSpans(p, q, s); } else { ThreeSpans(p, q, s); }
  }

  lemma SpanOf(j: nat)
    requires j < 16
    ensures |SPANS| == 16 && SPANS[j].1 < 8 && SPANS[j].0 < 21 && (SPANS[j].1 >= 6 ==> SPANS[j].0 < 20)
    ensures 8 * SPANS[j].0 + SPANS[j].1 == 11 * j
  {
    SpansAreElevenBitsApart(j);
  }

  /** Channel j is bits 11 j .. 11 j + 11 of the payload. */
  lemma ChannelBits(p: seq<U8>, j: nat)
    requires |p| == 22 && j < 16
    ensures UnpackChannels(p)[j] == Number(PayloadBits(p)[11 * j..11 * j + 11])
  {
    SpanOf(j);
    ChannelSpan(p, SPANS[j].0, SPANS[j].1);
  }

  lemma {:induction false} NumberOfConcat(a: seq<bool>, b: seq<bool>)
    ensures Number(a + b) == Number(a) + Pow2(|a|) * Number(b)
  {
    if a == [] {
      assert a + b == b;
    } else {
      assert (a + b)[1..] == a[1..] + b;
      NumberOfConcat(a[1..], b);
      Distribute(2, Number(a[1..]), Pow2(|a| - 1), Number(b));
    }
  }

  /** Cutting bits into chunks of `size` gives the digits in base 2^size. */
  lemma {:induction false} ChunksAreDigits(bits: seq<bool>, size: nat, digits: seq<nat>)
    requires |bits| == size * |digits|
    requires forall j :: 0 <= j < |digits| ==> 0 <= size * j && size * j + size <= |bits|
    requires forall j :: 0 <= j < |digits| ==> digits[j] == Number(bits[size * j..size * j + size])
    ensures Value(Pow2(size), digits) == Number(bits)
    decreases |digits|
  {
    hide Number;
    hide Pow2;
    if digits != [] {
      var head, rest := bits[..size], bits[size..];
      assert size * 0 == 0 && bits[size * 0..size * 0 + size] == head;
      NumberOfConcat(head, rest);
      assert head + rest == bits;
      var tail := digits[1..];
      assert size * |digits| == size * |tail| + size;
      forall j | 0 <= j < |tail|
        ensures 0 <= size * j && size * j + size <= |rest|
        ensures tail[j] == Number(rest[size * j..size * j + size])
      {
        assert size * (j + 1) == size * j + size;
        assert size * j >= 0;
        assert rest[size * j..size * j + size] == bits[size * (j + 1)..size * (j + 1) + size];
        assert tail[j] == digits[j + 1];
      }
      ChunksAreDigits(rest, size, tail);
    } else {
      assert size * 0 == 0;
      NumberOfNothing();
      assert bits == [];
    }
  }

  lemma NumberOfNothing()
    ensures Number([]) == 0
  {
  }

  lemma {:induction false} NumberOfBits(x: nat, n: nat, bits: seq<bool>)
    requires x < Pow2(n) && |bits| == n
    requires forall i :: 0 <= i < n ==> bits[i] == Bit(x, i)
    ensures Number(bits) == x
    decreases n
  {
    if n > 0 {
      assert Pow2(0) == 1 && bits[0] == Bit(x, 0);
      forall i | 0 <= i < n - 1
        ensures bits[1..][i] == Bit(x / 2, i)
      {
        HalvingDrops(x, i);
      }
      NumberOfBits(x / 2, n - 1, bits[1..]);
    }
  }

  lemma PayloadValue(p: seq<U8>)
    ensures Value(256, p) == Number(PayloadBits(p))
  {
    var bits := PayloadBits(p);
    assert Pow2(8) == 256;
    forall j | 0 <= j < |p|
      ensures p[j] == Number(bits[8 * j..8 * j + 8])
    {
      NumberOfBits(p[j], 8, bits[8 * j..8 * j + 8]);
    }
    ChunksAreDigits(bits, 8, p);
  }

  lemma {:induction false} ValueOfConcat(base: nat, a: seq<nat>, b: seq<nat>)
    ensures Value(base, a + b) == Value(base, a) + Power(base, |a|) * Value(base, b)
  {
    if a == [] {
      assert a + b == b;
    } else {
      assert (a + b)[1..] == a[1..] + b;
      ValueOfConcat(base, a[1..], b);
      Distribute(base, Value(base, a[1..]), Power(base, |a| - 1), Value(base, b));
    }
  }

  lemma Distribute(a: int, v: int, b: int, c: int)
    ensures a * (v + b * c) == a * v + (a * b) * c
  {
  }

  lemma {:induction false} PowerOfPow2(k: nat, n: nat)
    ensures Power(Pow2(k), n) == Pow2(k * n)
  {
    if n > 0 {
      PowerOfPow2(k, n - 1);
      assert k * n == k + k * (n - 1);
      Pow2Adds(k, k * (n - 1));
    }
  }

  /** n channels of 11 bits hold as much as m bytes when 11 n == 8 m. */
  lemma PackedSizes(n: nat, m: nat)
    requires 11 * n == 8 * m
    ensures Power(2048, n) == Power(256, m)
  {
    assert Pow2(8) == 256 && Pow2(3) == 8;
    Pow2Adds(8, 3);
    PowerOfPow2(11, n);
    PowerOfPow2(8, m);
  }

  /** sum ch_j * 2048^j == sum payload_i * 256^i. */
  lemma UnpackKeepsValue(payload: seq<U8>)
    requires |payload| == 22
    ensures Value(2048, UnpackChannels(payload)) == Value(256, payload)
  {
    var bits, channels := PayloadBits(payload), UnpackChannels(payload);
    forall j | 0 <= j < 16
      ensures channels[j] == Number(bits[11 * j..11 * j + 11])
    {
      ChannelBits(payload, j);
    }
    assert Pow2(11) == 2048 by { Pow2Adds(8, 3); assert Pow2(8) == 256 && Pow2(3) == 8; }
    ChunksAreDigits(bits, 11, channels);
    PayloadValue(payload);
  }

  lemma {:induction false} DigitsUnique(base: nat, a: seq<nat>, b: seq<nat>)
    requires base > 0 && |a| == |b| && Value(base, a) == Value(base, b)
    requires forall i :: 0 <= i < |a| ==> a[i] < base && b[i] < base
    ensures a == b
  {
    if a != [] {
      var va, vb := Value(base, a[1..]), Value(base, b[1..]);
      assert va * base == base * va && vb * base == base * vb;
      ModUnique(Value(base, a), base, va, a[0]);
      ModUnique(Value(base, b), base, vb, b[0]);
      DigitsUnique(base, a[1..], b[1..]);
      assert a == [a[0]] + a[1..] && b == [b[0]] + b[1..];
    }
  }

  lemma {:induction false} ValueOfDigits(base: nat, n: nat, v: nat)
    requires base > 0 && v < Power(base, n)
    ensures Value(base, Digits(base, n, v)) == v
  {
    if n > 0 {
      QuotientBelow(v, base, Power(base, n - 1));
      hide Power;
      ValueOfDigits(base, n - 1, v / base);
      var rest := Digits(base, n - 1, v / base);
      assert Digits(base, n, v) == [v % base] + rest;
      assert ([v % base] + rest)[1..] == rest;
      DivMod(v, base);
    }
  }

  lemma QuotientBelow(v: nat, base: nat, p: nat)
    requires base > 0 && v < base * p
    ensures v / base < p
  {
    DivMod(v, base);
    BelowProduct(v / base, base, p);
  }

  lemma BelowProduct(q: nat, base: nat, p: nat)
    requires base > 0 && q * base < base * p
    ensures q < p
  {
    ProductBelow(p, base, Max(p, q), base);
    assert q >= p ==> q * base >= p * base;
  }

  lemma {:induction false} ValueBounded(base: nat, d: seq<nat>)
    requires base > 0 && forall i :: 0 <= i < |d| ==> d[i] < base
    ensures Value(base, d) < Power(base, |d|)
  {
    if d != [] {
      ValueBounded(base, d[1..]);
      OneMoreDigit(base, Value(base, d[1..]), Power(base, |d| - 1), d[0]);
    }
  }

  lemma OneMoreDigit(base: nat, v: nat, p: nat, digit: nat)
    requires v < p && digit < base
    ensures digit + base * v < base * p
  {
    ProductBelow(v + 1, base, p, base);
    assert (v + 1) * base == base * v + base && p * base == base * p;
  }

  /** The transmitter's side: sixteen 11-bit channels, least significant bit first. */
  function PackChannels(channels: seq<U16>): (payload: seq<U8>)
    requires |channels| == 16
    ensures |payload| == 22
  {
    Digits(256, 22, Value(2048, channels))
  }

  /** Unpacking inverts packing, for all sixteen channels at once. */
  lemma UnpackInvertsPack(channels: seq<U16>)
    requires |channels| == 16 && forall j :: 0 <= j < 16 ==> channels[j] < 2048
    ensures UnpackChannels(PackChannels(channels)) == channels
  {
    var payload := PackChannels(channels);
    ValueBounded(2048, channels);
    PackedSizes(|channels|, |payload|);
    ValueOfDigits(256, |payload|, Value(2048, channels));
    UnpackKeepsValue(payload);
    DigitsUnique(2048, UnpackChannels(payload), channels);
  }

  /** ... and packing inverts unpacking: no payload bit is lost. */
  lemma PackInvertsUnpack(payload: seq<U8>)
    requires |payload| == 22
    ensures PackChannels(UnpackChannels(payload)) == payload
  {
    UnpackKeepsValue(payload);
    ValueBounded(256, payload);
    ValueOfDigits(256, |payload|, Value(256, payload));
    DigitsUnique(256, Digits(256, |payload|, Value(256, payload)), payload);
  }

  // ----- the parser -----

  /** What a complete frame body (type, payload, checksum) means. */
  function FrameMeaning(body: seq<U8>): CrsfResult
    requires |body| >= 2
  {
    var last := |body| - 1;
    if Crc.CrcOf(Crc.DVB_S2, body[..last]) != body[last] then BadCrc
    else if body[0] == RC_CHANNELS then
      if |body| < 24 then Incomplete else Channels(UnpackChannels(body[1..23]))
    else OtherFrame(body[0])
  }

  datatype Fed = Fed(buf: seq<U8>, result: Option<CrsfResult>)

  /** The effect of one byte on the buffer. */
  function FeedStep(buf: seq<U8>, byte: U8): Fed {
    if buf == [] then Fed(if byte == SYNC then [byte] else [], None)
    else if |buf| >= CAPACITY then Fed([], Some(Incomplete))
    else
      var full := buf + [byte];
      if |full| < 3 then Fed(full, None)
      else if full[1] < 2 || 2 + full[1] > CAPACITY then Fed([], Some(Incomplete))
      else if |full| < 2 + full[1] then Fed(full, None)
      else Fed([], Some(FrameMeaning(full[2..2 + full[1]])))
  }

  class CrsfParser {
    var buf: seq<U8>
    const table: array<U8>

    ghost predicate Valid()
      reads this, table
    {
      |buf| <= CAPACITY && Crc.IsTable(table[..])
    }

    constructor (table: array<U8>)
      requires Crc.IsTable(table[..])
      ensures Valid() && buf == [] && this.table == table
    {
      this.table := table;
      buf := [];
    }

    method Feed(byte: U8) returns (result: Option<CrsfResult>)
      requires Valid()
      modifies this
      ensures Valid()
      ensures Fed(buf, result) == FeedStep(old(buf), byte)
    {
      hide FrameMeaning;
      if buf == [] {
        if byte == SYNC {
          buf := [byte];
        }
        return None;
      }
      if |buf| == CAPACITY {
        buf := [];
        return Some(Incomplete);
      }
      buf := buf + [byte];
      if |buf| < 3 {
        return None;
      }
      var frameLen: nat := buf[1];
      var totalLen := 2 + frameLen;
      if frameLen < 2 || totalLen > CAPACITY {
        buf := [];
        return Some(Incomplete);
      }
      if |buf| < totalLen {
        return None;
      }
      var body := buf[2..totalLen];
      buf := [];
      var meaning := Decode(body);
      return Some(meaning);
    }

    /** Check and decode a complete frame body. */
    method Decode(body: seq<U8>) returns (result: CrsfResult)
      requires Valid() && |body| >= 2
      ensures result == FrameMeaning(body)
    {
      hide UnpackChannels;
      var crcIdx := |body| - 1;
      var computed := Crc.Crc8DvbS2(table, body[..crcIdx]);
      if computed != body[crcIdx] {
        return BadCrc;
      }
      if body[0] == RC_CHANNELS {
        if |body| < 24 {
          return Incomplete;
        }
        return Channels(UnpackChannels(body[1..23]));
      }
      return OtherFrame(body[0]);
    }
  }

  /** Feeding a whole stream through a byte step: the final buffer and the
      result after each byte. */
  function Run(step: (seq<U8>, U8) -> Fed, buf: seq<U8>, bytes: seq<U8>): (seq<U8>, seq<Option<CrsfResult>>)
    decreases |bytes|
  {
    if bytes == [] then (buf, [])
    else
      var fed := step(buf, bytes[0]);
      var (last, results) := Run(step, fed.buf, bytes[1..]);
      (last, [fed.result] + results)
  }

  /** Between bytes the buffer holds less than a whole frame. */
  predicate Pending(buf: seq<U8>) {
    buf == [] ||
    (buf[0] == SYNC && |buf| < CAPACITY &&
     (|buf| >= 3 ==> 2 <= buf[1] && 2 + buf[1] <= CAPACITY && |buf| < 2 + buf[1]))
  }

  /** Whatever bytes arrive, the push onto the 64-byte buffer never fails. */
  lemma {:induction false} BufferNeverFills(buf: seq<U8>, bytes: seq<U8>)
    requires Pending(buf)
    ensures Pending(Run(FeedStep, buf, bytes).0) && |Run(FeedStep, buf, bytes).0| < CAPACITY
    decreases |bytes|
  {
    if bytes != [] {
      BufferNeverFills(FeedStep(buf, bytes[0]).buf, bytes[1..]);
    }
  }

  /** A stream in segments: bytes that are not a sync byte, or a delimited frame. */
  datatype Segment = Garbage(bytes: seq<U8>) | Frame(body: seq<U8>)

  predicate WellFormed(s: Segment) {
    match s
    case Garbage(bytes) => forall i :: 0 <= i < |bytes| ==> bytes[i] != SYNC
    case Frame(body) => 2 <= |body| <= 62
  }

  function Wire(s: Segment): seq<U8>
    requires WellFormed(s)
  {
    match s
    case Garbage(bytes) => bytes
    case Frame(body) => [SYNC, |body|] + body
  }

  function Nothing(n: nat): (r: seq<Option<CrsfResult>>)
    ensures |r| == n
  {
    seq(n, i => None)
  }

  /** One result per frame, at its last byte; nothing anywhere else. */
  function Expected(s: Segment): seq<Option<CrsfResult>>
    requires WellFormed(s)
  {
    match s
    case Garbage(bytes) => Nothing(|bytes|)
    case Frame(body) => Nothing(|body| + 1) + [Some(FrameMeaning(body))]
  }

  function WireAll(segments: seq<Segment>): seq<U8>
    requires forall s :: s in segments ==> WellFormed(s)
  {
    if segments == [] then [] else Wire(segments[0]) + WireAll(segments[1..])
  }

  function ExpectedAll(segments: seq<Segment>): seq<Option<CrsfResult>>
    requires forall s :: s in segments ==> WellFormed(s)
  {
    if segments == [] then [] else Expected(segments[0]) + ExpectedAll(segments[1..])
  }

  lemma {:induction false} RunSplits(step: (seq<U8>, U8) -> Fed, buf: seq<U8>, a: seq<U8>, b: seq<U8>)
    ensures Run(step, buf, a + b).0 == Run(step, Run(step, buf, a).0, b).0
    ensures Run(step, buf, a + b).1 == Run(step, buf, a).1 + Run(step, Run(step, buf, a).0, b).1
    decreases |a|
  {
    if a == [] {
      assert a + b == b;
    } else {
      assert (a + b)[1..] == a[1..] + b;
      RunSplits(step, step(buf, a[0]).buf, a[1..], b);
    }
  }

  /** One more byte in front. */
  lemma RunStep(step: (seq<U8>, U8) -> Fed, buf: seq<U8>, byte: U8, rest: seq<U8>,
                buf': seq<U8>, result: Option<CrsfResult>, last: seq<U8>, results: seq<Option<CrsfResult>>)
    requires step(buf, byte) == Fed(buf', result)
    requires Run(step, buf', rest) == (last, results)
    ensures Run(step, buf, [byte] + rest) == (last, [result] + results)
  {
    assert ([byte] + rest)[1..] == rest;
  }

  lemma {:induction false} GarbageIsSkipped(bytes: seq<U8>)
    requires forall i :: 0 <= i < |bytes| ==> bytes[i] != SYNC
    ensures Run(FeedStep, [], bytes) == ([], Nothing(|bytes|))
    decreases |bytes|
  {
    if bytes != [] {
      GarbageIsSkipped(bytes[1..]);
      RunStep(FeedStep, [], bytes[0], bytes[1..], [], None, [], Nothing(|bytes| - 1));
      assert bytes == [bytes[0]] + bytes[1..];
      NothingMore(|bytes| - 1);
    }
  }

  lemma NothingMore(n: nat)
    ensures [None] + Nothing(n) == Nothing(n + 1)
  {
  }

  lemma NothingThen(n: nat, result: Option<CrsfResult>)
    ensures [None] + (Nothing(n) + [result]) == Nothing(n + 1) + [result]
    ensures [result] + [] == Nothing(0) + [result]
  {
  }

  /** The buffer after the header and `k` bytes of the body. */
  function Received(body: seq<U8>, k: nat): seq<U8>
    requires |body| <= 62 && k <= |body|
  {
    [SYNC, |body|] + body[..k]
  }

  /** `step` collects `body` byte by byte and answers `meaning` at the end. */
  ghost predicate Collects(step: (seq<U8>, U8) -> Fed, body: seq<U8>, meaning: CrsfResult)
    requires |body| <= 62
  {
    forall i {:trigger Received(body, i)} :: 0 <= i < |body| ==>
      step(Received(body, i), body[i]) == (
        if i + 1 < |body| then Fed(Received(body, i + 1), None) else Fed([], Some(meaning)))
  }

  lemma BodyStep(body: seq<U8>, k: nat)
    requires 2 <= |body| <= 62 && k < |body|
    ensures FeedStep(Received(body, k), body[k]) ==
      if k + 1 < |body| then Fed(Received(body, k + 1), None) else Fed([], Some(FrameMeaning(body)))
  {
    var full := Received(body, k) + [body[k]];
    assert full == Received(body, k + 1);
    assert k + 1 == |body| ==> full[2..2 + |body|] == body;
  }

  /** A step that collects `body` and then answers `meaning` answers it once, at
      the last byte. */
  lemma {:induction false} BodyIsParsed(step: (seq<U8>, U8) -> Fed, body: seq<U8>, k: nat, meaning: CrsfResult)
    requires 2 <= |body| <= 62 && k < |body| && Collects(step, body, meaning)
    ensures Run(step, Received(body, k), body[k..]) == ([], Nothing(|body| - k - 1) + [Some(meaning)])
    decreases |body| - k
  {
    assert body[k..] == [body[k]] + body[k + 1..];
    if k + 1 < |body| {
      BodyIsParsed(step, body, k + 1, meaning);
      RunStep(step, Received(body, k), body[k], body[k + 1..], Received(body, k + 1), None,
        [], Nothing(|body| - k - 2) + [Some(meaning)]);
      NothingThen(|body| - k - 2, Some(meaning));
    } else {
      assert body[k + 1..] == [];
      RunStep(step, Received(body, k), body[k], [], [], Some(meaning), [], []);
      NothingThen(0, Some(meaning));
    }
  }

  lemma WholeFrame(step: (seq<U8>, U8) -> Fed, body: seq<U8>, size: U8, meaning: CrsfResult)
    requires 2 <= |body| <= 62 && size == |body| && Collects(step, body, meaning)
    requires step([], SYNC) == Fed([SYNC], None) && step([SYNC], size) == Fed(Received(body, 0), None)
    ensures Run(step, [], [SYNC, size] + body) == ([], Nothing(|body| + 1) + [Some(meaning)])
  {
    var n := |body|;
    BodyIsParsed(step, body, 0, meaning);
    assert body[0..] == body;
    RunStep(step, [SYNC], size, body, Received(body, 0), None, [], Nothing(n - 1) + [Some(meaning)]);
    NothingThen(n - 1, Some(meaning));
    RunStep(step, [], SYNC, [size] + body, [SYNC], None, [], Nothing(n) + [Some(meaning)]);
    NothingThen(n, Some(meaning));
    assert [SYNC, size] + body == [SYNC] + ([size] + body);
  }

  lemma FrameIsParsed(body: seq<U8>)
    requires 2 <= |body| <= 62
    ensures Run(FeedStep, [], [SYNC, |body|] + body) == ([], Nothing(|body| + 1) + [Some(FrameMeaning(body))])
  {
    forall i {:trigger Received(body, i)} | 0 <= i < |body|
      ensures FeedStep(Received(body, i), body[i]) ==
        if i + 1 < |body| then Fed(Received(body, i + 1), None) else Fed([], Some(FrameMeaning(body)))
    {
      BodyStep(body, i);
    }
    assert [SYNC] + [|body|] == Received(body, 0);
    WholeFrame(FeedStep, body, |body|, FrameMeaning(body));
  }

  /** Any mix of garbage and frames is parsed frame by frame, byte by byte. */
  lemma {:induction false} StreamIsParsed(segments: seq<Segment>)
    requires forall s :: s in segments ==> WellFormed(s)
    ensures Run(FeedStep, [], WireAll(segments)) == ([], ExpectedAll(segments))
    decreases |segments|
  {
    if segments != [] {
      var s := segments[0];
      assert s in segments && WellFormed(s);
      match s {
        case Garbage(bytes) => GarbageIsSkipped(bytes);
        case Frame(body) => FrameIsParsed(body);
      }
      RunSplits(FeedStep, [], Wire(s), WireAll(segments[1..]));
      StreamIsParsed(segments[1..]);
    }
  }

  /** The body of a channel frame as a transmitter builds it. */
  function ChannelFrame(channels: seq<U16>): (body: seq<U8>)
    requires |channels| == 16
    ensures |body| == 24
  {
    var data: seq<U8> := [RC_CHANNELS] + PackChannels(channels);
    data + [Crc.CrcOf(Crc.DVB_S2, data)]
  }

  /** A transmitted channel frame is received as the channels that went in. */
  lemma ChannelFrameArrives(channels: seq<U16>)
    requires |channels| == 16 && forall j :: 0 <= j < 16 ==> channels[j] < 2048
    ensures FrameMeaning(ChannelFrame(channels)) == Channels(channels)
  {
    var body := ChannelFrame(channels);
    assert body[..23] == [RC_CHANNELS] + PackChannels(channels);
    assert body[1..23] == PackChannels(channels);
    UnpackInvertsPack(channels);
  }

  /** One corrupted byte between the length and the end is always reported, not
      delivered. */
  lemma CorruptedFrameIsRejected(channels: seq<U16>, i: nat, x: U8)
    requires |channels| == 16
    requires i < 24 && x != ChannelFrame(channels)[i]
    ensures FrameMeaning(ChannelFrame(channels)[i := x]) == BadCrc
  {
    hide Crc.CrcOf;
    hide PackChannels;
    hide UnpackChannels;
    var body := ChannelFrame(channels);
    var bad := body[i := x];
    if i == 23 {
      assert bad[..23] == body[..23];
      assert body[..23] == [RC_CHANNELS] + PackChannels(channels);
    } else {
      var data, after := body[..23], body[i + 1..23];
      assert data == [RC_CHANNELS] + PackChannels(channels);
      assert data == data[..i] + [body[i]] + after;
      assert bad[..23] == data[..i] + [x] + after;
      Crc.SingleByteChangeDetected(Crc.DVB_S2, data[..i], body[i], x, after);
    }
  }

  /** Map a channel value to the 11-bit throttle range. */
  function ChannelToThrottle(value: U16): (t: U16)
    ensures t <= 2047
    ensures value <= CHANNEL_MIN ==> t == 0
    ensures value >= CHANNEL_MAX ==> t == 2047
  {
    if value <= CHANNEL_MIN then 0
    else if value >= CHANNEL_MAX then 2047
    else (value - CHANNEL_MIN) as int * 2047 / (CHANNEL_MAX - CHANNEL_MIN)
  }

  /** Between the ends the throttle is the straight line through them, rounded down: never
      above it, less than one below it, and monotone. */
  lemma ChannelIsLinear(value: U16, higher: U16)
    requires 172 <= value <= higher <= 1811
    ensures var t: int, above := ChannelToThrottle(value), value as int - 172;
      t * 1639 <= above * 2047 < (t + 1) * 1639 && t <= ChannelToThrottle(higher)
  {
  }
}
