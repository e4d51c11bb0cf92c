/** DShot packets, edge captures and telemetry frames (rm32/src/dshot.rs). */
module Dshot {
  import opened Words

  datatype DshotFrame =
    | Throttle(value: U16, telemetry: bool)
    | Command(cmd: U16, telemetry: bool)
    | BadCrc
    | InvalidTiming

  /** A frame whose checksum was right. */
  predicate Decoded(f: DshotFrame) { f.Throttle? || f.Command? }

  /** Eleven value bits, the telemetry bit and a nibble checksum, which
      bidirectional DShot inverts. */
  function Unpack(packet: U16, bidirectional: bool): (f: DshotFrame)
    ensures !f.InvalidTiming?
  {
    var calcCrc := Xor(Xor(packet / 16, packet / 256), packet / 4096) % 16;
    var checkCrc := if bidirectional then 15 - packet % 16 else packet % 16;
    if calcCrc != checkCrc then BadCrc
    else
      var value, telemetry := packet / 32, (packet / 16) % 2 == 1;
      if value > 47 then Throttle(value, telemetry)
      else if value > 0 then Command(value, telemetry)
      else Throttle(0, telemetry)
  }

  /** The transmitter's side. */
  function Pack(value: nat, telemetry: bool, bidirectional: bool): (packet: U16)
    requires value < 2048
  {
    var data := 2 * value + (if telemetry then 1 else 0);
    var crc := Xor(Xor(data, data / 16), data / 256) % 16;
    data * 16 + (if bidirectional then 15 - crc else crc)
  }

  lemma UnpackInvertsPack(value: nat, telemetry: bool, bidirectional: bool)
    requires value < 2048
    ensures Unpack(Pack(value, telemetry, bidirectional), bidirectional) ==
      if 1 <= value <= 47 then Command(value, telemetry) else Throttle(value, telemetry)
  {
    var data := 2 * value + (if telemetry then 1 else 0);
    hide Xor;
    var packet := Pack(value, telemetry, bidirectional);
    assert packet / 16 == data;
    assert packet / 256 == data / 16 && packet / 4096 == data / 256;
    assert packet / 32 == value && data % 2 == if telemetry then 1 else 0;
  }

  /** No packet is valid under both checksums. */
  lemma OneChecksumOnly(packet: U16)
    ensures !(Decoded(Unpack(packet, false)) && Decoded(Unpack(packet, true)))
  {
  }

  // ----- bits, most significant first -----

  function FromBits(bits: seq<bool>): nat {
    if bits == [] then 0
    else
      var last := |bits| - 1;
      2 * FromBits(bits[..last]) + (if bits[last] then 1 else 0)
  }

  function ToBits(x: nat, n: nat): (bits: seq<bool>)
    ensures |bits| == n
  {
    seq(n, i requires 0 <= i < n => Bit(x, n - 1 - i))
  }

  lemma {:induction false} FromBitsBounded(bits: seq<bool>)
    ensures FromBits(bits) < Pow2(|bits|)
  {
    if bits != [] { FromBitsBounded(bits[..|bits| - 1]); }
  }

  lemma {:induction false} FromBitsInvertsToBits(x: nat, n: nat)
    requires x < Pow2(n)
    ensures FromBits(ToBits(x, n)) == x
    decreases n
  {
    if n > 0 {
      var bits := ToBits(x, n);
      assert Pow2(0) == 1 && bits[n - 1] == Bit(x, 0);
      forall i | 0 <= i < n - 1
        ensures bits[i] == Bit(x / 2, n - 2 - i)
      {
        var k := n - 2 - i;
        HalvingDrops(x, k);
        assert bits[i] == Bit(x, k + 1);
      }
      assert bits[..n - 1] == ToBits(x / 2, n - 1);
      FromBitsInvertsToBits(x / 2, n - 1);
    }
  }

  // ----- decoding an edge capture -----

  /** Elapsed counts between two captures, cast to the 16-bit timer's width. */
  function Gap(later: U32, earlier: U32): U16 {
    var difference: int := later as int - earlier as int;
    Wrap16(Wrap32(difference))
  }

  function FrameTime(edges: seq<U32>): U16
    requires |edges| == 32
  {
    Gap(edges[31], edges[0])
  }

  /** A pulse longer than 1/32 of the frame is a one. */
  function PulseBits(edges: seq<U32>): (bits: seq<bool>)
    requires |edges| == 32
    ensures |bits| == 16
  {
    seq(16, i requires 0 <= i < 16 => Gap(edges[2 * i + 1], edges[2 * i]) > FrameTime(edges) / 32)
  }

  predicate InWindow(edges: seq<U32>, low: U16, high: U16)
    requires |edges| == 32
  {
    low < FrameTime(edges) < high
  }

  function CapturedPacket(edges: seq<U32>): (p: U16)
    requires |edges| == 32
  {
    hide Pow2;
    hide PulseBits;
    FromBitsBounded(PulseBits(edges));
    Pow2Of32();
    FromBits(PulseBits(edges))
  }

  function DecodeCapture(edges: seq<U32>, low: U16, high: U16, bidirectional: bool): DshotFrame
    requires |edges| == 32
  {
    if InWindow(edges, low, high) then Unpack(CapturedPacket(edges), bidirectional) else InvalidTiming
  }

  /** The source's loop: shift the next bit in from the right. */
  method DecodeFrame(edges: seq<U32>, low: U16, high: U16, bidirectional: bool) returns (frame: DshotFrame)
    requires |edges| == 32
    ensures frame == DecodeCapture(edges, low, high, bidirectional)
  {
    var frametime := Gap(edges[31], edges[0]);
    var halfpulsetime := frametime / 32;
    if frametime <= low || frametime >= high {
      return InvalidTiming;
    }
    var packet := 0;
    for i := 0 to 16
      invariant packet == FromBits(PulseBits(edges)[..i])
    {
      var pdiff := Gap(edges[i * 2 + 1], edges[i * 2]);
      packet := 2 * packet + (if pdiff > halfpulsetime then 1 else 0);
      assert PulseBits(edges)[..i + 1][..i] == PulseBits(edges)[..i];
    }
    assert PulseBits(edges)[..16] == PulseBits(edges);
    assert packet == CapturedPacket(edges);
    return Unpack(packet, bidirectional);
  }

  /** A DShot frame on the wire: pulse `i` rises at rise[i] and falls at fall[i],
      in capture counts since the first rise. */
  ghost predicate Waveform(rise: seq<nat>, fall: seq<nat>) {
    |rise| == 16 && |fall| == 16 && rise[0] == 0 && fall[15] < 0x1_0000 &&
    forall i :: 0 <= i < 16 ==> rise[i] <= fall[i] <= fall[15]
  }

  /** `edges` is that waveform seen by a 16-bit timer which read `start` at the
      first rise; upper capture bits are arbitrary. */
  ghost predicate Captures(edges: seq<U32>, start: int, rise: seq<nat>, fall: seq<nat>)
    requires Waveform(rise, fall)
  {
    |edges| == 32 &&
    forall i :: 0 <= i < 16 ==>
      edges[2 * i] % 0x1_0000 == (start + rise[i]) % 0x1_0000 &&
      edges[2 * i + 1] % 0x1_0000 == (start + fall[i]) % 0x1_0000
  }

  lemma GapIsElapsed(later: U32, earlier: U32, start: int, x: nat, y: nat)
    requires later % 0x1_0000 == (start + x) % 0x1_0000 && earlier % 0x1_0000 == (start + y) % 0x1_0000
    requires 0 <= x - y < 0x1_0000
    ensures Gap(later, earlier) == x - y
  {
    var d := later as int - earlier as int;
    DivMod(d, 0x1_0000_0000);
    DivMod(later, 0x1_0000);
    DivMod(earlier, 0x1_0000);
    DivMod(start + x, 0x1_0000);
    DivMod(start + y, 0x1_0000);
    var k := later / 0x1_0000 - earlier / 0x1_0000 + (start + y) / 0x1_0000 - (start + x) / 0x1_0000
      - d / 0x1_0000_0000 * 0x1_0000;
    ModUnique(d % 0x1_0000_0000, 0x1_0000, k, x - y);
  }

  /** Whatever the start count and the pulse widths either side of the
      threshold, a frame inside the window decodes to the bits it carries. */
  lemma CaptureDecodes(edges: seq<U32>, start: int, rise: seq<nat>, fall: seq<nat>,
                       packet: U16, low: U16, high: U16, bidirectional: bool)
    requires Waveform(rise, fall) && Captures(edges, start, rise, fall)
    requires low < fall[15] < high
    requires forall i :: 0 <= i < 16 ==> (fall[i] - rise[i] > fall[15] / 32 <==> ToBits(packet, 16)[i])
    ensures DecodeCapture(edges, low, high, bidirectional) == Unpack(packet, bidirectional)
    ensures CapturedPacket(edges) == packet
  {
    hide Unpack;
    assert edges[2 * 15 + 1] == edges[31] && edges[2 * 0] == edges[0];
    GapIsElapsed(edges[31], edges[0], start, fall[15], 0);
    PulsesDecode(edges, start, rise, fall, packet);
    Pow2Of32();
    FromBitsInvertsToBits(packet, 16);
  }

  lemma PulsesDecode(edges: seq<U32>, start: int, rise: seq<nat>, fall: seq<nat>, packet: U16)
    requires Waveform(rise, fall) && Captures(edges, start, rise, fall) && FrameTime(edges) == fall[15]
    requires forall i :: 0 <= i < 16 ==> (fall[i] - rise[i] > fall[15] / 32 <==> ToBits(packet, 16)[i])
    ensures PulseBits(edges) == ToBits(packet, 16)
  {
    hide Gap;
    hide Bit;
    forall i | 0 <= i < 16
      ensures PulseBits(edges)[i] == ToBits(packet, 16)[i]
    {
      GapIsElapsed(edges[2 * i + 1], edges[2 * i], start, fall[i], rise[i]);
    }
  }

  // ----- telemetry: checksum and 5b/4b code -----

  const GCR_ENCODE_TABLE: seq<nat> :=
    [0x19, 0x1B, 0x12, 0x13, 0x1D, 0x15, 0x16, 0x17, 0x1A, 0x09, 0x0A, 0x0B, 0x1E, 0x0D, 0x0E, 0x0F]

  function Entry(nibble: nat): (e: nat)
    requires nibble < 16
    ensures e < 32
  {
    GCR_ENCODE_TABLE[nibble]
  }

  /** Inverted xor of the low three nibbles. */
  function Checksum(value: U16): (c: nat)
    ensures c < 16
  {
    15 - Xor(Xor(value, value / 16), value / 256) % 16
  }

  /** The 12-bit value and its checksum, as transmitted. */
  function FullNumber(value: U16): (n: nat)
    ensures n < 0x1_0000
  {
    hide Checksum;
    LowTwelveBits(value);
    (value * 16) % 0x1_0000 + Checksum(value)
  }

  /** Four 5-bit codes side by side; they do not overlap, so `|` is `+`. */
  function Codes(a: nat, b: nat, c: nat, d: nat): (g: nat)
    requires a < 16 && b < 16 && c < 16 && d < 16
    ensures g < 0x10_0000
  {
    Entry(a) * 32768 + Entry(b) * 1024 + Entry(c) * 32 + Entry(d)
  }

  function GcrWord(full: nat): (g: nat)
    requires full < 0x1_0000
    ensures g < 0x10_0000
  {
    Codes(full / 4096, (full / 256) % 16, (full / 16) % 16, full % 16)
  }

  /** The xor of the first `n` of value, value >> 4, value >> 8. */
  function NibbleXor(value: nat, n: nat): nat {
    if n == 0 then 0 else if n == 1 then value
    else if n == 2 then Xor(value, value / 16) else Xor(Xor(value, value / 16), value / 256)
  }

  function NibbleShift(value: nat, n: nat): nat {
    if n == 0 then value else if n == 1 then value / 16 else if n == 2 then value / 256 else value / 4096
  }

  lemma NibbleXorStep(value: nat, n: nat)
    requires n < 3
    ensures NibbleXor(value, n + 1) == Xor(NibbleXor(value, n), NibbleShift(value, n))
    ensures NibbleShift(value, n + 1) == NibbleShift(value, n) / 16
  {
    if n == 0 { XorUnits(value); }
  }

  method GcrBits(value: U16) returns (g: nat)
    ensures g == GcrWord(FullNumber(value)) && g < 0x10_0000
  {
    var csum, csumData := 0, value as nat;
    for i := 0 to 3
      invariant csumData == NibbleShift(value, i)
      invariant csum == NibbleXor(value, i)
    {
      NibbleXorStep(value, i);
      csum := Xor(csum, csumData);
      csumData := csumData / 16;
    }
    csum := 15 - csum % 16;
    var fullNumber := (value * 16) % 0x1_0000 + csum;
    assert fullNumber == FullNumber(value);
    g := Entry(fullNumber / 4096) * 32768 + Entry((fullNumber / 256) % 16) * 1024
      + Entry((fullNumber / 16) % 16) * 32 + Entry(fullNumber % 16);
  }

  // ----- telemetry: transition coding into the output buffer -----

  /** Line level of slot `k`: idle low, a start transition, then one transition
      per one bit of the word. */
  function Level(g: nat, k: nat): bool
    requires k < 22
  {
    if k == 0 then false else if k == 1 then true else Bit(g, 21 - k) != Level(g, k - 1)
  }

  function Slot(level: bool, unit: U32): U32 { if level then unit else 0 }

  function Wave(g: nat, unit: U32): (w: seq<U32>)
    ensures |w| == 22
  {
    seq(22, k requires 0 <= k < 22 => Slot(Level(g, k), unit))
  }

  /** `1u32 << shift`. */
  function Unit(shift: nat): (u: U32)
    requires shift < 16
    ensures u == Pow2(shift) && u > 0
  {
    Pow2Of32();
    Pow2Monotone(shift, 16);
    Pow2(shift)
  }

  /** The slot after `slot`, for bit `i` of the word:
      `((gcr_number >> i) & 1) ^ (slot >> shift)`, shifted back up. */
  function NextSlot(g: nat, i: nat, slot: nat, unit: nat): nat
    requires unit > 0
  {
    Xor((g / Pow2(i)) % 2, slot / unit) * unit
  }

  lemma NextSlotIsLevel(g: nat, i: nat, unit: U32)
    requires unit > 0 && i < 20
    ensures NextSlot(g, i, Wave(g, unit)[20 - i], unit) == Wave(g, unit)[21 - i]
  {
    var level := Level(g, 20 - i);
    var up := if level then 1 else 0;
    QuotientUnique(Slot(level, unit), unit, up);
    XorBits((g / Pow2(i)) % 2, up);
    assert Level(g, 21 - i) == (Bit(g, i) != level);
  }

  /** Slot `k + 1` is what the encoder computes from slot `k`. */
  ghost predicate SlotFollows(g: nat, unit: U32, wave: seq<U32>, k: nat)
    requires unit > 0 && 1 <= k <= 20 && |wave| == 22
  {
    NextSlot(g, 20 - k, wave[k], unit) == wave[k + 1]
  }

  /** The slot-writing loop of the encoder, for any word. */
  method WriteWave(g: nat, unit: U32, gcrOut: array<U32>, padding: nat, ghost wave: seq<U32>)
    requires unit > 0 && padding + 22 <= gcrOut.Length
    requires |wave| == 22 && wave[0] == 0 && wave[1] == unit
    requires forall k :: 1 <= k <= 20 ==> SlotFollows(g, unit, wave, k)
    modifies gcrOut
    ensures forall j :: 0 <= j < gcrOut.Length ==>
      gcrOut[j] == if padding <= j < padding + 22 then wave[j - padding] else old(gcrOut[j])
  {
    gcrOut[padding] := 0;
    gcrOut[1 + padding] := unit;
    for i := 20 downto 0
      invariant forall j :: 0 <= j < gcrOut.Length ==>
        gcrOut[j] == if padding <= j < padding + 22 - i then wave[j - padding] else old(gcrOut[j])
    {
      assert SlotFollows(g, unit, wave, 20 - i);
      gcrOut[padding + 20 - i + 1] := NextSlot(g, i, gcrOut[padding + 20 - i], unit);
    }
  }

  method EncodeGcrFrame(value: U16, gcrOut: array<U32>, padding: nat, shift: nat)
    requires shift < 16 && padding + 22 <= gcrOut.Length
    modifies gcrOut
    ensures gcrOut[padding..padding + 22] == Wave(GcrWord(FullNumber(value)), Unit(shift))
    ensures forall j :: 0 <= j < gcrOut.Length && !(padding <= j < padding + 22) ==> gcrOut[j] == old(gcrOut[j])
  {
    var gcrNumber := GcrBits(value);
    var multiplier := Unit(shift);
    ghost var wave := Wave(gcrNumber, multiplier);
    forall k | 1 <= k <= 20
      ensures SlotFollows(gcrNumber, multiplier, wave, k)
    {
      NextSlotIsLevel(gcrNumber, 20 - k, multiplier);
    }
    WriteWave(gcrNumber, multiplier, gcrOut, padding, wave);
    assert gcrOut[padding..padding + 22] == wave;
  }

  // ----- the receiver -----

  /** One bit per slot pair: a one where the line changed. */
  function Transitions(wave: seq<U32>): (bits: seq<bool>)
    requires |wave| == 22
    ensures |bits| == 20
  {
    seq(20, j requires 0 <= j < 20 => wave[j + 2] != wave[j + 1])
  }

  /** A flight controller's table from 5-bit code to nibble; 16 marks what is no code. */
  const GCR_DECODE_TABLE: seq<nat> :=
    [16, 16, 16, 16, 16, 16, 16, 16, 16, 9, 10, 11, 16, 13, 14, 15,
     16, 16, 2, 3, 16, 5, 6, 7, 16, 0, 8, 1, 16, 4, 12, 16]

  function NibbleOf(code: nat): nat { if code < 32 then GCR_DECODE_TABLE[code] else 16 }

  function DecodeWave(wave: seq<U32>): nat
    requires |wave| == 22
  {
    DecodeWord(FromBits(Transitions(wave)))
  }

  lemma NibbleOfEntry(n: nat)
    requires n < 16
    ensures NibbleOf(Entry(n)) == n
  {
  }

  lemma TransitionsRecoverWord(g: nat, unit: U32)
    requires g < 0x10_0000 && unit > 0
    ensures FromBits(Transitions(Wave(g, unit))) == g
  {
    var wave := Wave(g, unit);
    forall j | 0 <= j < 20
      ensures Transitions(wave)[j] == Bit(g, 19 - j)
    {
      assert Level(g, j + 2) == (Bit(g, 19 - j) != Level(g, j + 1));
    }
    assert Transitions(wave) == ToBits(g, 20);
    assert Pow2(20) == 0x10_0000 by { Pow2Adds(10, 10); assert Pow2(10) == 0x400; }
    FromBitsInvertsToBits(g, 20);
  }

  function DecodeWord(g: nat): nat {
    NibbleOf(g / 32768) * 4096 + NibbleOf((g / 1024) % 32) * 256 + NibbleOf((g / 32) % 32) * 16 + NibbleOf(g % 32)
  }

  lemma SplitWord(a: nat, b: nat, c: nat, d: nat)
    requires a < 32 && b < 32 && c < 32 && d < 32
    ensures var g := a * 32768 + b * 1024 + c * 32 + d;
      g / 32768 == a && (g / 1024) % 32 == b && (g / 32) % 32 == c && g % 32 == d
  {
    var g := a * 32768 + b * 1024 + c * 32 + d;
    assert g / 1024 == a * 32 + b;
    assert g / 32 == a * 1024 + b * 32 + c;
  }

  lemma WordRoundTrip(full: nat)
    requires full < 0x1_0000
    ensures DecodeWord(GcrWord(full)) == full
  {
    NibblesRoundTrip(full / 4096, (full / 256) % 16, (full / 16) % 16, full % 16);
    Nibbles(full);
  }

  lemma NibblesRoundTrip(a: nat, b: nat, c: nat, d: nat)
    requires a < 16 && b < 16 && c < 16 && d < 16
    ensures DecodeWord(Codes(a, b, c, d)) == a * 4096 + b * 256 + c * 16 + d
  {
    hide NibbleOf;
    hide Entry;
    SplitWord(Entry(a), Entry(b), Entry(c), Entry(d));
    NibbleOfEntry(a);
    NibbleOfEntry(b);
    NibbleOfEntry(c);
    NibbleOfEntry(d);
  }

  lemma Nibbles(full: nat)
    requires full < 0x1_0000
    ensures full == (full / 4096) * 4096 + ((full / 256) % 16) * 256 + ((full / 16) % 16) * 16 + full % 16
  {
    var a := full / 16;
    var b := a / 16;
    assert full / 256 == b && full / 4096 == b / 16;
  }

  lemma NibbleBit(x: nat, k: nat)
    ensures Bit(x / 16, k) == Bit(x, k + 4)
  {
    hide Pow2;
    HalvingDrops(x, k + 3);
    HalvingDrops(x / 2, k + 2);
    HalvingDrops(x / 4, k + 1);
    HalvingDrops(x / 8, k);
    assert x / 2 / 2 == x / 4 && x / 4 / 2 == x / 8 && x / 8 / 2 == x / 16;
  }

  lemma InvertedBit(y: nat, k: nat)
    requires y < 16 && k < 4
    ensures Bit(15 - y, k) == !Bit(y, k)
  {
    assert Pow2(0) == 1 && Pow2(1) == 2 && Pow2(2) == 4 && Pow2(3) == 8;
    if k == 0 {} else if k == 1 {} else if k == 2 {} else {}
  }

  lemma ModHalves(x: nat, p: nat)
    requires p > 0
    ensures (x % (2 * p)) / 2 == (x / 2) % p && (x % (2 * p)) % 2 == x % 2
  {
    var q, r := x / (2 * p), x % (2 * p);
    DivMod(x, 2 * p);
    Double(q, p);
    ModUnique(x / 2, p, q, r / 2);
  }

  lemma {:induction false} LowBits(x: nat, n: nat, k: nat)
    requires k < n
    ensures Bit(x % Pow2(n), k) == Bit(x, k)
  {
    ModHalves(x, Pow2(n - 1));
    if k == 0 {
      assert Pow2(0) == 1;
    } else {
      HalvingDrops(x, k - 1);
      HalvingDrops(x % Pow2(n), k - 1);
      LowBits(x / 2, n - 1, k - 1);
    }
  }

  /** Every checksum bit makes the parity of its column of the four nibbles odd. */
  lemma ChecksumParity(value: U16, k: nat)
    requires k < 4
    ensures (((Bit(value, k) != Bit(value, k + 4)) != Bit(value, k + 8)) != Bit(Checksum(value), k)) == true
  {
    hide Xor;
    hide Bit;
    var x := Xor(Xor(value, value / 16), value / 256);
    ThreeNibbles(value, k);
    XorBit(value, value / 16, k);
    XorBit(Xor(value, value / 16), value / 256, k);
    LowNibble(x, k);
    InvertedBit(x % 16, k);
  }

  /** A packet is accepted only if each of its four bit columns has the parity the
      checksum asks for: even, or odd under the inverted one. */
  lemma AcceptedParity(packet: U16, bidirectional: bool, k: nat)
    requires k < 4 && Decoded(Unpack(packet, bidirectional))
    ensures (((Bit(packet, k) != Bit(packet, k + 4)) != Bit(packet, k + 8)) != Bit(packet, k + 12)) == bidirectional
  {
    hide Xor;
    hide Bit;
    var x := Xor(Xor(packet / 16, packet / 256), packet / 4096);
    ThreeNibbles(packet, k);
    XorBit(packet / 16, packet / 256, k);
    XorBit(Xor(packet / 16, packet / 256), packet / 4096, k);
    LowNibble(x, k);
    LowNibble(packet, k);
    InvertedBit(packet % 16, k);
  }

  lemma LowNibble(x: nat, k: nat)
    requires k < 4
    ensures Bit(x % 16, k) == Bit(x, k)
  {
    hide Bit;
    assert Pow2(4) == 16;
    LowBits(x, 4, k);
  }

  lemma ThreeNibbles(x: nat, k: nat)
    ensures Bit(x / 16, k) == Bit(x, k + 4) && Bit(x / 256, k) == Bit(x, k + 8) && Bit(x / 4096, k) == Bit(x, k + 12)
  {
    hide Bit;
    NibbleBit(x, k);
    NibbleBit(x, k + 4);
    NibbleBit(x, k + 8);
    NibbleBit(x / 16, k);
    NibbleBit(x / 16, k + 4);
    NibbleBit(x / 256, k);
    assert x / 16 / 16 == x / 256 && x / 256 / 16 == x / 4096;
  }

  /** For every value and bit width, undoing the transition coding and the 5b/4b
      code gives back the low 12 bits and their inverted checksum. */
  lemma TelemetryRoundTrip(value: U16, unit: U32)
    requires unit > 0
    ensures DecodeWave(Wave(GcrWord(FullNumber(value)), unit)) == (value % 4096) * 16 + Checksum(value)
  {
    TransitionsRecoverWord(GcrWord(FullNumber(value)), unit);
    WordRoundTrip(FullNumber(value));
    LowTwelveBits(value);
  }

  lemma LowTwelveBits(value: nat)
    ensures (value * 16) % 0x1_0000 == (value % 4096) * 16
  {
  }

  // ----- eRPM period as a 12-bit floating point number -----

  /** Period a receiver reads back: mantissa shifted left by the exponent. */
  function Period(value: nat): nat { (value % 512) * Pow2(value / 512) }

  /** Three exponent bits and nine mantissa bits, the largest that fit: the value
      read back is the period rounded down to a multiple of 2^exponent. */
  method ErpmTo12Bit(comTime: U16, running: bool) returns (value: U16)
    ensures value < 4096
    ensures var period := if running then comTime else 65535;
      Period(value) <= period < Period(value) + Pow2(value / 512) &&
      (value / 512 > 0 ==> value % 512 >= 256)
  {
    var period: nat := if !running then 65535 else comTime;
    var shiftAmount := 0;
    assert Pow2(16) == 0x1_0000 && Pow2(9) == 512 by { Pow2Adds(8, 8); assert Pow2(8) == 0x100; }
    var i := 15;
    while i >= 9
      invariant 8 <= i <= 15
      invariant shiftAmount == 0
      invariant period < Pow2(i + 1)
    {
      DivMod(period, Pow2(i));
      HighBit(period, i);
      if period / Pow2(i) == 1 {
        shiftAmount := i + 1 - 9;
        break;
      }
      i := i - 1;
    }
    var p := Pow2(shiftAmount);
    DivMod(period, p);
    Mantissa(period, i, shiftAmount);
    hide Pow2;
    value := shiftAmount * 512 + period / p;
    assert value / 512 == shiftAmount && value % 512 == period / p;
  }

  lemma HighBit(period: nat, i: nat)
    requires period < Pow2(i + 1)
    ensures period / Pow2(i) == if period < Pow2(i) then 0 else 1
  {
    QuotientUnique(period, Pow2(i), if period < Pow2(i) then 0 else 1);
  }

  lemma Mantissa(period: nat, i: nat, shift: nat)
    requires period < Pow2(i + 1)
    requires (shift == 0 && i == 8) || (i >= 9 && shift == i - 8 && period / Pow2(i) == 1)
    ensures period / Pow2(shift) < 512
    ensures shift > 0 ==> period / Pow2(shift) >= 256
  {
    Pow2Adds(9, shift);
    Pow2Adds(8, shift);
    assert Pow2(9) == 512 && Pow2(8) == 256 && i + 1 == 9 + shift;
    HighBit(period, i);
    QuotientRange(period, Pow2(shift), if shift == 0 then 0 else 256, 512);
  }

  lemma QuotientRange(x: nat, p: nat, low: nat, high: nat)
    requires p > 0 && low * p <= x < high * p
    ensures low <= x / p < high
  {
    DivMod(x, p);
    var q := x / p;
    if q >= high { ProductBelow(high, p, q, p); }
    if q < low { ProductBelow(q + 1, p, low, p); }
  }
}
