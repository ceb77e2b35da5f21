/** The frames of RFC 6455, sections 5.2 to 5.5, as desktop.py writes and reads them. */
module Frames {
  import opened Wrappers

  /** Bit operations on bytes are written as arithmetic: the flag 0x80 is a quotient, the low bits are a remainder. */
  type byte = b: int | 0 <= b < 256

  /** Bytes of a masking key. */
  type Mask = m: seq<byte> | |m| == 4 witness [0, 0, 0, 0]

  type Opcode = o: byte | o <= 0x0F

  const TEXT: Opcode := 0x1
  const CONTINUATION: Opcode := 0x0
  const CLOSE: Opcode := 0x8
  const PING: Opcode := 0x9
  const PONG: Opcode := 0xA

  const MAX_PAYLOAD := 16 * 1024 * 1024

  datatype Frame = Frame(final: bool, opcode: Opcode, mask: Option<Mask>, payload: seq<byte>)

  // ---------------------------------------------------------------- numbers as bytes

  function Pow256(n: nat): (p: nat)
    ensures p > 0
  {
    if n == 0 then 1 else 256 * Pow256(n - 1)
  }

  /** The n low-order bytes, highest first. */
  function BigEndian(value: nat, n: nat): (bytes: seq<byte>)
    ensures |bytes| == n
  {
    if n == 0 then [] else BigEndian(value / 256, n - 1) + [value % 256]
  }

  function FromBigEndian(bytes: seq<byte>): nat {
    if bytes == [] then 0 else FromBigEndian(bytes[..|bytes| - 1]) * 256 + bytes[|bytes| - 1]
  }

  lemma {:induction false} BigEndianRoundTrip(value: nat, n: nat)
    requires value < Pow256(n)
    ensures FromBigEndian(BigEndian(value, n)) == value
  {
    if n > 0 {
      var front := BigEndian(value / 256, n - 1);
      BigEndianRoundTrip(value / 256, n - 1);
      assert BigEndian(value, n)[..n - 1] == front;
    }
  }

  // ---------------------------------------------------------------- masking

  /** The exclusive or of the n low-order bits. */
  function XorBits(a: nat, b: nat, n: nat): (r: nat)
    ensures r < Pow2(n)
  {
    if n == 0 then 0 else 2 * XorBits(a / 2, b / 2, n - 1) + if a % 2 != b % 2 then 1 else 0
  }

  function Pow2(n: nat): (p: nat)
    ensures p > 0
  {
    if n == 0 then 1 else 2 * Pow2(n - 1)
  }

  lemma {:induction false} XorTwice(a: nat, b: nat, n: nat)
    requires a < Pow2(n)
    ensures XorBits(XorBits(a, b, n), b, n) == a
  {
    if n > 0 {
      var high, bit := XorBits(a / 2, b / 2, n - 1), if a % 2 != b % 2 then 1 else 0;
      var x := XorBits(a, b, n);
      assert x == 2 * high + bit && x / 2 == high && x % 2 == bit;
      XorTwice(a / 2, b / 2, n - 1);
    }
  }

  function Xor(a: byte, b: byte): byte {
    assert Pow2(8) == 2 * (2 * (2 * (2 * Pow2(4))));
    XorBits(a, b, 8)
  }

  function Masked(payload: seq<byte>, mask: Mask): (r: seq<byte>)
    ensures |r| == |payload|
  {
    seq(|payload|, i requires 0 <= i < |payload| => Xor(payload[i], mask[i % 4]))
  }

  /** Masking twice with one key gives back the payload. */
  lemma MaskTwice(payload: seq<byte>, mask: Mask)
    ensures Masked(Masked(payload, mask), mask) == payload
  {
    var twice := Masked(Masked(payload, mask), mask);
    forall i | 0 <= i < |payload| ensures twice[i] == payload[i] {
      XorByteTwice(payload[i], mask[i % 4]);
    }
  }

  lemma XorByteTwice(a: byte, b: byte)
    ensures Xor(Xor(a, b), b) == a
  {
    assert Pow2(8) == 2 * (2 * (2 * (2 * Pow2(4))));
    XorTwice(a, b, 8);
  }

  // ---------------------------------------------------------------- writing

  function LengthCode(n: nat): (c: byte)
    ensures c <= 127
  {
    if n <= 125 then n else if n <= 0xFFFF then 126 else 127
  }

  function LengthBytes(n: nat): seq<byte> {
    if n <= 125 then [] else if n <= 0xFFFF then BigEndian(n, 2) else BigEndian(n, 8)
  }

  /** A flag in the highest bit of a byte. */
  function Flagged(flag: bool, low: byte): (b: byte)
    requires low <= 127
    ensures HasFlag(b) == flag && Low7(b) == low && (low <= 0x0F ==> Low4(b) == low)
  {
    if flag then 0x80 + low else low
  }

  predicate HasFlag(b: byte) {
    b >= 0x80
  }

  function Low7(b: byte): (r: byte)
    ensures r <= 127
  {
    b % 0x80
  }

  function Low4(b: byte): Opcode {
    b % 0x10
  }

  function HeaderBytes(f: Frame): seq<byte> {
    [Flagged(f.final, f.opcode), Flagged(f.mask.Some?, LengthCode(|f.payload|))]
  }

  /** A payload as it goes over the wire, after its key if there is one. */
  function Body(f: Frame): seq<byte> {
    if f.mask.Some? then f.mask.value + Masked(f.payload, f.mask.value) else f.payload
  }

  /** A frame as it goes over the wire. */
  function Wire(f: Frame): seq<byte> {
    HeaderBytes(f) + LengthBytes(|f.payload|) + Body(f)
  }

  /** What `_send_frame` writes: always final, always masked. */
  function Sent(opcode: Opcode, payload: seq<byte>, mask: Mask): seq<byte> {
    Wire(Frame(true, opcode, Some(mask), payload))
  }

  // ---------------------------------------------------------------- the layout of RFC 6455, section 5.2

  /** The k-th bit, counted from the lowest. */
  predicate Bit(x: nat, k: nat) {
    if k == 0 then x % 2 == 1 else Bit(x / 2, k - 1)
  }

  /** A bit of the exclusive or is set if and only if it differs. */
  lemma {:induction false} XorIsBitwise(a: nat, b: nat, n: nat, k: nat)
    requires k < n
    ensures Bit(XorBits(a, b, n), k) <==> Bit(a, k) != Bit(b, k)
  {
    if k > 0 {
      XorIsBitwise(a / 2, b / 2, n - 1, k - 1);
      assert XorBits(a, b, n) / 2 == XorBits(a / 2, b / 2, n - 1);
    }
  }

  lemma LastDigit(bytes: seq<byte>)
    requires bytes != []
    ensures FromBigEndian(bytes) == FromBigEndian(bytes[..|bytes| - 1]) * 256 + bytes[|bytes| - 1]
    ensures |bytes| == 1 ==> FromBigEndian(bytes) == bytes[0]
  {
  }

  lemma TwoDigits(bytes: seq<byte>)
    requires |bytes| == 2
    ensures FromBigEndian(bytes) == HalfWord(bytes, 0)
  {
    LastDigit(bytes);
    LastDigit(bytes[..1]);
  }

  lemma FourDigits(bytes: seq<byte>)
    requires |bytes| == 4
    ensures FromBigEndian(bytes) == Word(bytes, 0)
  {
    var three, two := bytes[..3], bytes[..2];
    LastDigit(bytes);
    LastDigit(three);
    assert three[..2] == two;
    LastDigit(two);
    assert two[..1] == bytes[..1];
    LastDigit(bytes[..1]);
  }

  lemma EightDigits(bytes: seq<byte>)
    requires |bytes| == 8
    ensures FromBigEndian(bytes) == 0x1_0000_0000 * FromBigEndian(bytes[..4]) + FromBigEndian(bytes[4..])
  {
    var high := FromBigEndian(bytes[..4]);
    FourDigits(bytes[4..]);
    var seven, six, five := bytes[..7], bytes[..6], bytes[..5];
    LastDigit(bytes);
    LastDigit(seven);
    assert seven[..6] == six;
    LastDigit(six);
    assert six[..5] == five;
    LastDigit(five);
    assert five[..4] == bytes[..4];
  }

  /** The value of two bytes of the wire, and of four. */
  function HalfWord(wire: seq<byte>, at: nat): nat
    requires at + 2 <= |wire|
  {
    0x100 * (wire[at] as nat) + wire[at + 1] as nat
  }

  function Word(wire: seq<byte>, at: nat): nat
    requires at + 4 <= |wire|
  {
    0x1_0000 * HalfWord(wire, at) + HalfWord(wire, at + 2)
  }

  /** Where the length ends, and the key or the payload begins. */
  function LengthEnd(n: nat): nat {
    if n <= 125 then 2 else if n <= 0xFFFF then 4 else 10
  }

  /** The length takes as few bytes as it can. */
  predicate LengthOnWire(wire: seq<byte>, n: nat) {
    && |wire| >= LengthEnd(n)
    && (if n <= 125 then wire[1] % 0x80 == n
        else if n <= 0xFFFF then wire[1] % 0x80 == 126 && HalfWord(wire, 2) == n
        else wire[1] % 0x80 == 127 && 0x1_0000_0000 * Word(wire, 2) + Word(wire, 6) == n)
  }

  /** Every bit of the payload is on the wire, turned over where that bit of the key is set. */
  ghost predicate PayloadOnWire(wire: seq<byte>, at: nat, mask: Option<Mask>, payload: seq<byte>) {
    if mask.None? then |wire| == at + |payload| && wire[at..] == payload
    else
      && |wire| == at + 4 + |payload| && wire[at..at + 4] == mask.value
      && forall i, k :: 0 <= i < |payload| && 0 <= k < 8 ==>
           (Bit(wire[at + 4 + i], k) <==> Bit(payload[i], k) != Bit(mask.value[i % 4], k))
  }

  lemma MaskedBits(payload: seq<byte>, mask: Mask, i: nat, k: nat)
    requires i < |payload| && k < 8
    ensures Bit(Masked(payload, mask)[i], k) <==> Bit(payload[i], k) != Bit(mask[i % 4], k)
  {
    XorIsBitwise(payload[i], mask[i % 4], 8, k);
  }

  lemma LengthIsOnWire(f: Frame)
    requires |f.payload| < Pow256(8)
    ensures LengthOnWire(Wire(f), |f.payload|)
  {
    var n, wire := |f.payload|, Wire(f);
    var long := LengthBytes(n);
    assert wire[2..2 + |long|] == long;
    if 125 < n <= 0xFFFF {
      assert Pow256(2) == 0x1_0000;
      BigEndianRoundTrip(n, 2);
      TwoDigits(long);
    } else if n > 0xFFFF {
      BigEndianRoundTrip(n, 8);
      EightDigits(long);
      FourDigits(long[..4]);
      FourDigits(long[4..]);
    }
  }

  lemma KeyIsOnWire(start: seq<byte>, key: Mask, payload: seq<byte>)
    ensures PayloadOnWire(start + (key + Masked(payload, key)), |start|, Some(key), payload)
  {
    var masked := Masked(payload, key);
    var wire, at := start + (key + masked), |start|;
    assert wire[at..at + 4] == key;
    forall i, k | 0 <= i < |payload| && 0 <= k < 8
      ensures Bit(wire[at + 4 + i], k) <==> Bit(payload[i], k) != Bit(key[i % 4], k)
    {
      assert wire[at + 4 + i] == masked[i];
      MaskedBits(payload, key, i, k);
    }
  }

  lemma PayloadIsOnWire(f: Frame)
    ensures PayloadOnWire(Wire(f), LengthEnd(|f.payload|), f.mask, f.payload)
  {
    var start := HeaderBytes(f) + LengthBytes(|f.payload|);
    assert |start| == LengthEnd(|f.payload|) && Wire(f) == start + Body(f);
    if f.mask.Some? {
      KeyIsOnWire(start, f.mask.value, f.payload);
    }
  }

  /** The first bytes of the frames of section 11.8, as they are sent: final, and a fragment that goes on. */
  lemma FirstBytes(mask: Option<Mask>, payload: seq<byte>)
    ensures Wire(Frame(true, TEXT, mask, payload))[0] == 0x81 && Wire(Frame(false, TEXT, mask, payload))[0] == 0x01
    ensures Wire(Frame(true, CONTINUATION, mask, payload))[0] == 0x80
    ensures Wire(Frame(true, CLOSE, mask, payload))[0] == 0x88
    ensures Wire(Frame(true, PING, mask, payload))[0] == 0x89 && Wire(Frame(true, PONG, mask, payload))[0] == 0x8A
  {
  }

  /** What a frame is on the wire: its flags and opcode, its length, its key if there is one, and its payload. */
  lemma FrameOnWire(f: Frame)
    requires |f.payload| < Pow256(8)
    ensures var wire, n := Wire(f), |f.payload|;
      && LengthOnWire(wire, n)
      && wire[0] as nat == (if f.final then 0x80 else 0) + f.opcode as nat
      && (wire[1] >= 0x80 <==> f.mask.Some?)
      && PayloadOnWire(wire, LengthEnd(n), f.mask, f.payload)
  {
    LengthIsOnWire(f);
    PayloadIsOnWire(f);
  }

  // ---------------------------------------------------------------- reading

  /** A read of so many bytes from what is left of the stream. */
  datatype Read = Bytes(value: seq<byte>, rest: seq<byte>) | Closed

  function ReadBytes(input: seq<byte>, n: nat): Read {
    if n <= |input| then Bytes(input[..n], input[n..]) else Closed
  }

  datatype Header = Header(final: bool, opcode: Opcode, masked: bool, length: nat, rest: seq<byte>) | NoHeader

  function LengthWidth(code: byte): nat {
    if code == 126 then 2 else if code == 127 then 8 else 0
  }

  function ReadHeader(input: seq<byte>): Header {
    var r := ReadBytes(input, 2);
    if r.Closed? then NoHeader
    else
      var first, second := r.value[0], r.value[1];
      var code := Low7(second);
      var long := ReadBytes(r.rest, LengthWidth(code));
      if long.Closed? then NoHeader
      else
        Header(HasFlag(first), Low4(first), HasFlag(second),
               if code == 126 || code == 127 then FromBigEndian(long.value) else code, long.rest)
  }

  /** The payload after a header, unmasked. */
  function ReadPayload(h: Header): Read
    requires h.Header?
  {
    if !h.masked then ReadBytes(h.rest, h.length)
    else
      var m := ReadBytes(h.rest, 4);
      if m.Closed? then Closed
      else
        var r := ReadBytes(m.rest, h.length);
        if r.Closed? then Closed else Bytes(Masked(r.value, m.value), r.rest)
  }

  datatype Got = GotFrame(final: bool, opcode: Opcode, payload: seq<byte>, rest: seq<byte>) | Oversized | Ended

  function ReadFrame(input: seq<byte>): (g: Got)
  {
    var h := ReadHeader(input);
    if h.NoHeader? then Ended
    else if h.length > MAX_PAYLOAD then Oversized
    else
      var p := ReadPayload(h);
      if p.Closed? then Ended else GotFrame(h.final, h.opcode, p.value, p.rest)
  }

  lemma ReadFrameShrinks(input: seq<byte>)
    requires ReadFrame(input).GotFrame?
    ensures |ReadFrame(input).rest| + 2 <= |input|
  {
  }

  // ---------------------------------------------------------------- round trip

  lemma ReadPrefix(a: seq<byte>, rest: seq<byte>)
    ensures ReadBytes(a + rest, |a|) == Bytes(a, rest)
  {
  }

  lemma LengthIsRead(n: nat, rest: seq<byte>)
    requires n < Pow256(8)
    ensures var code := LengthCode(n);
      && ReadBytes(LengthBytes(n) + rest, LengthWidth(code)) == Bytes(LengthBytes(n), rest)
      && n == if code == 126 || code == 127 then FromBigEndian(LengthBytes(n)) else code
  {
    ReadPrefix(LengthBytes(n), rest);
    if n <= 125 {
    } else if n <= 0xFFFF {
      assert Pow256(2) == 0x1_0000;
      BigEndianRoundTrip(n, 2);
    } else {
      BigEndianRoundTrip(n, 8);
    }
  }

  lemma HeaderParts(input: seq<byte>, first: byte, second: byte, tail: seq<byte>, long: seq<byte>, rest: seq<byte>)
    requires ReadBytes(input, 2) == Bytes([first, second], tail)
    requires ReadBytes(tail, LengthWidth(Low7(second))) == Bytes(long, rest)
    ensures ReadHeader(input) == Header(
      HasFlag(first), Low4(first), HasFlag(second),
      if LengthWidth(Low7(second)) > 0 then FromBigEndian(long) else Low7(second), rest)
  {
  }

  lemma HeaderIsRead(f: Frame, rest: seq<byte>)
    requires |f.payload| < Pow256(8)
    ensures ReadHeader(HeaderBytes(f) + LengthBytes(|f.payload|) + rest)
      == Header(f.final, f.opcode, f.mask.Some?, |f.payload|, rest)
  {
    var n, header := |f.payload|, HeaderBytes(f);
    var long := LengthBytes(n);
    var input := header + long + rest;
    Regroup(header, long, rest);
    ReadPrefix(header, long + rest);
    LengthIsRead(n, rest);
    HeaderParts(input, Flagged(f.final, f.opcode), Flagged(f.mask.Some?, LengthCode(n)), long + rest, long, rest);
  }

  lemma Regroup(a: seq<byte>, b: seq<byte>, c: seq<byte>)
    ensures (a + b) + c == a + (b + c)
  {
  }

  lemma SmallEnough(n: nat)
    requires n <= MAX_PAYLOAD
    ensures n < Pow256(8)
  {
    assert Pow256(4) == 0x1_0000_0000;
    assert Pow256(8) == 256 * (256 * (256 * (256 * Pow256(4))));
  }

  lemma PayloadIsRead(f: Frame, rest: seq<byte>)
    ensures ReadPayload(Header(f.final, f.opcode, f.mask.Some?, |f.payload|, Body(f) + rest)) == Bytes(f.payload, rest)
  {
    if f.mask.Some? {
      var mask, body := f.mask.value, Masked(f.payload, f.mask.value);
      Regroup(mask, body, rest);
      ReadPrefix(mask, body + rest);
      ReadPrefix(body, rest);
      MaskTwice(f.payload, mask);
    } else {
      ReadPrefix(f.payload, rest);
    }
  }

  /**
   * Reading what was written gives back the frame, for every payload of at most 16 MiB and every mask, and leaves
   * the bytes that follow.
   */
  lemma FrameRoundTrip(f: Frame, rest: seq<byte>)
    requires |f.payload| <= 16777216
    ensures ReadFrame(Wire(f) + rest) == GotFrame(f.final, f.opcode, f.payload, rest)
  {
    SmallEnough(|f.payload|);
    Regroup(HeaderBytes(f) + LengthBytes(|f.payload|), Body(f), rest);
    HeaderIsRead(f, Body(f) + rest);
    PayloadIsRead(f, rest);
  }

  /** A longer payload is refused before it is read. */
  lemma LongFrameIsRefused(f: Frame, rest: seq<byte>)
    requires 16777216 < |f.payload| < Pow256(8)
    ensures ReadFrame(Wire(f) + rest) == Oversized
  {
    Regroup(HeaderBytes(f) + LengthBytes(|f.payload|), Body(f), rest);
    HeaderIsRead(f, Body(f) + rest);
  }
}
