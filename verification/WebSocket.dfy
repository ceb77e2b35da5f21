/**
 * The message reader of desktop.py over the frames of RFC 6455: fragments put together, pings answered on the way.
 */
module WebSocket {
  // The socket object is proved against a reader of the whole byte stream, so how the stream is cut does not matter.

  import opened Wrappers
  import opened Frames

  // ---------------------------------------------------------------- messages

  /** What a complete text message is once decoded. */
  datatype Decoded<+J> = Object(value: J) | NotAnObject | Undecodable

  datatype Outcome<+J> = Message(value: J, rest: seq<byte>) | StreamClosed | TooLong | ClosedByPeer | Invalid

  /** What one frame does: it ends the reading, or leaves fragments and the pings it asks to answer. */
  datatype Progress<+J> = Done(outcome: Outcome<J>) | More(fragments: seq<byte>, pings: seq<seq<byte>>)

  function Absorb<J>(decode: seq<byte> -> Decoded<J>, g: Got, fragments: seq<byte>): Progress<J> {
    match g
    case Ended => Done(StreamClosed)
    case Oversized => Done(TooLong)
    case GotFrame(final, opcode, payload, rest) =>
      if opcode == CLOSE then Done(ClosedByPeer)
      else if opcode == PING then More(fragments, [payload])
      else if opcode != CONTINUATION && opcode != TEXT then More(fragments, [])
      else if !final then More(fragments + payload, [])
      else
        match decode(fragments + payload)
        case Object(value) => Done(Message(value, rest))
        case Undecodable => Done(Invalid)
        case NotAnObject => More([], [])
  }

  function After<J>(pings: seq<seq<byte>>, r: (Outcome<J>, seq<seq<byte>>)): (Outcome<J>, seq<seq<byte>>) {
    (r.0, pings + r.1)
  }

  /** `receive_json`: the next object, and the payloads of the pings answered before it. */
  function Receive<J>(decode: seq<byte> -> Decoded<J>, input: seq<byte>, fragments: seq<byte>)
    : (r: (Outcome<J>, seq<seq<byte>>))
    decreases |input|
  {
    var g := ReadFrame(input);
    match Absorb(decode, g, fragments)
    case Done(outcome) => (outcome, [])
    case More(more, pings) =>
      ReadFrameShrinks(input);
      After(pings, Receive(decode, g.rest, more))
  }

  // ---------------------------------------------------------------- reassembly

  predicate IsData(f: Frame) {
    f.opcode == CONTINUATION || f.opcode == TEXT
  }

  function WireAll(fs: seq<Frame>): seq<byte> {
    if fs == [] then [] else Wire(fs[0]) + WireAll(fs[1..])
  }

  function DataOf(fs: seq<Frame>): seq<byte> {
    if fs == [] then [] else DataIn(fs[0]) + DataOf(fs[1..])
  }

  function PingsOf(fs: seq<Frame>): seq<seq<byte>> {
    if fs == [] then [] else PingOf(fs[0]) + PingsOf(fs[1..])
  }

  /** One message in fragments, the last of them final, with other frames in between. */
  predicate OneMessage(fs: seq<Frame>) {
    && fs != [] && IsData(fs[|fs| - 1]) && fs[|fs| - 1].final
    && (forall i :: 0 <= i < |fs| ==> |fs[i].payload| <= MAX_PAYLOAD && fs[i].opcode != CLOSE)
    && (forall i :: 0 <= i < |fs| - 1 && IsData(fs[i]) ==> !fs[i].final)
  }

  function PingOf(f: Frame): seq<seq<byte>> {
    if f.opcode == PING then [f.payload] else []
  }

  function DataIn(f: Frame): seq<byte> {
    if IsData(f) then f.payload else []
  }

  lemma ReceiveGot<J>(decode: seq<byte> -> Decoded<J>, input: seq<byte>, g: Got, fragments: seq<byte>)
    requires ReadFrame(input) == g
    ensures var step := Absorb(decode, g, fragments);
      Receive(decode, input, fragments) ==
        if step.Done? then (step.outcome, []) else After(step.pings, Receive(decode, g.rest, step.fragments))
  {
  }

  lemma ReceiveOne<J>(decode: seq<byte> -> Decoded<J>, f: Frame, input: seq<byte>, fragments: seq<byte>)
    requires |f.payload| <= MAX_PAYLOAD && f.opcode != CLOSE && (IsData(f) ==> !f.final)
    ensures Receive(decode, Wire(f) + input, fragments)
      == After(PingOf(f), Receive(decode, input, fragments + DataIn(f)))
  {
    FrameRoundTrip(f, input);
    ReceiveGot(decode, Wire(f) + input, GotFrame(f.final, f.opcode, f.payload, input), fragments);
    assert fragments + [] == fragments;
  }

  lemma ReceiveLast<J>(decode: seq<byte> -> Decoded<J>, f: Frame, input: seq<byte>, fragments: seq<byte>)
    requires |f.payload| <= MAX_PAYLOAD && IsData(f) && f.final
    ensures Receive(decode, Wire(f) + input, fragments) == Finished(decode, fragments + f.payload, [], input)
  {
    FrameRoundTrip(f, input);
    ReceiveGot(decode, Wire(f) + input, GotFrame(true, f.opcode, f.payload, input), fragments);
    var r := Receive(decode, input, []);
    assert [] + r.1 == r.1;
  }

  /** A message is complete: an object is returned, another value is dropped and the reader starts afresh. */
  function Finished<J>(decode: seq<byte> -> Decoded<J>, whole: seq<byte>, pings: seq<seq<byte>>, rest: seq<byte>)
    : (Outcome<J>, seq<seq<byte>>)
  {
    match decode(whole)
    case Object(value) => (Message(value, rest), pings)
    case Undecodable => (Invalid, pings)
    case NotAnObject => After(pings, Receive(decode, rest, []))
  }

  lemma AfterAfter<J>(a: seq<seq<byte>>, b: seq<seq<byte>>, r: (Outcome<J>, seq<seq<byte>>))
    ensures After(a, After(b, r)) == After(a + b, r)
  {
    assert a + (b + r.1) == (a + b) + r.1;
  }

  /**
   * Reassembly. Whatever frames a message is cut into and whatever pings come in between, the reader decodes exactly
   * the fragments' payloads put together, and answers each ping with its payload, in order. An object is returned
   * with the following bytes untouched; another value is dropped and the reader starts afresh.
   */
  lemma {:induction false} Reassembly<J>(
    decode: seq<byte> -> Decoded<J>, fs: seq<Frame>, fragments: seq<byte>, rest: seq<byte>)
    requires OneMessage(fs)
    ensures Receive(decode, WireAll(fs) + rest, fragments)
      == Finished(decode, fragments + DataOf(fs), PingsOf(fs), rest)
  {
    var f, tail := fs[0], fs[1..];
    WireHead(fs, rest);
    if tail == [] {
      OnlyFrame(decode, f, fragments, rest);
      assert fs == [f];
    } else {
      TailIsMessage(fs);
      Reassembly(decode, tail, fragments + DataIn(f), rest);
      ReceiveOne(decode, f, WireAll(tail) + rest, fragments);
      FirstThenRest(decode, f, tail, fragments, rest);
      assert fs == [f] + tail;
    }
  }

  lemma WireHead(fs: seq<Frame>, rest: seq<byte>)
    requires fs != []
    ensures WireAll(fs) + rest == Wire(fs[0]) + (WireAll(fs[1..]) + rest)
  {
    Regroup(Wire(fs[0]), WireAll(fs[1..]), rest);
  }

  lemma OnlyFrame<J>(decode: seq<byte> -> Decoded<J>, f: Frame, fragments: seq<byte>, rest: seq<byte>)
    requires |f.payload| <= MAX_PAYLOAD && IsData(f) && f.final
    ensures Receive(decode, Wire(f) + (WireAll([]) + rest), fragments)
      == Finished(decode, fragments + DataOf([f]), PingsOf([f]), rest)
  {
    ReceiveLast(decode, f, rest, fragments);
    assert WireAll([]) + rest == rest;
    assert DataOf([f]) == f.payload + [] == f.payload;
    assert PingsOf([f]) == [];
  }

  lemma FirstThenRest<J>(
    decode: seq<byte> -> Decoded<J>, f: Frame, tail: seq<Frame>, fragments: seq<byte>, rest: seq<byte>)
    ensures After(PingOf(f), Finished(decode, (fragments + DataIn(f)) + DataOf(tail), PingsOf(tail), rest))
      == Finished(decode, fragments + DataOf([f] + tail), PingsOf([f] + tail), rest)
  {
    assert ([f] + tail)[1..] == tail;
    assert (fragments + DataIn(f)) + DataOf(tail) == fragments + (DataIn(f) + DataOf(tail));
    FinishedAfter(decode, fragments + DataOf([f] + tail), PingOf(f), PingsOf(tail), rest);
  }

  lemma TailIsMessage(fs: seq<Frame>)
    requires OneMessage(fs) && |fs| > 1
    ensures OneMessage(fs[1..]) && |fs[0].payload| <= MAX_PAYLOAD && fs[0].opcode != CLOSE
    ensures IsData(fs[0]) ==> !fs[0].final
  {
    var tail := fs[1..];
    assert forall i :: 0 <= i < |tail| ==> tail[i] == fs[i + 1];
  }

  lemma FinishedAfter<J>(
    decode: seq<byte> -> Decoded<J>, whole: seq<byte>, first: seq<seq<byte>>, pings: seq<seq<byte>>, rest: seq<byte>)
    ensures After(first, Finished(decode, whole, pings, rest)) == Finished(decode, whole, first + pings, rest)
  {
    AfterAfter(first, pings, Receive(decode, rest, []));
  }

  /** A close frame ends the reading, wherever it comes; nothing of the unfinished message is returned. */
  lemma {:induction false} CloseEndsReading<J>(
    decode: seq<byte> -> Decoded<J>, fs: seq<Frame>, close: Frame, fragments: seq<byte>, rest: seq<byte>)
    requires forall i :: 0 <= i < |fs| ==>
      |fs[i].payload| <= MAX_PAYLOAD && fs[i].opcode != CLOSE && (IsData(fs[i]) ==> !fs[i].final)
    requires close.opcode == CLOSE && |close.payload| <= MAX_PAYLOAD
    ensures Receive(decode, WireAll(fs) + (Wire(close) + rest), fragments) == (ClosedByPeer, PingsOf(fs))
  {
    var end := Wire(close) + rest;
    if fs == [] {
      FrameRoundTrip(close, rest);
      assert WireAll(fs) + end == end;
    } else {
      WireHead(fs, end);
      CloseEndsReading(decode, fs[1..], close, fragments + DataIn(fs[0]), rest);
      ReceiveOne(decode, fs[0], WireAll(fs[1..]) + end, fragments);
    }
  }

  // ---------------------------------------------------------------- the socket

  /** The frames that answer these pings, the i-th written by `pong(i, payload)`. */
  function Answers(pings: seq<seq<byte>>, pong: (nat, seq<byte>) -> seq<byte>): seq<seq<byte>> {
    if pings == [] then []
    else Answers(pings[..|pings| - 1], pong) + [pong(|pings| - 1, pings[|pings| - 1])]
  }

  lemma AnswersAppend(pings: seq<seq<byte>>, payload: seq<byte>, pong: (nat, seq<byte>) -> seq<byte>)
    ensures Answers(pings + [payload], pong) == Answers(pings, pong) + [pong(|pings|, payload)]
  {
    var all := pings + [payload];
    assert all[..|pings|] == pings && all[|pings|] == payload;
  }

  /** Pongs masked with successive keys. */
  function Pong(masks: nat -> Mask, used: nat): (nat, seq<byte>) -> seq<byte> {
    (i: nat, payload: seq<byte>) => Sent(PONG, payload, masks(used + i))
  }

  lemma Append<T>(a: seq<T>, b: seq<T>, x: T)
    ensures (a + b) + [x] == a + (b + [x])
  {
  }

  class UnixWebSocket<J> {
    /** What a complete message decodes to. */
    const decode: seq<byte> -> Decoded<J>
    /** The size the operating system picks for each read, and the random masking keys. */
    const cuts: nat -> nat
    const masks: nat -> Mask
    var buffer: seq<byte>
    /** What the peer sends before it closes, and what it has been sent, write by write. */
    var incoming: seq<byte>
    var sent: seq<seq<byte>>
    var received: nat
    var used: nat

    constructor (decode: seq<byte> -> Decoded<J>, cuts: nat -> nat, masks: nat -> Mask, incoming: seq<byte>)
      ensures this.decode == decode && this.cuts == cuts && this.masks == masks
      ensures Unread() == incoming && sent == [] && used == 0
    {
      this.decode, this.cuts, this.masks, this.incoming := decode, cuts, masks, incoming;
      buffer, sent, received, used := [], [], 0, 0;
    }

    function Unread(): seq<byte>
      reads this
    {
      buffer + incoming
    }

    /** Some of the bytes that are there, at most `limit`; none exactly at the end. */
    method Recv(limit: nat) returns (chunk: seq<byte>)
      requires limit > 0
      modifies this`incoming, this`received
      ensures chunk + incoming == old(incoming) && |chunk| <= limit
      ensures chunk == [] <==> old(incoming) == []
    {
      var most := if limit <= |incoming| then limit else |incoming|;
      var size := if 1 <= cuts(received) <= most then cuts(received) else most;
      chunk := incoming[..size];
      incoming := incoming[size..];
      received := received + 1;
    }

    method ReceiveBytes(size: nat) returns (r: Read)
      modifies this`buffer, this`incoming, this`received
      ensures r == (if r.Closed? then ReadBytes(old(Unread()), size) else Bytes(r.value, Unread()))
      ensures r == ReadBytes(old(Unread()), size)
    {
      while |buffer| < size
        invariant Unread() == old(Unread())
        decreases |incoming|
      {
        var want := size - |buffer|;
        ghost var before := buffer + incoming;
        ghost var was := incoming;
        var chunk := Recv(if want < 4096 then 4096 else want);
        if chunk == [] {
          return Closed;
        }
        buffer := buffer + chunk;
        assert was == chunk + incoming;
      }
      var value := buffer[..size];
      buffer := buffer[size..];
      r := Bytes(value, Unread());
      assert old(Unread()) == value + Unread();
    }

    method SendFrame(opcode: Opcode, payload: seq<byte>)
      modifies this`sent, this`used
      ensures sent == old(sent) + [Sent(opcode, payload, masks(old(used)))] && used == old(used) + 1
    {
      var mask := masks(used);
      used := used + 1;
      var n := |payload|;
      var header;
      if n <= 125 {
        header := [0x80 + opcode, 0x80 + n];
      } else if n <= 0xFFFF {
        header := [0x80 + opcode, 0x80 + 126] + BigEndian(n, 2);
      } else {
        header := [0x80 + opcode, 0x80 + 127] + BigEndian(n, 8);
      }
      var body := [];
      for i := 0 to n
        invariant |body| == i && forall k :: 0 <= k < i ==> body[k] == Xor(payload[k], mask[k % 4])
      {
        body := body + [Xor(payload[i], mask[i % 4])];
      }
      assert body == Masked(payload, mask);
      var f := Frame(true, opcode, Some(mask), payload);
      assert header == HeaderBytes(f) + LengthBytes(n);
      sent := sent + [header + (mask + body)];
    }

    method ReceiveHeader() returns (h: Header)
      modifies this`buffer, this`incoming, this`received
      ensures h == ReadHeader(old(Unread()))
      ensures h.Header? ==> Unread() == h.rest
    {
      var two := ReceiveBytes(2);
      if two.Closed? {
        return NoHeader;
      }
      var first, second := two.value[0], two.value[1];
      var code := Low7(second);
      var length: nat := code;
      if code == 126 || code == 127 {
        var long := ReceiveBytes(LengthWidth(code));
        if long.Closed? {
          return NoHeader;
        }
        length := FromBigEndian(long.value);
      }
      return Header(HasFlag(first), Low4(first), HasFlag(second), length, Unread());
    }

    method ReceivePayload(h: Header) returns (r: Read)
      requires h.Header? && h.rest == Unread()
      modifies this`buffer, this`incoming, this`received
      ensures r == ReadPayload(h)
      ensures r.Bytes? ==> Unread() == r.rest
    {
      if !h.masked {
        r := ReceiveBytes(h.length);
        return;
      }
      var four := ReceiveBytes(4);
      if four.Closed? {
        return Closed;
      }
      r := ReceiveBytes(h.length);
      if r.Bytes? {
        r := Bytes(Masked(r.value, four.value), r.rest);
      }
    }

    /** The head of the loop: one frame off the stream. */
    method ReceiveFrame() returns (g: Got)
      modifies this`buffer, this`incoming, this`received
      ensures g == ReadFrame(old(Unread()))
      ensures g.GotFrame? ==> Unread() == g.rest
    {
      var h := ReceiveHeader();
      if h.NoHeader? {
        return Ended;
      }
      if h.length > MAX_PAYLOAD {
        return Oversized;
      }
      var body := ReceivePayload(h);
      if body.Closed? {
        return Ended;
      }
      return GotFrame(h.final, h.opcode, body.value, body.rest);
    }

    method ReceiveJson() returns (o: Outcome<J>)
      modifies this
      ensures o == Receive(decode, old(Unread()), []).0
      ensures o.Message? ==> Unread() == o.rest
      ensures var pings := Receive(decode, old(Unread()), []).1;
        sent == old(sent) + Answers(pings, Pong(masks, old(used))) && used == old(used) + |pings|
    {
      var fragments := [];
      ghost var pings: seq<seq<byte>> := [];
      ghost var input, wrote, from := Unread(), sent, used;
      assert pings + Receive(decode, input, []).1 == Receive(decode, input, []).1;
      while true
        invariant Receive(decode, input, []) == After(pings, Receive(decode, Unread(), fragments))
        invariant sent == wrote + Answers(pings, Pong(masks, from)) && used == from + |pings|
        decreases |Unread()|
      {
        ghost var left := Unread();
        var g := ReceiveFrame();
        ReceiveStep(decode, left, fragments, pings);
        if g.GotFrame? {
          ReadFrameShrinks(left);
        }
        match g
        case Ended => return StreamClosed;
        case Oversized => return TooLong;
        case GotFrame(final, opcode, payload, rest) =>
          if opcode == CLOSE {
            return ClosedByPeer;
          }
          if opcode == PING {
            AnswerPing(payload, pings, from, wrote);
            pings := pings + [payload];
            continue;
          }
          if opcode != CONTINUATION && opcode != TEXT {
            continue;
          }
          fragments := fragments + payload;
          if !final {
            continue;
          }
          match decode(fragments)
          case Undecodable => return Invalid;
          case Object(value) => return Message(value, rest);
          case NotAnObject => fragments := [];
      }
    }

    method AnswerPing(payload: seq<byte>, ghost pings: seq<seq<byte>>, ghost from: nat, ghost wrote: seq<seq<byte>>)
      requires used == from + |pings| && sent == wrote + Answers(pings, Pong(masks, from))
      modifies this`sent, this`used
      ensures sent == wrote + Answers(pings + [payload], Pong(masks, from)) && used == old(used) + 1
    {
      ghost var pong := Pong(masks, from);
      AnswersAppend(pings, payload, pong);
      Append(wrote, Answers(pings, pong), pong(|pings|, payload));
      SendPong(payload, |pings|, from);
    }

    method SendPong(payload: seq<byte>, ghost i: nat, ghost from: nat)
      requires used == from + i
      modifies this`sent, this`used
      ensures sent == old(sent) + [Pong(masks, from)(i, payload)] && used == old(used) + 1
    {
      SendFrame(PONG, payload);
    }
  }

  lemma ReceiveStep<J>(decode: seq<byte> -> Decoded<J>, input: seq<byte>, fragments: seq<byte>, pings: seq<seq<byte>>)
    ensures var step, g := Absorb(decode, ReadFrame(input), fragments), ReadFrame(input);
      After(pings, Receive(decode, input, fragments)) ==
        if step.Done? then (step.outcome, pings)
        else After(pings + step.pings, Receive(decode, g.rest, step.fragments))
    ensures pings + [] == pings
  {
    assert pings + [] == pings;
    var step, g := Absorb(decode, ReadFrame(input), fragments), ReadFrame(input);
    if step.More? {
      AfterAfter(pings, step.pings, Receive(decode, g.rest, step.fragments));
    }
  }
}
