/** The wire format: kind byte, unsigned varints, and a two-byte big-endian length
    before stream data. */
module Codec {
  import opened Wrappers
  import opened Messages

  const MAX_VARINT: nat := 10

  // ----- Unsigned varints -----

  function EncodeUvarint(x: nat): seq<Byte>
    decreases x
  {
    if x < 0x80 then [x] else [x % 0x80 + 0x80] + EncodeUvarint(x / 0x80)
  }

  datatype Decoded<+T> =
    | Got(value: T, rest: seq<Byte>)
    | EndOfInput
    | Overflow
    | UnknownKind(kind: Byte)

  /** binary.ReadUvarint, with `i` bytes already read: at most ten bytes, and the tenth
      may only carry the sixty-fourth bit. */
  function DecodeUvarint(input: seq<Byte>, i: nat): Decoded<nat>
    requires i <= MAX_VARINT
    decreases MAX_VARINT - i
  {
    if i == MAX_VARINT then Overflow
    else if input == [] then EndOfInput
    else if input[0] < 0x80 then
      if i == MAX_VARINT - 1 && input[0] > 1 then Overflow else Got(input[0], input[1..])
    else
      var tail := DecodeUvarint(input[1..], i + 1);
      if tail.Got? then Got(input[0] as int - 0x80 + 0x80 * tail.value, tail.rest) else tail
  }

  /** 2^(64 - 7i): what is left for the remaining bytes after i of them. */
  function Capacity(i: nat): nat
    requires i <= MAX_VARINT - 1
    ensures Capacity(i) >= 2
    decreases MAX_VARINT - i
  {
    if i == MAX_VARINT - 1 then 2 else 0x80 * Capacity(i + 1)
  }

  lemma CapacityIs64Bits()
    ensures Capacity(0) == MAX_UINT64 + 1
  {
    assert Capacity(9) == 2;
    assert Capacity(8) == 0x100;
    assert Capacity(7) == 0x8000;
    assert Capacity(6) == 0x40_0000;
    assert Capacity(5) == 0x2000_0000;
    assert Capacity(4) == 0x10_0000_0000;
    assert Capacity(3) == 0x800_0000_0000;
    assert Capacity(2) == 0x4_0000_0000_0000;
    assert Capacity(1) == 0x200_0000_0000_0000;
  }

  lemma {:induction false} UvarintRoundTripFrom(x: nat, i: nat, rest: seq<Byte>)
    requires i <= MAX_VARINT - 1 && x < Capacity(i)
    ensures DecodeUvarint(EncodeUvarint(x) + rest, i) == Got(x, rest)
    ensures 1 <= |EncodeUvarint(x)| <= MAX_VARINT - i
    decreases x
  {
    if x < 0x80 {
      PrependedByte(x, [], rest);
    } else {
      assert i < MAX_VARINT - 1;
      UvarintRoundTripFrom(x / 0x80, i + 1, rest);
      PrependedByte(x % 0x80 + 0x80, EncodeUvarint(x / 0x80), rest);
    }
  }

  lemma PrependedByte(first: Byte, middle: seq<Byte>, rest: seq<Byte>)
    ensures (([first] + middle) + rest)[0] == first && (([first] + middle) + rest)[1..] == middle + rest
    ensures ([first] + rest)[1..] == rest
  {
  }

  /** Every uint64 survives the wire and takes at most ten bytes. */
  lemma UvarintRoundTrip(x: nat, rest: seq<Byte>)
    requires x <= MAX_UINT64
    ensures DecodeUvarint(EncodeUvarint(x) + rest, 0) == Got(x, rest)
    ensures 1 <= |EncodeUvarint(x)| <= MAX_VARINT
  {
    CapacityIs64Bits();
    UvarintRoundTripFrom(x, 0, rest);
  }

  /** A decoded varint is a uint64, whatever the input. */
  lemma {:induction false} UvarintFits(input: seq<Byte>, i: nat)
    requires i <= MAX_VARINT - 1
    ensures DecodeUvarint(input, i).Got? ==> DecodeUvarint(input, i).value < Capacity(i)
    decreases MAX_VARINT - i
  {
    if input != [] && input[0] >= 0x80 && i + 1 < MAX_VARINT {
      UvarintFits(input[1..], i + 1);
    }
  }

  /** A varint that has been cut short is recognized as such. */
  lemma {:induction false} UvarintIncomplete(x: nat, i: nat, n: nat)
    requires i <= MAX_VARINT - 1 && x < Capacity(i) && n < |EncodeUvarint(x)|
    ensures DecodeUvarint(EncodeUvarint(x)[..n], i) == EndOfInput
    decreases x
  {
    if n > 0 {
      assert x >= 0x80;
      UvarintIncomplete(x / 0x80, i + 1, n - 1);
      assert EncodeUvarint(x)[..n][1..] == EncodeUvarint(x / 0x80)[..n - 1];
    }
  }

  // ----- Frames -----

  function KindOf(frame: Frame): Byte {
    match frame
    case Heartbeat => 0
    case ForStream(_, Open(_)) => 1
    case ForStream(_, Accept(_)) => 2
    case ForStream(_, Data(_)) => 3
    case ForStream(_, Increment(_)) => 4
    case ForStream(_, CloseWrite) => 5
    case ForStream(_, Close) => 6
  }

  /** The values that the wire format has room for. */
  predicate Encodable(frame: Frame) {
    frame.ForStream? ==>
      && frame.id <= MAX_UINT64
      && match frame.message
         case Open(w) => w <= MAX_UINT64
         case Accept(w) => w <= MAX_UINT64
         case Data(block) => |block| <= MAX_BLOCK
         case Increment(n) => n <= MAX_UINT64
         case CloseWrite => true
         case Close => true
  }

  function EncodeUint16(x: nat): seq<Byte>
    requires x <= MAX_BLOCK
  {
    [x / 256, x % 256]
  }

  function EncodeBody(m: Message): seq<Byte>
    requires m.Data? ==> |m.block| <= MAX_BLOCK
  {
    match m
    case Open(w) => EncodeUvarint(w)
    case Accept(w) => EncodeUvarint(w)
    case Data(block) => EncodeUint16(|block|) + block
    case Increment(n) => EncodeUvarint(n)
    case CloseWrite => []
    case Close => []
  }

  function EncodeFrame(frame: Frame): seq<Byte>
    requires Encodable(frame)
  {
    if frame.Heartbeat? then [KindOf(frame)]
    else [KindOf(frame)] + (EncodeUvarint(frame.id) + EncodeBody(frame.message))
  }

  /** The declared maximum size of a message, by kind. */
  function MaximumSize(frame: Frame): nat {
    match frame
    case Heartbeat => 1
    case ForStream(_, Open(_)) => 1 + MAX_VARINT + MAX_VARINT
    case ForStream(_, Accept(_)) => 1 + MAX_VARINT + MAX_VARINT
    case ForStream(_, Data(_)) => 1 + MAX_VARINT + 2 + MAX_BLOCK
    case ForStream(_, Increment(_)) => 1 + MAX_VARINT + MAX_VARINT
    case ForStream(_, CloseWrite) => 1 + MAX_VARINT
    case ForStream(_, Close) => 1 + MAX_VARINT
  }

  const MAXIMUM_MESSAGE_SIZE: nat := 1 + MAX_VARINT + 2 + MAX_BLOCK

  function DecodeData(input: seq<Byte>): Decoded<Message> {
    if |input| < 2 then EndOfInput
    else
      var length: nat := 256 * (input[0] as int) + input[1];
      if |input| < 2 + length then EndOfInput
      else Got(Data(input[2..2 + length]), input[2 + length..])
  }

  function DecodeBody(kind: Byte, input: seq<Byte>): Decoded<Message>
    requires 1 <= kind <= 6
  {
    if kind == 3 then DecodeData(input)
    else if kind == 5 then Got(CloseWrite, input)
    else if kind == 6 then Got(Close, input)
    else
      match DecodeUvarint(input, 0)
      case EndOfInput => EndOfInput
      case Overflow => Overflow
      case UnknownKind(k) => UnknownKind(k)
      case Got(value, rest) =>
        Got(if kind == 1 then Open(value) else if kind == 2 then Accept(value) else Increment(value), rest)
  }

  /** How the reader goroutine takes one frame off its input. */
  function DecodeFrame(input: seq<Byte>): Decoded<Frame> {
    if input == [] then EndOfInput
    else if input[0] > 6 then UnknownKind(input[0])
    else if input[0] == 0 then Got(Heartbeat, input[1..])
    else
      match DecodeUvarint(input[1..], 0)
      case EndOfInput => EndOfInput
      case Overflow => Overflow
      case UnknownKind(k) => UnknownKind(k)
      case Got(id, body) =>
        match DecodeBody(input[0], body)
        case EndOfInput => EndOfInput
        case Overflow => Overflow
        case UnknownKind(k) => UnknownKind(k)
        case Got(m, rest) => Got(ForStream(id, m), rest)
  }

  lemma BodyRoundTrip(m: Message, rest: seq<Byte>)
    requires Encodable(ForStream(0, m))
    ensures DecodeBody(KindOf(ForStream(0, m)), EncodeBody(m) + rest) == Got(m, rest)
  {
    match m
    case Open(w) => UvarintRoundTrip(w, rest);
    case Accept(w) => UvarintRoundTrip(w, rest);
    case Data(block) =>
      var input := EncodeBody(m) + rest;
      assert input[0] == |block| / 256 && input[1] == |block| % 256;
      assert input[2..2 + |block|] == block;
      assert input[2 + |block|..] == rest;
    case Increment(n) => UvarintRoundTrip(n, rest);
    case CloseWrite => assert EncodeBody(m) + rest == rest;
    case Close => assert EncodeBody(m) + rest == rest;
  }

  lemma Regroup(kind: Byte, header: seq<Byte>, body: seq<Byte>, rest: seq<Byte>)
    ensures
      var input := [kind] + (header + body) + rest;
      input[0] == kind && input[1..] == header + (body + rest)
  {
  }

  lemma CutBody(kind: Byte, header: seq<Byte>, body: seq<Byte>, n: nat)
    requires 1 <= n <= 1 + |header| + |body|
    ensures
      var input := ([kind] + (header + body))[..n];
      && input[0] == kind
      && (n <= 1 + |header| ==> input[1..] == header[..n - 1])
      && (n >= 1 + |header| ==> input[1..] == header + body[..n - 1 - |header|])
  {
  }

  /** A frame is read back as it was written, and nothing of what follows it is consumed. */
  lemma FrameRoundTrip(frame: Frame, rest: seq<Byte>)
    requires Encodable(frame)
    ensures DecodeFrame(EncodeFrame(frame) + rest) == Got(frame, rest)
  {
    var input := EncodeFrame(frame) + rest;
    if frame.Heartbeat? {
      assert input[1..] == rest;
    } else {
      var header, body := EncodeUvarint(frame.id), EncodeBody(frame.message);
      Regroup(KindOf(frame), header, body, rest);
      UvarintRoundTrip(frame.id, body + rest);
      BodyRoundTrip(frame.message, rest);
      assert KindOf(frame) == KindOf(ForStream(0, frame.message));
    }
  }

  /** Every encoding fits its declared maximum size. */
  lemma FrameFits(frame: Frame)
    requires Encodable(frame)
    ensures 1 <= |EncodeFrame(frame)| <= MaximumSize(frame) <= MAXIMUM_MESSAGE_SIZE
  {
    if frame.ForStream? {
      UvarintRoundTrip(frame.id, []);
      match frame.message
      case Open(w) => UvarintRoundTrip(w, []);
      case Accept(w) => UvarintRoundTrip(w, []);
      case Data(_) =>
      case Increment(n) => UvarintRoundTrip(n, []);
      case CloseWrite =>
      case Close =>
    }
  }

  /** A message body that has been cut short is waited for. */
  lemma BodyIncomplete(m: Message, n: nat)
    requires Encodable(ForStream(0, m)) && n < |EncodeBody(m)|
    ensures DecodeBody(KindOf(ForStream(0, m)), EncodeBody(m)[..n]) == EndOfInput
  {
    CapacityIs64Bits();
    match m
    case Open(w) => UvarintIncomplete(w, 0, n);
    case Accept(w) => UvarintIncomplete(w, 0, n);
    case Data(block) =>
    case Increment(k) => UvarintIncomplete(k, 0, n);
  }

  /** A frame that has arrived only in part is never taken for another one. */
  lemma FrameIncomplete(frame: Frame, n: nat)
    requires Encodable(frame) && n < |EncodeFrame(frame)|
    ensures DecodeFrame(EncodeFrame(frame)[..n]) == EndOfInput
  {
    if n > 0 {
      var header, body := EncodeUvarint(frame.id), EncodeBody(frame.message);
      CutBody(KindOf(frame), header, body, n);
      if n < 1 + |header| {
        CapacityIs64Bits();
        UvarintIncomplete(frame.id, 0, n - 1);
      } else {
        var part := body[..n - 1 - |header|];
        UvarintRoundTrip(frame.id, part);
        BodyIncomplete(frame.message, |part|);
        assert KindOf(frame) == KindOf(ForStream(0, frame.message));
      }
    }
  }

  // ----- Streams of frames -----

  predicate AllEncodable(frames: seq<Frame>) {
    forall i | 0 <= i < |frames| :: Encodable(frames[i])
  }

  function EncodeAll(frames: seq<Frame>): seq<Byte>
    requires AllEncodable(frames)
  {
    if frames == [] then [] else EncodeFrame(frames[0]) + EncodeAll(frames[1..])
  }

  /** The frames that the reader goroutine takes off its input before it must wait or stop,
      and what is left then. */
  function DecodeAll(input: seq<Byte>): (seq<Frame>, seq<Byte>)
    decreases |input|
  {
    match DecodeFrame(input)
    case Got(frame, rest) =>
      if |rest| < |input| then
        var (frames, left) := DecodeAll(rest);
        ([frame] + frames, left)
      else ([], input)
    case EndOfInput => ([], input)
    case Overflow => ([], input)
    case UnknownKind(_) => ([], input)
  }

  lemma Associate(a: seq<Byte>, b: seq<Byte>, c: seq<Byte>)
    ensures (a + b) + c == a + (b + c)
  {
  }

  lemma DecodeFirst(frame: Frame, rest: seq<Byte>)
    requires Encodable(frame)
    ensures DecodeAll(EncodeFrame(frame) + rest) == ([frame] + DecodeAll(rest).0, DecodeAll(rest).1)
  {
    FrameRoundTrip(frame, rest);
    FrameFits(frame);
  }

  lemma {:induction false} DecodeBefore(frames: seq<Frame>, tail: seq<Byte>)
    requires AllEncodable(frames) && DecodeAll(tail) == ([], tail)
    ensures DecodeAll(EncodeAll(frames) + tail) == (frames, tail)
    decreases |frames|
  {
    if frames == [] {
      assert EncodeAll(frames) + tail == tail;
    } else {
      Associate(EncodeFrame(frames[0]), EncodeAll(frames[1..]), tail);
      DecodeBefore(frames[1..], tail);
      DecodeFirst(frames[0], EncodeAll(frames[1..]) + tail);
      assert [frames[0]] + frames[1..] == frames;
    }
  }

  /** Any sequence of frames, however much of the next one has arrived, is decoded into
      exactly that sequence. */
  lemma StreamRoundTrip(frames: seq<Frame>, next: Frame, n: nat)
    requires AllEncodable(frames) && Encodable(next) && n < |EncodeFrame(next)|
    ensures DecodeAll(EncodeAll(frames) + EncodeFrame(next)[..n]) == (frames, EncodeFrame(next)[..n])
  {
    FrameIncomplete(next, n);
    DecodeBefore(frames, EncodeFrame(next)[..n]);
  }

  lemma {:induction false} EncodeAllConcat(a: seq<Frame>, b: seq<Frame>)
    requires AllEncodable(a) && AllEncodable(b)
    ensures AllEncodable(a + b) && EncodeAll(a + b) == EncodeAll(a) + EncodeAll(b)
    decreases |a|
  {
    if a == [] {
      assert a + b == b;
    } else {
      assert (a + b)[1..] == a[1..] + b;
      EncodeAllConcat(a[1..], b);
    }
  }
}
