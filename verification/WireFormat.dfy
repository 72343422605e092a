/** The wire format as the protocol describes it, independently of how it is encoded and
    decoded: which bytes are a message. */
module WireFormat {
  import opened Wrappers
  import opened Messages
  import opened Codec

  // ----- Unsigned varints -----

  function Power128(n: nat): nat {
    if n == 0 then 1 else 128 * Power128(n - 1)
  }

  /** The sum of the low seven bits of the first `n` bytes, least significant group first. */
  function GroupSum(b: seq<Byte>, n: nat): nat
    requires n <= |b|
  {
    if n == 0 then 0 else GroupSum(b, n - 1) + (b[n - 1] % 128) * Power128(n - 1)
  }

  /** The bytes are a varint for the value: every byte but the last has its high bit set. */
  predicate IsUvarint(b: seq<Byte>, x: nat) {
    && 1 <= |b| <= 10 && x == GroupSum(b, |b|)
    && forall i | 0 <= i < |b| :: b[i] >= 128 <==> i < |b| - 1
  }

  lemma {:induction false} GroupSumShift(first: Byte, rest: seq<Byte>, n: nat)
    requires n <= |rest|
    ensures GroupSum([first] + rest, n + 1) == first % 128 + 128 * GroupSum(rest, n)
  {
    if n > 0 {
      GroupSumShift(first, rest, n - 1);
      assert ([first] + rest)[n] == rest[n - 1];
      assert (rest[n - 1] % 128) * Power128(n) == 128 * ((rest[n - 1] % 128) * Power128(n - 1));
    } else {
      assert GroupSum([first] + rest, 0) == 0 && Power128(0) == 1;
    }
  }

  lemma {:induction false} GroupSumPrefix(b: seq<Byte>, c: seq<Byte>, n: nat)
    requires n <= |b| && n <= |c| && b[..n] == c[..n]
    ensures GroupSum(b, n) == GroupSum(c, n)
  {
    if n > 0 {
      assert b[n - 1] == b[..n][n - 1] == c[n - 1];
      assert b[..n - 1] == b[..n][..n - 1] == c[..n - 1];
      GroupSumPrefix(b, c, n - 1);
    }
  }

  /** A byte with its high bit set before a varint. */
  lemma PrependGroup(first: Byte, rest: seq<Byte>, x: nat)
    requires first >= 128 && |rest| < 10 && IsUvarint(rest, x)
    ensures IsUvarint([first] + rest, first - 128 + 128 * x)
  {
    GroupSumShift(first, rest, |rest|);
    var b := [first] + rest;
    forall i | 0 <= i < |b| ensures b[i] >= 128 <==> i < |b| - 1 {
      assert i > 0 ==> b[i] == rest[i - 1];
    }
  }

  lemma LastGroup(last: Byte)
    requires last < 128
    ensures IsUvarint([last], last)
  {
    assert GroupSum([last], 0) == 0 && Power128(0) == 1;
  }

  lemma {:induction false} EncodedUvarintFrom(x: nat, i: nat)
    requires i <= MAX_VARINT - 1 && x < Capacity(i)
    ensures |EncodeUvarint(x)| <= 10 - i && IsUvarint(EncodeUvarint(x), x)
    decreases x
  {
    if x < 128 {
      LastGroup(x);
    } else {
      assert i < MAX_VARINT - 1;
      EncodedUvarintFrom(x / 128, i + 1);
      PrependGroup(x % 128 + 128, EncodeUvarint(x / 128), x / 128);
    }
  }

  /** Every 64-bit value is encoded as a varint for it. */
  lemma EncodedUvarintIsOne(x: nat)
    requires x <= MAX_UINT64
    ensures IsUvarint(EncodeUvarint(x), x)
  {
    CapacityIs64Bits();
    EncodedUvarintFrom(x, 0);
  }

  lemma {:induction false} DecodedUvarintFrom(input: seq<Byte>, i: nat)
    requires i <= MAX_VARINT && DecodeUvarint(input, i).Got?
    ensures
      var o := DecodeUvarint(input, i);
      && |o.rest| < |input| && |input| - |o.rest| <= 10 - i && o.rest == input[|input| - |o.rest|..]
      && IsUvarint(input[..|input| - |o.rest|], o.value)
    decreases MAX_VARINT - i
  {
    if input[0] < 128 {
      LastGroup(input[0]);
      assert input[..1] == [input[0]];
    } else {
      DecodedUvarintFrom(input[1..], i + 1);
      var tail := DecodeUvarint(input[1..], i + 1);
      var n := |input| - |tail.rest|;
      PrependGroup(input[0], input[1..][..n - 1], tail.value);
      SuffixOfTail(input, n);
    }
  }

  lemma SuffixOfTail(input: seq<Byte>, n: nat)
    requires 1 <= n <= |input|
    ensures [input[0]] + input[1..][..n - 1] == input[..n] && input[1..][n - 1..] == input[n..]
  {
  }

  lemma {:induction false} UndecodedUvarint(input: seq<Byte>, i: nat)
    requires i <= MAX_VARINT - 1 && !DecodeUvarint(input, i).Got?
    ensures
      match DecodeUvarint(input, i)
      case EndOfInput => |input| < 10 - i && forall k | 0 <= k < |input| :: input[k] >= 128
      case Overflow => |input| >= 10 - i && (forall k | 0 <= k < 9 - i :: input[k] >= 128) && input[9 - i] > 1
      case _ => false
    decreases MAX_VARINT - i
  {
    if input != [] && input[0] >= 128 && i < MAX_VARINT - 1 {
      UndecodedUvarint(input[1..], i + 1);
      assert forall k | 1 <= k < |input| :: input[k] == input[1..][k - 1];
    }
  }

  /** Whatever the input, decoding a varint takes a varint off its beginning, or finds that it
      ends within one, or that there is none of 64 bits. */
  lemma DecodedUvarintIsOne(input: seq<Byte>)
    ensures
      match DecodeUvarint(input, 0)
      case Got(value, rest) =>
        && value <= MAX_UINT64 && |rest| < |input| && rest == input[|input| - |rest|..]
        && IsUvarint(input[..|input| - |rest|], value)
      case EndOfInput => |input| < 10 && forall k | 0 <= k < |input| :: input[k] >= 128
      case Overflow =>
        |input| >= 10 && (forall k | 0 <= k < 9 :: input[k] >= 128) && input[9] > 1
      case UnknownKind(_) => false
  {
    if DecodeUvarint(input, 0).Got? { DecodedUvarintFrom(input, 0); } else { UndecodedUvarint(input, 0); }
    UvarintFits(input, 0);
    CapacityIs64Bits();
  }

  // ----- Messages -----

  /** The bytes that follow the stream identifier. */
  predicate IsBody(body: seq<Byte>, m: Message) {
    match m
    case Open(window) => IsUvarint(body, window)
    case Accept(window) => IsUvarint(body, window)
    case Data(block) =>
      |body| == 2 + |block| && 256 * (body[0] as int) + body[1] == |block| && body[2..] == block
    case Increment(amount) => IsUvarint(body, amount)
    case CloseWrite => body == []
    case Close => body == []
  }

  function Kind(m: Message): Byte {
    match m
    case Open(_) => 1
    case Accept(_) => 2
    case Data(_) => 3
    case Increment(_) => 4
    case CloseWrite => 5
    case Close => 6
  }

  /** A heartbeat is a zero byte; any other message is its kind, its stream and its body. */
  ghost predicate IsMessage(bytes: seq<Byte>, frame: Frame) {
    if frame.Heartbeat? then bytes == [0]
    else exists id: seq<Byte>, body: seq<Byte> :: IsParts(bytes, frame, id, body)
  }

  predicate IsParts(bytes: seq<Byte>, frame: Frame, id: seq<Byte>, body: seq<Byte>)
    requires frame.ForStream?
  {
    bytes == [Kind(frame.message)] + (id + body) && IsUvarint(id, frame.id) && IsBody(body, frame.message)
  }

  lemma EncodedBodyIsOne(m: Message)
    requires Encodable(ForStream(0, m))
    ensures IsBody(EncodeBody(m), m)
  {
    match m
    case Open(w) => EncodedUvarintIsOne(w);
    case Accept(w) => EncodedUvarintIsOne(w);
    case Data(block) => assert (EncodeUint16(|block|) + block)[2..] == block;
    case Increment(n) => EncodedUvarintIsOne(n);
    case CloseWrite =>
    case Close =>
  }

  /** Every message is encoded as the bytes that the protocol describes. */
  lemma EncodedIsMessage(frame: Frame)
    requires Encodable(frame)
    ensures IsMessage(EncodeFrame(frame), frame)
  {
    if frame.ForStream? {
      EncodedUvarintIsOne(frame.id);
      EncodedBodyIsOne(frame.message);
      assert KindOf(frame) == Kind(frame.message);
      assert IsParts(EncodeFrame(frame), frame, EncodeUvarint(frame.id), EncodeBody(frame.message));
    }
  }

  /** What is left of the input is what follows what was taken. */
  predicate Takes(input: seq<Byte>, taken: seq<Byte>, rest: seq<Byte>) { input == taken + rest }

  lemma DecodedDataIsOne(block: seq<Byte>, input: seq<Byte>, rest: seq<Byte>)
    requires DecodeData(input) == Got(Data(block), rest)
    ensures exists body: seq<Byte> :: Takes(input, body, rest) && IsBody(body, Data(block))
  {
    var n := 2 + |block|;
    assert input[..n][2..] == input[2..n];
    assert Takes(input, input[..n], rest) && IsBody(input[..n], Data(block));
  }

  lemma DecodedNumberIsOne(m: Message, x: nat, input: seq<Byte>, rest: seq<Byte>)
    requires DecodeUvarint(input, 0) == Got(x, rest) && (m == Open(x) || m == Accept(x) || m == Increment(x))
    ensures exists body: seq<Byte> :: Takes(input, body, rest) && IsBody(body, m)
  {
    DecodedUvarintIsOne(input);
    CutBefore(input, rest);
    var body := input[..|input| - |rest|];
    assert Takes(input, body, rest) && IsBody(body, m);
  }

  lemma DecodedBodyIsOne(m: Message, input: seq<Byte>, rest: seq<Byte>)
    requires DecodeBody(Kind(m), input) == Got(m, rest)
    ensures exists body: seq<Byte> :: Takes(input, body, rest) && IsBody(body, m)
  {
    match m
    case Data(block) => DecodedDataIsOne(block, input, rest);
    case Open(x) => DecodedNumberIsOne(m, x, input, rest);
    case Accept(x) => DecodedNumberIsOne(m, x, input, rest);
    case Increment(x) => DecodedNumberIsOne(m, x, input, rest);
    case CloseWrite => assert Takes(input, [], rest) && IsBody([], m);
    case Close => assert Takes(input, [], rest) && IsBody([], m);
  }

  lemma DecodedKind(kind: Byte, input: seq<Byte>)
    requires 1 <= kind <= 6 && DecodeBody(kind, input).Got?
    ensures Kind(DecodeBody(kind, input).value) == kind
  {
  }

  /** The two stages in which a frame for a stream is decoded. */
  lemma DecodingStages(input: seq<Byte>)
    requires DecodeFrame(input).Got? && DecodeFrame(input).value.ForStream?
    ensures
      var o := DecodeFrame(input);
      && |input| >= 1 && 1 <= input[0] <= 6 && DecodeUvarint(input[1..], 0).Got?
      && DecodeUvarint(input[1..], 0).value == o.value.id
      && DecodeBody(input[0], DecodeUvarint(input[1..], 0).rest) == Got(o.value.message, o.rest)
  {
  }

  lemma DecodedStreamMessage(input: seq<Byte>, frame: Frame, after: seq<Byte>, rest: seq<Byte>)
    requires |input| >= 1 && frame.ForStream? && 1 <= input[0] <= 6
    requires DecodeUvarint(input[1..], 0) == Got(frame.id, after)
    requires DecodeBody(input[0], after) == Got(frame.message, rest)
    ensures exists bytes: seq<Byte> :: Takes(input, bytes, rest) && IsMessage(bytes, frame)
  {
    var text := input[1..];
    var id := text[..|text| - |after|];
    DecodedUvarintIsOne(text);
    CutBefore(text, after);
    DecodedKind(input[0], after);
    DecodedBodyIsOne(frame.message, after, rest);
    var body: seq<Byte> :| Takes(after, body, rest) && IsBody(body, frame.message);
    Compose(input, frame, id, after, body, rest);
  }

  lemma CutBefore(text: seq<Byte>, after: seq<Byte>)
    requires |after| <= |text| && after == text[|text| - |after|..]
    ensures text == text[..|text| - |after|] + after
  {
  }

  lemma Compose(input: seq<Byte>, frame: Frame, id: seq<Byte>, after: seq<Byte>, body: seq<Byte>, rest: seq<Byte>)
    requires |input| >= 1 && frame.ForStream? && input[0] == Kind(frame.message)
    requires input[1..] == id + after && Takes(after, body, rest)
    requires IsUvarint(id, frame.id) && IsBody(body, frame.message)
    ensures exists bytes: seq<Byte> :: Takes(input, bytes, rest) && IsMessage(bytes, frame)
  {
    var bytes := [input[0]] + (id + body);
    assert IsParts(bytes, frame, id, body);
    Reassemble(input, id, after, body, rest);
    assert Takes(input, bytes, rest) && IsMessage(bytes, frame);
  }

  /** Whatever the input, a decoded frame is what the protocol makes of the bytes taken off. */
  lemma DecodedIsMessage(input: seq<Byte>)
    requires DecodeFrame(input).Got?
    ensures
      exists bytes: seq<Byte> ::
        Takes(input, bytes, DecodeFrame(input).rest) && IsMessage(bytes, DecodeFrame(input).value)
  {
    var frame, rest := DecodeFrame(input).value, DecodeFrame(input).rest;
    if frame.Heartbeat? {
      DecodedHeartbeat(input);
      assert Takes(input, [0], rest) && IsMessage([0], frame);
    } else {
      DecodingStages(input);
      DecodedStreamMessage(input, frame, DecodeUvarint(input[1..], 0).rest, rest);
    }
  }

  lemma DecodedHeartbeat(input: seq<Byte>)
    requires DecodeFrame(input).Got? && DecodeFrame(input).value.Heartbeat?
    ensures input == [0] + DecodeFrame(input).rest
  {
  }

  /** An unknown kind is any byte above six. */
  lemma UnknownKinds(input: seq<Byte>)
    ensures DecodeFrame(input).UnknownKind? <==> |input| >= 1 && input[0] > 6
  {
    if |input| >= 1 {
      NotUnknown(input[1..]);
      if DecodeUvarint(input[1..], 0).Got? { NotUnknown(DecodeUvarint(input[1..], 0).rest); }
    }
  }

  lemma NotUnknown(input: seq<Byte>)
    ensures !DecodeUvarint(input, 0).UnknownKind?
  {
    DecodedUvarintIsOne(input);
  }

  lemma Reassemble(input: seq<Byte>, id: seq<Byte>, after: seq<Byte>, body: seq<Byte>, rest: seq<Byte>)
    requires |input| >= 1 && input[1..] == id + after && after == body + rest
    ensures input == ([input[0]] + (id + body)) + rest
  {
    assert input == [input[0]] + input[1..];
    assert id + (body + rest) == (id + body) + rest;
  }

  // ----- Sizes -----

  /** The largest identifier, window or increment takes ten bytes. */
  lemma LargestUvarint()
    ensures |EncodeUvarint(MAX_UINT64)| == 10
  {
    EncodedUvarintIsOne(MAX_UINT64);
    var n := |EncodeUvarint(MAX_UINT64)|;
    GroupSumBound(EncodeUvarint(MAX_UINT64), n);
    assert Power128(9) == 0x8000_0000_0000_0000;
    if n < 10 {
      PowerGrows(n, 9);
      assert false;
    }
  }

  lemma {:induction false} GroupSumBound(b: seq<Byte>, n: nat)
    requires n <= |b|
    ensures GroupSum(b, n) < Power128(n)
  {
    if n > 0 {
      GroupSumBound(b, n - 1);
      Scale(b[n - 1] % 128, Power128(n - 1));
    }
  }

  lemma Scale(group: nat, power: nat)
    requires group <= 127
    ensures group * power <= 127 * power
  {
  }

  lemma {:induction false} PowerGrows(m: nat, n: nat)
    requires m <= n
    ensures 1 <= Power128(m) <= Power128(n)
    decreases n
  {
    if m < n {
      PowerGrows(m, n - 1);
    } else if n > 0 {
      PowerGrows(n - 1, n - 1);
    }
  }

  /** The declared maximum sizes, which the largest messages attain. */
  lemma SizesAreAttained(block: seq<Byte>)
    requires |block| == 65535
    ensures |EncodeFrame(ForStream(MAX_UINT64, Open(MAX_UINT64)))| == 21 == MaximumSize(ForStream(0, Open(0)))
    ensures |EncodeFrame(ForStream(MAX_UINT64, Accept(MAX_UINT64)))| == 21 == MaximumSize(ForStream(0, Accept(0)))
    ensures |EncodeFrame(ForStream(MAX_UINT64, Increment(MAX_UINT64)))| == 21 == MaximumSize(ForStream(0, Increment(0)))
    ensures |EncodeFrame(ForStream(MAX_UINT64, CloseWrite))| == 11 == MaximumSize(ForStream(0, CloseWrite))
    ensures |EncodeFrame(ForStream(MAX_UINT64, Close))| == 11 == MaximumSize(ForStream(0, Close))
    ensures |EncodeFrame(ForStream(MAX_UINT64, Data(block)))| == 65548 == MaximumSize(ForStream(0, Data([])))
    ensures MAXIMUM_MESSAGE_SIZE == 65548
  {
    LargestUvarint();
  }
}
