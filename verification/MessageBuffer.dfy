/** The reusable buffers in which outbound messages are encoded. */
module MessageBuffer {
  import opened Wrappers
  import opened Messages
  import opened Codec
  import opened RingBuffer

  class MessageBuffer {
    const buffer: Buffer
    const varint64Buffer: array<Byte>

    ghost predicate Valid()
      reads this, buffer
    {
      && buffer.Valid()
      && buffer.storage.Length == MAXIMUM_MESSAGE_SIZE
      && varint64Buffer.Length == MAX_VARINT
      && varint64Buffer != buffer.storage
    }

    ghost function Contents(): seq<Byte>
      requires Valid()
      reads this, buffer, buffer.storage
    {
      buffer.Contents()
    }

    /** There is room for `amount` more bytes. */
    ghost predicate Room(amount: nat)
      requires Valid()
      reads this, buffer, buffer.storage
    {
      |Contents()| + amount <= MAXIMUM_MESSAGE_SIZE
    }

    constructor ()
      ensures Valid() && Contents() == []
      ensures fresh(buffer) && fresh(buffer.storage) && fresh(varint64Buffer)
    {
      buffer := new Buffer(MAXIMUM_MESSAGE_SIZE);
      varint64Buffer := new Byte[MAX_VARINT](_ => 0);
    }

    /** canEncodeStreamWindowIncrement and its siblings. */
    method CanEncode(size: nat) returns (room: bool)
      requires Valid()
      ensures room == Room(size)
    {
      var free := buffer.Free();
      room := free >= size;
    }

    /** Encodes into the scratch buffer, then appends what was encoded. */
    method WriteUvarint(value: nat)
      requires Valid() && value <= MAX_UINT64 && Room(|EncodeUvarint(value)|)
      modifies buffer, buffer.storage, varint64Buffer
      ensures Valid() && Contents() == old(Contents()) + EncodeUvarint(value)
    {
      var length := PutUvarint(varint64Buffer, value);
      var _, _ := buffer.Write(varint64Buffer[..length]);
    }

    method WriteUint16(value: nat)
      requires Valid() && value <= MAX_BLOCK && Room(2)
      modifies buffer, buffer.storage, varint64Buffer
      ensures Valid() && Contents() == old(Contents()) + EncodeUint16(value)
    {
      varint64Buffer[0], varint64Buffer[1] := value / 256, value % 256;
      var _, _ := buffer.Write(varint64Buffer[..2]);
    }

    /** The start that all stream messages share. */
    method WriteHeader(kind: Byte, stream: nat)
      requires Valid() && stream <= MAX_UINT64 && Room(1 + |EncodeUvarint(stream)|)
      modifies buffer, buffer.storage, varint64Buffer
      ensures Valid() && Contents() == old(Contents()) + ([kind] + EncodeUvarint(stream))
    {
      Associate(Contents(), [kind], EncodeUvarint(stream));
      var _ := buffer.WriteByte(kind);
      WriteUvarint(stream);
    }

    // The encode methods ask for the free space that ensureSufficientFreeSpace insists on.

    method EncodeOpenMessage(stream: nat, window: nat)
      requires Valid() && stream <= MAX_UINT64 && window <= MAX_UINT64
      requires Room(MaximumSize(ForStream(stream, Open(window))))
      modifies buffer, buffer.storage, varint64Buffer
      ensures Valid() && Contents() == old(Contents()) + EncodeFrame(ForStream(stream, Open(window)))
    {
      FrameFits(ForStream(stream, Open(window)));
      WriteHeader(1, stream);
      WriteUvarint(window);
    }

    method EncodeAcceptMessage(stream: nat, window: nat)
      requires Valid() && stream <= MAX_UINT64 && window <= MAX_UINT64
      requires Room(MaximumSize(ForStream(stream, Accept(window))))
      modifies buffer, buffer.storage, varint64Buffer
      ensures Valid() && Contents() == old(Contents()) + EncodeFrame(ForStream(stream, Accept(window)))
    {
      FrameFits(ForStream(stream, Accept(window)));
      WriteHeader(2, stream);
      WriteUvarint(window);
    }

    method EncodeStreamDataMessage(stream: nat, data: seq<Byte>)
      requires Valid() && stream <= MAX_UINT64 && |data| <= MAX_BLOCK
      requires Room(MaximumSize(ForStream(stream, Data(data))))
      modifies buffer, buffer.storage, varint64Buffer
      ensures Valid() && Contents() == old(Contents()) + EncodeFrame(ForStream(stream, Data(data)))
    {
      FrameFits(ForStream(stream, Data(data)));
      WriteHeader(3, stream);
      WriteUint16(|data|);
      var _, _ := buffer.Write(data);
      assert Contents() == old(Contents()) + ([3] + EncodeUvarint(stream)) + EncodeUint16(|data|) + data;
    }

    method EncodeStreamWindowIncrement(stream: nat, amount: nat)
      requires Valid() && stream <= MAX_UINT64 && amount <= MAX_UINT64
      requires Room(MaximumSize(ForStream(stream, Increment(amount))))
      modifies buffer, buffer.storage, varint64Buffer
      ensures Valid() && Contents() == old(Contents()) + EncodeFrame(ForStream(stream, Increment(amount)))
    {
      FrameFits(ForStream(stream, Increment(amount)));
      WriteHeader(4, stream);
      WriteUvarint(amount);
    }

    method EncodeStreamCloseWrite(stream: nat)
      requires Valid() && stream <= MAX_UINT64 && Room(MaximumSize(ForStream(stream, CloseWrite)))
      modifies buffer, buffer.storage, varint64Buffer
      ensures Valid() && Contents() == old(Contents()) + EncodeFrame(ForStream(stream, CloseWrite))
    {
      FrameFits(ForStream(stream, CloseWrite));
      WriteHeader(5, stream);
    }

    method EncodeStreamClose(stream: nat)
      requires Valid() && stream <= MAX_UINT64 && Room(MaximumSize(ForStream(stream, Close)))
      modifies buffer, buffer.storage, varint64Buffer
      ensures Valid() && Contents() == old(Contents()) + EncodeFrame(ForStream(stream, Close))
    {
      FrameFits(ForStream(stream, Close));
      WriteHeader(6, stream);
    }
  }

  /** binary.PutUvarint. */
  method PutUvarint(scratch: array<Byte>, value: nat) returns (length: nat)
    requires scratch.Length == MAX_VARINT && value <= MAX_UINT64
    modifies scratch
    ensures length <= MAX_VARINT && scratch[..length] == EncodeUvarint(value)
  {
    UvarintRoundTrip(value, []);
    var x := value;
    length := 0;
    while x >= 0x80
      invariant length + |EncodeUvarint(x)| == |EncodeUvarint(value)|
      invariant length < MAX_VARINT
      invariant scratch[..length] + EncodeUvarint(x) == EncodeUvarint(value)
      decreases x
    {
      ghost var done, digit := scratch[..length], [x % 0x80 + 0x80];
      assert EncodeUvarint(x) == digit + EncodeUvarint(x / 0x80) && |EncodeUvarint(x / 0x80)| >= 1;
      Associate(done, digit, EncodeUvarint(x / 0x80));
      scratch[length] := x % 0x80 + 0x80;
      assert scratch[..length + 1] == done + digit;
      length := length + 1;
      x := x / 0x80;
    }
    scratch[length] := x;
    length := length + 1;
  }
}
