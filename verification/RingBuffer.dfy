/** The fixed-size ring buffer behind message buffers and receive buffers, proved to be
    a bounded first-in-first-out queue of bytes. */
module RingBuffer {
  import opened Wrappers
  import opened Messages

  /** The storage index `i` places after `start`. */
  function Slot(start: nat, i: nat, size: nat): (k: nat)
    requires start < size && i <= size
    ensures k < size
  {
    if start + i < size then start + i else start + i - size
  }

  lemma SlotIsModulo(start: nat, i: nat, size: nat)
    requires start < size && i <= size
    ensures Slot(start, i, size) == (start + i) % size
  {
    var k := start + i;
    var q := k / size;
    assert k == size * q + k % size;
    assert q >= 2 ==> size * q >= size * 2;
  }

  /** The bytes stored, oldest first. */
  function Unroll(storage: seq<Byte>, start: nat, used: nat): (s: seq<Byte>)
    requires used <= |storage| && (start < |storage| || (start == 0 && used == 0))
    ensures |s| == used
  {
    seq(used, i requires 0 <= i < used => storage[Slot(start, i, |storage|)])
  }

  datatype ReadError = NoError | BufferFull | EndOfInput | Failed

  /** A reader: the bytes it yields, the error that follows them, and whether that error
      comes along with the last of them. */
  datatype Reader = Reader(input: seq<Byte>, ending: ReadError, together: bool) {
    predicate Valid() { ending.EndOfInput? || ending.Failed? }
  }

  /** A writer: how many bytes it takes before it fails, if it does, and whether the failure
      comes along with the last of them. */
  datatype Writer = Writer(limit: Option<nat>, together: bool)

  class Buffer {
    const storage: array<Byte>
    var start: nat
    var used: nat

    ghost predicate Valid()
      reads this
    {
      used <= storage.Length && (start < storage.Length || (start == 0 && used == 0))
    }

    ghost function Contents(): (s: seq<Byte>)
      requires Valid()
      reads this, storage
      ensures |s| == used
    {
      Unroll(storage[..], start, used)
    }

    constructor (size: int)
      ensures Valid() && Contents() == []
      ensures storage.Length == if size <= 0 then 0 else size
      ensures fresh(storage)
    {
      storage := new Byte[if size <= 0 then 0 else size](_ => 0);
      start, used := 0, 0;
    }

    method Free() returns (free: nat)
      requires Valid()
      ensures free == storage.Length - |Contents()|
    {
      free := storage.Length - used;
    }

    /** The first contiguous free storage segment. */
    method FreeSegment() returns (freeStart: nat, length: nat)
      requires Valid() && used != storage.Length
      ensures freeStart == Slot(start, used, storage.Length)
      ensures 1 <= length <= storage.Length - used && freeStart + length <= storage.Length
    {
      SlotIsModulo(start, used, storage.Length);
      freeStart := (start + used) % storage.Length;
      length := Min(freeStart + (storage.Length - used), storage.Length) - freeStart;
    }

    /** Copies `block` into the first contiguous free segment, which is long enough. */
    method Fill(freeStart: nat, block: seq<Byte>)
      requires Valid() && used != storage.Length && freeStart == Slot(start, used, storage.Length)
      requires |block| <= storage.Length - used && freeStart + |block| <= storage.Length
      modifies this`used, storage
      ensures Valid() && used == old(used) + |block|
      ensures Contents() == old(Contents()) + block
    {
      ghost var storage0 := storage[..];
      forall i | 0 <= i < |block| {
        storage[freeStart + i] := block[i];
      }
      AppendSegment(storage0, storage[..], start, used, block);
      used := used + |block|;
    }

    /** Stores as much of `data` as fits, and reports whether some did not. */
    method Write(data: seq<Byte>) returns (count: nat, full: bool)
      requires Valid()
      modifies this, storage
      ensures Valid()
      ensures count == Min(|data|, storage.Length - old(used))
      ensures full <==> count < |data|
      ensures Contents() == old(Contents()) + data[..count]
    {
      count := 0;
      while count < |data| && used != storage.Length
        invariant Valid()
        invariant count <= |data| && used == old(used) + count
        invariant Contents() == old(Contents()) + data[..count]
      {
        var freeStart, length := FreeSegment();
        var copied := Min(length, |data| - count);
        Fill(freeStart, data[count..count + copied]);
        assert data[..count] + data[count..count + copied] == data[..count + copied];
        count := count + copied;
      }
      full := count < |data|;
    }

    method WriteByte(value: Byte) returns (full: bool)
      requires Valid()
      modifies this, storage
      ensures Valid()
      ensures full <==> old(used) == storage.Length
      ensures Contents() == if full then old(Contents()) else old(Contents()) + [value]
    {
      if used == storage.Length {
        return true;
      }
      var freeStart, _ := FreeSegment();
      Fill(freeStart, [value]);
      full := false;
    }

    /** One read into the first free segment, of some size that the reader chooses. */
    method ReadPiece(input: seq<Byte>, n: nat) returns (read: nat)
      requires Valid() && used != storage.Length && n > 0 && |input| > 0
      modifies this, storage
      ensures Valid()
      ensures 1 <= read <= Min(n, |input|) && used == old(used) + read
      ensures Contents() == old(Contents()) + input[..read]
    {
      var freeStart, length := FreeSegment();
      var limit := Min(Min(length, n), |input|);
      assert limit >= 1;
      read :| 1 <= read <= limit;
      Fill(freeStart, input[..read]);
    }

    /** Stores exactly `n` bytes of the input, unless the input or the storage runs out
        first.  The reader may hand over the bytes in pieces of any size.  An error of the
        reader is kept even if the storage fills up with it; only an end of input that comes
        along with the last byte wanted is not an error. */
    method ReadNFrom(reader: Reader, n: nat) returns (count: nat, error: ReadError)
      requires Valid() && reader.Valid()
      modifies this, storage
      ensures Valid()
      ensures count == Min(n, Min(|reader.input|, storage.Length - old(used)))
      ensures Contents() == old(Contents()) + reader.input[..count]
      ensures
        var free := storage.Length - old(used);
        var failed := count == |reader.input| && ((reader.together && count > 0) || (count < n && count < free));
        error ==
          if failed then (if reader.ending.EndOfInput? && count == n then NoError else reader.ending)
          else if count < n then BufferFull
          else NoError
    {
      var input := reader.input;
      count := 0;
      error := NoError;
      while count < n && used != storage.Length && error.NoError?
        invariant Valid()
        invariant count <= n && count <= |input|
        invariant used == old(used) + count
        invariant Contents() == old(Contents()) + input[..count]
        invariant error == NoError || (error == reader.ending && count == |input|)
        invariant error != NoError ==> (reader.together && count > 0) || (count < n && used < storage.Length)
        invariant error == NoError && reader.together && count > 0 ==> count < |input|
        decreases n - count, error.NoError?
      {
        if count == |input| {
          error := reader.ending;
        } else {
          var read := ReadPiece(input[count..], n - count);
          Extend(old(Contents()), input, count, read);
          count := count + read;
          if count == |input| && reader.together { error := reader.ending; }
        }
      }
      if count < n && used == storage.Length && error.NoError? {
        error := BufferFull;
      }
      if error.EndOfInput? && count == n {
        error := NoError;
      }
    }

    /** Takes up to `limit` bytes from the first contiguous data segment. */
    method Drain(limit: nat) returns (block: seq<Byte>)
      requires Valid() && used > 0 && limit > 0
      modifies this
      ensures Valid()
      ensures |block| == Min(Min(old(start) + old(used), storage.Length) - old(start), limit)
      ensures 1 <= |block| <= old(used) && used == old(used) - |block|
      ensures old(Contents()) == block + Contents()
    {
      var end := Min(start + used, storage.Length);
      var copied := Min(end - start, limit);
      DropSegment(storage[..], start, used, copied);
      block := storage[start..start + copied];
      SlotIsModulo(start, copied, storage.Length);
      start := (start + copied) % storage.Length;
      used := used - copied;
    }

    /** Takes up to `size` of the oldest bytes. */
    method Read(size: nat) returns (data: seq<Byte>)
      requires Valid()
      modifies this
      ensures Valid()
      ensures |data| == Min(size, old(used))
      ensures old(Contents()) == data + Contents()
    {
      data := [];
      while |data| < size && used > 0
        invariant Valid()
        invariant |data| <= size && |data| + used == old(used)
        invariant old(Contents()) == data + Contents()
        decreases used
      {
        var block := Drain(size - |data|);
        Rejoin(data, block, Contents());
        data := data + block;
      }
      if used == 0 {
        start := 0;
      }
    }

    /** Hands over the contents, oldest first, in as many pieces as it takes, until the writer
        fails, and keeps the rest. */
    method WriteTo(writer: Writer) returns (output: seq<Byte>, failed: bool)
      requires Valid()
      modifies this
      ensures Valid()
      ensures old(Contents()) == output + Contents()
      ensures |output| == if writer.limit.Some? then Min(writer.limit.value, old(used)) else old(used)
      ensures
        failed <==>
          && writer.limit.Some?
          && (writer.limit.value < old(used) || (writer.together && 0 < writer.limit.value == old(used)))
    {
      output, failed := [], false;
      while used > 0 && !failed
        invariant Valid()
        invariant |output| + used == old(used)
        invariant old(Contents()) == output + Contents()
        invariant writer.limit.Some? ==> |output| <= writer.limit.value
        invariant failed ==> writer.limit.Some? && |output| == writer.limit.value && (writer.together || used > 0)
        invariant !failed && writer.limit.Some? && writer.together && |output| > 0 ==> |output| < writer.limit.value
        invariant failed && used == 0 ==> |output| > 0
        decreases used, !failed
      {
        var segment := Min(start + used, storage.Length) - start;
        var accepted := if writer.limit.Some? then Min(segment, writer.limit.value - |output|) else segment;
        if accepted > 0 {
          var block := Drain(accepted);
          Rejoin(output, block, Contents());
          output := output + block;
        }
        failed := writer.limit.Some? && (accepted < segment || (writer.together && |output| == writer.limit.value));
      }
      if used == 0 {
        start := 0;
      }
    }
  }

  lemma Extend(contents: seq<Byte>, input: seq<Byte>, count: nat, read: nat)
    requires count + read <= |input|
    ensures (contents + input[..count]) + input[count..][..read] == contents + input[..count + read]
  {
    assert input[..count] + input[count..][..read] == input[..count + read];
    Rejoin(contents, input[..count], input[count..][..read]);
  }

  lemma Rejoin(a: seq<Byte>, b: seq<Byte>, c: seq<Byte>)
    ensures (a + b) + c == a + (b + c)
  {
  }

  /** Taking from the first contiguous data segment drops it from the contents. */
  lemma DropSegment(storage: seq<Byte>, start: nat, used: nat, count: nat)
    requires start < |storage| && count <= used <= |storage| && start + count <= |storage|
    ensures Unroll(storage, start, used)[..count] == storage[start..start + count]
    ensures Unroll(storage, Slot(start, count, |storage|), used - count) == Unroll(storage, start, used)[count..]
  {
    var size := |storage|;
    forall i | 0 <= i < used - count
      ensures Slot(Slot(start, count, size), i, size) == Slot(start, count + i, size)
    {
    }
  }

  /** Filling the first contiguous free segment appends to the contents. */
  lemma AppendSegment(storage: seq<Byte>, storage': seq<Byte>, start: nat, used: nat, block: seq<Byte>)
    requires |storage'| == |storage| && start < |storage| && used < |storage|
    requires
      var freeStart := Slot(start, used, |storage|);
      && |block| <= |storage| - used && freeStart + |block| <= |storage|
      && storage' == storage[..freeStart] + block + storage[freeStart + |block|..]
    ensures Unroll(storage', start, used + |block|) == Unroll(storage, start, used) + block
  {
    var size := |storage|;
    var freeStart := Slot(start, used, size);
    forall i | 0 <= i < used
      ensures storage'[Slot(start, i, size)] == storage[Slot(start, i, size)]
    {
    }
    forall i | 0 <= i < |block|
      ensures storage'[Slot(start, used + i, size)] == block[i]
    {
      assert Slot(start, used + i, size) == freeStart + i;
    }
  }
}
