/** The goroutine that accumulates window increments and closures until a write buffer is
    available, then writes out as many of them as fit. */
module Enqueue {
  import opened Wrappers
  import opened Messages
  import opened Codec
  import opened MessageBuffer

  /** What is waiting to be written out. */
  datatype Updates = Updates(increments: map<nat, nat>, writeCloses: set<nat>, closes: set<nat>) {
    predicate Empty() { |increments| == 0 && |writeCloses| == 0 && |closes| == 0 }
  }

  /** `frame` is one of the updates. */
  predicate Offers(u: Updates, frame: Frame) {
    frame.ForStream? &&
    match frame.message
    case Increment(amount) => frame.id in u.increments && u.increments[frame.id] == amount
    case CloseWrite => frame.id in u.writeCloses
    case Close => frame.id in u.closes
    case _ => false
  }

  function Without(u: Updates, frame: Frame): Updates
    requires frame.ForStream?
  {
    match frame.message
    case Increment(_) => u.(increments := u.increments - {frame.id})
    case CloseWrite => u.(writeCloses := u.writeCloses - {frame.id})
    case Close => u.(closes := u.closes - {frame.id})
    case _ => u
  }

  // What the enqueue goroutine does with a new update.

  /** Go's addition wraps around. */
  function WithIncrement(u: Updates, stream: nat, amount: nat): Updates {
    var current := if stream in u.increments then u.increments[stream] else 0;
    u.(increments := u.increments[stream := (current + amount) % (MAX_UINT64 + 1)])
  }

  function WithHalfClose(u: Updates, stream: nat): Updates {
    u.(writeCloses := u.writeCloses + {stream})
  }

  /** A close supersedes the other updates for its stream. */
  function WithClose(u: Updates, stream: nat): Updates {
    Updates(u.increments - {stream}, u.writeCloses - {stream}, u.closes + {stream})
  }

  /** Writing out `frames`, each an update still waiting at that point, turns `before` into
      `after`. */
  predicate Drains(before: Updates, frames: seq<Frame>, after: Updates)
    decreases |frames|
  {
    if frames == [] then before == after
    else Offers(before, frames[0]) && Drains(Without(before, frames[0]), frames[1..], after)
  }

  lemma {:induction false} DrainsAppend(before: Updates, frames: seq<Frame>, middle: Updates, frame: Frame)
    requires Drains(before, frames, middle) && Offers(middle, frame)
    ensures Drains(before, frames + [frame], Without(middle, frame))
    decreases |frames|
  {
    if frames == [] {
      assert ([frame])[1..] == [];
    } else {
      assert (frames + [frame])[1..] == frames[1..] + [frame];
      DrainsAppend(Without(before, frames[0]), frames[1..], middle, frame);
    }
  }

  /** An update waiting at the start is either among the frames written out, once, or still
      waiting; and nothing else was written out or is waiting. */
  lemma {:induction false} DrainsConserves(before: Updates, frames: seq<Frame>, after: Updates, frame: Frame)
    requires Drains(before, frames, after)
    ensures Offers(before, frame) <==> frame in frames || Offers(after, frame)
    ensures !(frame in frames && Offers(after, frame))
    ensures multiset(frames)[frame] <= 1
    decreases |frames|
  {
    if frames != [] {
      var first := frames[0];
      DrainsConserves(Without(before, first), frames[1..], after, frame);
      assert frames == [first] + frames[1..];
      assert !Offers(Without(before, first), first);
    }
  }

  /** Identifiers and amounts are 64-bit values. */
  predicate Bounded(u: Updates) {
    && (forall s | s in u.increments :: s <= MAX_UINT64 && u.increments[s] <= MAX_UINT64)
    && (forall s | s in u.writeCloses :: s <= MAX_UINT64)
    && (forall s | s in u.closes :: s <= MAX_UINT64)
  }

  /** Neither kind of closure for a stream can be followed by an earlier kind of update. */
  predicate Exclusive(u: Updates) {
    forall s | s in u.closes :: s !in u.increments && s !in u.writeCloses
  }

  const INCREMENT_SIZE := 1 + MAX_VARINT + MAX_VARINT
  const CLOSE_SIZE := 1 + MAX_VARINT

  class Accumulator {
    var windowIncrements: map<nat, nat>
    var writeCloses: set<nat>
    var closes: set<nat>

    ghost function Waiting(): Updates
      reads this
    {
      Updates(windowIncrements, writeCloses, closes)
    }

    constructor ()
      ensures Waiting().Empty() && Bounded(Waiting()) && Exclusive(Waiting())
    {
      windowIncrements, writeCloses, closes := map[], {}, {};
    }

    method AddWindowIncrement(stream: nat, amount: nat)
      requires Bounded(Waiting()) && stream <= MAX_UINT64 && amount <= MAX_UINT64
      modifies this
      ensures Bounded(Waiting()) && Waiting() == WithIncrement(old(Waiting()), stream, amount)
    {
      var current := if stream in windowIncrements then windowIncrements[stream] else 0;
      windowIncrements := windowIncrements[stream := (current + amount) % (MAX_UINT64 + 1)];
    }

    method AddCloseWrite(stream: nat)
      requires Bounded(Waiting()) && stream <= MAX_UINT64
      modifies this
      ensures Bounded(Waiting()) && Waiting() == WithHalfClose(old(Waiting()), stream)
    {
      writeCloses := writeCloses + {stream};
    }

    method AddClose(stream: nat)
      requires Bounded(Waiting()) && stream <= MAX_UINT64
      modifies this
      ensures Bounded(Waiting()) && (old(Exclusive(Waiting())) ==> Exclusive(Waiting()))
      ensures Waiting() == WithClose(old(Waiting()), stream)
    {
      windowIncrements := windowIncrements - {stream};
      writeCloses := writeCloses - {stream};
      closes := closes + {stream};
    }

    // The three loops that fill a write buffer.  Each visits the streams in an arbitrary
    // order and stops at the first update for which there might not be room.

    method WriteIncrements(b: MessageBuffer, ghost was: Snapshot, ghost before: seq<Frame>)
      returns (ghost frames: seq<Frame>)
      requires b.Valid() && Bounded(Waiting()) && Wrote(was, before, Snapshot(Waiting(), b.Contents()))
      modifies this`windowIncrements, b.buffer, b.buffer.storage, b.varint64Buffer
      ensures b.Valid() && Bounded(Waiting()) && Wrote(was, frames, Snapshot(Waiting(), b.Contents()))
      ensures |b.Contents()| >= |old(b.Contents())|
      ensures |frames| + |windowIncrements| == |before| + |old(windowIncrements)|
      ensures |windowIncrements| == 0 || !b.Room(INCREMENT_SIZE)
    {
      frames := before;
      var room := b.CanEncode(INCREMENT_SIZE);
      while |windowIncrements| > 0 && room
        invariant b.Valid() && Bounded(Waiting()) && Wrote(was, frames, Snapshot(Waiting(), b.Contents()))
        invariant |b.Contents()| >= |old(b.Contents())|
        invariant |frames| + |windowIncrements| == |before| + |old(windowIncrements)|
        invariant room == b.Room(INCREMENT_SIZE)
        decreases |windowIncrements|
      {
        var stream :| stream in windowIncrements;
        ghost var frame := ForStream(stream, Increment(windowIncrements[stream]));
        WroteOneMore(was, frames, Snapshot(Waiting(), b.Contents()), frame);
        b.EncodeStreamWindowIncrement(stream, windowIncrements[stream]);
        windowIncrements := windowIncrements - {stream};
        frames := frames + [frame];
        room := b.CanEncode(INCREMENT_SIZE);
      }
    }

    method WriteCloseWrites(b: MessageBuffer, ghost was: Snapshot, ghost before: seq<Frame>)
      returns (ghost frames: seq<Frame>)
      requires b.Valid() && Bounded(Waiting()) && Wrote(was, before, Snapshot(Waiting(), b.Contents()))
      modifies this`writeCloses, b.buffer, b.buffer.storage, b.varint64Buffer
      ensures b.Valid() && Bounded(Waiting()) && Wrote(was, frames, Snapshot(Waiting(), b.Contents()))
      ensures |b.Contents()| >= |old(b.Contents())|
      ensures |frames| + |writeCloses| == |before| + |old(writeCloses)|
      ensures |writeCloses| == 0 || !b.Room(CLOSE_SIZE)
    {
      frames := before;
      var room := b.CanEncode(CLOSE_SIZE);
      while |writeCloses| > 0 && room
        invariant b.Valid() && Bounded(Waiting()) && Wrote(was, frames, Snapshot(Waiting(), b.Contents()))
        invariant |b.Contents()| >= |old(b.Contents())|
        invariant |frames| + |writeCloses| == |before| + |old(writeCloses)|
        invariant room == b.Room(CLOSE_SIZE)
        decreases |writeCloses|
      {
        var stream :| stream in writeCloses;
        ghost var frame := ForStream(stream, CloseWrite);
        WroteOneMore(was, frames, Snapshot(Waiting(), b.Contents()), frame);
        b.EncodeStreamCloseWrite(stream);
        writeCloses := writeCloses - {stream};
        frames := frames + [frame];
        room := b.CanEncode(CLOSE_SIZE);
      }
    }

    method WriteCloses(b: MessageBuffer, ghost was: Snapshot, ghost before: seq<Frame>)
      returns (ghost frames: seq<Frame>)
      requires b.Valid() && Bounded(Waiting()) && Wrote(was, before, Snapshot(Waiting(), b.Contents()))
      modifies this`closes, b.buffer, b.buffer.storage, b.varint64Buffer
      ensures b.Valid() && Bounded(Waiting()) && Wrote(was, frames, Snapshot(Waiting(), b.Contents()))
      ensures |b.Contents()| >= |old(b.Contents())|
      ensures |frames| + |closes| == |before| + |old(closes)|
      ensures |closes| == 0 || !b.Room(CLOSE_SIZE)
    {
      frames := before;
      var room := b.CanEncode(CLOSE_SIZE);
      while |closes| > 0 && room
        invariant b.Valid() && Bounded(Waiting()) && Wrote(was, frames, Snapshot(Waiting(), b.Contents()))
        invariant |b.Contents()| >= |old(b.Contents())|
        invariant |frames| + |closes| == |before| + |old(closes)|
        invariant room == b.Room(CLOSE_SIZE)
        decreases |closes|
      {
        var stream :| stream in closes;
        ghost var frame := ForStream(stream, Close);
        WroteOneMore(was, frames, Snapshot(Waiting(), b.Contents()), frame);
        b.EncodeStreamClose(stream);
        closes := closes - {stream};
        frames := frames + [frame];
        room := b.CanEncode(CLOSE_SIZE);
      }
    }

    /** Fills a write buffer.  The buffer gains exactly the updates that stop waiting, at
        least one of them if any was waiting and the buffer was empty, and updates stay
        behind only for want of room. */
    method WriteUpdates(b: MessageBuffer) returns (ghost frames: seq<Frame>)
      requires b.Valid() && Bounded(Waiting())
      modifies this, b.buffer, b.buffer.storage, b.varint64Buffer
      ensures b.Valid() && Bounded(Waiting())
      ensures Drains(old(Waiting()), frames, Waiting())
      ensures AllEncodable(frames) && b.Contents() == old(b.Contents()) + EncodeAll(frames)
      ensures !old(Waiting()).Empty() && old(b.Contents()) == [] ==> |frames| > 0
      ensures Waiting().Empty() || |b.Contents()| + 21 > MAXIMUM_MESSAGE_SIZE
    {
      ghost var was := Snapshot(Waiting(), b.Contents());
      ghost var increments := WriteIncrements(b, was, []);
      ghost var writeCloses := WriteCloseWrites(b, was, increments);
      frames := WriteCloses(b, was, writeCloses);
    }
  }

  /** The accumulated updates and the contents of the write buffer. */
  datatype Snapshot = Snapshot(updates: Updates, contents: seq<Byte>)

  /** `frames` have moved from the updates to the buffer. */
  ghost predicate Wrote(was: Snapshot, frames: seq<Frame>, now: Snapshot) {
    && AllEncodable(frames)
    && now.contents == was.contents + EncodeAll(frames)
    && Drains(was.updates, frames, now.updates)
  }

  lemma WroteOneMore(was: Snapshot, frames: seq<Frame>, now: Snapshot, frame: Frame)
    requires Wrote(was, frames, now) && Encodable(frame) && Offers(now.updates, frame)
    ensures Wrote(was, frames + [frame],
                  Snapshot(Without(now.updates, frame), now.contents + EncodeFrame(frame)))
  {
    assert [frame][1..] == [];
    assert EncodeAll([frame]) == EncodeFrame(frame) + [];
    EncodeAllConcat(frames, [frame]);
    Associate(was.contents, EncodeAll(frames), EncodeFrame(frame));
    DrainsAppend(was.updates, frames, now.updates, frame);
  }
}
