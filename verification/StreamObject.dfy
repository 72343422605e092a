/** The sections of Read, Write and the reader goroutine that hold a stream's locks, as they
    update the stream object in place.  Each is proved to do what the step of the same name
    does to the end of a stream. */
module StreamObject {
  import opened Wrappers
  import opened Messages
  import StreamEnd
  import RingBuffer

  class Stream {
    const receiveBuffer: RingBuffer.Buffer
    var receiveBufferReady: bool         // the token channel is full
    var sendWindow: nat
    var sendWindowReady: bool            // the token channel is full
    var established: bool
    var remoteClosedWrite: bool
    var remoteClosed: bool

    constructor (receiveWindow: nat)
      ensures Represents(StreamEnd.FRESH) && Window() == receiveWindow
      ensures fresh(receiveBuffer) && fresh(receiveBuffer.storage)
    {
      receiveBuffer := new RingBuffer.Buffer(receiveWindow);
      receiveBufferReady, sendWindow, sendWindowReady := false, 0, false;
      established, remoteClosedWrite, remoteClosed := false, false, false;
    }

    /** The local StreamReceiveWindow. */
    ghost function Window(): nat
      reads this, receiveBuffer
    {
      receiveBuffer.storage.Length
    }

    /** The object is in the state that `e` describes. */
    ghost predicate Represents(e: StreamEnd.End)
      reads this, receiveBuffer, receiveBuffer.storage
    {
      && receiveBuffer.Valid()
      && receiveBuffer.Contents() == e.receiveBuffer
      && receiveBufferReady == e.receiveBufferReady
      && sendWindow == e.sendWindow
      && sendWindowReady == e.sendWindowReady
      && established == e.established
      && remoteClosedWrite == e.remoteClosedWrite
      && remoteClosed == e.remoteClosed
    }

    /** Sends on a one-slot channel, which must have room for the token. */
    method SignalReceive()
      requires !receiveBufferReady
      modifies this`receiveBufferReady
      ensures receiveBufferReady
    {
      receiveBufferReady := true;
    }

    method SignalSend()
      requires !sendWindowReady
      modifies this`sendWindowReady
      ensures sendWindowReady
    {
      sendWindowReady := true;
    }

    /** Write, once it has the token and a write buffer: how much of the data to send. */
    method TakeWindow(data: seq<Byte>, ghost e: StreamEnd.End) returns (window: nat)
      requires Represents(e) && e.writer.AwaitingWindow? && e.writer.data == data
      requires StreamEnd.TakeWindow(e).Next?
      modifies this`sendWindow, this`sendWindowReady
      ensures window <= |data| && window <= MAX_BLOCK
      ensures
        var e' := StreamEnd.TakeWindow(e).end;
        Represents(e') && e'.writer == StreamEnd.Sending(data[..window], data[window..], e.writer.goal)
      ensures window + sendWindow == old(sendWindow)
      ensures window == |data| || window == 65535 || sendWindow == 0
    {
      window := Min(sendWindow, Min(|data|, MAX_BLOCK));
      sendWindow := sendWindow - window;
      if sendWindow > 0 { SignalSend(); }
    }

    /** Read, once it has the token. */
    method TakeData(size: nat, ghost e: StreamEnd.End) returns (data: seq<Byte>)
      requires Represents(e) && StreamEnd.TakeData(e, size).Next?
      modifies this`receiveBufferReady, receiveBuffer, receiveBuffer.storage
      ensures
        var e' := StreamEnd.TakeData(e, size).end;
        && Represents(e') && e'.delivered == e.delivered + data && e'.reader == StreamEnd.Announcing(|data|)
    {
      data := receiveBuffer.Read(size);
      assert e.receiveBuffer == data + receiveBuffer.Contents();
      assert e.receiveBuffer[..|data|] == data && e.receiveBuffer[|data|..] == receiveBuffer.Contents();
      if receiveBuffer.used > 0 { SignalReceive(); }
    }

    /** The outcome of handling a message, as far as the peer is concerned. */
    ghost predicate Agrees(o: StreamEnd.Outcome, violation: Option<StreamEnd.Violation>)
      reads this, receiveBuffer, receiveBuffer.storage
    {
      match violation
      case None => o.Next? && Represents(o.end)
      case Some(v) => o == StreamEnd.Violated(v)
    }

    method ReceiveAccept(windowSize: nat, ghost e: StreamEnd.End) returns (violation: Option<StreamEnd.Violation>)
      requires Represents(e)
      requires StreamEnd.ReceiveAccept(e, windowSize) != StreamEnd.Violated(StreamEnd.ReadinessSendBlocked)
      modifies this
      ensures Agrees(StreamEnd.ReceiveAccept(e, windowSize), violation)
    {
      if established { return Some(StreamEnd.AcceptedTwice); }
      if remoteClosed { return Some(StreamEnd.AcceptedAfterClose); }
      sendWindow := windowSize;
      if windowSize > 0 { SignalSend(); }
      established := true;
      return None;
    }

    /** The data is read from the carrier straight into the receive buffer. */
    method ReceiveData(block: seq<Byte>, ghost e: StreamEnd.End) returns (violation: Option<StreamEnd.Violation>)
      requires Represents(e) && |block| > 0
      requires StreamEnd.ReceiveData(e, block, Window()) != StreamEnd.Violated(StreamEnd.ReadinessSendBlocked)
      modifies this`receiveBufferReady, receiveBuffer, receiveBuffer.storage
      ensures Agrees(StreamEnd.ReceiveData(e, block, old(Window())), violation)
    {
      if !established { return Some(StreamEnd.DataBeforeEstablishment); }
      if remoteClosedWrite { return Some(StreamEnd.DataAfterCloseWrite); }
      if remoteClosed { return Some(StreamEnd.DataAfterClose); }
      var count, error := receiveBuffer.ReadNFrom(RingBuffer.Reader(block, RingBuffer.Failed, false), |block|);
      if !error.NoError? { return Some(StreamEnd.ReceiveWindowExceeded); }
      assert block[..count] == block;
      if receiveBuffer.used == |block| { SignalReceive(); }
      return None;
    }

    method ReceiveIncrement(outbound: bool, amount: nat, ghost e: StreamEnd.End)
      returns (violation: Option<StreamEnd.Violation>)
      requires Represents(e) && amount > 0
      requires StreamEnd.ReceiveIncrement(outbound, e, amount) != StreamEnd.Violated(StreamEnd.ReadinessSendBlocked)
      modifies this`sendWindow, this`sendWindowReady
      ensures Agrees(StreamEnd.ReceiveIncrement(outbound, e, amount), violation)
    {
      if outbound && !established { return Some(StreamEnd.IncrementBeforeEstablishment); }
      if remoteClosed { return Some(StreamEnd.IncrementAfterClose); }
      violation := RaiseWindow(amount);
    }

    method RaiseWindow(amount: nat) returns (violation: Option<StreamEnd.Violation>)
      requires sendWindow == 0 ==> !sendWindowReady
      modifies this`sendWindow, this`sendWindowReady
      ensures
        if old(sendWindow) != 0 && MAX_UINT64 - old(sendWindow) < amount then
          violation == Some(StreamEnd.IncrementOverflow)
        else
          && violation.None? && sendWindow == old(sendWindow) + amount
          && sendWindowReady == (old(sendWindowReady) || old(sendWindow) == 0)
    {
      if sendWindow == 0 {
        sendWindow := amount;
        SignalSend();
      } else {
        if MAX_UINT64 - sendWindow < amount { return Some(StreamEnd.IncrementOverflow); }
        sendWindow := sendWindow + amount;
      }
      return None;
    }

    method ReceiveCloseWrite(outbound: bool, ghost e: StreamEnd.End) returns (violation: Option<StreamEnd.Violation>)
      requires Represents(e)
      modifies this`remoteClosedWrite
      ensures Agrees(StreamEnd.ReceiveCloseWrite(outbound, e), violation)
    {
      if outbound && !established { return Some(StreamEnd.CloseWriteBeforeEstablishment); }
      if remoteClosed { return Some(StreamEnd.CloseWriteAfterClose); }
      if remoteClosedWrite { return Some(StreamEnd.CloseWriteTwice); }
      remoteClosedWrite := true;
      return None;
    }

    method ReceiveClose(ghost e: StreamEnd.End) returns (violation: Option<StreamEnd.Violation>)
      requires Represents(e)
      modifies this`remoteClosed
      ensures Agrees(StreamEnd.ReceiveClose(e), violation)
    {
      if remoteClosed { return Some(StreamEnd.CloseTwice); }
      remoteClosed := true;
      return None;
    }
  }
}
