/** One end of one stream: the fields of a `Stream` object, the program positions
    of the goroutines that are using it, and the multiplexer state that concerns it
    (registration and the updates accumulated by the `enqueue` goroutine).

    Every operation is split at the points where another goroutine can run.  A
    channel used as a signal is a `bool`; a one-slot token channel is a `bool` that
    tells whether the token is in the channel. */
module StreamEnd {
  import opened Wrappers
  import opened Messages

  /** What stands between an end and its user. */
  datatype Origin =
    | Absent                     // no stream object
    | Rejected                   // turned away by the reader goroutine: no stream object
    | Allocated                  // OpenStream: registered, open message not yet queued
    | Requested                  // OpenStream: open message queued, awaiting an answer
    | Queued                     // inbound: in the accept backlog
    | Taken                      // acceptOneStream: waiting for a write buffer
    | Marked                     // acceptOneStream: established, accept message not yet queued
    | Returned                   // handed to the user
    | Failed(sendClose: bool)    // OpenStream or acceptOneStream gave up

  /** `goal` is history: what `written` will be if the call succeeds. */
  datatype Writer =
    | NotWriting
    | AwaitingWindow(data: seq<Byte>, ready: bool, goal: seq<Byte>)
    | Sending(block: seq<Byte>, rest: seq<Byte>, goal: seq<Byte>)

  datatype Reader =
    | NotReading
    | AwaitingData
    | DataReady
    | Announcing(count: nat)

  datatype Closure =
    | NotClosing
    | Signalled(send: bool)      // the channel is closed, the timer not yet acquired
    | Stopped(send: bool)        // the timer is out of circulation
    | Announced(send: bool)      // the message, if wanted, has reached the enqueue goroutine
    | Finished                   // (full close) deregistered as well

  datatype End = End(
    origin: Origin,
    registered: bool,
    established: bool,
    remoteClosedWrite: bool,
    remoteClosed: bool,
    closedWrite: bool,
    closed: bool,
    readTimer: bool,             // the read deadline timer is in its channel
    writeTimer: bool,            // the write deadline timer is in its channel
    receiveBuffer: seq<Byte>,
    receiveBufferReady: bool,
    sendWindow: nat,
    sendWindowReady: bool,
    reader: Reader,
    writer: Writer,
    closingWrite: Closure,
    closing: Closure,
    windowIncrement: Option<nat>, // entry in the enqueue goroutine's windowIncrements
    writeClose: bool,             // entry in writeCloses
    close: bool,                  // entry in closes
    lookedUp: Option<bool>,       // the reader goroutine's lookup for the message it is handling
    // History.
    log: seq<Message>,            // every message queued by this end
    sent: Stage,                  // how far they have come
    seen: Stage,                  // how far the messages handled by this end have come
    written: seq<Byte>,           // counted by Write
    delivered: seq<Byte>,         // returned by Read
    tokenLeft: bool               // a writer has left for good with the window token
  ) {
    /** The reader goroutine can still reach the stream object. */
    predicate Attached() { registered || lookedUp == Some(true) }

    /** Conditions after which no Write can ever succeed again. */
    predicate WriteOver() { closed || closedWrite || remoteClosed }

    /** A writer has drained the window token and not put it back. */
    predicate WriterHoldsToken() { writer.AwaitingWindow? && writer.ready }
  }

  const FRESH := End(
    Absent, false, false, false, false, false, false, true, true, [], false, 0, false,
    NotReading, NotWriting, NotClosing, NotClosing, None, false, false, None,
    [], Silent, Silent, [], [], false)

  /** The conditions on which the reader goroutine gives up on the peer, and one that
      would make a goroutine block while holding a lock. */
  datatype Violation =
    | ZeroIdentifier
    | OutboundIdentifierOpened
    | IdentifierNotIncreasing
    | InboundIdentifierAccepted
    | UnopenedInboundIdentifier
    | UnusedOutboundIdentifier
    | AcceptedTwice
    | AcceptedAfterClose
    | ZeroLengthData
    | DataBeforeEstablishment
    | DataAfterCloseWrite
    | DataAfterClose
    | ReceiveWindowExceeded
    | ZeroIncrement
    | IncrementBeforeEstablishment
    | IncrementAfterClose
    | IncrementOverflow
    | CloseWriteBeforeEstablishment
    | CloseWriteAfterClose
    | CloseWriteTwice
    | CloseTwice
    | ReadinessSendBlocked

  datatype Outcome = Next(end: End, output: Option<Message>) | Violated(violation: Violation)

  /** The token channel after an optional send to it.  A send to a full channel blocks. */
  predicate SendBlocks(ready: bool, send: bool) { ready && send }

  // ----- Local steps -----
  //
  // One uninterrupted section of each operation.  `role` is the role of this end and
  // `window` the local StreamReceiveWindow.

  function Quiet(e: End): Outcome { Next(e, None) }

  /** A message buffer goes to the pending queue. */
  function Queue(role: Role, e: End, m: Message): Outcome {
    var stage := Advance(role, e.sent, m);
    Next(e.(log := e.log + [m], sent := if stage.Some? then stage.value else e.sent), Some(m))
  }

  /** OpenStream. */
  datatype OpenAction = Allocate | SendOpen | OpenReturns | OpenFails

  predicate OpenEnabled(role: Role, e: End, a: OpenAction) {
    match a
    case Allocate => role.Opener? && e.origin.Absent?
    case SendOpen => e.origin.Allocated?
    case OpenReturns => e.origin.Requested? && e.established
    case OpenFails => e.origin.Allocated? || e.origin.Requested?
  }

  function OpenStep(role: Role, window: nat, e: End, a: OpenAction): Outcome
  {
    match a
    case Allocate => Quiet(e.(origin := Allocated, registered := true))
    case SendOpen => Queue(role, e.(origin := Requested), Open(window))
    case OpenReturns => Quiet(e.(origin := Returned))
    case OpenFails => Quiet(e.(origin := Failed(e.origin.Requested?)))
  }

  /** acceptOneStream. */
  datatype AcceptAction = TakePending | AcceptFails | MarkEstablished | SendAccept

  predicate AcceptEnabled(e: End, a: AcceptAction) {
    match a
    case TakePending => e.origin.Queued?
    case AcceptFails => e.origin.Taken?
    case MarkEstablished => e.origin.Taken?
    case SendAccept => e.origin.Marked?
  }

  function AcceptStep(role: Role, window: nat, e: End, a: AcceptAction): Outcome
  {
    match a
    case TakePending => Quiet(e.(origin := Taken))
    case AcceptFails => Quiet(e.(origin := Failed(true)))
    case MarkEstablished => Quiet(e.(origin := Marked, established := true))
    case SendAccept => Queue(role, e.(origin := Returned), Accept(window))
  }

  /** Write.  SetWriteDeadline holds the timer like a write of nothing. */
  datatype WriteAction =
    | WriteBegins(data: seq<Byte>)
    | WriteTakesToken
    | WriteTakesWindow
    | WriteSends
    | WriteReturns
    | WriteAborts
    | WriteExpires

  predicate WriteEnabled(e: End, a: WriteAction) {
    match a
    case WriteBegins(_) => e.origin.Returned? && e.writeTimer
    case WriteTakesToken => e.writer.AwaitingWindow? && e.writer.data != [] && e.sendWindowReady
    case WriteTakesWindow => e.WriterHoldsToken()
    case WriteSends => e.writer.Sending?
    case WriteReturns => e.writer.AwaitingWindow? && e.writer.data == []
    case WriteAborts => e.writer.AwaitingWindow? && e.WriteOver()
    case WriteExpires => e.writer.AwaitingWindow?
  }

  /** Write takes at most one block's worth of the window and leaves the token in order. */
  function TakeWindow(e: End): Outcome
    requires e.writer.AwaitingWindow?
  {
    var amount := Min(e.sendWindow, Min(|e.writer.data|, MAX_BLOCK));
    var more := e.sendWindow > amount;
    if SendBlocks(e.sendWindowReady, more) then Violated(ReadinessSendBlocked)
    else
      Quiet(e.(sendWindow := e.sendWindow - amount,
               sendWindowReady := e.sendWindowReady || more,
               writer := Sending(e.writer.data[..amount], e.writer.data[amount..], e.writer.goal)))
  }

  function WriteStep(role: Role, e: End, a: WriteAction): Outcome
    requires WriteEnabled(e, a)
  {
    match a
    case WriteBegins(data) =>
      Quiet(e.(writeTimer := false, writer := AwaitingWindow(data, false, e.written + data)))
    case WriteTakesToken =>
      Quiet(e.(sendWindowReady := false, writer := AwaitingWindow(e.writer.data, true, e.writer.goal)))
    case WriteTakesWindow => TakeWindow(e)
    case WriteSends =>
      Queue(role,
            e.(written := e.written + e.writer.block,
               writer := AwaitingWindow(e.writer.rest, false, e.writer.goal)),
            Data(e.writer.block))
    case WriteReturns => Quiet(e.(writer := NotWriting, writeTimer := true))
    case WriteAborts =>
      Quiet(e.(writer := NotWriting, writeTimer := true, tokenLeft := e.tokenLeft || e.writer.ready))
    case WriteExpires =>
      // A token that was drained goes back.
      if SendBlocks(e.sendWindowReady, e.writer.ready) then Violated(ReadinessSendBlocked)
      else
        Quiet(e.(writer := NotWriting, writeTimer := true,
                 sendWindowReady := e.sendWindowReady || e.writer.ready))
  }

  /** Read.  SetReadDeadline holds the timer like a read that gives up. */
  datatype ReadAction =
    | ReadBegins
    | ReadTakesToken
    | ReadTakes(size: nat)
    | ReadAnnounces
    | ReadReturnsEOF
    | ReadAborts

  predicate ReadEnabled(e: End, a: ReadAction) {
    match a
    case ReadBegins => e.origin.Returned? && e.readTimer
    case ReadTakesToken => e.reader.AwaitingData? && e.receiveBufferReady
    case ReadTakes(_) => e.reader.DataReady?
    case ReadAnnounces => e.reader.Announcing?
    case ReadReturnsEOF =>
      e.reader.AwaitingData? && (e.remoteClosedWrite || e.remoteClosed) && !e.receiveBufferReady
    case ReadAborts => e.reader.AwaitingData?
  }

  /** Read copies out of the receive buffer and leaves the token in order. */
  function TakeData(e: End, size: nat): Outcome {
    var count := Min(size, |e.receiveBuffer|);
    var more := |e.receiveBuffer| > count;
    if SendBlocks(e.receiveBufferReady, more) then Violated(ReadinessSendBlocked)
    else
      Quiet(e.(receiveBuffer := e.receiveBuffer[count..],
               receiveBufferReady := e.receiveBufferReady || more,
               delivered := e.delivered + e.receiveBuffer[..count],
               reader := Announcing(count)))
  }

  /** The increment waiting in the enqueue goroutine. */
  function Pending(e: End): nat {
    if e.windowIncrement.Some? then e.windowIncrement.value else 0
  }

  function ReadStep(e: End, a: ReadAction): Outcome
    requires ReadEnabled(e, a)
  {
    match a
    case ReadBegins => Quiet(e.(readTimer := false, reader := AwaitingData))
    case ReadTakesToken => Quiet(e.(receiveBufferReady := false, reader := DataReady))
    case ReadTakes(size) => TakeData(e, size)
    case ReadAnnounces =>
      Quiet(e.(windowIncrement := Some(Pending(e) + e.reader.count), reader := NotReading, readTimer := true))
    case ReadReturnsEOF => Quiet(e.(reader := NotReading, readTimer := true))
    case ReadAborts => Quiet(e.(reader := NotReading, readTimer := true))
  }

  /** closeWrite and close. */
  datatype CloseAction =
    | CloseWriteBegins(send: bool)
    | CloseWriteStops
    | CloseWriteEnqueues
    | CloseBegins
    | CloseStops
    | CloseEnqueues
    | Deregisters

  predicate CloseEnabled(e: End, a: CloseAction) {
    match a
    case CloseWriteBegins(send) =>
      e.closingWrite.NotClosing? && (e.origin.Returned? || (e.origin.Failed? && !send))
    case CloseWriteStops => e.closingWrite.Signalled? && e.writeTimer
    case CloseWriteEnqueues => e.closingWrite.Stopped?
    case CloseBegins =>
      e.closing.NotClosing? && e.closingWrite.Announced? && (e.origin.Returned? || e.origin.Failed?)
    case CloseStops => e.closing.Signalled? && e.readTimer
    case CloseEnqueues => e.closing.Stopped?
    case Deregisters => e.closing.Announced?
  }

  function CloseStep(e: End, a: CloseAction): Outcome
    requires CloseEnabled(e, a)
  {
    match a
    case CloseWriteBegins(send) => Quiet(e.(closedWrite := true, closingWrite := Signalled(send)))
    case CloseWriteStops => Quiet(e.(writeTimer := false, closingWrite := Stopped(e.closingWrite.send)))
    case CloseWriteEnqueues =>
      Quiet(e.(writeClose := e.writeClose || e.closingWrite.send, closingWrite := Announced(e.closingWrite.send)))
    case CloseBegins =>
      Quiet(e.(closed := true, closing := Signalled(e.origin.Returned? || e.origin.sendClose)))
    case CloseStops => Quiet(e.(readTimer := false, closing := Stopped(e.closing.send)))
    case CloseEnqueues =>
      var send := e.closing.send;
      Quiet(e.(windowIncrement := if send then None else e.windowIncrement,
               writeClose := e.writeClose && !send,
               close := e.close || send,
               closing := Announced(send)))
    case Deregisters => Quiet(e.(registered := false, closing := Finished))
  }

  /** The enqueue goroutine gets hold of a write buffer. */
  datatype FlushAction = FlushIncrement | FlushCloseWrite | FlushClose

  predicate FlushEnabled(e: End, a: FlushAction) {
    match a
    case FlushIncrement => e.windowIncrement.Some?
    case FlushCloseWrite => e.writeClose
    case FlushClose => e.close
  }

  function FlushStep(role: Role, e: End, a: FlushAction): Outcome
    requires FlushEnabled(e, a)
  {
    match a
    case FlushIncrement => Queue(role, e.(windowIncrement := None), Increment(e.windowIncrement.value))
    case FlushCloseWrite => Queue(role, e.(writeClose := false), CloseWrite)
    case FlushClose => Queue(role, e.(close := false), Close)
  }

  datatype Action =
    | Opening(open: OpenAction)
    | Accepting(accept: AcceptAction)
    | Writing(write: WriteAction)
    | Reading(read: ReadAction)
    | Closing(shut: CloseAction)
    | Flushing(flush: FlushAction)

  predicate Enabled(role: Role, e: End, a: Action) {
    match a
    case Opening(o) => OpenEnabled(role, e, o)
    case Accepting(c) => AcceptEnabled(e, c)
    case Writing(w) => WriteEnabled(e, w)
    case Reading(r) => ReadEnabled(e, r)
    case Closing(c) => CloseEnabled(e, c)
    case Flushing(f) => FlushEnabled(e, f)
  }

  function Local(role: Role, window: nat, e: End, a: Action): Outcome
    requires Enabled(role, e, a)
  {
    match a
    case Opening(o) => OpenStep(role, window, e, o)
    case Accepting(c) => AcceptStep(role, window, e, c)
    case Writing(w) => WriteStep(role, e, w)
    case Reading(r) => ReadStep(e, r)
    case Closing(c) => CloseStep(e, c)
    case Flushing(f) => FlushStep(role, e, f)
  }

  // ----- The reader goroutine -----

  /** An open message arrives: reject it if the backlog is full, otherwise create,
      register and enqueue the local end. */
  function ReceiveOpen(e: End, window: nat, backlogFull: bool): Outcome {
    if backlogFull then
      Next(e.(origin := Rejected, close := true, windowIncrement := None, writeClose := false), None)
    else
      Next(e.(origin := Queued, registered := true, sendWindow := window,
              sendWindowReady := window > 0), None)
  }

  function Accepted(e: End, window: nat): End {
    e.(sendWindow := window, sendWindowReady := e.sendWindowReady || window > 0, established := true)
  }

  function ReceiveAccept(e: End, window: nat): (o: Outcome)
    ensures
      o.Next? ==>
        && o.output.None? && o.end.log == e.log && o.end.origin == e.origin
        && o.end.reader == e.reader && o.end.windowIncrement == e.windowIncrement
        && o.end.written == e.written && o.end.sent == e.sent
  {
    if e.established then Violated(AcceptedTwice)
    else if e.remoteClosed then Violated(AcceptedAfterClose)
    else
      if SendBlocks(e.sendWindowReady, window > 0) then Violated(ReadinessSendBlocked)
      else Quiet(Accepted(e, window))
  }

  function ReceiveData(e: End, block: seq<Byte>, window: nat): (o: Outcome)
    ensures
      o.Next? ==>
        && o.output.None? && o.end.log == e.log && o.end.origin == e.origin
        && o.end.reader == e.reader && o.end.windowIncrement == e.windowIncrement
        && o.end.written == e.written && o.end.sent == e.sent
  {
    if !e.established then Violated(DataBeforeEstablishment)
    else if e.remoteClosedWrite then Violated(DataAfterCloseWrite)
    else if e.remoteClosed then Violated(DataAfterClose)
    else if |e.receiveBuffer| + |block| > window then Violated(ReceiveWindowExceeded)
    else
      var first := |e.receiveBuffer| == 0;
      if SendBlocks(e.receiveBufferReady, first) then Violated(ReadinessSendBlocked)
      else
        Quiet(e.(receiveBuffer := e.receiveBuffer + block,
                 receiveBufferReady := e.receiveBufferReady || first))
  }

  function ReceiveIncrement(outbound: bool, e: End, amount: nat): (o: Outcome)
    ensures
      o.Next? ==>
        && o.output.None? && o.end.log == e.log && o.end.origin == e.origin
        && o.end.reader == e.reader && o.end.windowIncrement == e.windowIncrement
        && o.end.written == e.written && o.end.sent == e.sent
  {
    if outbound && !e.established then Violated(IncrementBeforeEstablishment)
    else if e.remoteClosed then Violated(IncrementAfterClose)
    else if SendBlocks(e.sendWindowReady, e.sendWindow == 0) then Violated(ReadinessSendBlocked)
    else if e.sendWindow != 0 && MAX_UINT64 - e.sendWindow < amount then Violated(IncrementOverflow)
    else
      Quiet(e.(sendWindow := e.sendWindow + amount,
               sendWindowReady := e.sendWindowReady || e.sendWindow == 0))
  }

  function ReceiveCloseWrite(outbound: bool, e: End): (o: Outcome)
    ensures
      o.Next? ==>
        && o.output.None? && o.end.log == e.log && o.end.origin == e.origin
        && o.end.reader == e.reader && o.end.windowIncrement == e.windowIncrement
        && o.end.written == e.written && o.end.sent == e.sent
  {
    if outbound && !e.established then Violated(CloseWriteBeforeEstablishment)
    else if e.remoteClosed then Violated(CloseWriteAfterClose)
    else if e.remoteClosedWrite then Violated(CloseWriteTwice)
    else Quiet(e.(remoteClosedWrite := true))
  }

  function ReceiveClose(e: End): (o: Outcome)
    ensures
      o.Next? ==>
        && o.output.None? && o.end.log == e.log && o.end.origin == e.origin
        && o.end.reader == e.reader && o.end.windowIncrement == e.windowIncrement
        && o.end.written == e.written && o.end.sent == e.sent
  {
    if e.remoteClosed then Violated(CloseTwice)
    else Quiet(e.(remoteClosed := true))
  }

  /** What the reader goroutine does with a message other than open once it has looked
      the stream up.  `found` is the result of that lookup, `outbound` tells whether
      this end opened the stream, `window` is the local StreamReceiveWindow. */
  function Receive(outbound: bool, window: nat, e: End, m: Message, found: bool): (o: Outcome)
    requires !m.Open?
    ensures
      o.Next? ==>
        && o.output.None? && o.end.log == e.log && o.end.origin == e.origin
        && o.end.reader == e.reader && o.end.windowIncrement == e.windowIncrement
        && o.end.written == e.written && o.end.sent == e.sent
  {
    if m.Data? && m.block == [] then Violated(ZeroLengthData)
    else if m.Increment? && m.amount == 0 then Violated(ZeroIncrement)
    else if !found then Quiet(e)
    else
      match m
      case Accept(w) => ReceiveAccept(e, w)
      case Data(block) => ReceiveData(e, block, window)
      case Increment(amount) => ReceiveIncrement(outbound, e, amount)
      case CloseWrite => ReceiveCloseWrite(outbound, e)
      case Close => ReceiveClose(e)
  }
}
