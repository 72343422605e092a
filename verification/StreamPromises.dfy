/** What Read and Write promise their callers, in every run of two multiplexers. */
module StreamPromises {
  import opened Wrappers
  import opened Messages
  import opened StreamEnd
  import Link
  import LinkLocal
  import opened Network
  import opened NetworkSimulation
  import opened NetworkInvariants
  import opened NetworkTheorems

  /** Each deadline timer is in its channel exactly while nobody uses it, so that the next call
      can have it, until the closure has taken it for good. */
  lemma TimersAreReturned(net: Net, side: Side, id: nat)
    requires Reachable(net) && id >= 1
    ensures
      var e := net.At(side).At(id);
      && (e.writeTimer <==> e.writer.NotWriting? && (e.closingWrite.NotClosing? || e.closingWrite.Signalled?))
      && (e.readTimer <==> e.reader.NotReading? && (e.closing.NotClosing? || e.closing.Signalled?))
  {
    ReachableInv(net);
    StreamInv(net, side, id);
  }

  // ----- Write -----

  /** What has been counted and what is still to be sent make up what the call was given. */
  predicate GoalInv(e: End) {
    match e.writer
    case NotWriting => true
    case AwaitingWindow(data, _, goal) => e.written + data == goal
    case Sending(block, rest, goal) => e.written + (block + rest) == goal
  }

  /** The step leaves Write alone. */
  predicate SameWriter(e: End, e': End) { e'.writer == e.writer && e'.written == e.written }

  lemma Associates(a: seq<Byte>, b: seq<Byte>, c: seq<Byte>)
    ensures (a + b) + c == a + (b + c)
  {
  }

  lemma SplitsAt(data: seq<Byte>, n: nat)
    requires n <= |data|
    ensures data[..n] + data[n..] == data
  {
  }

  lemma TakingWindowKeepsGoal(e: End)
    requires e.writer.AwaitingWindow? && GoalInv(e) && TakeWindow(e).Next?
    ensures GoalInv(TakeWindow(e).end)
  {
    SplitsAt(e.writer.data, Min(e.sendWindow, Min(|e.writer.data|, MAX_BLOCK)));
  }

  lemma WritingKeepsGoal(role: Role, e: End, a: WriteAction)
    requires GoalInv(e) && WriteEnabled(e, a) && WriteStep(role, e, a).Next?
    ensures GoalInv(WriteStep(role, e, a).end)
  {
    match a
    case WriteBegins(_) =>
    case WriteTakesToken =>
    case WriteTakesWindow => TakingWindowKeepsGoal(e);
    case WriteSends => Associates(e.written, e.writer.block, e.writer.rest);
    case WriteReturns =>
    case WriteAborts =>
    case WriteExpires =>
  }

  lemma ReadingLeavesWriter(e: End, a: ReadAction)
    requires ReadEnabled(e, a) && ReadStep(e, a).Next?
    ensures SameWriter(e, ReadStep(e, a).end)
  {
    match a
    case ReadBegins =>
    case ReadTakesToken =>
    case ReadTakes(_) =>
    case ReadAnnounces =>
    case ReadReturnsEOF =>
    case ReadAborts =>
  }

  lemma ClosingLeavesWriter(e: End, a: CloseAction)
    requires CloseEnabled(e, a) && CloseStep(e, a).Next?
    ensures SameWriter(e, CloseStep(e, a).end)
  {
    match a
    case CloseWriteBegins(_) =>
    case CloseWriteStops =>
    case CloseWriteEnqueues =>
    case CloseBegins =>
    case CloseStops =>
    case CloseEnqueues =>
    case Deregisters =>
  }

  lemma OpeningLeavesWriter(role: Role, window: nat, e: End, a: OpenAction)
    requires OpenStep(role, window, e, a).Next?
    ensures SameWriter(e, OpenStep(role, window, e, a).end)
  {
    match a
    case Allocate =>
    case SendOpen =>
    case OpenReturns =>
    case OpenFails =>
  }

  lemma AcceptingLeavesWriter(role: Role, window: nat, e: End, a: AcceptAction)
    requires AcceptStep(role, window, e, a).Next?
    ensures SameWriter(e, AcceptStep(role, window, e, a).end)
  {
    match a
    case TakePending =>
    case AcceptFails =>
    case MarkEstablished =>
    case SendAccept =>
  }

  lemma FlushingLeavesWriter(role: Role, e: End, a: FlushAction)
    requires FlushEnabled(e, a) && FlushStep(role, e, a).Next?
    ensures SameWriter(e, FlushStep(role, e, a).end)
  {
    match a
    case FlushIncrement =>
    case FlushCloseWrite =>
    case FlushClose =>
  }

  lemma OthersLeaveWriter(role: Role, window: nat, e: End, a: Action)
    requires !a.Writing? && Enabled(role, e, a) && Local(role, window, e, a).Next?
    ensures SameWriter(e, Local(role, window, e, a).end)
  {
    match a
    case Opening(o) => OpeningLeavesWriter(role, window, e, o);
    case Accepting(c) => AcceptingLeavesWriter(role, window, e, c);
    case Reading(r) => ReadingLeavesWriter(e, r);
    case Closing(c) => ClosingLeavesWriter(e, c);
    case Flushing(f) => FlushingLeavesWriter(role, e, f);
  }

  lemma ActKeepsGoal(role: Role, window: nat, e: End, a: Action)
    requires GoalInv(e) && Enabled(role, e, a) && Local(role, window, e, a).Next?
    ensures GoalInv(Local(role, window, e, a).end)
  {
    if a.Writing? { WritingKeepsGoal(role, e, a.write); } else { OthersLeaveWriter(role, window, e, a); }
  }

  lemma ReceivingLeavesWriter(outbound: bool, window: nat, e: End, m: Message, found: bool)
    requires !m.Open? && Receive(outbound, window, e, m, found).Next?
    ensures SameWriter(e, Receive(outbound, window, e, m, found).end)
  {
    match m
    case Accept(_) =>
    case Data(_) =>
    case Increment(_) =>
    case CloseWrite =>
    case Close =>
  }

  lemma StepKeepsGoal(windows: Link.Windows, l: Link.Link, step: Link.Step, role: Role)
    requires GoalInv(l.At(role)) && Link.Enables(l, step) && Link.Do(windows, l, step).Stepped?
    ensures GoalInv(Link.Do(windows, l, step).link.At(role))
  {
    match step
    case Act(r, a) => if r == role { ActKeepsGoal(role, windows.Of(role), l.At(role), a); }
    case LookUp(_) =>
    case Handle(r) =>
      if r == role {
        var e := l.At(role);
        ReceivingLeavesWriter(role.Opener?, windows.Of(role), e, l.From(role.Peer())[0], e.lookedUp.value);
      }
    case HandleOpen(_) =>
  }

  lemma {:induction false} RunKeepsGoal(net: Net, side: Side, id: nat, steps: seq<Step>)
    requires GoalInv(net.At(side).At(id))
    requires Possible(net, steps) && Run(net, steps).Stepped?
    ensures GoalInv(Run(net, steps).net.At(side).At(id))
    decreases |steps|
  {
    if steps != [] {
      var net', s := Do(net, steps[0]).net, StepFor(net, steps[0], id);
      StepFollows(net, steps[0], id);
      LinkParts(net, side, id);
      LinkParts(net', side, id);
      if s.Some? { StepKeepsGoal(WindowsOf(net, id), LinkOf(net, id), s.value, RoleOf(side, id)); }
      RunKeepsGoal(net', side, id, steps[1..]);
    }
  }

  /** A call of Write aims at what has been counted before it and then its data.  What it has
      counted is always an initial part of that, and all of it once Write returns success. */
  lemma WriteIsComplete(net: Net, side: Side, id: nat)
    requires Reachable(net)
    ensures
      var e := net.At(side).At(id);
      && (!e.writer.NotWriting? ==> e.written <= e.writer.goal)
      && (WriteEnabled(e, WriteReturns) ==> e.written == e.writer.goal)
      && (forall data | WriteEnabled(e, WriteBegins(data)) ::
            var w := WriteStep(RoleOf(side, id), e, WriteBegins(data)).end.writer;
            !w.NotWriting? && w.goal == e.written + data)
  {
    var odd: Configuration, even: Configuration, steps: seq<Step> :|
      odd.Valid() && even.Valid() && Possible(Initial(odd, even), steps)
      && Run(Initial(odd, even), steps) == Stepped(net);
    RunKeepsGoal(Initial(odd, even), side, id, steps);
  }

  predicate Ends(a: WriteAction) { a.WriteReturns? || a.WriteAborts? || a.WriteExpires? }

  lemma WritingKeepsAim(role: Role, e: End, a: WriteAction)
    requires WriteEnabled(e, a) && WriteStep(role, e, a).Next? && !e.writer.NotWriting? && !e.writeTimer
    ensures
      var w := WriteStep(role, e, a).end.writer;
      if Ends(a) then w.NotWriting? else !w.NotWriting? && w.goal == e.writer.goal
  {
    match a
    case WriteBegins(_) =>
    case WriteTakesToken =>
    case WriteTakesWindow =>
    case WriteSends =>
    case WriteReturns =>
    case WriteAborts =>
    case WriteExpires =>
  }

  /** A call of Write keeps its aim until it returns success or gives up. */
  lemma GoalIsKept(role: Role, window: nat, e: End, a: Action)
    requires Link.EndInv(role, e) && Enabled(role, e, a) && !e.writer.NotWriting?
    ensures Local(role, window, e, a).Next?
    ensures
      var w := Local(role, window, e, a).end.writer;
      if a.Writing? && Ends(a.write) then w.NotWriting? else !w.NotWriting? && w.goal == e.writer.goal
  {
    LinkLocal.ActKeepsEnd(role, window, e, a);
    if a.Writing? { WritingKeepsAim(role, e, a.write); } else { OthersLeaveWriter(role, window, e, a); }
  }

  lemma TakenBlock(e: End)
    requires Link.TokenInv(e) && e.WriterHoldsToken()
    ensures
      var o := TakeWindow(e);
      && o.Next? && o.end.writer.Sending?
      && var w := o.end.writer;
         && w.block + w.rest == e.writer.data
         && 1 <= |w.block| <= 65535 && o.end.sendWindow + |w.block| == e.sendWindow
         && (w.rest == [] || |w.block| == 65535 || o.end.sendWindow == 0)
  {
    SplitsAt(e.writer.data, Min(e.sendWindow, Min(|e.writer.data|, MAX_BLOCK)));
  }

  /** A writer that has the token takes a block from the front of its data, never an empty one,
      and as much as the data, the window and the length field of a data message allow. */
  lemma BlockIsLargest(net: Net, side: Side, id: nat)
    requires Reachable(net) && id >= 1 && WriteEnabled(net.At(side).At(id), WriteTakesWindow)
    ensures
      var e := net.At(side).At(id);
      var o := WriteStep(RoleOf(side, id), e, WriteTakesWindow);
      && o.Next? && o.end.writer.Sending?
      && var w := o.end.writer;
         && w.block + w.rest == e.writer.data
         && 1 <= |w.block| <= 65535 && o.end.sendWindow + |w.block| == e.sendWindow
         && (w.rest == [] || |w.block| == 65535 || o.end.sendWindow == 0)
  {
    ReachableInv(net);
    StreamInv(net, side, id);
    TakenBlock(net.At(side).At(id));
  }

  // ----- Read -----

  lemma TakenData(e: End, size: nat)
    requires Link.TokenInv(e) && e.reader.DataReady?
    ensures
      var o := TakeData(e, size);
      && o.Next? && o.end.reader.Announcing?
      && var count := o.end.reader.count;
         && e.delivered + e.receiveBuffer == o.end.delivered + o.end.receiveBuffer
         && |o.end.delivered| == |e.delivered| + count && count <= size
         && (count == size || o.end.receiveBuffer == [])
         && (size > 0 ==> count > 0)
  {
    LinkLocal.MoveAcross(e.delivered, e.receiveBuffer, Min(size, |e.receiveBuffer|));
  }

  /** A waiting reader's choices, by what has been heard from the peer. */
  lemma EofByStage(role: Role, e: End)
    requires Link.TokenInv(e) && Link.SeenInv(role, e) && e.registered && e.reader.AwaitingData?
    ensures
      ReadEnabled(e, ReadReturnsEOF) <==>
        (e.seen.HalfClosed? || e.seen.Shut? || e.seen.Refused?) && e.receiveBuffer == []
  {
  }

  lemma AllArrived(role: Role, s: Link.SenderView, r: Link.ReceiverView)
    requires r.intact && Link.OrderInv(role, s, r, []) && Link.DeliveryInv(s, r, [])
    ensures r.seen == s.sent && (r.delivered == s.written <==> r.buffered == [])
  {
    assert s.written == r.delivered + r.buffered + [];
    if r.delivered == s.written { assert |r.buffered| == 0; }
  }

  /** A reader that has the token takes the oldest bytes, as many as there are and fit. */
  lemma ReadIsLargest(net: Net, side: Side, id: nat, size: nat)
    requires Reachable(net) && id >= 1 && ReadEnabled(net.At(side).At(id), ReadTakes(size))
    ensures
      var e := net.At(side).At(id);
      var o := ReadStep(e, ReadTakes(size));
      && o.Next? && o.end.reader.Announcing?
      && var count := o.end.reader.count;
         && e.delivered + e.receiveBuffer == o.end.delivered + o.end.receiveBuffer
         && |o.end.delivered| == |e.delivered| + count && count <= size
         && (count == size || o.end.receiveBuffer == [])
         && (size > 0 ==> count > 0)
  {
    ReachableInv(net);
    StreamInv(net, side, id);
    TakenData(net.At(side).At(id), size);
  }

  /** Once nothing is on its way, a reader waiting on a registered stream is given EOF exactly
      when the peer has half-closed or closed and everything it has written has been returned. */
  lemma EofWhenDrained(net: Net, side: Side, id: nat)
    requires Reachable(net) && id >= 1
    requires net.At(side).At(id).registered && net.At(side).At(id).reader.AwaitingData?
    requires Project(net.From(side.Other()), id) == []
    ensures
      var e, peer := net.At(side).At(id), net.At(side.Other()).At(id);
      ReadEnabled(e, ReadReturnsEOF) <==>
        (peer.sent.HalfClosed? || peer.sent.Shut? || peer.sent.Refused?) && e.delivered == peer.written
  {
    ReachableInv(net);
    StreamInv(net, side, id);
    StreamInv(net, side.Other(), id);
    Roles(side, id);
    var e, peer := net.At(side).At(id), net.At(side.Other()).At(id);
    EofByStage(RoleOf(side, id), e);
    AllArrived(RoleOf(side.Other(), id), Link.SendingOf(peer), Link.ReceivingOf(e));
  }

  // ----- CloseWrite -----

  /** What the peer is to be told of the end of the data, and what it has been told. */
  predicate HalfCloseInv(e: End) {
    && (e.origin.Returned? && e.closingWrite == Announced(true) ==>
          e.writeClose || e.close || e.sent.HalfClosed? || e.sent.Shut?)
    && (e.writeClose || e.sent.HalfClosed? ==> e.closingWrite == Announced(true))
  }

  lemma OpeningKeepsHalfClose(role: Role, window: nat, e: End, a: OpenAction)
    requires Link.EndInv(role, e) && HalfCloseInv(e) && OpenEnabled(role, e, a)
    ensures HalfCloseInv(OpenStep(role, window, e, a).end)
  {
    match a
    case Allocate =>
    case SendOpen =>
    case OpenReturns =>
    case OpenFails =>
  }

  lemma AcceptingKeepsHalfClose(role: Role, window: nat, e: End, a: AcceptAction)
    requires Link.EndInv(role, e) && HalfCloseInv(e) && AcceptEnabled(e, a)
    ensures HalfCloseInv(AcceptStep(role, window, e, a).end)
  {
    match a
    case TakePending =>
    case AcceptFails =>
    case MarkEstablished =>
    case SendAccept =>
  }

  lemma WritingKeepsHalfClose(role: Role, e: End, a: WriteAction)
    requires Link.EndInv(role, e) && HalfCloseInv(e) && WriteEnabled(e, a) && WriteStep(role, e, a).Next?
    ensures HalfCloseInv(WriteStep(role, e, a).end)
  {
    match a
    case WriteBegins(_) =>
    case WriteTakesToken =>
    case WriteTakesWindow =>
    case WriteSends =>
    case WriteReturns =>
    case WriteAborts =>
    case WriteExpires =>
  }

  lemma ReadingKeepsHalfClose(e: End, a: ReadAction)
    requires HalfCloseInv(e) && ReadEnabled(e, a) && ReadStep(e, a).Next?
    ensures HalfCloseInv(ReadStep(e, a).end)
  {
    match a
    case ReadBegins =>
    case ReadTakesToken =>
    case ReadTakes(_) =>
    case ReadAnnounces =>
    case ReadReturnsEOF =>
    case ReadAborts =>
  }

  lemma ClosingKeepsHalfClose(role: Role, e: End, a: CloseAction)
    requires Link.EndInv(role, e) && HalfCloseInv(e) && CloseEnabled(e, a)
    ensures HalfCloseInv(CloseStep(e, a).end)
  {
    match a
    case CloseWriteBegins(_) =>
    case CloseWriteStops =>
    case CloseWriteEnqueues =>
    case CloseBegins =>
    case CloseStops =>
    case CloseEnqueues =>
    case Deregisters =>
  }

  lemma FlushingKeepsHalfClose(role: Role, e: End, a: FlushAction)
    requires Link.EndInv(role, e) && HalfCloseInv(e) && FlushEnabled(e, a)
    ensures HalfCloseInv(FlushStep(role, e, a).end)
  {
    match a
    case FlushIncrement =>
    case FlushCloseWrite =>
    case FlushClose =>
  }

  lemma ActKeepsHalfClose(role: Role, window: nat, e: End, a: Action)
    requires Link.EndInv(role, e) && HalfCloseInv(e) && Enabled(role, e, a) && Local(role, window, e, a).Next?
    ensures HalfCloseInv(Local(role, window, e, a).end)
  {
    match a
    case Opening(o) => OpeningKeepsHalfClose(role, window, e, o);
    case Accepting(c) => AcceptingKeepsHalfClose(role, window, e, c);
    case Writing(w) => WritingKeepsHalfClose(role, e, w);
    case Reading(r) => ReadingKeepsHalfClose(e, r);
    case Closing(c) => ClosingKeepsHalfClose(role, e, c);
    case Flushing(f) => FlushingKeepsHalfClose(role, e, f);
  }

  lemma ReceivingKeepsHalfClose(outbound: bool, window: nat, e: End, m: Message, found: bool)
    requires HalfCloseInv(e) && !m.Open? && Receive(outbound, window, e, m, found).Next?
    ensures HalfCloseInv(Receive(outbound, window, e, m, found).end)
  {
    match m
    case Accept(_) =>
    case Data(_) =>
    case Increment(_) =>
    case CloseWrite =>
    case Close =>
  }

  lemma StepKeepsHalfClose(windows: Link.Windows, l: Link.Link, step: Link.Step, role: Role)
    requires Link.Inv(windows, l) && HalfCloseInv(l.At(role))
    requires Link.Enables(l, step) && Link.Do(windows, l, step).Stepped?
    ensures HalfCloseInv(Link.Do(windows, l, step).link.At(role))
  {
    match step
    case Act(r, a) => if r == role { ActKeepsHalfClose(role, windows.Of(role), l.At(role), a); }
    case LookUp(_) =>
    case Handle(r) =>
      if r == role {
        var e := l.At(role);
        ReceivingKeepsHalfClose(role.Opener?, windows.Of(role), e, l.From(role.Peer())[0], e.lookedUp.value);
      }
    case HandleOpen(_) =>
  }

  lemma {:induction false} RunKeepsHalfClose(net: Net, side: Side, id: nat, steps: seq<Step>)
    requires Inv(net) && id >= 1 && HalfCloseInv(net.At(side).At(id))
    requires Possible(net, steps) && Run(net, steps).Stepped?
    ensures HalfCloseInv(Run(net, steps).net.At(side).At(id))
    decreases |steps|
  {
    if steps != [] {
      var net', s := Do(net, steps[0]).net, StepFor(net, steps[0], id);
      StreamInv(net, side, id);
      StepFollows(net, steps[0], id);
      StepKeepsInv(net, steps[0]);
      LinkParts(net, side, id);
      LinkParts(net', side, id);
      if s.Some? { StepKeepsHalfClose(WindowsOf(net, id), LinkOf(net, id), s.value, RoleOf(side, id)); }
      RunKeepsHalfClose(net', side, id, steps[1..]);
    }
  }

  /** A half-close that CloseWrite has been asked for waits to be sent or has been sent, unless
      the close of the whole stream has taken its place; and none is sent unasked. */
  lemma HalfCloseIsSent(net: Net, side: Side, id: nat)
    requires Reachable(net) && id >= 1
    ensures
      var e := net.At(side).At(id);
      && (e.origin.Returned? && e.closingWrite == Announced(true) ==>
            e.writeClose || e.close || e.sent.HalfClosed? || e.sent.Shut?)
      && (e.writeClose || e.sent.HalfClosed? ==> e.closingWrite == Announced(true))
  {
    var odd: Configuration, even: Configuration, steps: seq<Step> :|
      odd.Valid() && even.Valid() && Possible(Initial(odd, even), steps)
      && Run(Initial(odd, even), steps) == Stepped(net);
    InitialInv(odd, even);
    RunKeepsHalfClose(Initial(odd, even), side, id, steps);
  }

  /** What CloseWrite was asked for stays with it to the end. */
  lemma HalfCloseIsAskedFor(e: End, a: CloseAction)
    requires CloseEnabled(e, a)
    ensures
      var c, c' := e.closingWrite, CloseStep(e, a).end.closingWrite;
      && (a.CloseWriteBegins? ==> c.NotClosing? && c' == Signalled(a.send))
      && (a.CloseWriteStops? ==> c.Signalled? && c' == Stopped(c.send))
      && (a.CloseWriteEnqueues? ==> c.Stopped? && c' == Announced(c.send))
      && (!a.CloseWriteBegins? && !a.CloseWriteStops? && !a.CloseWriteEnqueues? ==> c' == c)
  {
    match a
    case CloseWriteBegins(_) =>
    case CloseWriteStops =>
    case CloseWriteEnqueues =>
    case CloseBegins =>
    case CloseStops =>
    case CloseEnqueues =>
    case Deregisters =>
  }

  // ----- Nothing is stuck -----

  /** A call that is under way on this end, what it waits for being there, can go on. */
  ghost predicate CallsGoOn(e: End) {
    && (e.reader.AwaitingData? && e.receiveBuffer != [] ==> ReadEnabled(e, ReadTakesToken))
    && (e.reader.DataReady? ==> forall size: nat :: ReadEnabled(e, ReadTakes(size)))
    && (e.reader.Announcing? ==> ReadEnabled(e, ReadAnnounces))
    && (e.writer.AwaitingWindow? && e.writer.data == [] ==> WriteEnabled(e, WriteReturns))
    && (e.writer.AwaitingWindow? && e.writer.data != [] && e.sendWindow > 0 ==>
          WriteEnabled(e, WriteTakesToken) || WriteEnabled(e, WriteTakesWindow) || WriteEnabled(e, WriteAborts))
    && (e.writer.Sending? ==> WriteEnabled(e, WriteSends))
    && (e.reader.AwaitingData? ==> ReadEnabled(e, ReadAborts))
    && (e.writer.AwaitingWindow? ==> WriteEnabled(e, WriteExpires))
  }

  /** So can a closure, once the calls that hold the timers have returned, and what waits to be
      sent can be sent. */
  predicate ClosuresGoOn(e: End) {
    && (e.closingWrite.Signalled? && e.writer.NotWriting? ==> CloseEnabled(e, CloseWriteStops))
    && (e.closingWrite.Stopped? ==> CloseEnabled(e, CloseWriteEnqueues))
    && (e.closing.Signalled? && e.reader.NotReading? ==> CloseEnabled(e, CloseStops))
    && (e.closing.Stopped? ==> CloseEnabled(e, CloseEnqueues))
    && (e.closing.Announced? ==> CloseEnabled(e, Deregisters))
    && (e.windowIncrement.Some? ==> FlushEnabled(e, FlushIncrement))
    && (e.writeClose ==> FlushEnabled(e, FlushCloseWrite))
    && (e.close ==> FlushEnabled(e, FlushClose))
  }

  /** And new calls can begin as long as there has been no closure. */
  ghost predicate CallsBegin(e: End) {
    e.origin.Returned? ==>
      && (e.writer.NotWriting? && !e.closedWrite ==>
            forall data: seq<Byte> :: WriteEnabled(e, WriteBegins(data)))
      && (e.reader.NotReading? && !e.closed ==> ReadEnabled(e, ReadBegins))
      && (!e.closedWrite ==> forall send: bool :: CloseEnabled(e, CloseWriteBegins(send)))
      && (e.closingWrite.Announced? && !e.closed ==> CloseEnabled(e, CloseBegins))
  }

  lemma TokensLetCallsGoOn(e: End)
    requires Link.TokenInv(e)
    ensures CallsGoOn(e)
  {
  }

  lemma TimersLetOthersGoOn(e: End)
    requires Link.TimerInv(e)
    ensures ClosuresGoOn(e) && CallsBegin(e)
  {
  }

  /** In every run, no call is left waiting for what is there. */
  lemma NothingIsStuck(net: Net, side: Side, id: nat)
    requires Reachable(net) && id >= 1
    ensures
      var e := net.At(side).At(id);
      CallsGoOn(e) && ClosuresGoOn(e) && CallsBegin(e)
  {
    ReachableInv(net);
    StreamInv(net, side, id);
    TokensLetCallsGoOn(net.At(side).At(id));
    TimersLetOthersGoOn(net.At(side).At(id));
  }
}
