/** Both ends of one stream and the messages in flight between them. */
module Link {
  import opened Wrappers
  import opened Messages
  import opened StreamEnd

  /** The receive windows configured at the two ends. */
  datatype Windows = Windows(opener: nat, acceptor: nat) {
    function Of(role: Role): nat { if role.Opener? then opener else acceptor }
    predicate Valid() { opener <= MAX_INT64 && acceptor <= MAX_INT64 }
  }

  datatype Link = Link(opener: End, acceptor: End, fromOpener: seq<Message>, fromAcceptor: seq<Message>) {
    function At(role: Role): End { if role.Opener? then opener else acceptor }

    /** The messages queued by an end and not yet handled by the other. */
    function From(role: Role): seq<Message> { if role.Opener? then fromOpener else fromAcceptor }

    function With(role: Role, e: End): Link {
      if role.Opener? then this.(opener := e) else this.(acceptor := e)
    }

    function WithQueue(role: Role, queue: seq<Message>): Link {
      if role.Opener? then this.(fromOpener := queue) else this.(fromAcceptor := queue)
    }
  }

  const IDLE := Link(FRESH, FRESH, [], [])

  datatype Outcome = Stepped(link: Link) | Broken(violation: Violation)

  // ----- Steps -----

  datatype Step =
    | Act(role: Role, action: Action)
    | LookUp(role: Role)
    | Handle(role: Role)
    | HandleOpen(backlogFull: bool)

  predicate Enables(l: Link, step: Step) {
    match step
    case Act(role, action) => Enabled(role, l.At(role), action)
    case LookUp(role) =>
      l.From(role.Peer()) != [] && !l.From(role.Peer())[0].Open? && l.At(role).lookedUp.None?
    case Handle(role) =>
      l.From(role.Peer()) != [] && !l.From(role.Peer())[0].Open? && l.At(role).lookedUp.Some?
    case HandleOpen(_) => l.fromOpener != [] && l.fromOpener[0].Open?
  }

  /** The receiving end after the message at the head of the queue has been handled. */
  function Settle(sender: Role, e: End, m: Message): End {
    var stage := Advance(sender, e.seen, m);
    e.(lookedUp := None, seen := if stage.Some? then stage.value else e.seen)
  }

  function Take(l: Link, role: Role, outcome: StreamEnd.Outcome): Outcome
    requires l.From(role.Peer()) != []
  {
    if outcome.Violated? then Broken(outcome.violation)
    else
      var queue := l.From(role.Peer());
      Stepped(l.With(role, Settle(role.Peer(), outcome.end, queue[0])).WithQueue(role.Peer(), queue[1..]))
  }

  /** The acting end changes, and what it sends joins the queue. */
  function Apply(l: Link, role: Role, outcome: StreamEnd.Outcome): Outcome {
    if outcome.Violated? then Broken(outcome.violation)
    else
      var l' := l.With(role, outcome.end);
      if outcome.output.None? then Stepped(l')
      else Stepped(l'.WithQueue(role, l.From(role) + [outcome.output.value]))
  }

  function Do(windows: Windows, l: Link, step: Step): Outcome
    requires Enables(l, step)
  {
    match step
    case Act(role, action) => Apply(l, role, Local(role, windows.Of(role), l.At(role), action))
    case LookUp(role) =>
      var e := l.At(role);
      Stepped(l.With(role, e.(lookedUp := Some(e.registered))))
    case Handle(role) =>
      var e := l.At(role);
      Take(l, role, Receive(role.Opener?, windows.Of(role), e, l.From(role.Peer())[0], e.lookedUp.value))
    case HandleOpen(backlogFull) =>
      Take(l, Acceptor, ReceiveOpen(l.acceptor, l.fromOpener[0].window, backlogFull))
  }

  // ----- Invariants of one end -----

  /** The user has not touched the stream yet. */
  predicate Untouched(e: End) {
    && e.reader.NotReading? && e.writer.NotWriting? && e.readTimer && e.writeTimer
    && e.closingWrite.NotClosing? && e.closing.NotClosing?
    && e.windowIncrement.None? && !e.writeClose
    && e.written == [] && e.delivered == []
  }

  predicate OriginInv(role: Role, e: End) {
    && (e.origin.Allocated? || e.origin.Requested? ==> role.Opener?)
    && (e.origin.Rejected? || e.origin.Queued? || e.origin.Taken? || e.origin.Marked? ==> role.Acceptor?)
    && (e.origin.Failed? && !e.origin.sendClose ==> role.Opener?)
    && (!e.origin.Returned? && !e.origin.Failed? ==> Untouched(e))
    && (e.origin.Returned? ==> e.established)
    && (e.registered <==> !e.origin.Absent? && !e.origin.Rejected? && !e.closing.Finished?)
    && (e.origin.Absent? || e.origin.Rejected? ==>
          && !e.established && e.lookedUp != Some(true)
          && e.receiveBuffer == [] && !e.receiveBufferReady && e.sendWindow == 0 && !e.sendWindowReady
          && !e.remoteClosed && !e.remoteClosedWrite)
    && (e.origin.Absent? ==> e.lookedUp.None?)
    && (e.lookedUp == Some(false) ==> !e.registered)
    && (role.Acceptor? ==> (e.established <==> e.origin.Marked? || e.origin.Returned?))
  }

  /** Each deadline timer is in its channel, with one holder, or out of circulation. */
  predicate TimerInv(e: End) {
    && (e.writeTimer <==> e.writer.NotWriting? && (e.closingWrite.NotClosing? || e.closingWrite.Signalled?))
    && (!e.writer.NotWriting? ==> e.closingWrite.NotClosing? || e.closingWrite.Signalled?)
    && (e.readTimer <==> e.reader.NotReading? && (e.closing.NotClosing? || e.closing.Signalled?))
    && (!e.reader.NotReading? ==> e.closing.NotClosing? || e.closing.Signalled?)
    && (e.closedWrite <==> !e.closingWrite.NotClosing?)
    && (e.closed <==> !e.closing.NotClosing?)
    && (!e.closing.NotClosing? ==> e.closingWrite.Announced?)
    && !e.closingWrite.Finished?
  }

  /** What has been sent agrees with the origin and with the progress of the closures. */
  predicate SentInv(role: Role, e: End) {
    match e.origin
    case Absent => e.sent.Silent? && !e.close
    case Allocated => e.sent.Silent? && !e.close
    case Queued => e.sent.Silent? && !e.close
    case Taken => e.sent.Silent? && !e.close
    case Marked => e.sent.Silent? && !e.close
    case Requested => e.sent.Live? && !e.close
    case Rejected => if e.close then e.sent.Silent? else e.sent.Refused?
    case Returned =>
      && e.sent.Granted()
      && (!e.closingWrite.Announced? ==> e.sent.Live? && !e.writeClose)
      && (e.writeClose ==> e.sent.Live?)
      && (if e.closing.Announced? || e.closing.Finished?
          then e.windowIncrement.None? && !e.writeClose && (e.sent.Shut? <==> !e.close)
          else !e.sent.Shut? && !e.close)
      && (e.closing.Signalled? || e.closing.Stopped? ==> e.closing.send)
    case Failed(sendClose) =>
      && e.reader.NotReading? && e.writer.NotWriting? && e.windowIncrement.None? && !e.writeClose
      && e.written == [] && e.delivered == []
      && (e.closingWrite.Signalled? || e.closingWrite.Stopped? ==> !e.closingWrite.send)
      && (e.closing.Signalled? || e.closing.Stopped? ==> e.closing.send == sendClose)
      && (if (e.closing.Announced? || e.closing.Finished?) && sendClose
          then e.sent == if e.close then BeforeClose(role, sendClose) else AfterClose(role)
          else !e.close && e.sent == BeforeClose(role, sendClose))
  }

  function BeforeClose(role: Role, requested: bool): Stage {
    if role.Opener? && requested then Live else Silent
  }

  function AfterClose(role: Role): Stage { if role.Opener? then Shut else Refused }

  /** Readiness tokens: present or held exactly while there is something to be had. */
  predicate TokenInv(e: End) {
    && (|e.receiveBuffer| > 0 <==> e.receiveBufferReady || e.reader.DataReady?)
    && !(e.receiveBufferReady && e.reader.DataReady?)
    && !(e.sendWindowReady && e.WriterHoldsToken())
    && (e.sendWindowReady || e.WriterHoldsToken() ==> e.sendWindow > 0 && !e.tokenLeft)
    && (e.sendWindow > 0 && !e.tokenLeft ==> e.sendWindowReady || e.WriterHoldsToken())
    && (e.tokenLeft ==> e.sendWindow > 0 && e.WriteOver())
    && (e.WriterHoldsToken() ==> |e.writer.data| > 0)
    && (e.writer.Sending? ==> 1 <= |e.writer.block| <= MAX_BLOCK)
  }

  /** No empty increment is on its way out. */
  predicate PositiveInv(e: End) {
    && (e.reader.Announcing? ==> e.reader.count > 0)
    && (e.windowIncrement.Some? ==> e.windowIncrement.value > 0)
  }

  /** What an end has recorded about its peer is what the peer has sent it. */
  predicate SeenInv(role: Role, e: End) {
    && (e.origin.Absent? ==> e.seen.Silent?)
    && (role.Acceptor? && e.seen.Silent? ==> e.origin.Absent?)
    && (role.Acceptor? ==> !e.seen.Refused?)
    && (role.Opener? && e.established ==> e.seen.Granted())
    && (e.remoteClosed || e.remoteClosedWrite ==> e.seen.HalfClosed? || e.seen.Shut? || e.seen.Refused?)
    && (e.Attached() ==>
          && (role.Opener? && e.seen.Granted() ==> e.established)
          && (e.seen.Silent? || e.seen.Live? ==> !e.remoteClosedWrite && !e.remoteClosed)
          && (e.seen.HalfClosed? ==> e.remoteClosedWrite && !e.remoteClosed)
          && (e.seen.Shut? || e.seen.Refused? ==> e.remoteClosed))
  }

  predicate EndInv(role: Role, e: End) {
    OriginInv(role, e) && TimerInv(e) && SentInv(role, e) && TokenInv(e) && SeenInv(role, e)
  }

  // ----- One direction -----

  /** What one direction depends on at its sending end. */
  datatype SenderView = SenderView(
    sent: Stage,
    established: bool,
    written: seq<Byte>,
    credit: nat,       // send window, including what a writer has taken and not yet queued
    intact: bool       // no message to this end has been discarded
  )

  /** What one direction depends on at its receiving end. */
  datatype ReceiverView = ReceiverView(
    seen: Stage,
    delivered: seq<Byte>,
    buffered: seq<Byte>,
    unannounced: nat,  // bytes read whose increment has not been queued
    granted: bool,     // the receive window has been advertised
    intact: bool,      // no message to this end has been discarded
    announcing: bool   // no increment has been cancelled either
  )

  function SendingOf(e: End): SenderView {
    SenderView(e.sent, e.established, e.written,
            e.sendWindow + (if e.writer.Sending? then |e.writer.block| else 0),
            e.Attached() || e.origin.Absent?)
  }

  function ReceivingOf(e: End): ReceiverView {
    ReceiverView(e.seen, e.delivered, e.receiveBuffer,
              Pending(e) + (if e.reader.Announcing? then e.reader.count else 0),
              e.sent.Granted(),
              e.Attached() || e.origin.Absent?,
              e.Attached() && !e.closing.Announced? && !e.closing.Finished?)
  }

  // In what follows `role` is the sender's role, `out` what is in flight to the
  // receiver, and `back` what is in flight to the sender.

  /** What is in flight is in order and leads from what was seen to what was sent. */
  predicate OrderInv(role: Role, s: SenderView, r: ReceiverView, out: seq<Message>) {
    AdvanceAll(role, r.seen, out) == Some(s.sent)
  }

  /** The shape of what is in flight. */
  predicate FormInv(role: Role, window: nat, s: SenderView, out: seq<Message>) {
    forall i | 0 <= i < |out| ::
      && (out[i].Open? ==> out[i].window == window)
      && (out[i].Accept? ==> out[i].window == window)
      && (out[i].Data? ==> 1 <= |out[i].block| <= MAX_BLOCK && (role.Opener? ==> s.established))
  }

  /** Bytes are delivered in order, and none is lost before the receiver closes. */
  predicate DeliveryInv(s: SenderView, r: ReceiverView, out: seq<Message>) {
    && r.delivered + r.buffered <= s.written
    && (r.intact ==> s.written == r.delivered + r.buffered + Payload(out))
  }

  /** Every byte of credit that exists for a direction: the right to send a byte, a
      byte on its way, a byte waiting to be read, or a byte read and being announced. */
  function Outstanding(s: SenderView, r: ReceiverView, out: seq<Message>, back: seq<Message>): nat {
    s.credit + |Payload(out)| + |r.buffered| + r.unannounced + Credit(back)
  }

  /** Credit is conserved at the receiver's window until something is discarded, and
      never exceeds it. */
  predicate CreditInv(window: nat, s: SenderView, r: ReceiverView, out: seq<Message>, back: seq<Message>) {
    var limit := if r.granted then window else 0;
    && Outstanding(s, r, out, back) <= limit
    && (s.intact && r.announcing ==> Outstanding(s, r, out, back) == limit)
  }

  predicate DirectionInv(role: Role, windows: Windows, s: SenderView, r: ReceiverView,
                         out: seq<Message>, back: seq<Message>) {
    && OrderInv(role, s, r, out)
    && FormInv(role, windows.Of(role), s, out)
    && DeliveryInv(s, r, out)
    && CreditInv(windows.Of(role.Peer()), s, r, out, back)
  }

  /** Everything an end has ever sent was in order. */
  predicate LogInv(role: Role, e: End) {
    AdvanceAll(role, Stage.Silent, e.log) == Some(e.sent)
  }

  predicate Inv(windows: Windows, l: Link) {
    && windows.Valid()
    && LogInv(Opener, l.opener)
    && LogInv(Acceptor, l.acceptor)
    && EndInv(Opener, l.opener)
    && EndInv(Acceptor, l.acceptor)
    && DirectionInv(Opener, windows, SendingOf(l.opener), ReceivingOf(l.acceptor), l.fromOpener, l.fromAcceptor)
    && DirectionInv(Acceptor, windows, SendingOf(l.acceptor), ReceivingOf(l.opener), l.fromAcceptor, l.fromOpener)
  }

  /** The invariant as one of the ends sees it: itself, its peer, what it has sent and what
      is coming. */
  predicate InvAt(windows: Windows, role: Role, e: End, peer: End, out: seq<Message>, back: seq<Message>) {
    && windows.Valid()
    && LogInv(role, e) && LogInv(role.Peer(), peer)
    && EndInv(role, e) && EndInv(role.Peer(), peer)
    && DirectionInv(role, windows, SendingOf(e), ReceivingOf(peer), out, back)
    && DirectionInv(role.Peer(), windows, SendingOf(peer), ReceivingOf(e), back, out)
  }

  lemma InvFromSide(windows: Windows, l: Link, role: Role)
    ensures InvAt(windows, role, l.At(role), l.At(role.Peer()), l.From(role), l.From(role.Peer())) <==> Inv(windows, l)
  {
    match role
    case Opener =>
    case Acceptor =>
  }

  predicate PositiveQueue(queue: seq<Message>) {
    forall i | 0 <= i < |queue| :: queue[i].Increment? ==> queue[i].amount > 0
  }

  predicate Positive(l: Link) {
    && PositiveInv(l.opener) && PositiveInv(l.acceptor)
    && PositiveQueue(l.fromOpener) && PositiveQueue(l.fromAcceptor)
  }
}
