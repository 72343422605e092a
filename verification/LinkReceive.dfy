/** The reader goroutine never finds fault with a conforming peer, and keeps every
    invariant of the link. */
module LinkReceive {
  import opened Wrappers
  import opened Messages
  import opened StreamEnd
  import opened Link

  // ----- No message is a violation -----
  //
  // `role` is the receiving end's role, `out` what is in flight to it.

  /** The facts about the two directions that the reader goroutine relies on. */
  predicate Expects(role: Role, windows: Windows, e: End, peer: End, out: seq<Message>, back: seq<Message>) {
    && windows.Valid()
    && EndInv(role, e)
    && EndInv(role.Peer(), peer)
    && DirectionInv(role.Peer(), windows, SendingOf(peer), ReceivingOf(e), out, back)
    && DirectionInv(role, windows, SendingOf(e), ReceivingOf(peer), back, out)
    && out != []
  }

  /** Data reaches an acceptor only after it has accepted. */
  lemma DataMeetsEstablishedEnd(role: Role, windows: Windows, e: End, peer: End,
                                out: seq<Message>, back: seq<Message>)
    requires Expects(role, windows, e, peer, out, back) && out[0].Data?
    requires e.Attached()
    ensures e.established
  {
    if role.Acceptor? {
      assert peer.established && peer.seen.Granted();
      GrantedIsStable(role, peer.seen, back);
    }
  }

  lemma {:induction false} HeadIsInOrder(sender: Role, seen: Stage, sent: Stage, out: seq<Message>)
    requires out != [] && AdvanceAll(sender, seen, out) == Some(sent)
    ensures Advance(sender, seen, out[0]).Some?
    ensures AdvanceAll(sender, Advance(sender, seen, out[0]).value, out[1..]) == Some(sent)
    ensures Payload(out) == (if out[0].Data? then out[0].block else []) + Payload(out[1..])
    ensures Credit(out) == Credit([out[0]]) + Credit(out[1..])
  {
    assert [out[0]][1..] == [];
  }

  lemma AcceptIsExpected(role: Role, windows: Windows, e: End, peer: End, out: seq<Message>, back: seq<Message>)
    requires Expects(role, windows, e, peer, out, back) && out[0].Accept? && e.Attached()
    ensures role.Opener? && e.sendWindow == 0 && !e.sendWindowReady && !e.WriterHoldsToken()
    ensures !e.established && !e.remoteClosed && !e.remoteClosedWrite
    ensures ReceiveAccept(e, out[0].window).Next?
  {
    HeadIsInOrder(role.Peer(), e.seen, peer.sent, out);
    assert out[0].window == windows.Of(role.Peer());
    assert Credit(out) >= windows.Of(role.Peer());
  }

  lemma DataIsExpected(role: Role, windows: Windows, e: End, peer: End, out: seq<Message>, back: seq<Message>)
    requires Expects(role, windows, e, peer, out, back) && out[0].Data? && e.Attached()
    ensures ReceiveData(e, out[0].block, windows.Of(role)).Next?
  {
    HeadIsInOrder(role.Peer(), e.seen, peer.sent, out);
    DataMeetsEstablishedEnd(role, windows, e, peer, out, back);
    assert |e.receiveBuffer| + |Payload(out)| <= windows.Of(role);
  }

  lemma IncrementIsExpected(role: Role, windows: Windows, e: End, peer: End, out: seq<Message>, back: seq<Message>)
    requires Expects(role, windows, e, peer, out, back) && out[0].Increment? && e.Attached()
    ensures ReceiveIncrement(role.Opener?, e, out[0].amount).Next?
  {
    HeadIsInOrder(role.Peer(), e.seen, peer.sent, out);
    assert e.sendWindow + Credit(out) <= windows.Of(role.Peer());
  }

  /** What the messages seen so far say about closes. */
  lemma ClosesFit(role: Role, e: End, m: Message)
    requires OriginInv(role, e) && SeenInv(role, e) && e.Attached() && Advance(role.Peer(), e.seen, m).Some?
    ensures m.CloseWrite? ==> ReceiveCloseWrite(role.Opener?, e).Next?
    ensures m.Close? ==> ReceiveClose(e).Next?
  {
  }

  lemma ClosesAreExpected(role: Role, windows: Windows, e: End, peer: End, out: seq<Message>, back: seq<Message>)
    requires Expects(role, windows, e, peer, out, back) && e.Attached()
    ensures out[0].CloseWrite? ==> ReceiveCloseWrite(role.Opener?, e).Next?
    ensures out[0].Close? ==> ReceiveClose(e).Next?
  {
    HeadIsInOrder(role.Peer(), e.seen, peer.sent, out);
    ClosesFit(role, e, out[0]);
  }

  /** The only complaint there can be is about an empty increment. */
  lemma NothingUnexpected(role: Role, windows: Windows, e: End, peer: End, out: seq<Message>, back: seq<Message>)
    requires Expects(role, windows, e, peer, out, back) && !out[0].Open? && e.lookedUp.Some?
    ensures
      var o := Receive(role.Opener?, windows.Of(role), e, out[0], e.lookedUp.value);
      if out[0].Increment? && out[0].amount == 0 then o == Violated(ZeroIncrement) else o.Next? && o.output.None?
  {
    assert out[0].Data? ==> |out[0].block| > 0;
    if e.lookedUp.value {
      match out[0]
      case Accept(_) => AcceptIsExpected(role, windows, e, peer, out, back);
      case Data(_) => DataIsExpected(role, windows, e, peer, out, back);
      case Increment(_) => IncrementIsExpected(role, windows, e, peer, out, back);
      case CloseWrite => ClosesAreExpected(role, windows, e, peer, out, back);
      case Close => ClosesAreExpected(role, windows, e, peer, out, back);
    }
  }

  // ----- Handling a message keeps the invariants -----

  /** The receiving end afterwards, as the two directions see it: what the message
      carries is either taken in, or lost to an end that is gone. */
  predicate Absorbs(sender: Role, s: SenderView, s': SenderView, r: ReceiverView, r': ReceiverView, m: Message) {
    && Advance(sender, r.seen, m) == Some(r'.seen)
    && (s'.intact ==> s.intact) && (r'.intact ==> r.intact) && (r'.announcing ==> r.announcing)
    && (s.established ==> s'.established)
    && s' == s.(established := s'.established, credit := s'.credit, intact := s'.intact)
    && r' == r.(seen := r'.seen, buffered := r'.buffered, intact := r'.intact, announcing := r'.announcing)
    && if r.intact && s.intact
       then s'.credit == s.credit + Credit([m]) && r'.buffered == r.buffered + Payload([m])
       else s'.credit == s.credit && r'.buffered == r.buffered && !r'.intact && !r'.announcing
  }

  lemma {:induction false} HeadAndTail(queue: seq<Message>)
    requires queue != []
    ensures Payload(queue) == Payload([queue[0]]) + Payload(queue[1..])
    ensures Credit(queue) == Credit([queue[0]]) + Credit(queue[1..])
  {
    assert [queue[0]][1..] == [];
  }

  lemma AbsorbingKeepsIncoming(sender: Role, windows: Windows, peer: SenderView, own: SenderView, own': SenderView,
                               r: ReceiverView, r': ReceiverView, out: seq<Message>, back: seq<Message>)
    requires out != [] && Absorbs(sender, own, own', r, r', out[0])
    requires own.intact == r.intact
    requires DirectionInv(sender, windows, peer, r, out, back)
    ensures DirectionInv(sender, windows, peer, r', out[1..], back)
  {
    HeadAndTail(out);
    if r.intact {
      var head, tail := Payload([out[0]]), Payload(out[1..]);
      assert (r.delivered + (r.buffered + head)) + tail == r.delivered + r.buffered + (head + tail);
    }
  }

  lemma AbsorbingKeepsOutgoing(sender: Role, windows: Windows, s: SenderView, s': SenderView,
                               own: ReceiverView, own': ReceiverView,
                               r: ReceiverView, m: Message, out: seq<Message>, back: seq<Message>)
    requires back != [] && m == back[0] && Absorbs(sender.Peer(), s, s', own, own', m)
    requires s.intact == own.intact
    requires DirectionInv(sender, windows, s, r, out, back)
    ensures DirectionInv(sender, windows, s', r, out, back[1..])
  {
    HeadAndTail(back);
  }

  lemma DiscardingKeepsEnd(role: Role, e: End, m: Message, stage: Stage)
    requires EndInv(role, e) && e.lookedUp == Some(false) && Advance(role.Peer(), e.seen, m) == Some(stage)
    requires !m.Open?
    ensures
      var e' := e.(lookedUp := None, seen := stage);
      EndInv(role, e') && Absorbs(role.Peer(), SendingOf(e), SendingOf(e'), ReceivingOf(e), ReceivingOf(e'), m)
  {
  }

  lemma AcceptKeepsEnd(role: Role, e: End, w: nat, stage: Stage)
    requires EndInv(role, e) && e.lookedUp == Some(true) && Advance(role.Peer(), e.seen, Accept(w)) == Some(stage)
    requires e.sendWindow == 0
    ensures EndInv(role, e.(sendWindow := w, sendWindowReady := w > 0, established := true,
                            lookedUp := None, seen := stage))
  {
  }

  lemma AcceptIsAbsorbed(role: Role, e: End, w: nat, stage: Stage)
    requires EndInv(role, e) && e.lookedUp == Some(true) && Advance(role.Peer(), e.seen, Accept(w)) == Some(stage)
    requires e.sendWindow == 0
    ensures
      var e' := e.(sendWindow := w, sendWindowReady := w > 0, established := true, lookedUp := None, seen := stage);
      Absorbs(role.Peer(), SendingOf(e), SendingOf(e'), ReceivingOf(e), ReceivingOf(e'), Accept(w))
  {
    assert [Accept(w)][1..] == [];
  }

  lemma DataKeepsEnd(role: Role, e: End, block: seq<Byte>, stage: Stage)
    requires EndInv(role, e) && e.lookedUp == Some(true) && Advance(role.Peer(), e.seen, Data(block)) == Some(stage)
    requires |block| > 0
    ensures EndInv(role, e.(receiveBuffer := e.receiveBuffer + block,
                     receiveBufferReady := e.receiveBufferReady || |e.receiveBuffer| == 0,
                     lookedUp := None, seen := stage))
  {
  }

  lemma DataIsAbsorbed(role: Role, e: End, block: seq<Byte>, stage: Stage)
    requires EndInv(role, e) && e.lookedUp == Some(true) && Advance(role.Peer(), e.seen, Data(block)) == Some(stage)
    requires |block| > 0
    ensures
      var e' := e.(receiveBuffer := e.receiveBuffer + block,
                     receiveBufferReady := e.receiveBufferReady || |e.receiveBuffer| == 0,
                     lookedUp := None, seen := stage);
      Absorbs(role.Peer(), SendingOf(e), SendingOf(e'), ReceivingOf(e), ReceivingOf(e'), Data(block))
  {
    assert [Data(block)][1..] == [];
  }

  lemma IncrementKeepsEnd(role: Role, e: End, n: nat, stage: Stage)
    requires EndInv(role, e) && e.lookedUp == Some(true) && Advance(role.Peer(), e.seen, Increment(n)) == Some(stage)
    requires n > 0
    ensures EndInv(role, e.(sendWindow := e.sendWindow + n,
                     sendWindowReady := e.sendWindowReady || e.sendWindow == 0, lookedUp := None, seen := stage))
  {
  }

  lemma IncrementIsAbsorbed(role: Role, e: End, n: nat, stage: Stage)
    requires EndInv(role, e) && e.lookedUp == Some(true) && Advance(role.Peer(), e.seen, Increment(n)) == Some(stage)
    requires n > 0
    ensures
      var e' := e.(sendWindow := e.sendWindow + n,
                     sendWindowReady := e.sendWindowReady || e.sendWindow == 0, lookedUp := None, seen := stage);
      Absorbs(role.Peer(), SendingOf(e), SendingOf(e'), ReceivingOf(e), ReceivingOf(e'), Increment(n))
  {
    assert [Increment(n)][1..] == [];
  }

  lemma CloseWriteKeepsEnd(role: Role, e: End, stage: Stage)
    requires EndInv(role, e) && e.lookedUp == Some(true) && Advance(role.Peer(), e.seen, CloseWrite) == Some(stage)
    ensures EndInv(role, e.(remoteClosedWrite := true, lookedUp := None, seen := stage))
  {
  }

  lemma CloseWriteIsAbsorbed(role: Role, e: End, stage: Stage)
    requires EndInv(role, e) && e.lookedUp == Some(true) && Advance(role.Peer(), e.seen, CloseWrite) == Some(stage)
    ensures
      var e' := e.(remoteClosedWrite := true, lookedUp := None, seen := stage);
      Absorbs(role.Peer(), SendingOf(e), SendingOf(e'), ReceivingOf(e), ReceivingOf(e'), CloseWrite)
  {
    assert [CloseWrite][1..] == [];
  }

  lemma CloseKeepsEnd(role: Role, e: End, stage: Stage)
    requires EndInv(role, e) && e.lookedUp == Some(true) && Advance(role.Peer(), e.seen, Close) == Some(stage)
    ensures EndInv(role, e.(remoteClosed := true, lookedUp := None, seen := stage))
  {
  }

  lemma CloseIsAbsorbed(role: Role, e: End, stage: Stage)
    requires EndInv(role, e) && e.lookedUp == Some(true) && Advance(role.Peer(), e.seen, Close) == Some(stage)
    ensures
      var e' := e.(remoteClosed := true, lookedUp := None, seen := stage);
      Absorbs(role.Peer(), SendingOf(e), SendingOf(e'), ReceivingOf(e), ReceivingOf(e'), Close)
  {
    assert [Close][1..] == [];
  }

  /** The receiving end after a message that was found to belong to it. */
  function Recorded(e: End, m: Message, stage: Stage): End {
    match m
    case Open(_) => e
    case Accept(w) =>
      e.(sendWindow := w, sendWindowReady := w > 0, established := true, lookedUp := None, seen := stage)
    case Data(block) =>
      e.(receiveBuffer := e.receiveBuffer + block,
         receiveBufferReady := e.receiveBufferReady || |e.receiveBuffer| == 0, lookedUp := None, seen := stage)
    case Increment(n) =>
      e.(sendWindow := e.sendWindow + n,
         sendWindowReady := e.sendWindowReady || e.sendWindow == 0, lookedUp := None, seen := stage)
    case CloseWrite => e.(remoteClosedWrite := true, lookedUp := None, seen := stage)
    case Close => e.(remoteClosed := true, lookedUp := None, seen := stage)
  }

  lemma RecordingKeepsEndInv(role: Role, e: End, m: Message, stage: Stage)
    requires EndInv(role, e) && e.lookedUp == Some(true) && Advance(role.Peer(), e.seen, m) == Some(stage)
    requires !m.Open?
    requires m.Accept? ==> e.sendWindow == 0
    requires m.Data? ==> |m.block| > 0
    requires m.Increment? ==> m.amount > 0
    ensures EndInv(role, Recorded(e, m, stage))
  {
    match m
    case Accept(w) => AcceptKeepsEnd(role, e, w, stage);
    case Data(block) => DataKeepsEnd(role, e, block, stage);
    case Increment(n) => IncrementKeepsEnd(role, e, n, stage);
    case CloseWrite => CloseWriteKeepsEnd(role, e, stage);
    case Close => CloseKeepsEnd(role, e, stage);
  }

  lemma RecordingIsAbsorbed(role: Role, e: End, m: Message, stage: Stage)
    requires EndInv(role, e) && e.lookedUp == Some(true) && Advance(role.Peer(), e.seen, m) == Some(stage)
    requires !m.Open?
    requires m.Accept? ==> e.sendWindow == 0
    requires m.Data? ==> |m.block| > 0
    requires m.Increment? ==> m.amount > 0
    ensures
      var e' := Recorded(e, m, stage);
      Absorbs(role.Peer(), SendingOf(e), SendingOf(e'), ReceivingOf(e), ReceivingOf(e'), m)
  {
    match m
    case Accept(w) => AcceptIsAbsorbed(role, e, w, stage);
    case Data(block) => DataIsAbsorbed(role, e, block, stage);
    case Increment(n) => IncrementIsAbsorbed(role, e, n, stage);
    case CloseWrite => CloseWriteIsAbsorbed(role, e, stage);
    case Close => CloseIsAbsorbed(role, e, stage);
  }

  /** What the reader goroutine's code for a message amounts to. */
  lemma ReceivingRecords(sender: Role, outbound: bool, window: nat, e: End, m: Message, stage: Stage)
    requires !m.Open? && Receive(outbound, window, e, m, true).Next?
    requires m.Accept? ==> !e.sendWindowReady
    requires Advance(sender, e.seen, m) == Some(stage)
    ensures Settle(sender, Receive(outbound, window, e, m, true).end, m) == Recorded(e, m, stage)
  {
    match m
    case Accept(w) => AcceptRecords(sender, outbound, window, e, w);
    case Data(block) => assert Receive(outbound, window, e, m, true) == ReceiveData(e, block, window);
    case Increment(n) => assert Receive(outbound, window, e, m, true) == ReceiveIncrement(outbound, e, n);
    case CloseWrite => ClosesRecord(sender, outbound, window, e, m);
    case Close => ClosesRecord(sender, outbound, window, e, m);
  }

  lemma AcceptRecords(sender: Role, outbound: bool, window: nat, e: End, w: nat)
    requires Receive(outbound, window, e, Accept(w), true).Next? && !e.sendWindowReady
    requires Advance(sender, e.seen, Accept(w)).Some?
    ensures
      Settle(sender, Receive(outbound, window, e, Accept(w), true).end, Accept(w)) ==
      Recorded(e, Accept(w), Advance(sender, e.seen, Accept(w)).value)
  {
    assert Receive(outbound, window, e, Accept(w), true) == ReceiveAccept(e, w);
  }

  lemma ClosesRecord(sender: Role, outbound: bool, window: nat, e: End, m: Message)
    requires (m.CloseWrite? || m.Close?) && Receive(outbound, window, e, m, true).Next?
    requires Advance(sender, e.seen, m).Some?
    ensures
      Settle(sender, Receive(outbound, window, e, m, true).end, m) == Recorded(e, m, Advance(sender, e.seen, m).value)
  {
    if m.Close? {
      assert Receive(outbound, window, e, m, true) == ReceiveClose(e);
    } else {
      assert Receive(outbound, window, e, m, true) == ReceiveCloseWrite(outbound, e);
    }
  }

  lemma FoundKeepsEnd(role: Role, window: nat, e: End, m: Message, stage: Stage)
    requires EndInv(role, e) && e.lookedUp == Some(true) && Advance(role.Peer(), e.seen, m) == Some(stage)
    requires !m.Open? && Receive(role.Opener?, window, e, m, true).Next?
    requires m.Accept? ==> e.sendWindow == 0 && !e.sendWindowReady
    requires m.Data? ==> |m.block| > 0
    requires m.Increment? ==> m.amount > 0
    ensures
      var e' := Settle(role.Peer(), Receive(role.Opener?, window, e, m, true).end, m);
      EndInv(role, e') && Absorbs(role.Peer(), SendingOf(e), SendingOf(e'), ReceivingOf(e), ReceivingOf(e'), m)
  {
    ReceivingRecords(role.Peer(), role.Opener?, window, e, m, stage);
    RecordingKeepsEndInv(role, e, m, stage);
    RecordingIsAbsorbed(role, e, m, stage);
  }

  lemma FoundIsHandled(role: Role, windows: Windows, e: End, peer: End, out: seq<Message>, back: seq<Message>)
    requires Expects(role, windows, e, peer, out, back) && !out[0].Open? && e.lookedUp == Some(true)
    requires out[0].Increment? ==> out[0].amount > 0
    requires Receive(role.Opener?, windows.Of(role), e, out[0], true).Next?
    ensures
      var e' := Settle(role.Peer(), Receive(role.Opener?, windows.Of(role), e, out[0], true).end, out[0]);
      EndInv(role, e') && Absorbs(role.Peer(), SendingOf(e), SendingOf(e'), ReceivingOf(e), ReceivingOf(e'), out[0])
  {
    HeadIsInOrder(role.Peer(), e.seen, peer.sent, out);
    if out[0].Accept? {
      AcceptIsExpected(role, windows, e, peer, out, back);
    }
    FoundKeepsEnd(role, windows.Of(role), e, out[0], Advance(role.Peer(), e.seen, out[0]).value);
  }

  /** Handling any message but open, as one step of the receiving end. */
  lemma HandlingKeepsEnd(role: Role, windows: Windows, e: End, peer: End, out: seq<Message>, back: seq<Message>)
    requires Expects(role, windows, e, peer, out, back) && !out[0].Open? && e.lookedUp.Some?
    requires out[0].Increment? ==> out[0].amount > 0
    ensures
      var o := Receive(role.Opener?, windows.Of(role), e, out[0], e.lookedUp.value);
      && o.Next?
      && var e' := Settle(role.Peer(), o.end, out[0]);
         EndInv(role, e') && Absorbs(role.Peer(), SendingOf(e), SendingOf(e'), ReceivingOf(e), ReceivingOf(e'), out[0])
  {
    NothingUnexpected(role, windows, e, peer, out, back);
    if e.lookedUp.value {
      FoundIsHandled(role, windows, e, peer, out, back);
    } else {
      HeadIsInOrder(role.Peer(), e.seen, peer.sent, out);
      DiscardingKeepsEnd(role, e, out[0], Advance(role.Peer(), e.seen, out[0]).value);
    }
  }

  /** An open message arrives at an end that does not exist yet. */
  lemma OpenIsExpected(windows: Windows, e: End, peer: End, out: seq<Message>, back: seq<Message>)
    requires Expects(Acceptor, windows, e, peer, out, back) && out[0].Open?
    ensures e.origin.Absent? && out[0].window == windows.opener
  {
    HeadIsInOrder(Opener, e.seen, peer.sent, out);
  }

  lemma OpenKeepsEnd(e: End, window: nat, backlogFull: bool)
    requires EndInv(Acceptor, e) && e.origin.Absent?
    ensures ReceiveOpen(e, window, backlogFull).Next?
    ensures EndInv(Acceptor, Settle(Opener, ReceiveOpen(e, window, backlogFull).end, Open(window)))
  {
  }

  lemma OpenIsAbsorbed(e: End, window: nat, backlogFull: bool)
    requires EndInv(Acceptor, e) && e.origin.Absent?
    ensures
      var e' := Settle(Opener, ReceiveOpen(e, window, backlogFull).end, Open(window));
      AbsorbsOpen(SendingOf(e), SendingOf(e'), ReceivingOf(e), ReceivingOf(e'), window, backlogFull)
  {
  }

  /** The acceptor's directions when an open message arrives. */
  predicate AbsorbsOpen(s: SenderView, s': SenderView, r: ReceiverView, r': ReceiverView, window: nat, rejected: bool) {
    && s.sent.Silent? && r.seen.Silent? && r'.seen.Live? && s.intact && r.intact && !r.granted
    && s' == s.(credit := if rejected then s.credit else s.credit + window, intact := !rejected)
    && r' == r.(seen := r'.seen, intact := !rejected, announcing := !rejected)
  }

  lemma OpenKeepsDirections(windows: Windows, peer: SenderView, peerR: ReceiverView, s: SenderView, s': SenderView,
                            r: ReceiverView, r': ReceiverView, rejected: bool, out: seq<Message>, back: seq<Message>)
    requires out != [] && out[0] == Open(windows.opener)
    requires AbsorbsOpen(s, s', r, r', windows.opener, rejected)
    requires DirectionInv(Opener, windows, peer, r, out, back)
    requires DirectionInv(Acceptor, windows, s, peerR, back, out)
    ensures DirectionInv(Opener, windows, peer, r', out[1..], back)
    ensures DirectionInv(Acceptor, windows, s', peerR, back, out[1..])
  {
    HeadAndTail(out);
    assert [out[0]][1..] == [];
  }

  // ----- The steps of a whole link -----

  /** A message other than open finds that its stream has existed. */
  lemma MessageMeetsKnownStream(role: Role, windows: Windows, e: End, peer: End, out: seq<Message>, back: seq<Message>)
    requires Expects(role, windows, e, peer, out, back) && !out[0].Open?
    ensures !e.origin.Absent?
  {
    HeadIsInOrder(role.Peer(), e.seen, peer.sent, out);
    GrantedIsStable(role.Peer(), e.seen, out);
    GrantedIsStable(role, peer.seen, back);
  }

  lemma LookingUpKeepsEnd(role: Role, e: End)
    requires EndInv(role, e) && !e.origin.Absent? && e.lookedUp.None?
    ensures
      var e' := e.(lookedUp := Some(e.registered));
      EndInv(role, e') && SendingOf(e') == SendingOf(e) && ReceivingOf(e') == ReceivingOf(e)
  {
    var e' := e.(lookedUp := Some(e.registered));
    assert e'.Attached() == e.Attached();
    LookingUpKeepsBookkeeping(role, e);
  }

  lemma LookingUpKeepsBookkeeping(role: Role, e: End)
    requires EndInv(role, e) && !e.origin.Absent? && e.lookedUp.None?
    ensures
      var e' := e.(lookedUp := Some(e.registered));
      OriginInv(role, e') && SeenInv(role, e')
  {
  }

  lemma LookingUpKeepsInv(windows: Windows, l: Link, role: Role)
    requires Inv(windows, l) && Enables(l, LookUp(role))
    ensures Inv(windows, Do(windows, l, LookUp(role)).link)
  {
    InvFromSide(windows, l, role);
    MessageMeetsKnownStream(role, windows, l.At(role), l.At(role.Peer()), l.From(role.Peer()), l.From(role));
    LookingUpKeepsEnd(role, l.At(role));
    InvFromSide(windows, Do(windows, l, LookUp(role)).link, role);
  }

  lemma HandlingKeepsInvAt(windows: Windows, role: Role, e: End, peer: End, out: seq<Message>, back: seq<Message>)
    requires InvAt(windows, role, e, peer, back, out) && out != [] && !out[0].Open? && e.lookedUp.Some?
    requires out[0].Increment? ==> out[0].amount > 0
    ensures
      var o := Receive(role.Opener?, windows.Of(role), e, out[0], e.lookedUp.value);
      o.Next? && InvAt(windows, role, Settle(role.Peer(), o.end, out[0]), peer, back, out[1..])
  {
    HandlingKeepsEnd(role, windows, e, peer, out, back);
    var e' := Settle(role.Peer(), Receive(role.Opener?, windows.Of(role), e, out[0], e.lookedUp.value).end, out[0]);
    AbsorbingKeepsIncoming(role.Peer(), windows, SendingOf(peer), SendingOf(e), SendingOf(e'),
                           ReceivingOf(e), ReceivingOf(e'), out, back);
    AbsorbingKeepsOutgoing(role, windows, SendingOf(e), SendingOf(e'), ReceivingOf(e), ReceivingOf(e'),
                           ReceivingOf(peer), out[0], back, out);
  }

  lemma HandlingKeepsInv(windows: Windows, l: Link, role: Role)
    requires Inv(windows, l) && Enables(l, Handle(role))
    requires l.From(role.Peer())[0].Increment? ==> l.From(role.Peer())[0].amount > 0
    ensures Do(windows, l, Handle(role)).Stepped?
    ensures Inv(windows, Do(windows, l, Handle(role)).link)
  {
    InvFromSide(windows, l, role);
    HandlingFromSide(windows, l, role);
  }

  lemma HandlingFromSide(windows: Windows, l: Link, role: Role)
    requires InvAt(windows, role, l.At(role), l.At(role.Peer()), l.From(role), l.From(role.Peer()))
    requires Enables(l, Handle(role))
    requires l.From(role.Peer())[0].Increment? ==> l.From(role.Peer())[0].amount > 0
    ensures Do(windows, l, Handle(role)).Stepped?
    ensures Inv(windows, Do(windows, l, Handle(role)).link)
  {
    var e := l.At(role);
    HandlingKeepsInvAt(windows, role, e, l.At(role.Peer()), l.From(role.Peer()), l.From(role));
    TakingKeepsInv(windows, l, role,
                   Receive(role.Opener?, windows.Of(role), e, l.From(role.Peer())[0], e.lookedUp.value));
  }

  lemma TakingKeepsInv(windows: Windows, l: Link, role: Role, o: StreamEnd.Outcome)
    requires o.Next? && l.From(role.Peer()) != []
    requires
      InvAt(windows, role, Settle(role.Peer(), o.end, l.From(role.Peer())[0]), l.At(role.Peer()),
            l.From(role), l.From(role.Peer())[1..])
    ensures Take(l, role, o).Stepped? && Inv(windows, Take(l, role, o).link)
  {
    InvFromSide(windows, Take(l, role, o).link, role);
  }

  lemma HandlingOpenKeepsInv(windows: Windows, l: Link, backlogFull: bool)
    requires Inv(windows, l) && Enables(l, HandleOpen(backlogFull))
    ensures Do(windows, l, HandleOpen(backlogFull)).Stepped?
    ensures Inv(windows, Do(windows, l, HandleOpen(backlogFull)).link)
  {
    var e, peer, out, back := l.acceptor, l.opener, l.fromOpener, l.fromAcceptor;
    OpenIsExpected(windows, e, peer, out, back);
    OpenKeepsEnd(e, windows.opener, backlogFull);
    OpenIsAbsorbed(e, windows.opener, backlogFull);
    var e' := Settle(Opener, ReceiveOpen(e, windows.opener, backlogFull).end, Open(windows.opener));
    OpenKeepsDirections(windows, SendingOf(peer), ReceivingOf(peer), SendingOf(e), SendingOf(e'),
                        ReceivingOf(e), ReceivingOf(e'), backlogFull, out, back);
  }
}
