/** One end of a stream facing a peer that may send anything: the reader goroutine takes in
    exactly the messages that the protocol allows. */
module Monitor {
  import opened Wrappers
  import opened Messages
  import opened StreamEnd
  import opened Link
  import LinkLocal
  import LinkReceive
  import LinkTheorems

  /** `heard` is what the peer has sent to this end and has been taken in. */
  datatype Watch = Watch(end: End, heard: seq<Message>)

  datatype Event =
    | Acts(action: Action)
    | Opens(window: nat, backlogFull: bool)
    | LooksUp
    | Hears(message: Message)

  /** Messages carry 64-bit numbers. */
  predicate Decodable(m: Message) {
    && (m.Accept? ==> m.window <= MAX_UINT64)
    && (m.Increment? ==> m.amount <= MAX_UINT64)
  }

  /** The identifier of a message has been checked before the stream is looked up: it has been
      allocated or opened, and an accept message is for a stream that this end opened. */
  predicate Can(role: Role, w: Watch, event: Event) {
    match event
    case Acts(a) => Enabled(role, w.end, a)
    case Opens(_, _) => role.Acceptor? && w.end.origin.Absent?
    case LooksUp => !w.end.origin.Absent? && w.end.lookedUp.None?
    case Hears(m) => !m.Open? && (m.Accept? ==> role.Opener?) && Decodable(m) && w.end.lookedUp.Some?
  }

  function Settled(sender: Role, o: StreamEnd.Outcome, m: Message, heard: seq<Message>): Option<Watch> {
    if o.Violated? then None else Some(Watch(Settle(sender, o.end, m), heard))
  }

  /** `None` when the event is a violation. */
  function Happens(role: Role, window: nat, w: Watch, event: Event): Option<Watch>
    requires Can(role, w, event)
  {
    match event
    case Acts(a) =>
      var o := Local(role, window, w.end, a);
      if o.Violated? then None else Some(w.(end := o.end))
    case Opens(size, full) =>
      Settled(role.Peer(), ReceiveOpen(w.end, size, full), Open(size), w.heard + [Open(size)])
    case LooksUp => Some(w.(end := w.end.(lookedUp := Some(w.end.registered))))
    case Hears(m) =>
      var found := w.end.lookedUp.value;
      Settled(role.Peer(), Receive(role.Opener?, window, w.end, m, found), m,
              if found then w.heard + [m] else w.heard)
  }

  // ----- The protocol -----

  /** What the peer may send to an end that is registered: the next message in the wire order,
      never an empty one, data only to an end that has been established and only as much as
      its window has room for, and no more credit than 64 bits can hold. */
  predicate Legal(role: Role, window: nat, e: End, m: Message) {
    && Advance(role.Peer(), e.seen, m).Some?
    && (m.Data? ==> 1 <= |m.block| && |e.receiveBuffer| + |m.block| <= window && e.established)
    && (m.Increment? ==> 1 <= m.amount && e.sendWindow + m.amount <= MAX_UINT64)
  }

  /** Messages for a stream that is gone are only checked for being empty. */
  predicate Empty(m: Message) { (m.Data? && m.block == []) || (m.Increment? && m.amount == 0) }

  predicate Acceptable(role: Role, window: nat, w: Watch, event: Event)
    requires Can(role, w, event)
  {
    event.Hears? ==>
      if w.end.lookedUp.value then Legal(role, window, w.end, event.message) else !Empty(event.message)
  }

  /** What has been taken in agrees with what the peer has sent. */
  predicate HeardInv(role: Role, window: nat, s: SenderView, r: ReceiverView, heard: seq<Message>) {
    && AdvanceAll(role.Peer(), Stage.Silent, heard).Some?
    && (r.intact ==> AdvanceAll(role.Peer(), Stage.Silent, heard) == Some(r.seen))
    && r.delivered + r.buffered == Payload(heard)
    && |r.buffered| <= window
    && (role.Opener? && !s.established ==> s.credit == 0)
  }

  predicate WatchInv(role: Role, window: nat, w: Watch) {
    && EndInv(role, w.end) && LogInv(role, w.end)
    && HeardInv(role, window, SendingOf(w.end), ReceivingOf(w.end), w.heard)
  }

  // ----- The reader goroutine tells legal messages from others -----

  lemma AcceptIsExact(role: Role, window: nat, e: End, w: nat)
    requires EndInv(role, e) && e.lookedUp == Some(true) && role.Opener? && (!e.established ==> e.sendWindow == 0)
    ensures ReceiveAccept(e, w).Next? <==> Legal(role, window, e, Accept(w))
  {
  }

  lemma DataIsExact(role: Role, window: nat, e: End, block: seq<Byte>)
    requires EndInv(role, e) && e.lookedUp == Some(true) && block != []
    ensures ReceiveData(e, block, window).Next? <==> Legal(role, window, e, Data(block))
  {
  }

  lemma IncrementIsExact(role: Role, window: nat, e: End, amount: nat)
    requires EndInv(role, e) && e.lookedUp == Some(true) && 0 < amount <= MAX_UINT64
    ensures ReceiveIncrement(role.Opener?, e, amount).Next? <==> Legal(role, window, e, Increment(amount))
  {
  }

  lemma CloseWriteIsExact(role: Role, window: nat, e: End)
    requires EndInv(role, e) && e.lookedUp == Some(true)
    ensures ReceiveCloseWrite(role.Opener?, e).Next? <==> Legal(role, window, e, CloseWrite)
  {
  }

  lemma CloseIsExact(role: Role, window: nat, e: End)
    requires EndInv(role, e) && e.lookedUp == Some(true)
    ensures ReceiveClose(e).Next? <==> Legal(role, window, e, Close)
  {
  }

  lemma ReaderIsExact(role: Role, window: nat, e: End, m: Message)
    requires EndInv(role, e) && e.lookedUp == Some(true) && (role.Opener? && !e.established ==> e.sendWindow == 0)
    requires !m.Open? && (m.Accept? ==> role.Opener?) && Decodable(m)
    ensures Receive(role.Opener?, window, e, m, true).Next? <==> Legal(role, window, e, m)
  {
    if !Empty(m) {
      match m
      case Accept(w) => AcceptIsExact(role, window, e, w);
      case Data(block) => DataIsExact(role, window, e, block);
      case Increment(amount) => IncrementIsExact(role, window, e, amount);
      case CloseWrite => CloseWriteIsExact(role, window, e);
      case Close => CloseIsExact(role, window, e);
    }
  }

  // ----- Every event keeps the invariant -----

  lemma EffectKeepsHeard(role: Role, window: nat, e: End, e': End, output: Option<Message>, heard: seq<Message>)
    requires LinkLocal.Effect(role, window, e, e', output)
    requires HeardInv(role, window, SendingOf(e), ReceivingOf(e), heard)
    ensures HeardInv(role, window, SendingOf(e'), ReceivingOf(e'), heard)
  {
    var s, s', r, r' := SendingOf(e), SendingOf(e'), ReceivingOf(e), ReceivingOf(e');
    if output.None? && LinkLocal.Consumes(s, s', r, r') {
      LinkLocal.MoveAcross(r.delivered, r.buffered, r'.unannounced - r.unannounced);
    }
  }

  lemma ActingKeepsInv(role: Role, window: nat, w: Watch, a: Action)
    requires WatchInv(role, window, w) && Enabled(role, w.end, a)
    ensures Local(role, window, w.end, a).Next?
    ensures WatchInv(role, window, w.(end := Local(role, window, w.end, a).end))
  {
    LinkLocal.ActKeepsEnd(role, window, w.end, a);
    var o := Local(role, window, w.end, a);
    EffectKeepsHeard(role, window, w.end, o.end, o.output, w.heard);
    LinkLocal.EffectKeepsLog(role, window, w.end, o.end, o.output);
  }

  lemma AbsorbingKeepsHeard(role: Role, window: nat, s: SenderView, s': SenderView,
                            r: ReceiverView, r': ReceiverView, heard: seq<Message>, m: Message)
    requires LinkReceive.Absorbs(role.Peer(), s, s', r, r', m) && r.intact && s.intact
    requires HeardInv(role, window, s, r, heard) && |r'.buffered| <= window
    requires role.Opener? && !s'.established ==> Credit([m]) == 0
    ensures HeardInv(role, window, s', r', heard + [m])
  {
    AdvanceAllAppend(role.Peer(), Stage.Silent, heard, m);
    PayloadAppend(heard, m);
    assert [m][1..] == [];
    LinkReceive.HeadAndTail([m]);
    assert r.delivered + (r.buffered + Payload([m])) == (r.delivered + r.buffered) + Payload([m]);
  }

  lemma HearingKeepsEnd(role: Role, window: nat, e: End, m: Message)
    requires EndInv(role, e) && e.lookedUp == Some(true) && (role.Opener? && !e.established ==> e.sendWindow == 0)
    requires !m.Open? && Decodable(m) && Legal(role, window, e, m)
    ensures Receive(role.Opener?, window, e, m, true).Next?
    ensures
      var e' := Settle(role.Peer(), Receive(role.Opener?, window, e, m, true).end, m);
      && EndInv(role, e')
      && LinkReceive.Absorbs(role.Peer(), SendingOf(e), SendingOf(e'), ReceivingOf(e), ReceivingOf(e'), m)
  {
    ReaderIsExact(role, window, e, m);
    AcceptFindsNoCredit(role, e, m);
    LinkReceive.FoundKeepsEnd(role, window, e, m, Advance(role.Peer(), e.seen, m).value);
  }

  /** The message is taken in: its data joins the buffer and its credit the window. */
  lemma HearingKeepsInv(role: Role, window: nat, w: Watch, m: Message)
    requires WatchInv(role, window, w) && Can(role, w, Hears(m)) && w.end.lookedUp.value
    requires Legal(role, window, w.end, m)
    ensures Receive(role.Opener?, window, w.end, m, true).Next?
    ensures
      var e' := Settle(role.Peer(), Receive(role.Opener?, window, w.end, m, true).end, m);
      WatchInv(role, window, Watch(e', w.heard + [m]))
  {
    var e := w.end;
    HearingKeepsEnd(role, window, e, m);
    HearingIsBounded(role, window, e, m);
    DataIsBounded(role, window, e, m);
    var e' := Settle(role.Peer(), Receive(role.Opener?, window, e, m, true).end, m);
    AbsorbingKeepsHeard(role, window, SendingOf(e), SendingOf(e'), ReceivingOf(e), ReceivingOf(e'), w.heard, m);
  }

  lemma AcceptFindsNoCredit(role: Role, e: End, m: Message)
    requires EndInv(role, e) && e.lookedUp == Some(true) && Advance(role.Peer(), e.seen, m).Some?
    requires role.Opener? && !e.established ==> e.sendWindow == 0
    ensures m.Accept? ==> e.sendWindow == 0 && !e.sendWindowReady
  {
  }

  lemma DataIsBounded(role: Role, window: nat, e: End, m: Message)
    requires Legal(role, window, e, m) && |e.receiveBuffer| <= window
    ensures |e.receiveBuffer| + |Payload([m])| <= window
  {
    assert [m][1..] == [];
  }

  lemma CreditIsForEstablished(role: Role, e: End, m: Message)
    requires SeenInv(role, e) && e.lookedUp == Some(true) && role.Opener? && Advance(role.Peer(), e.seen, m).Some?
    requires !e.established
    ensures m.Accept? || Credit([m]) == 0
  {
    assert [m][1..] == [];
  }

  lemma AcceptEstablishes(e: End, window: nat, m: Message)
    requires m.Accept? && Receive(true, window, e, m, true).Next?
    ensures Receive(true, window, e, m, true).end.established
  {
    assert Receive(true, window, e, m, true) == ReceiveAccept(e, m.window);
  }

  lemma HearingIsBounded(role: Role, window: nat, e: End, m: Message)
    requires EndInv(role, e) && e.lookedUp == Some(true)
    requires !m.Open? && Legal(role, window, e, m) && |e.receiveBuffer| <= window
    requires Receive(role.Opener?, window, e, m, true).Next?
    ensures
      var e' := Settle(role.Peer(), Receive(role.Opener?, window, e, m, true).end, m);
      && e'.log == e.log && e'.sent == e.sent
      && (role.Opener? && !e.established && !e'.established ==> Credit([m]) == 0)
  {
    if role.Opener? && !e.established {
      CreditIsForEstablished(role, e, m);
      if m.Accept? { AcceptEstablishes(e, window, m); }
    }
  }

  /** The message is for a stream that is gone. */
  lemma DiscardingKeepsInv(role: Role, window: nat, w: Watch, m: Message)
    requires WatchInv(role, window, w) && !m.Open? && w.end.lookedUp == Some(false)
    ensures WatchInv(role, window, w.(end := Settle(role.Peer(), w.end, m)))
  {
    var e, stage := w.end, Advance(role.Peer(), w.end.seen, m);
    if stage.Some? {
      LinkReceive.DiscardingKeepsEnd(role, e, m, stage.value);
    } else {
      ForgettingKeepsEnd(role, e);
    }
  }

  lemma ForgettingKeepsEnd(role: Role, e: End)
    requires EndInv(role, e) && e.lookedUp == Some(false)
    ensures
      var e' := e.(lookedUp := None);
      EndInv(role, e') && SendingOf(e') == SendingOf(e) && ReceivingOf(e') == ReceivingOf(e)
  {
    var e' := e.(lookedUp := None);
    assert e'.Attached() == e.Attached();
  }

  lemma OpeningKeepsInv(window: nat, w: Watch, size: nat, full: bool)
    requires WatchInv(Acceptor, window, w) && w.end.origin.Absent?
    ensures ReceiveOpen(w.end, size, full).Next?
    ensures
      var e' := Settle(Opener, ReceiveOpen(w.end, size, full).end, Open(size));
      WatchInv(Acceptor, window, Watch(e', w.heard + [Open(size)]))
  {
    LinkReceive.OpenKeepsEnd(w.end, size, full);
    LinkReceive.OpenIsAbsorbed(w.end, size, full);
    AdvanceAllAppend(Opener, Stage.Silent, w.heard, Open(size));
    PayloadAppend(w.heard, Open(size));
  }

  lemma LookingUpKeepsInv(role: Role, window: nat, w: Watch)
    requires WatchInv(role, window, w) && !w.end.origin.Absent? && w.end.lookedUp.None?
    ensures WatchInv(role, window, w.(end := w.end.(lookedUp := Some(w.end.registered))))
  {
    LinkReceive.LookingUpKeepsEnd(role, w.end);
  }

  lemma HearingIsExact(role: Role, window: nat, w: Watch, m: Message)
    requires WatchInv(role, window, w) && Can(role, w, Hears(m))
    ensures Happens(role, window, w, Hears(m)).Some? <==> Acceptable(role, window, w, Hears(m))
    ensures
      Acceptable(role, window, w, Hears(m)) ==> WatchInv(role, window, Happens(role, window, w, Hears(m)).value)
  {
    if !w.end.lookedUp.value {
      DiscardingKeepsInv(role, window, w, m);
    } else if Legal(role, window, w.end, m) {
      HearingKeepsInv(role, window, w, m);
    } else {
      IllegalIsRefused(role, window, w, m);
    }
  }

  lemma IllegalIsRefused(role: Role, window: nat, w: Watch, m: Message)
    requires WatchInv(role, window, w) && Can(role, w, Hears(m)) && w.end.lookedUp.value
    requires !Legal(role, window, w.end, m)
    ensures Receive(role.Opener?, window, w.end, m, true).Violated?
  {
    ReaderIsExact(role, window, w.end, m);
  }

  /** An event is a violation exactly when it is a message that the protocol does not allow. */
  lemma StepIsExact(role: Role, window: nat, w: Watch, event: Event)
    requires WatchInv(role, window, w) && Can(role, w, event)
    ensures Happens(role, window, w, event).Some? <==> Acceptable(role, window, w, event)
    ensures Acceptable(role, window, w, event) ==> WatchInv(role, window, Happens(role, window, w, event).value)
  {
    match event
    case Acts(a) => ActingKeepsInv(role, window, w, a);
    case Opens(size, full) => OpeningKeepsInv(window, w, size, full);
    case LooksUp => LookingUpKeepsInv(role, window, w);
    case Hears(m) => HearingIsExact(role, window, w, m);
  }

  // ----- Runs -----

  predicate Possible(role: Role, window: nat, w: Watch, events: seq<Event>)
    decreases |events|
  {
    events == [] ||
    (Can(role, w, events[0]) &&
     var next := Happens(role, window, w, events[0]);
     (next.Some? ==> Possible(role, window, next.value, events[1..])))
  }

  /** The state after all events, unless one of them is a violation. */
  function Run(role: Role, window: nat, w: Watch, events: seq<Event>): Option<Watch>
    requires Possible(role, window, w, events)
    decreases |events|
  {
    if events == [] then Some(w)
    else
      var next := Happens(role, window, w, events[0]);
      if next.None? then None else Run(role, window, next.value, events[1..])
  }

  /** Every message is allowed when its turn comes. */
  predicate Conforming(role: Role, window: nat, w: Watch, events: seq<Event>)
    requires Possible(role, window, w, events)
    decreases |events|
  {
    events == [] ||
    (Acceptable(role, window, w, events[0]) &&
     var next := Happens(role, window, w, events[0]);
     (next.Some? ==> Conforming(role, window, next.value, events[1..])))
  }

  lemma {:induction false} RunIsExact(role: Role, window: nat, w: Watch, events: seq<Event>)
    requires WatchInv(role, window, w) && Possible(role, window, w, events)
    ensures Run(role, window, w, events).Some? <==> Conforming(role, window, w, events)
    ensures Run(role, window, w, events).Some? ==> WatchInv(role, window, Run(role, window, w, events).value)
    decreases |events|
  {
    if events != [] {
      StepIsExact(role, window, w, events[0]);
      var next := Happens(role, window, w, events[0]);
      if next.Some? { RunIsExact(role, window, next.value, events[1..]); }
    }
  }

  const NEW := Watch(FRESH, [])

  lemma NewInv(role: Role, window: nat)
    ensures WatchInv(role, window, NEW)
  {
  }

  /** Whatever the peer sends, and whatever the users of the stream do meanwhile: the run goes
      on exactly as long as the peer keeps to the protocol.  What has been taken in then is in
      wire order, Read has returned the data in it up to what is buffered, the buffer is within
      the window, and what this end has sent is in wire order too. */
  lemma PeerIsHeldToProtocol(role: Role, window: nat, events: seq<Event>)
    requires Possible(role, window, NEW, events)
    ensures Run(role, window, NEW, events).Some? <==> Conforming(role, window, NEW, events)
    ensures
      var end := Run(role, window, NEW, events);
      end.Some? ==>
        var e, heard := end.value.end, end.value.heard;
        && LinkTheorems.InWireOrder(role.Peer(), heard)
        && e.delivered + e.receiveBuffer == Payload(heard)
        && |e.receiveBuffer| <= window
        && LinkTheorems.InWireOrder(role, e.log)
  {
    NewInv(role, window);
    RunIsExact(role, window, NEW, events);
    var end := Run(role, window, NEW, events);
    if end.Some? {
      LinkTheorems.LogIsInOrder(role.Peer(), end.value.heard);
      LinkTheorems.LogIsInOrder(role, end.value.end.log);
    }
  }
}
