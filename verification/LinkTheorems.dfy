/** What the link invariants mean for the users of a stream. */
module LinkTheorems {
  import opened Wrappers
  import opened Messages
  import opened StreamEnd
  import opened Link
  import opened LinkLocal
  import opened LinkReceive

  /** A read that is given room for at least one byte. */
  predicate Disciplined(a: Action) { a.Reading? && a.read.ReadTakes? ==> a.read.size > 0 }

  lemma ActKeepsPositive(windows: Windows, l: Link, role: Role, a: Action)
    requires Inv(windows, l) && Positive(l) && Enabled(role, l.At(role), a) && Disciplined(a)
    requires Do(windows, l, Act(role, a)).Stepped?
    ensures Positive(Do(windows, l, Act(role, a)).link)
  {
    ActKeepsPositiveEnd(role, windows.Of(role), l.At(role), a);
    InvFromSide(windows, l, role);
    ApplyKeepsPositive(l, role, Local(role, windows.Of(role), l.At(role), a));
  }

  lemma ApplyKeepsPositive(l: Link, role: Role, o: StreamEnd.Outcome)
    requires Positive(l) && o.Next? && PositiveInv(o.end)
    requires o.output.Some? && o.output.value.Increment? ==> o.output.value.amount > 0
    ensures Positive(Apply(l, role, o).link)
  {
    match role
    case Opener =>
    case Acceptor =>
  }

  lemma ActKeepsPositiveEnd(role: Role, window: nat, e: End, a: Action)
    requires EndInv(role, e) && PositiveInv(e) && Enabled(role, e, a) && Disciplined(a)
    requires Local(role, window, e, a).Next?
    ensures PositiveInv(Local(role, window, e, a).end)
    ensures
      var m := Local(role, window, e, a).output;
      m.Some? && m.value.Increment? ==> m.value.amount > 0
  {
    match a
    case Opening(o) => OpeningIsPositive(role, window, e, o);
    case Accepting(c) => AcceptingIsPositive(role, window, e, c);
    case Writing(w) => WritingIsPositive(role, e, w);
    case Reading(r) => ReadingIsPositive(e, r);
    case Closing(c) => ClosingIsPositive(e, c);
    case Flushing(f) => FlushingIsPositive(role, e, f);
  }

  lemma OpeningIsPositive(role: Role, window: nat, e: End, a: OpenAction)
    requires PositiveInv(e) && OpenEnabled(role, e, a) && OpenStep(role, window, e, a).Next?
    ensures PositiveInv(OpenStep(role, window, e, a).end)
    ensures
      var m := OpenStep(role, window, e, a).output;
      m.Some? && m.value.Increment? ==> m.value.amount > 0
  {
  }

  lemma AcceptingIsPositive(role: Role, window: nat, e: End, a: AcceptAction)
    requires PositiveInv(e) && AcceptEnabled(e, a) && AcceptStep(role, window, e, a).Next?
    ensures PositiveInv(AcceptStep(role, window, e, a).end)
    ensures
      var m := AcceptStep(role, window, e, a).output;
      m.Some? && m.value.Increment? ==> m.value.amount > 0
  {
  }

  lemma WritingIsPositive(role: Role, e: End, a: WriteAction)
    requires PositiveInv(e) && WriteEnabled(e, a) && WriteStep(role, e, a).Next?
    ensures PositiveInv(WriteStep(role, e, a).end)
    ensures
      var m := WriteStep(role, e, a).output;
      m.Some? && m.value.Increment? ==> m.value.amount > 0
  {
  }

  lemma ReadingIsPositive(e: End, a: ReadAction)
    requires PositiveInv(e) && ReadEnabled(e, a) && ReadStep(e, a).Next?
    requires TokenInv(e) && (a.ReadTakes? ==> a.size > 0)
    ensures PositiveInv(ReadStep(e, a).end)
    ensures
      var m := ReadStep(e, a).output;
      m.Some? && m.value.Increment? ==> m.value.amount > 0
  {
  }

  lemma ClosingIsPositive(e: End, a: CloseAction)
    requires PositiveInv(e) && CloseEnabled(e, a) && CloseStep(e, a).Next?
    ensures PositiveInv(CloseStep(e, a).end)
    ensures
      var m := CloseStep(e, a).output;
      m.Some? && m.value.Increment? ==> m.value.amount > 0
  {
  }

  lemma FlushingIsPositive(role: Role, e: End, a: FlushAction)
    requires PositiveInv(e) && FlushEnabled(e, a) && FlushStep(role, e, a).Next?
    ensures PositiveInv(FlushStep(role, e, a).end)
    ensures
      var m := FlushStep(role, e, a).output;
      m.Some? && m.value.Increment? ==> m.value.amount > 0
  {
  }

  /** Every step of a link between conforming ends, whatever they do and in whatever
      order: the reader goroutine finds fault only with an empty increment, no readiness
      send blocks, and the invariant holds again. */
  lemma StepKeepsInv(windows: Windows, l: Link, step: Step)
    requires Inv(windows, l) && Enables(l, step)
    ensures Do(windows, l, step).Stepped? ==> Inv(windows, Do(windows, l, step).link)
    ensures Do(windows, l, step).Broken? ==>
              && Do(windows, l, step).violation == ZeroIncrement
              && step.Handle? && l.From(step.role.Peer())[0] == Increment(0)
  {
    match step
    case Act(role, action) => ActKeepsInv(windows, l, role, action);
    case LookUp(role) => LookingUpKeepsInv(windows, l, role);
    case Handle(role) => HandlingOutcome(windows, l, role);
    case HandleOpen(full) => HandlingOpenKeepsInv(windows, l, full);
  }

  lemma HandlingOutcome(windows: Windows, l: Link, role: Role)
    requires Inv(windows, l) && Enables(l, Handle(role))
    ensures
      var o := Do(windows, l, Handle(role));
      if l.From(role.Peer())[0] == Increment(0) then o == Broken(ZeroIncrement) else o.Stepped? && Inv(windows, o.link)
  {
    InvFromSide(windows, l, role);
    NothingUnexpected(role, windows, l.At(role), l.At(role.Peer()), l.From(role.Peer()), l.From(role));
    if l.From(role.Peer())[0] != Increment(0) {
      HandlingKeepsInv(windows, l, role);
    }
  }

  lemma HandlingKeepsPositive(windows: Windows, l: Link, role: Role)
    requires Inv(windows, l) && Positive(l) && Enables(l, Handle(role))
    requires Do(windows, l, Handle(role)).Stepped?
    ensures Positive(Do(windows, l, Handle(role)).link)
  {
    assert PositiveInv(Do(windows, l, Handle(role)).link.At(role));
    match role
    case Opener =>
    case Acceptor =>
  }

  lemma StepKeepsPositive(windows: Windows, l: Link, step: Step)
    requires Inv(windows, l) && Positive(l) && Enables(l, step)
    requires step.Act? ==> Disciplined(step.action)
    requires Do(windows, l, step).Stepped?
    ensures Positive(Do(windows, l, step).link)
  {
    match step
    case Act(role, action) => ActKeepsPositive(windows, l, role, action);
    case LookUp(role) =>
    case Handle(role) => HandlingKeepsPositive(windows, l, role);
    case HandleOpen(full) =>
  }

  /** Read returns EOF only when every byte the peer will ever have written has been
      returned. */
  lemma EofMeansDelivered(windows: Windows, l: Link, role: Role)
    requires Inv(windows, l) && ReadEnabled(l.At(role), ReadReturnsEOF)
    ensures l.At(role).delivered == l.At(role.Peer()).written
    ensures WritingIsOver(l.At(role.Peer()))
  {
    var e, peer := l.At(role), l.At(role.Peer());
    NoPayloadAfterHalfClose(role.Peer(), e.seen, l.From(role.Peer()));
    assert e.receiveBuffer == [];
    assert e.delivered + e.receiveBuffer + Payload(l.From(role.Peer())) == e.delivered;
  }

  /** The end has half-closed or closed: no later step can add to what it has written. */
  predicate WritingIsOver(e: End) { e.sent.HalfClosed? || e.sent.Shut? || e.sent.Refused? }

  lemma WritingStaysOver(role: Role, window: nat, e: End, a: Action)
    requires EndInv(role, e) && WritingIsOver(e) && Enabled(role, e, a)
    ensures Local(role, window, e, a).Next?
    ensures Local(role, window, e, a).end.written == e.written
    ensures WritingIsOver(Local(role, window, e, a).end)
  {
    ActKeepsEnd(role, window, e, a);
    var o := Local(role, window, e, a);
    OverStaysOver(role, window, e, o.end, o.output);
  }

  lemma OverStaysOver(role: Role, window: nat, e: End, e': End, output: Option<Message>)
    requires WritingIsOver(e) && Effect(role, window, e, e', output)
    ensures WritingIsOver(e') && e'.written == e.written
  {
    var s, s' := SendingOf(e), SendingOf(e');
    assert s'.written == e'.written && s'.sent == e'.sent;
  }

  lemma StepLeavesWritten(windows: Windows, l: Link, step: Step, role: Role)
    requires Inv(windows, l) && WritingIsOver(l.At(role)) && Enables(l, step)
    requires Do(windows, l, step).Stepped?
    ensures Do(windows, l, step).link.At(role).written == l.At(role).written
    ensures WritingIsOver(Do(windows, l, step).link.At(role))
  {
    if step.Act? && step.role == role {
      WritingStaysOver(role, windows.Of(role), l.At(role), step.action);
    }
  }

  /** The wire order spelled out for everything an end has sent. */
  lemma {:induction false} WireOrder(role: Role, stage: Stage, log: seq<Message>, i: nat, j: nat)
    requires AdvanceAll(role, stage, log).Some?
    requires i < j < |log|
    ensures !log[i].Close?
    ensures log[i].CloseWrite? ==> !log[j].Data? && !log[j].CloseWrite?
    ensures !log[j].Open? && !log[j].Accept?
    decreases |log|
  {
    var next := Advance(role, stage, log[0]).value;
    if i > 0 {
      WireOrder(role, next, log[1..], i - 1, j - 1);
    } else {
      LaterMessages(role, next, log[1..], j - 1);
    }
  }

  lemma {:induction false} LaterMessages(role: Role, stage: Stage, log: seq<Message>, j: nat)
    requires AdvanceAll(role, stage, log).Some? && j < |log|
    ensures !stage.Shut? && !stage.Refused?
    ensures stage.HalfClosed? ==> !log[j].Data? && !log[j].CloseWrite?
    ensures !stage.Silent? ==> !log[j].Open? && !log[j].Accept?
    decreases |log|
  {
    if j > 0 {
      LaterMessages(role, Advance(role, stage, log[0]).value, log[1..], j - 1);
    }
  }

  /** The first message an end sends is its own greeting, or the acceptor's refusal. */
  lemma FirstMessage(role: Role, log: seq<Message>)
    requires AdvanceAll(role, Stage.Silent, log).Some? && log != []
    ensures if role.Opener? then log[0].Open? else log[0].Accept? || (log[0].Close? && |log| == 1)
  {
    if log[0].Close? && |log| > 1 {
      LaterMessages(role, Refused, log[1..], 0);
    }
  }

  predicate MayFollow(earlier: Message, later: Message) {
    && !earlier.Close? && !later.Open? && !later.Accept?
    && (earlier.CloseWrite? ==> !later.Data? && !later.CloseWrite?)
  }

  /** Greeting first, or else a lone close; data before the half-close; nothing after the close. */
  predicate InWireOrder(role: Role, log: seq<Message>) {
    && (|log| >= 1 ==> if role.Opener? then log[0].Open? else log[0].Accept? || (log[0].Close? && |log| == 1))
    && forall i, j | 0 <= i < j < |log| :: MayFollow(log[i], log[j])
  }

  lemma LogIsInOrder(role: Role, log: seq<Message>)
    requires AdvanceAll(role, Stage.Silent, log).Some?
    ensures InWireOrder(role, log)
  {
    if |log| >= 1 { FirstMessage(role, log); }
    forall i, j | 0 <= i < j < |log| ensures MayFollow(log[i], log[j]) {
      WireOrder(role, Stage.Silent, log, i, j);
    }
  }

  lemma WritingLeavesToken(role: Role, e: End, a: WriteAction)
    requires WriteEnabled(e, a) && WriteStep(role, e, a).Next?
    ensures WriteStep(role, e, a).end.tokenLeft == (e.tokenLeft || (a.WriteAborts? && e.WriterHoldsToken()))
  {
    match a
    case WriteBegins(_) =>
    case WriteTakesToken =>
    case WriteTakesWindow =>
    case WriteSends =>
    case WriteReturns =>
    case WriteAborts =>
    case WriteExpires =>
  }

  lemma ReadingLeavesToken(e: End, a: ReadAction)
    requires ReadEnabled(e, a) && ReadStep(e, a).Next?
    ensures ReadStep(e, a).end.tokenLeft == e.tokenLeft
  {
    match a
    case ReadBegins =>
    case ReadTakesToken =>
    case ReadTakes(_) =>
    case ReadAnnounces =>
    case ReadReturnsEOF =>
    case ReadAborts =>
  }

  lemma ClosingLeavesToken(e: End, a: CloseAction)
    requires CloseEnabled(e, a) && CloseStep(e, a).Next?
    ensures CloseStep(e, a).end.tokenLeft == e.tokenLeft
  {
    match a
    case CloseWriteBegins(_) =>
    case CloseWriteStops =>
    case CloseWriteEnqueues =>
    case CloseBegins =>
    case CloseStops =>
    case CloseEnqueues =>
    case Deregisters =>
  }

  lemma FlushingLeavesToken(role: Role, e: End, a: FlushAction)
    requires FlushEnabled(e, a) && FlushStep(role, e, a).Next?
    ensures FlushStep(role, e, a).end.tokenLeft == e.tokenLeft
  {
    match a
    case FlushIncrement =>
    case FlushCloseWrite =>
    case FlushClose =>
  }

  lemma OpeningLeavesToken(role: Role, window: nat, e: End, a: OpenAction)
    requires OpenStep(role, window, e, a).Next?
    ensures OpenStep(role, window, e, a).end.tokenLeft == e.tokenLeft
  {
    match a
    case Allocate =>
    case SendOpen =>
    case OpenReturns =>
    case OpenFails =>
  }

  lemma AcceptingLeavesToken(role: Role, window: nat, e: End, a: AcceptAction)
    requires AcceptStep(role, window, e, a).Next?
    ensures AcceptStep(role, window, e, a).end.tokenLeft == e.tokenLeft
  {
    match a
    case TakePending =>
    case AcceptFails =>
    case MarkEstablished =>
    case SendAccept =>
  }

  /** Only a writer that gives up for good leaves with the window token. */
  lemma ActLeavesToken(role: Role, window: nat, e: End, a: Action)
    requires Enabled(role, e, a) && Local(role, window, e, a).Next?
    ensures
      Local(role, window, e, a).end.tokenLeft ==
      (e.tokenLeft || (a == Writing(WriteAborts) && e.WriterHoldsToken()))
  {
    match a
    case Opening(o) => OpeningLeavesToken(role, window, e, o);
    case Accepting(c) => AcceptingLeavesToken(role, window, e, c);
    case Writing(w) => WritingLeavesToken(role, e, w);
    case Reading(r) => ReadingLeavesToken(e, r);
    case Closing(c) => ClosingLeavesToken(e, c);
    case Flushing(f) => FlushingLeavesToken(role, e, f);
  }
}
