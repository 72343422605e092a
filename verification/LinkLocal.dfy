/** Local steps of one end keep every invariant of its link. */
module LinkLocal {
  import opened Wrappers
  import opened Messages
  import opened StreamEnd
  import opened Link

  // ----- What a local step does to the two directions -----

  /** The step queues nothing: credit and bytes stay where they are, but the end may
      be detached from the multiplexer or cancel its increments. */
  predicate Retains(s: SenderView, s': SenderView, r: ReceiverView, r': ReceiverView) {
    && s' == s.(established := s'.established, intact := s'.intact)
    && (s.established ==> s'.established)
    && (s'.intact ==> s.intact)
    && r' == r.(unannounced := r'.unannounced, intact := r'.intact, announcing := r'.announcing)
    && (r'.intact ==> r.intact)
    && r'.unannounced <= r.unannounced
    && (r'.announcing ==> (r.announcing && r'.unannounced == r.unannounced) || !r.granted)
  }

  /** The step moves the first `count` buffered bytes to the reader. */
  predicate Consumes(s: SenderView, s': SenderView, r: ReceiverView, r': ReceiverView) {
    && s' == s
    && r.unannounced <= r'.unannounced <= r.unannounced + |r.buffered|
    && var count := r'.unannounced - r.unannounced;
       && r' == r.(delivered := r'.delivered, buffered := r'.buffered, unannounced := r'.unannounced)
       && r'.delivered == r.delivered + r.buffered[..count]
       && r'.buffered == r.buffered[count..]
  }

  /** The step queues `m`. */
  predicate Emits(role: Role, window: nat, s: SenderView, s': SenderView,
                  r: ReceiverView, r': ReceiverView, m: Message) {
    && Advance(role, s.sent, m) == Some(s'.sent)
    && match m
       case Open(w) => w == window && !r.granted && s' == s.(sent := s'.sent) && r' == r.(granted := true)
       case Accept(w) => w == window && !r.granted && s' == s.(sent := s'.sent) && r' == r.(granted := true)
       case Data(block) =>
         && 1 <= |block| <= MAX_BLOCK && s.established && s.credit >= |block|
         && s' == s.(sent := s'.sent, written := s.written + block, credit := s.credit - |block|)
         && r' == r
       case Increment(n) =>
         r.unannounced >= n && s' == s.(sent := s'.sent) && r' == r.(unannounced := r.unannounced - n)
       case CloseWrite => s' == s.(sent := s'.sent) && r' == r
       case Close => s' == s.(sent := s'.sent) && r' == r
  }

  function Extend(queue: seq<Message>, output: Option<Message>): seq<Message> {
    if output.Some? then queue + [output.value] else queue
  }

  predicate Effect(role: Role, window: nat, e: End, e': End, output: Option<Message>) {
    var s, s', r, r' := SendingOf(e), SendingOf(e'), ReceivingOf(e), ReceivingOf(e');
    && e'.log == Extend(e.log, output)
    && match output
       case None => Retains(s, s', r, r') || Consumes(s, s', r, r')
       case Some(m) => Emits(role, window, s, s', r, r', m)
  }

  // ----- Each operation keeps its end in order and never blocks on a readiness channel -----

  lemma OpeningKeepsEnd(role: Role, window: nat, e: End, a: OpenAction)
    requires EndInv(role, e) && OpenEnabled(role, e, a)
    ensures OpenStep(role, window, e, a).Next?
    ensures EndInv(role, OpenStep(role, window, e, a).end)
  {
  }

  lemma AcceptingKeepsEnd(role: Role, window: nat, e: End, a: AcceptAction)
    requires EndInv(role, e) && AcceptEnabled(e, a)
    ensures AcceptStep(role, window, e, a).Next?
    ensures EndInv(role, AcceptStep(role, window, e, a).end)
  {
  }

  lemma WritingKeepsBookkeeping(role: Role, e: End, a: WriteAction)
    requires EndInv(role, e) && WriteEnabled(e, a)
    ensures WriteStep(role, e, a).Next?
    ensures OriginInv(role, WriteStep(role, e, a).end) && TimerInv(WriteStep(role, e, a).end)
    ensures SeenInv(role, WriteStep(role, e, a).end)
  {
  }

  lemma WritingKeepsTraffic(role: Role, e: End, a: WriteAction)
    requires EndInv(role, e) && WriteEnabled(e, a)
    ensures WriteStep(role, e, a).Next?
    ensures SentInv(role, WriteStep(role, e, a).end) && TokenInv(WriteStep(role, e, a).end)
  {
  }

  lemma ReadingKeepsBookkeeping(role: Role, e: End, a: ReadAction)
    requires EndInv(role, e) && ReadEnabled(e, a)
    ensures ReadStep(e, a).Next?
    ensures OriginInv(role, ReadStep(e, a).end) && TimerInv(ReadStep(e, a).end) && SeenInv(role, ReadStep(e, a).end)
  {
  }

  lemma ReadingKeepsTraffic(role: Role, e: End, a: ReadAction)
    requires EndInv(role, e) && ReadEnabled(e, a)
    ensures ReadStep(e, a).Next?
    ensures SentInv(role, ReadStep(e, a).end) && TokenInv(ReadStep(e, a).end)
  {
  }

  lemma ClosingKeepsBookkeeping(role: Role, e: End, a: CloseAction)
    requires EndInv(role, e) && CloseEnabled(e, a)
    ensures CloseStep(e, a).Next?
    ensures OriginInv(role, CloseStep(e, a).end) && TimerInv(CloseStep(e, a).end) && SeenInv(role, CloseStep(e, a).end)
  {
  }

  lemma ClosingKeepsTraffic(role: Role, e: End, a: CloseAction)
    requires EndInv(role, e) && CloseEnabled(e, a)
    ensures CloseStep(e, a).Next?
    ensures SentInv(role, CloseStep(e, a).end) && TokenInv(CloseStep(e, a).end)
  {
  }

  lemma FlushingKeepsBookkeeping(role: Role, e: End, a: FlushAction)
    requires EndInv(role, e) && FlushEnabled(e, a)
    ensures FlushStep(role, e, a).Next?
    ensures OriginInv(role, FlushStep(role, e, a).end) && TimerInv(FlushStep(role, e, a).end)
    ensures SeenInv(role, FlushStep(role, e, a).end)
  {
  }

  lemma FlushingKeepsTraffic(role: Role, e: End, a: FlushAction)
    requires EndInv(role, e) && FlushEnabled(e, a)
    ensures FlushStep(role, e, a).Next?
    ensures SentInv(role, FlushStep(role, e, a).end) && TokenInv(FlushStep(role, e, a).end)
  {
  }

  lemma OpeningEffect(role: Role, window: nat, e: End, a: OpenAction)
    requires EndInv(role, e) && OpenEnabled(role, e, a)
    requires OpenStep(role, window, e, a).Next?
    ensures Effect(role, window, e, OpenStep(role, window, e, a).end, OpenStep(role, window, e, a).output)
  {
  }

  lemma AcceptingEffect(role: Role, window: nat, e: End, a: AcceptAction)
    requires EndInv(role, e) && AcceptEnabled(e, a)
    requires AcceptStep(role, window, e, a).Next?
    ensures Effect(role, window, e, AcceptStep(role, window, e, a).end, AcceptStep(role, window, e, a).output)
  {
  }

  /** Sections of Write that queue nothing leave both directions alone. */
  lemma WritingRetains(role: Role, e: End, a: WriteAction)
    requires EndInv(role, e) && WriteEnabled(e, a) && !a.WriteSends? && WriteStep(role, e, a).Next?
    ensures
      var e' := WriteStep(role, e, a).end;
      && Retains(SendingOf(e), SendingOf(e'), ReceivingOf(e), ReceivingOf(e'))
      && e'.log == e.log && WriteStep(role, e, a).output.None?
  {
    match a
    case WriteTakesWindow => TakingWindowRetains(e);
    case WriteBegins(_) =>
    case WriteTakesToken =>
    case WriteReturns =>
    case WriteAborts =>
    case WriteExpires =>
  }

  lemma TakingWindowRetains(e: End)
    requires e.WriterHoldsToken() && TakeWindow(e).Next?
    ensures
      var e' := TakeWindow(e).end;
      && Retains(SendingOf(e), SendingOf(e'), ReceivingOf(e), ReceivingOf(e'))
      && e'.log == e.log && TakeWindow(e).output.None?
  {
  }

  lemma WritingEffect(role: Role, window: nat, e: End, a: WriteAction)
    requires EndInv(role, e) && WriteEnabled(e, a)
    requires WriteStep(role, e, a).Next?
    ensures Effect(role, window, e, WriteStep(role, e, a).end, WriteStep(role, e, a).output)
  {
    if a.WriteSends? { SendingEffect(role, window, e); } else { WritingRetains(role, e, a); }
  }

  lemma SendingEffect(role: Role, window: nat, e: End)
    requires EndInv(role, e) && e.writer.Sending?
    ensures Effect(role, window, e, WriteStep(role, e, WriteSends).end, WriteStep(role, e, WriteSends).output)
  {
  }

  lemma TakingEffect(e: End, size: nat)
    requires e.reader.DataReady? && TakeData(e, size).Next?
    ensures
      var e' := TakeData(e, size).end;
      Consumes(SendingOf(e), SendingOf(e'), ReceivingOf(e), ReceivingOf(e')) && e'.log == e.log
  {
    var e' := TakeData(e, size).end;
    assert ReceivingOf(e').unannounced == ReceivingOf(e).unannounced + Min(size, |e.receiveBuffer|);
  }

  lemma ReadingEffect(role: Role, window: nat, e: End, a: ReadAction)
    requires EndInv(role, e) && ReadEnabled(e, a)
    requires ReadStep(e, a).Next?
    ensures Effect(role, window, e, ReadStep(e, a).end, ReadStep(e, a).output)
  {
    var e' := ReadStep(e, a).end;
    if a.ReadTakes? {
      TakingEffect(e, a.size);
    } else {
      assert Retains(SendingOf(e), SendingOf(e'), ReceivingOf(e), ReceivingOf(e'));
    }
  }

  lemma ClosingEffect(role: Role, window: nat, e: End, a: CloseAction)
    requires EndInv(role, e) && CloseEnabled(e, a)
    requires CloseStep(e, a).Next?
    ensures Effect(role, window, e, CloseStep(e, a).end, CloseStep(e, a).output)
  {
    var e' := CloseStep(e, a).end;
    assert Retains(SendingOf(e), SendingOf(e'), ReceivingOf(e), ReceivingOf(e'));
  }

  lemma IncrementEmits(role: Role, window: nat, e: End)
    requires OriginInv(role, e) && SentInv(role, e) && FlushEnabled(e, FlushIncrement)
    ensures
      var e', output := FlushStep(role, e, FlushIncrement).end, FlushStep(role, e, FlushIncrement).output;
      output.Some? && Emits(role, window, SendingOf(e), SendingOf(e'), ReceivingOf(e), ReceivingOf(e'), output.value)
  {
  }

  lemma CloseWriteEmits(role: Role, window: nat, e: End)
    requires OriginInv(role, e) && SentInv(role, e) && FlushEnabled(e, FlushCloseWrite)
    ensures
      var e', output := FlushStep(role, e, FlushCloseWrite).end, FlushStep(role, e, FlushCloseWrite).output;
      output.Some? && Emits(role, window, SendingOf(e), SendingOf(e'), ReceivingOf(e), ReceivingOf(e'), output.value)
  {
  }

  lemma CloseEmits(role: Role, window: nat, e: End)
    requires OriginInv(role, e) && SentInv(role, e) && FlushEnabled(e, FlushClose)
    ensures
      var e', output := FlushStep(role, e, FlushClose).end, FlushStep(role, e, FlushClose).output;
      output.Some? && Emits(role, window, SendingOf(e), SendingOf(e'), ReceivingOf(e), ReceivingOf(e'), output.value)
  {
  }

  lemma FlushingEmits(role: Role, window: nat, e: End, a: FlushAction)
    requires EndInv(role, e) && FlushEnabled(e, a)
    ensures
      var e', output := FlushStep(role, e, a).end, FlushStep(role, e, a).output;
      output.Some? && Emits(role, window, SendingOf(e), SendingOf(e'), ReceivingOf(e), ReceivingOf(e'), output.value)
  {
    match a
    case FlushIncrement => IncrementEmits(role, window, e);
    case FlushCloseWrite => CloseWriteEmits(role, window, e);
    case FlushClose => CloseEmits(role, window, e);
  }

  lemma FlushingEffect(role: Role, window: nat, e: End, a: FlushAction)
    requires EndInv(role, e) && FlushEnabled(e, a)
    requires FlushStep(role, e, a).Next?
    ensures Effect(role, window, e, FlushStep(role, e, a).end, FlushStep(role, e, a).output)
  {
    FlushingEmits(role, window, e, a);
    FlushingLogs(role, e, a);
  }

  lemma FlushingLogs(role: Role, e: End, a: FlushAction)
    requires FlushEnabled(e, a)
    ensures
      && FlushStep(role, e, a).output.Some?
      && FlushStep(role, e, a).end.log == e.log + [FlushStep(role, e, a).output.value]
  {
    match a
    case FlushIncrement =>
    case FlushCloseWrite =>
    case FlushClose =>
  }

  /** The direction in which the acting end sends, when it queues a message. */
  lemma EmittingKeepsOutgoing(role: Role, windows: Windows, s: SenderView, s': SenderView,
                              own: ReceiverView, own': ReceiverView, m: Message,
                              r: ReceiverView, out: seq<Message>, back: seq<Message>)
    requires Emits(role, windows.Of(role), s, s', own, own', m)
    requires DirectionInv(role, windows, s, r, out, back)
    ensures DirectionInv(role, windows, s', r, out + [m], back)
  {
    AdvanceAllAppend(role, r.seen, out, m);
    PayloadAppend(out, m);
    if m.Data? {
      assert r.delivered + r.buffered + Payload(out + [m]) == r.delivered + r.buffered + Payload(out) + m.block;
    }
  }

  /** The direction in which the acting end sends. */
  lemma EffectKeepsOutgoing(role: Role, windows: Windows, e: End, e': End, output: Option<Message>,
                            r: ReceiverView, out: seq<Message>, back: seq<Message>)
    requires Effect(role, windows.Of(role), e, e', output)
    requires DirectionInv(role, windows, SendingOf(e), r, out, back)
    ensures DirectionInv(role, windows, SendingOf(e'), r, Extend(out, output), back)
  {
    if output.Some? {
      EmittingKeepsOutgoing(role, windows, SendingOf(e), SendingOf(e'), ReceivingOf(e), ReceivingOf(e'),
                            output.value, r, out, back);
    }
  }

  /** The direction in which the acting end receives, when it queues a message. */
  lemma EmittingKeepsIncoming(role: Role, windows: Windows, own: SenderView, own': SenderView,
                              r: ReceiverView, r': ReceiverView, m: Message,
                              s: SenderView, out: seq<Message>, back: seq<Message>)
    requires Emits(role, windows.Of(role), own, own', r, r', m)
    requires DirectionInv(role.Peer(), windows, s, r, out, back)
    ensures DirectionInv(role.Peer(), windows, s, r', out, back + [m])
  {
    CreditAppend(back, m);
  }

  lemma MoveAcross(a: seq<Byte>, b: seq<Byte>, count: nat)
    requires count <= |b|
    ensures (a + b[..count]) + b[count..] == a + b
  {
    assert b == b[..count] + b[count..];
  }

  lemma ConsumingKeepsDelivery(own: SenderView, own': SenderView, r: ReceiverView, r': ReceiverView,
                               s: SenderView, out: seq<Message>)
    requires Consumes(own, own', r, r') && DeliveryInv(s, r, out)
    ensures DeliveryInv(s, r', out)
  {
    var count := r'.unannounced - r.unannounced;
    MoveAcross(r.delivered, r.buffered, count);
    SameDelivery(s, r, r', out);
  }

  lemma SameDelivery(s: SenderView, r: ReceiverView, r': ReceiverView, out: seq<Message>)
    requires DeliveryInv(s, r, out)
    requires r'.delivered + r'.buffered == r.delivered + r.buffered && r'.intact == r.intact
    ensures DeliveryInv(s, r', out)
  {
  }

  lemma ConsumingKeepsCredit(own: SenderView, own': SenderView, r: ReceiverView, r': ReceiverView,
                             window: nat, s: SenderView, out: seq<Message>, back: seq<Message>)
    requires Consumes(own, own', r, r') && CreditInv(window, s, r, out, back)
    ensures CreditInv(window, s, r', out, back)
  {
    var count := r'.unannounced - r.unannounced;
    assert |r.buffered[count..]| == |r.buffered| - count;
    SameCredit(window, s, r, r', out, back);
  }

  lemma SameCredit(window: nat, s: SenderView, r: ReceiverView, r': ReceiverView, out: seq<Message>, back: seq<Message>)
    requires CreditInv(window, s, r, out, back)
    requires |r'.buffered| + r'.unannounced == |r.buffered| + r.unannounced
    requires r'.granted == r.granted && r'.announcing == r.announcing
    ensures CreditInv(window, s, r', out, back)
  {
  }

  /** The direction in which the acting end receives, when it reads. */
  lemma ConsumingKeepsIncoming(role: Role, windows: Windows, own: SenderView, own': SenderView,
                               r: ReceiverView, r': ReceiverView,
                               s: SenderView, out: seq<Message>, back: seq<Message>)
    requires Consumes(own, own', r, r')
    requires DirectionInv(role, windows, s, r, out, back)
    ensures DirectionInv(role, windows, s, r', out, back)
  {
    ConsumingKeepsDelivery(own, own', r, r', s, out);
    ConsumingKeepsCredit(own, own', r, r', windows.Of(role.Peer()), s, out, back);
  }

  /** The direction in which the acting end receives. */
  lemma EffectKeepsIncoming(role: Role, windows: Windows, e: End, e': End, output: Option<Message>,
                            s: SenderView, out: seq<Message>, back: seq<Message>)
    requires Effect(role, windows.Of(role), e, e', output)
    requires DirectionInv(role.Peer(), windows, s, ReceivingOf(e), out, back)
    ensures DirectionInv(role.Peer(), windows, s, ReceivingOf(e'), out, Extend(back, output))
  {
    if output.Some? {
      EmittingKeepsIncoming(role, windows, SendingOf(e), SendingOf(e'), ReceivingOf(e), ReceivingOf(e'),
                            output.value, s, out, back);
    } else if Consumes(SendingOf(e), SendingOf(e'), ReceivingOf(e), ReceivingOf(e')) {
      ConsumingKeepsIncoming(role.Peer(), windows, SendingOf(e), SendingOf(e'), ReceivingOf(e), ReceivingOf(e'),
                             s, out, back);
    }
  }

  // ----- A local step of a whole link -----

  lemma ActKeepsEnd(role: Role, window: nat, e: End, a: Action)
    requires EndInv(role, e) && Enabled(role, e, a)
    ensures Local(role, window, e, a).Next?
    ensures EndInv(role, Local(role, window, e, a).end)
    ensures Effect(role, window, e, Local(role, window, e, a).end, Local(role, window, e, a).output)
  {
    match a
    case Opening(o) => OpeningKeepsEnd(role, window, e, o); OpeningEffect(role, window, e, o);
    case Accepting(c) => AcceptingKeepsEnd(role, window, e, c); AcceptingEffect(role, window, e, c);
    case Writing(w) =>
      WritingKeepsBookkeeping(role, e, w); WritingKeepsTraffic(role, e, w); WritingEffect(role, window, e, w);
    case Reading(r) =>
      ReadingKeepsBookkeeping(role, e, r); ReadingKeepsTraffic(role, e, r); ReadingEffect(role, window, e, r);
    case Closing(c) =>
      ClosingKeepsBookkeeping(role, e, c); ClosingKeepsTraffic(role, e, c); ClosingEffect(role, window, e, c);
    case Flushing(f) =>
      FlushingKeepsBookkeeping(role, e, f); FlushingKeepsTraffic(role, e, f); FlushingEffect(role, window, e, f);
  }

  lemma EffectKeepsLog(role: Role, window: nat, e: End, e': End, output: Option<Message>)
    requires LogInv(role, e) && Effect(role, window, e, e', output)
    ensures LogInv(role, e')
  {
    if output.Some? {
      AdvanceAllAppend(role, Stage.Silent, e.log, output.value);
    }
  }

  lemma ActKeepsInvAt(windows: Windows, role: Role, e: End, peer: End, out: seq<Message>, back: seq<Message>, a: Action)
    requires InvAt(windows, role, e, peer, out, back) && Enabled(role, e, a)
    ensures
      var o := Local(role, windows.Of(role), e, a);
      o.Next? && InvAt(windows, role, o.end, peer, Extend(out, o.output), back)
  {
    ActKeepsEnd(role, windows.Of(role), e, a);
    var o := Local(role, windows.Of(role), e, a);
    EffectKeepsOutgoing(role, windows, e, o.end, o.output, ReceivingOf(peer), out, back);
    EffectKeepsIncoming(role, windows, e, o.end, o.output, SendingOf(peer), back, out);
    EffectKeepsLog(role, windows.Of(role), e, o.end, o.output);
  }

  lemma ActKeepsInv(windows: Windows, l: Link, role: Role, a: Action)
    requires Inv(windows, l) && Enabled(role, l.At(role), a)
    ensures Do(windows, l, Act(role, a)).Stepped?
    ensures Inv(windows, Do(windows, l, Act(role, a)).link)
  {
    InvFromSide(windows, l, role);
    ActKeepsInvAt(windows, role, l.At(role), l.At(role.Peer()), l.From(role), l.From(role.Peer()), a);
    ApplyKeepsInv(windows, l, role, Local(role, windows.Of(role), l.At(role), a));
  }

  lemma ApplyKeepsInv(windows: Windows, l: Link, role: Role, o: StreamEnd.Outcome)
    requires o.Next?
    requires InvAt(windows, role, o.end, l.At(role.Peer()), Extend(l.From(role), o.output), l.From(role.Peer()))
    ensures Apply(l, role, o).Stepped? && Inv(windows, Apply(l, role, o).link)
  {
    InvFromSide(windows, Apply(l, role, o).link, role);
  }
}
