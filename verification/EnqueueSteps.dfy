/** The enqueue goroutine seen against the steps of the network: what it accumulates is what the
    ends of the streams say, and a batch is a run of steps that flush them. */
module EnqueueSteps {
  import opened Wrappers
  import opened Messages
  import opened StreamEnd
  import Link
  import opened Network
  import opened NetworkSimulation
  import opened NetworkInvariants
  import NetworkTheorems
  import Enqueue

  // ----- Batches -----

  /** What the enqueue goroutine has accumulated is what the ends of the streams say. */
  ghost predicate Describes(u: Enqueue.Updates, p: Endpoint) {
    && 0 !in u.increments && 0 !in u.writeCloses && 0 !in u.closes
    && forall id: nat | id >= 1 :: DescribesEnd(u, id, p.At(id))
  }

  predicate DescribesEnd(u: Enqueue.Updates, id: nat, e: End) {
    && e.windowIncrement == (if id in u.increments then Some(u.increments[id]) else None)
    && (id in u.writeCloses <==> e.writeClose)
    && (id in u.closes <==> e.close)
  }

  function FlushOf(m: Message): FlushAction {
    if m.Increment? then FlushIncrement else if m.CloseWrite? then FlushCloseWrite else FlushClose
  }

  /** The step that writes out one update. */
  function StepOf(side: Side, frame: Frame): Step
    requires frame.ForStream?
  {
    Act(side, frame.id, Flushing(FlushOf(frame.message)))
  }

  /** What flushing does to an end, as far as updates are concerned. */
  lemma FlushEffect(role: Role, e: End, a: FlushAction)
    requires FlushEnabled(e, a)
    ensures FlushStep(role, e, a).Next?
    ensures
      var o := FlushStep(role, e, a);
      match a
      case FlushIncrement =>
        && o.output == Some(Increment(e.windowIncrement.value))
        && o.end.windowIncrement.None? && o.end.writeClose == e.writeClose && o.end.close == e.close
      case FlushCloseWrite =>
        && o.output == Some(CloseWrite)
        && o.end.windowIncrement == e.windowIncrement && !o.end.writeClose && o.end.close == e.close
      case FlushClose =>
        && o.output == Some(Close)
        && o.end.windowIncrement == e.windowIncrement && o.end.writeClose == e.writeClose && !o.end.close
  {
    match a
    case FlushIncrement =>
    case FlushCloseWrite =>
    case FlushClose =>
  }

  lemma EndFlushes(role: Role, u: Enqueue.Updates, frame: Frame, e: End)
    requires Enqueue.Offers(u, frame) && DescribesEnd(u, frame.id, e)
    ensures
      var a := FlushOf(frame.message);
      && FlushEnabled(e, a) && FlushStep(role, e, a).Next?
      && FlushStep(role, e, a).output == Some(frame.message)
      && DescribesEnd(Enqueue.Without(u, frame), frame.id, FlushStep(role, e, a).end)
  {
    var a := FlushOf(frame.message);
    assert FlushEnabled(e, a);
    FlushEffect(role, e, a);
    Remaining(u, frame, e, FlushStep(role, e, a).end);
  }

  lemma Remaining(u: Enqueue.Updates, frame: Frame, e: End, e': End)
    requires Enqueue.Offers(u, frame) && DescribesEnd(u, frame.id, e)
    requires e'.windowIncrement == if frame.message.Increment? then None else e.windowIncrement
    requires e'.writeClose == (e.writeClose && !frame.message.CloseWrite?)
    requires e'.close == (e.close && !frame.message.Close?)
    ensures DescribesEnd(Enqueue.Without(u, frame), frame.id, e')
  {
  }

  lemma UpdateChanges(net: Net, side: Side, u: Enqueue.Updates, frame: Frame)
    requires Describes(u, net.At(side)) && Enqueue.Offers(u, frame)
    ensures Enables(net, StepOf(side, frame))
    ensures
      var o := DoAct(net, side, frame.id, Flushing(FlushOf(frame.message)));
      o.Stepped? ==>
        && Describes(Enqueue.Without(u, frame), o.net.At(side))
        && o.net.From(side) == net.From(side) + [frame]
  {
    var id, a := frame.id, FlushOf(frame.message);
    assert id >= 1 && DescribesEnd(u, id, net.At(side).At(id));
    EndFlushes(RoleOf(side, id), u, frame, net.At(side).At(id));
    if DoAct(net, side, id, Flushing(a)).Stepped? {
      ActChanges(net, side, id, Flushing(a));
      DescribesRest(u, frame, net.At(side), DoAct(net, side, id, Flushing(a)).net.At(side));
    }
  }

  /** Writing out one update is one step of the network. */
  lemma UpdateIsStep(net: Net, side: Side, u: Enqueue.Updates, frame: Frame) returns (net': Net)
    requires Inv(net) && Describes(u, net.At(side)) && Enqueue.Offers(u, frame)
    ensures Enables(net, StepOf(side, frame)) && Do(net, StepOf(side, frame)) == Stepped(net') && Inv(net')
    ensures Describes(Enqueue.Without(u, frame), net'.At(side)) && net'.From(side) == net.From(side) + [frame]
  {
    UpdateChanges(net, side, u, frame);
    ActKeepsInv(net, side, frame.id, Flushing(FlushOf(frame.message)));
    net' := Do(net, StepOf(side, frame)).net;
  }

  /** Only the end whose update was written out changes. */
  lemma DescribesRest(u: Enqueue.Updates, frame: Frame, p: Endpoint, p': Endpoint)
    requires Describes(u, p) && Enqueue.Offers(u, frame)
    requires DescribesEnd(Enqueue.Without(u, frame), frame.id, p'.At(frame.id))
    requires forall j | j != frame.id :: p'.At(j) == p.At(j)
    ensures Describes(Enqueue.Without(u, frame), p')
  {
    var u' := Enqueue.Without(u, frame);
    forall j: nat | j >= 1 ensures DescribesEnd(u', j, p'.At(j)) {
      assert DescribesEnd(u, j, p.At(j));
    }
  }

  function StepsOf(side: Side, frames: seq<Frame>): seq<Step>
    requires forall i | 0 <= i < |frames| :: frames[i].ForStream?
  {
    if frames == [] then [] else [StepOf(side, frames[0])] + StepsOf(side, frames[1..])
  }

  lemma {:induction false} DrainedAreUpdates(u: Enqueue.Updates, frames: seq<Frame>, u': Enqueue.Updates)
    requires Enqueue.Drains(u, frames, u')
    ensures forall i | 0 <= i < |frames| :: frames[i].ForStream?
    decreases |frames|
  {
    if frames != [] {
      DrainedAreUpdates(Enqueue.Without(u, frames[0]), frames[1..], u');
      assert forall i | 1 <= i < |frames| :: frames[i] == frames[1..][i - 1];
    }
  }

  ghost predicate Leads(net: Net, steps: seq<Step>, net': Net) {
    NetworkTheorems.Possible(net, steps) && NetworkTheorems.Run(net, steps) == Stepped(net')
  }

  /** A batch is a run of the network in which the enqueue goroutine flushes the same updates
      in the same order. */
  lemma {:induction false} BatchIsRun(net: Net, side: Side, u: Enqueue.Updates, frames: seq<Frame>, u': Enqueue.Updates)
    returns (net': Net)
    requires Inv(net) && Describes(u, net.At(side)) && Enqueue.Drains(u, frames, u')
    ensures forall i | 0 <= i < |frames| :: frames[i].ForStream?
    ensures Leads(net, StepsOf(side, frames), net') && Inv(net')
    ensures Describes(u', net'.At(side)) && net'.From(side) == net.From(side) + frames
    decreases |frames|
  {
    DrainedAreUpdates(u, frames, u');
    if frames == [] {
      net' := net;
    } else {
      var frame, rest := frames[0], frames[1..];
      var next := UpdateIsStep(net, side, u, frame);
      net' := BatchIsRun(next, side, Enqueue.Without(u, frame), rest, u');
      BatchGoesOn(net, side, frames, next, net');
    }
  }

  lemma BatchGoesOn(net: Net, side: Side, frames: seq<Frame>, next: Net, net': Net)
    requires frames != [] && forall i | 0 <= i < |frames| :: frames[i].ForStream?
    requires Enables(net, StepOf(side, frames[0])) && Do(net, StepOf(side, frames[0])) == Stepped(next)
    requires next.From(side) == net.From(side) + [frames[0]]
    requires Leads(next, StepsOf(side, frames[1..]), net') && net'.From(side) == next.From(side) + frames[1..]
    ensures Leads(net, StepsOf(side, frames), net') && net'.From(side) == net.From(side) + frames
  {
    LeadsFrom(net, StepOf(side, frames[0]), next, StepsOf(side, frames[1..]), net');
    Rejoin(net.From(side), frames[0], frames[1..]);
    assert frames == [frames[0]] + frames[1..];
  }

  lemma LeadsFrom(net: Net, step: Step, next: Net, rest: seq<Step>, net': Net)
    requires Enables(net, step) && Do(net, step) == Stepped(next) && Leads(next, rest, net')
    ensures Leads(net, [step] + rest, net')
  {
    var steps := [step] + rest;
    assert steps[0] == step && steps[1..] == rest;
  }

  lemma Rejoin(a: seq<Frame>, frame: Frame, b: seq<Frame>)
    ensures (a + [frame]) + b == a + ([frame] + b)
  {
  }

  // ----- Accumulation -----

  /** What an action on a stream makes the enqueue goroutine add. */
  function AddedBy(u: Enqueue.Updates, id: nat, e: End, a: Action): Enqueue.Updates {
    if a == Reading(ReadAnnounces) && e.reader.Announcing? then Enqueue.WithIncrement(u, id, e.reader.count)
    else if a == Closing(CloseWriteEnqueues) && e.closingWrite.Stopped? && e.closingWrite.send then
      Enqueue.WithHalfClose(u, id)
    else if a == Closing(CloseEnqueues) && e.closing.Stopped? && e.closing.send then Enqueue.WithClose(u, id)
    else u
  }

  predicate SameUpdates(e: End, e': End) {
    e'.windowIncrement == e.windowIncrement && e'.writeClose == e.writeClose && e'.close == e.close
  }

  lemma ReadingAdds(u: Enqueue.Updates, id: nat, e: End, a: ReadAction)
    requires DescribesEnd(u, id, e) && ReadEnabled(e, a) && ReadStep(e, a).Next?
    requires e.reader.Announcing? ==> Pending(e) + e.reader.count <= MAX_UINT64
    ensures DescribesEnd(AddedBy(u, id, e, Reading(a)), id, ReadStep(e, a).end)
  {
    match a
    case ReadAnnounces =>
    case ReadBegins =>
    case ReadTakesToken =>
    case ReadTakes(_) =>
    case ReadReturnsEOF =>
    case ReadAborts =>
  }

  lemma ClosingAdds(u: Enqueue.Updates, id: nat, e: End, a: CloseAction)
    requires DescribesEnd(u, id, e) && CloseEnabled(e, a)
    ensures CloseStep(e, a).Next? && DescribesEnd(AddedBy(u, id, e, Closing(a)), id, CloseStep(e, a).end)
  {
    match a
    case CloseWriteEnqueues =>
    case CloseEnqueues =>
    case CloseWriteBegins(_) =>
    case CloseWriteStops =>
    case CloseBegins =>
    case CloseStops =>
    case Deregisters =>
  }

  lemma WritingAddsNothing(role: Role, e: End, a: WriteAction)
    requires WriteEnabled(e, a) && WriteStep(role, e, a).Next?
    ensures SameUpdates(e, WriteStep(role, e, a).end)
  {
    match a
    case WriteBegins(_) =>
    case WriteTakesToken =>
    case WriteTakesWindow =>
    case WriteSends =>
    case WriteReturns =>
    case WriteAborts =>
    case WriteExpires =>
  }

  lemma OpeningAddsNothing(role: Role, window: nat, e: End, o: OpenAction)
    ensures OpenStep(role, window, e, o).Next? && SameUpdates(e, OpenStep(role, window, e, o).end)
  {
    match o
    case Allocate =>
    case SendOpen =>
    case OpenReturns =>
    case OpenFails =>
  }

  lemma AcceptingAddsNothing(role: Role, window: nat, e: End, c: AcceptAction)
    ensures AcceptStep(role, window, e, c).Next? && SameUpdates(e, AcceptStep(role, window, e, c).end)
  {
    match c
    case TakePending =>
    case AcceptFails =>
    case MarkEstablished =>
    case SendAccept =>
  }

  lemma ActAdds(role: Role, window: nat, u: Enqueue.Updates, id: nat, e: End, a: Action)
    requires DescribesEnd(u, id, e) && Enabled(role, e, a) && !a.Flushing? && Local(role, window, e, a).Next?
    requires e.reader.Announcing? ==> Pending(e) + e.reader.count <= MAX_UINT64
    ensures DescribesEnd(AddedBy(u, id, e, a), id, Local(role, window, e, a).end)
  {
    match a
    case Opening(o) => OpeningAddsNothing(role, window, e, o);
    case Accepting(c) => AcceptingAddsNothing(role, window, e, c);
    case Writing(w) => WritingAddsNothing(role, e, w);
    case Reading(r) => ReadingAdds(u, id, e, r);
    case Closing(c) => ClosingAdds(u, id, e, c);
  }

  lemma ReceivingAddsNothing(outbound: bool, window: nat, e: End, m: Message, found: bool)
    requires !m.Open? && Receive(outbound, window, e, m, found).Next?
    ensures SameUpdates(e, Receive(outbound, window, e, m, found).end)
  {
    match m
    case Accept(_) =>
    case Data(_) =>
    case Increment(_) =>
    case CloseWrite =>
    case Close =>
  }

  // ----- Every step -----

  /** The update that a flush writes out. */
  function FrameOf(id: nat, e: End, f: FlushAction): Frame
    requires FlushEnabled(e, f)
  {
    match f
    case FlushIncrement => ForStream(id, Increment(e.windowIncrement.value))
    case FlushCloseWrite => ForStream(id, CloseWrite)
    case FlushClose => ForStream(id, Close)
  }

  /** What is accumulated after a step of the network. */
  function UpdatesAfter(net: Net, side: Side, step: Step, u: Enqueue.Updates): Enqueue.Updates
    requires Enables(net, step)
  {
    match step
    case Act(s, id, a) =>
      if s != side then u
      else if a.Flushing? then Enqueue.Without(u, FrameOf(id, net.At(side).At(id), a.flush))
      else AddedBy(u, id, net.At(side).At(id), a)
    case HandleOpen(s) =>
      // A stream for which the backlog has no room is rejected.
      if s == side && |net.At(side).backlog| == net.At(side).configuration.acceptBacklog then
        Enqueue.WithClose(u, Identifier(net, side))
      else u
    case _ => u
  }

  /** The updates agree about every stream but one. */
  ghost predicate AgreeElsewhere(u: Enqueue.Updates, u': Enqueue.Updates, id: nat) {
    forall j | j != id ::
      && (j in u'.increments <==> j in u.increments)
      && (j in u.increments ==> u'.increments[j] == u.increments[j])
      && (j in u'.writeCloses <==> j in u.writeCloses)
      && (j in u'.closes <==> j in u.closes)
  }

  lemma DescribesChanged(u: Enqueue.Updates, u': Enqueue.Updates, id: nat, p: Endpoint, p': Endpoint)
    requires id >= 1 && Describes(u, p) && AgreeElsewhere(u, u', id)
    requires DescribesEnd(u', id, p'.At(id)) && forall j | j != id :: p'.At(j) == p.At(j)
    ensures Describes(u', p')
  {
    forall j: nat | j >= 1 ensures DescribesEnd(u', j, p'.At(j)) {
      assert DescribesEnd(u, j, p.At(j));
    }
  }

  lemma AddedElsewhere(u: Enqueue.Updates, id: nat, e: End, a: Action)
    ensures AgreeElsewhere(u, AddedBy(u, id, e, a), id)
  {
  }

  /** The credit bound rules out a wrap-around in the accumulated increment. */
  lemma AnnouncedFits(net: Net, side: Side, id: nat)
    requires Inv(net) && id >= 1 && net.At(side).At(id).reader.Announcing?
    ensures Pending(net.At(side).At(id)) + net.At(side).At(id).reader.count <= MAX_INT64
  {
    NetworkTheorems.StreamInv(net, side.Other(), id);
    Roles(side, id);
    var s, r := net.At(side.Other()).At(id), net.At(side).At(id);
    var out, back := Project(net.From(side.Other()), id), Project(net.From(side), id);
    UnannouncedFits(WindowsOf(net, id), RoleOf(side.Other(), id), Link.SendingOf(s), Link.ReceivingOf(r), out, back);
  }

  lemma UnannouncedFits(windows: Link.Windows, role: Role, s: Link.SenderView, r: Link.ReceiverView,
                        out: seq<Message>, back: seq<Message>)
    requires windows.Valid() && Link.DirectionInv(role, windows, s, r, out, back)
    ensures r.unannounced <= MAX_INT64
  {
  }

  lemma ActChangesDescription(net: Net, side: Side, u: Enqueue.Updates, id: nat, a: Action)
    requires Describes(u, net.At(side)) && Enables(net, Act(side, id, a)) && !a.Flushing?
    requires DoAct(net, side, id, a).Stepped?
    requires
      var e := net.At(side).At(id);
      e.reader.Announcing? ==> Pending(e) + e.reader.count <= MAX_UINT64
    ensures Describes(AddedBy(u, id, net.At(side).At(id), a), DoAct(net, side, id, a).net.At(side))
  {
    var p, e := net.At(side), net.At(side).At(id);
    assert DescribesEnd(u, id, e);
    ActChanges(net, side, id, a);
    ActAdds(RoleOf(side, id), p.configuration.streamReceiveWindow, u, id, e, a);
    AddedElsewhere(u, id, e, a);
    DescribesChanged(u, AddedBy(u, id, e, a), id, p, DoAct(net, side, id, a).net.At(side));
  }

  lemma ActKeepsDescription(net: Net, side: Side, u: Enqueue.Updates, id: nat, a: Action)
    requires Inv(net) && Describes(u, net.At(side)) && Enables(net, Act(side, id, a)) && !a.Flushing?
    requires DoAct(net, side, id, a).Stepped?
    ensures Describes(AddedBy(u, id, net.At(side).At(id), a), DoAct(net, side, id, a).net.At(side))
  {
    if net.At(side).At(id).reader.Announcing? { AnnouncedFits(net, side, id); }
    ActChangesDescription(net, side, u, id, a);
  }

  lemma FlushKeepsDescription(net: Net, side: Side, u: Enqueue.Updates, id: nat, f: FlushAction)
    requires Describes(u, net.At(side)) && Enables(net, Act(side, id, Flushing(f)))
    requires DoAct(net, side, id, Flushing(f)).Stepped?
    ensures
      var frame := FrameOf(id, net.At(side).At(id), f);
      && Enqueue.Offers(u, frame)
      && Describes(Enqueue.Without(u, frame), DoAct(net, side, id, Flushing(f)).net.At(side))
  {
    var frame := FrameOf(id, net.At(side).At(id), f);
    assert DescribesEnd(u, id, net.At(side).At(id));
    assert Enqueue.Offers(u, frame) && FlushOf(frame.message) == f;
    UpdateChanges(net, side, u, frame);
  }

  /** An endpoint in which one end changes, but not its updates. */
  lemma SameUpdatesKeep(u: Enqueue.Updates, id: nat, p: Endpoint, p': Endpoint)
    requires id >= 1 && Describes(u, p) && SameUpdates(p.At(id), p'.At(id)) && forall j | j != id :: p'.At(j) == p.At(j)
    ensures Describes(u, p')
  {
    assert DescribesEnd(u, id, p.At(id));
    DescribesChanged(u, u, id, p, p');
  }

  lemma HandleKeepsDescription(net: Net, side: Side, u: Enqueue.Updates)
    requires Describes(u, net.At(side)) && Enables(net, Handle(side)) && DoHandle(net, side).Stepped?
    requires Identifier(net, side) >= 1
    ensures Describes(u, DoHandle(net, side).net.At(side))
  {
    var p, id, m := net.At(side), Identifier(net, side), Head(net, side);
    var e := p.At(id);
    HandleChanges(net, side);
    ReceivingAddsNothing(IsOutbound(side, id), p.configuration.streamReceiveWindow, e, m, e.lookedUp.value);
    SameUpdatesKeep(u, id, p, DoHandle(net, side).net.At(side));
  }

  lemma LookUpKeepsDescription(net: Net, side: Side, u: Enqueue.Updates)
    requires Describes(u, net.At(side)) && Enables(net, LookUp(side)) && DoLookUp(net, side).Stepped?
    ensures Describes(u, DoLookUp(net, side).net.At(side))
  {
    SameUpdatesKeep(u, Identifier(net, side), net.At(side), DoLookUp(net, side).net.At(side));
  }

  lemma HandleOpenKeepsDescription(net: Net, side: Side, u: Enqueue.Updates)
    requires Describes(u, net.At(side)) && Enables(net, HandleOpen(side)) && DoHandleOpen(net, side).Stepped?
    ensures Describes(UpdatesAfter(net, side, HandleOpen(side), u), DoHandleOpen(net, side).net.At(side))
  {
    var p, id := net.At(side), Identifier(net, side);
    var u', p' := UpdatesAfter(net, side, HandleOpen(side), u), DoHandleOpen(net, side).net.At(side);
    HandleOpenChanges(net, side);
    assert DescribesEnd(u, id, p.At(id));
    assert AgreeElsewhere(u, u', id);
    assert DescribesEnd(u', id, p'.At(id));
    DescribesChanged(u, u', id, p, p');
  }

  lemma StepKeepsDescription(net: Net, side: Side, u: Enqueue.Updates, step: Step)
    requires Inv(net) && Describes(u, net.At(side)) && Enables(net, step) && Do(net, step).Stepped?
    ensures Describes(UpdatesAfter(net, side, step, u), Do(net, step).net.At(side))
  {
    match step
    case Act(s, id, a) =>
      if s != side {
        ActChanges(net, s, id, a);
      } else if a.Flushing? {
        FlushKeepsDescription(net, side, u, id, a.flush);
      } else {
        ActKeepsDescription(net, side, u, id, a);
      }
    case LookUp(s) => if s == side { LookUpKeepsDescription(net, side, u); }
    case Handle(s) =>
      HandleChanges(net, s);
      if s == side { HeadOfLink(net, side); HandleKeepsDescription(net, side, u); }
    case HandleOpen(s) =>
      HandleOpenChanges(net, s);
      if s == side { HandleOpenKeepsDescription(net, side, u); }
    case SendHeartbeat(_, _) =>
    case HandleHeartbeat(_) =>
  }

  /** What is accumulated after a run of the network. */
  function UpdatesOver(net: Net, side: Side, steps: seq<Step>, u: Enqueue.Updates): Enqueue.Updates
    requires NetworkTheorems.Possible(net, steps)
    decreases |steps|
  {
    if steps == [] || Do(net, steps[0]).Broken? then u
    else UpdatesOver(Do(net, steps[0]).net, side, steps[1..], UpdatesAfter(net, side, steps[0], u))
  }

  lemma {:induction false} RunKeepsDescription(net: Net, side: Side, u: Enqueue.Updates, steps: seq<Step>)
    requires Inv(net) && Describes(u, net.At(side))
    requires NetworkTheorems.Possible(net, steps) && NetworkTheorems.Run(net, steps).Stepped?
    ensures Describes(UpdatesOver(net, side, steps, u), NetworkTheorems.Run(net, steps).net.At(side))
    decreases |steps|
  {
    if steps != [] {
      StepKeepsInv(net, steps[0]);
      StepKeepsDescription(net, side, u, steps[0]);
      RunKeepsDescription(Do(net, steps[0]).net, side, UpdatesAfter(net, side, steps[0], u), steps[1..]);
    }
  }

  /** In every run of two new multiplexers, the updates that the enqueue goroutine has
      accumulated are exactly those that the ends of the streams wait for. */
  lemma AccumulatedIsPending(odd: Configuration, even: Configuration, side: Side, steps: seq<Step>)
    requires odd.Valid() && even.Valid() && NetworkTheorems.Possible(Initial(odd, even), steps)
    requires NetworkTheorems.Run(Initial(odd, even), steps).Stepped?
    ensures
      Describes(UpdatesOver(Initial(odd, even), side, steps, Enqueue.Updates(map[], {}, {})),
                NetworkTheorems.Run(Initial(odd, even), steps).net.At(side))
  {
    InitialInv(odd, even);
    RunKeepsDescription(Initial(odd, even), side, Enqueue.Updates(map[], {}, {}), steps);
  }
}
