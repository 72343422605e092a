/** The invariant of the whole network and its preservation by every step. */
module NetworkInvariants {
  import opened Wrappers
  import opened Messages
  import opened StreamEnd
  import Link
  import LinkLocal
  import LinkReceive
  import LinkTheorems
  import opened Network
  import opened NetworkSimulation

  ghost predicate StreamsInv(net: Net) {
    forall id | id >= 1 :: Link.Inv(WindowsOf(net, id), LinkOf(net, id))
  }

  /** The identifiers in use lie within the ranges that the reader goroutines check. */
  ghost predicate RangeInv(p: Endpoint, side: Side) {
    && (p.nextOutbound != 0 ==> IsOutbound(side, p.nextOutbound) && p.nextOutbound <= MAX_UINT64)
    && (forall id | id >= 1 && !p.At(id).origin.Absent? :: id <= MAX_UINT64)
    && (forall id | id >= 1 && !p.At(id).origin.Absent? ::
          IsOutbound(side, id) ==> p.nextOutbound == 0 || id < p.nextOutbound)
    && (forall id | id >= 1 && !p.At(id).origin.Absent? ::
          !IsOutbound(side, id) ==> id <= p.largestOpenedInbound)
  }

  /** The backlog holds the inbound streams that wait to be accepted, each once. */
  ghost predicate BacklogInv(p: Endpoint) {
    && |p.backlog| <= p.configuration.acceptBacklog
    && (forall i, j | 0 <= i < j < |p.backlog| :: p.backlog[i] != p.backlog[j])
    && (forall id | id >= 1 :: id in p.backlog <==> p.At(id).origin.Queued?)
    && 0 !in p.backlog
  }

  ghost predicate OpeningInv(p: Endpoint) {
    && (forall id | id >= 1 :: id in p.opening <==> p.At(id).origin.Allocated?)
    && 0 !in p.opening
  }

  predicate FramesInv(frames: seq<Frame>) {
    forall i | 0 <= i < |frames| && frames[i].ForStream? :: 1 <= frames[i].id <= MAX_UINT64
  }

  ghost predicate EndpointInv(net: Net, side: Side) {
    && net.At(side).configuration.Valid()
    && RangeInv(net.At(side), side)
    && BacklogInv(net.At(side))
    && OpeningInv(net.At(side))
    && FramesInv(net.From(side))
  }

  ghost predicate Inv(net: Net) {
    StreamsInv(net) && EndpointInv(net, Odd) && EndpointInv(net, Even)
  }

  // ----- Streams -----

  lemma InitialInv(odd: Configuration, even: Configuration)
    requires odd.Valid() && even.Valid()
    ensures Inv(Initial(odd, even))
  {
    var net := Initial(odd, even);
    forall id | id >= 1
      ensures Link.Inv(WindowsOf(net, id), LinkOf(net, id))
    {
      assert LinkOf(net, id) == Link.IDLE;
      IdleInv(WindowsOf(net, id));
    }
  }

  lemma IdleInv(windows: Link.Windows)
    requires windows.Valid()
    ensures Link.Inv(windows, Link.IDLE)
  {
  }

  lemma StreamsStay(net: Net, step: Step)
    requires StreamsInv(net) && Enables(net, step) && Do(net, step).Stepped?
    ensures StreamsInv(Do(net, step).net)
  {
    var net' := Do(net, step).net;
    forall id | id >= 1
      ensures Link.Inv(WindowsOf(net', id), LinkOf(net', id))
    {
      StepFollows(net, step, id);
      assert Link.Inv(WindowsOf(net, id), LinkOf(net, id));
      var s := StepFor(net, step, id);
      if s.Some? {
        LinkTheorems.StepKeepsInv(WindowsOf(net, id), LinkOf(net, id), s.value);
      }
    }
  }

  // ----- Origins -----

  function Became(e: End, a: Action): Origin {
    match a
    case Opening(Allocate) => Allocated
    case Opening(SendOpen) => Requested
    case Opening(OpenReturns) => Returned
    case Opening(OpenFails) => Failed(e.origin.Requested?)
    case Accepting(TakePending) => Taken
    case Accepting(AcceptFails) => Failed(true)
    case Accepting(MarkEstablished) => Marked
    case Accepting(SendAccept) => Returned
    case Writing(_) => e.origin
    case Reading(_) => e.origin
    case Closing(_) => e.origin
    case Flushing(_) => e.origin
  }

  lemma WritingKeepsOrigin(role: Role, e: End, a: WriteAction)
    requires WriteEnabled(e, a) && WriteStep(role, e, a).Next?
    ensures WriteStep(role, e, a).end.origin == e.origin
  {
    match a
    case WriteBegins(_) =>
    case WriteTakesToken =>
    case WriteTakesWindow =>
    case WriteSends =>
    case WriteReturns =>
    case WriteAborts =>
    case WriteExpires =>
  }

  lemma ReadingKeepsOrigin(e: End, a: ReadAction)
    requires ReadEnabled(e, a) && ReadStep(e, a).Next?
    ensures ReadStep(e, a).end.origin == e.origin
  {
    match a
    case ReadBegins =>
    case ReadTakesToken =>
    case ReadTakes(_) =>
    case ReadAnnounces =>
    case ReadReturnsEOF =>
    case ReadAborts =>
  }

  lemma ClosingKeepsOrigin(e: End, a: CloseAction)
    requires CloseEnabled(e, a) && CloseStep(e, a).Next?
    ensures CloseStep(e, a).end.origin == e.origin
  {
    match a
    case CloseWriteBegins(_) =>
    case CloseWriteStops =>
    case CloseWriteEnqueues =>
    case CloseBegins =>
    case CloseStops =>
    case CloseEnqueues =>
    case Deregisters =>
  }

  lemma FlushingKeepsOrigin(role: Role, e: End, a: FlushAction)
    requires FlushEnabled(e, a) && FlushStep(role, e, a).Next?
    ensures FlushStep(role, e, a).end.origin == e.origin
  {
    match a
    case FlushIncrement =>
    case FlushCloseWrite =>
    case FlushClose =>
  }

  lemma OpeningMovesOrigin(role: Role, window: nat, e: End, a: OpenAction)
    requires OpenStep(role, window, e, a).Next?
    ensures OpenStep(role, window, e, a).end.origin == Became(e, Opening(a))
  {
    match a
    case Allocate =>
    case SendOpen =>
    case OpenReturns =>
    case OpenFails =>
  }

  lemma AcceptingMovesOrigin(role: Role, window: nat, e: End, a: AcceptAction)
    requires AcceptStep(role, window, e, a).Next?
    ensures AcceptStep(role, window, e, a).end.origin == Became(e, Accepting(a))
  {
    match a
    case TakePending =>
    case AcceptFails =>
    case MarkEstablished =>
    case SendAccept =>
  }

  lemma ActOrigin(role: Role, window: nat, e: End, a: Action)
    requires Enabled(role, e, a) && Local(role, window, e, a).Next?
    ensures Local(role, window, e, a).end.origin == Became(e, a)
  {
    match a
    case Opening(o) => OpeningMovesOrigin(role, window, e, o);
    case Accepting(c) => AcceptingMovesOrigin(role, window, e, c);
    case Writing(w) => WritingKeepsOrigin(role, e, w);
    case Reading(r) => ReadingKeepsOrigin(e, r);
    case Closing(c) => ClosingKeepsOrigin(e, c);
    case Flushing(f) => FlushingKeepsOrigin(role, e, f);
  }

  // ----- Endpoints -----

  /** An endpoint whose stream `id` changes only in ways that leave its origin alone. */
  lemma SameOrigin(p: Endpoint, side: Side, id: nat, e: End)
    requires RangeInv(p, side) && BacklogInv(p) && OpeningInv(p)
    requires id >= 1 && e.origin == p.At(id).origin
    ensures RangeInv(p.With(id, e), side) && BacklogInv(p.With(id, e)) && OpeningInv(p.With(id, e))
  {
    var p' := p.With(id, e);
    assert forall i :: p'.At(i).origin == p.At(i).origin;
  }

  lemma ActKeepsRange(p: Endpoint, side: Side, id: nat, a: Action, e: End)
    requires RangeInv(p, side)
    requires id >= 1 && Enabled(RoleOf(side, id), p.At(id), a) && e.origin == Became(p.At(id), a)
    requires a == Opening(Allocate) ==> id == p.nextOutbound
    ensures RangeInv(Account(p, id, a).With(id, e), side)
  {
    var p' := Account(p, id, a).With(id, e);
    assert forall i :: p'.At(i) == if i == id then e else p.At(i);
    if a == Opening(Allocate) {
      assert p'.nextOutbound == NextIdentifier(id);
      assert p'.nextOutbound == 0 || id < p'.nextOutbound;
    } else {
      assert e.origin.Absent? <==> p.At(id).origin.Absent?;
      assert p'.nextOutbound == p.nextOutbound && p'.largestOpenedInbound == p.largestOpenedInbound;
    }
  }

  lemma ActKeepsOpening(p: Endpoint, side: Side, id: nat, a: Action, e: End)
    requires OpeningInv(p)
    requires id >= 1 && Enabled(RoleOf(side, id), p.At(id), a) && e.origin == Became(p.At(id), a)
    ensures OpeningInv(Account(p, id, a).With(id, e))
  {
    var p' := Account(p, id, a).With(id, e);
    assert forall i :: p'.At(i) == if i == id then e else p.At(i);
    assert id in p'.opening <==> e.origin.Allocated?;
  }

  lemma ActKeepsBacklog(p: Endpoint, side: Side, id: nat, a: Action, e: End)
    requires BacklogInv(p)
    requires id >= 1 && Enabled(RoleOf(side, id), p.At(id), a) && e.origin == Became(p.At(id), a)
    requires a == Accepting(TakePending) ==> p.backlog != [] && p.backlog[0] == id
    ensures BacklogInv(Account(p, id, a).With(id, e))
  {
    var p' := Account(p, id, a).With(id, e);
    assert forall i :: p'.At(i) == if i == id then e else p.At(i);
    if a == Accepting(TakePending) {
      assert forall i | 0 <= i < |p'.backlog| :: p'.backlog[i] == p.backlog[i + 1];
    }
  }

  lemma OpenKeepsEndpoint(p: Endpoint, side: Side, id: nat, e: End)
    requires RangeInv(p, side) && BacklogInv(p) && OpeningInv(p)
    requires 1 <= id <= MAX_UINT64 && !IsOutbound(side, id) && id > p.largestOpenedInbound
    requires p.At(id).origin.Absent?
    requires
      var full := |p.backlog| == p.configuration.acceptBacklog;
      e.origin == if full then Rejected else Queued
    ensures
      var full := |p.backlog| == p.configuration.acceptBacklog;
      var p' := p.(largestOpenedInbound := id, backlog := if full then p.backlog else p.backlog + [id]).With(id, e);
      RangeInv(p', side) && BacklogInv(p') && OpeningInv(p')
  {
    var full := |p.backlog| == p.configuration.acceptBacklog;
    var p' := p.(largestOpenedInbound := id, backlog := if full then p.backlog else p.backlog + [id]).With(id, e);
    assert forall i :: p'.At(i) == if i == id then e else p.At(i);
  }

  // ----- Steps -----

  /** Only an existing end takes a step, and it goes on existing. */
  lemma ActorExists(role: Role, e: End, a: Action)
    requires Link.EndInv(role, e) && Enabled(role, e, a)
    ensures !Became(e, a).Absent?
  {
  }

  /** An end of any stream is in order. */
  lemma EndIsInOrder(net: Net, side: Side, id: nat)
    requires StreamsInv(net) && id >= 1
    ensures Link.EndInv(RoleOf(side, id), net.At(side).At(id))
  {
    assert Link.Inv(WindowsOf(net, id), LinkOf(net, id));
    Roles(side, id);
    LinkParts(net, side, id);
  }

  lemma ActSteps(net: Net, side: Side, id: nat, a: Action)
    requires Inv(net) && Enables(net, Act(side, id, a))
    ensures DoAct(net, side, id, a).Stepped?
    ensures !Became(net.At(side).At(id), a).Absent?
  {
    var p, role := net.At(side), RoleOf(side, id);
    EndIsInOrder(net, side, id);
    ActorExists(role, p.At(id), a);
    LinkLocal.ActKeepsEnd(role, p.configuration.streamReceiveWindow, p.At(id), a);
  }

  lemma ActKeepsEndpoint(net: Net, side: Side, id: nat, a: Action)
    requires EndpointInv(net, side) && Enables(net, Act(side, id, a)) && DoAct(net, side, id, a).Stepped?
    requires !Became(net.At(side).At(id), a).Absent?
    ensures EndpointInv(DoAct(net, side, id, a).net, side)
  {
    var p, role := net.At(side), RoleOf(side, id);
    var o := Local(role, p.configuration.streamReceiveWindow, p.At(id), a);
    ActOrigin(role, p.configuration.streamReceiveWindow, p.At(id), a);
    ActKeepsRange(p, side, id, a, o.end);
    ActKeepsBacklog(p, side, id, a, o.end);
    ActKeepsOpening(p, side, id, a, o.end);
    ActChanges(net, side, id, a);
    var net' := DoAct(net, side, id, a).net;
    assert net'.At(side) == Account(p, id, a).With(id, o.end);
    assert !net'.At(side).At(id).origin.Absent?;
  }

  /** Nothing happens to the endpoint that does not take the step, except to what it has sent. */
  lemma BystanderKeepsEndpoint(net: Net, net': Net, side: Side)
    requires EndpointInv(net, side)
    requires net'.At(side) == net.At(side)
    requires net'.From(side) == net.From(side) || (net.From(side) != [] && net'.From(side) == net.From(side)[1..])
    ensures EndpointInv(net', side)
  {
  }

  lemma ActKeepsInv(net: Net, side: Side, id: nat, a: Action)
    requires Inv(net) && Enables(net, Act(side, id, a))
    ensures DoAct(net, side, id, a).Stepped?
    ensures Inv(DoAct(net, side, id, a).net)
  {
    ActSteps(net, side, id, a);
    StreamsStay(net, Act(side, id, a));
    ActKeepsEndpoint(net, side, id, a);
    ActChanges(net, side, id, a);
    BystanderKeepsEndpoint(net, DoAct(net, side, id, a).net, side.Other());
  }

  /** The message at the head of the frames is the head of its stream's queue. */
  lemma HeadOfLink(net: Net, side: Side)
    requires Inv(net) && HasMessage(net, side)
    ensures
      var id := Identifier(net, side);
      var role, l := RoleOf(side, id), LinkOf(net, id);
      && 1 <= id <= MAX_UINT64
      && l.From(role.Peer()) != [] && l.From(role.Peer())[0] == Head(net, side)
      && LinkReceive.Expects(role, WindowsOf(net, id), l.At(role), l.At(role.Peer()),
                             l.From(role.Peer()), l.From(role))
  {
    var id := Identifier(net, side);
    assert Link.Inv(WindowsOf(net, id), LinkOf(net, id));
    Roles(side, id);
    LinkParts(net, side, id);
  }

  /** No range check fails for a message other than open. */
  lemma LookUpSteps(net: Net, side: Side)
    requires Inv(net) && Enables(net, LookUp(side))
    ensures DoLookUp(net, side).Stepped?
  {
    var id := Identifier(net, side);
    var role, l := RoleOf(side, id), LinkOf(net, id);
    HeadOfLink(net, side);
    LinkParts(net, side, id);
    LinkReceive.MessageMeetsKnownStream(role, WindowsOf(net, id), l.At(role), l.At(role.Peer()),
                                        l.From(role.Peer()), l.From(role));
    LinkReceive.HeadIsInOrder(role.Peer(), l.At(role).seen, l.At(role.Peer()).sent, l.From(role.Peer()));
    assert !net.At(side).At(id).origin.Absent?;
  }

  lemma LookUpKeepsInv(net: Net, side: Side)
    requires Inv(net) && Enables(net, LookUp(side))
    ensures DoLookUp(net, side).Stepped?
    ensures Inv(DoLookUp(net, side).net)
  {
    LookUpSteps(net, side);
    StreamsStay(net, LookUp(side));
    var p, id := net.At(side), Identifier(net, side);
    SameOrigin(p, side, id, p.At(id).(lookedUp := Some(p.At(id).registered)));
    var net' := DoLookUp(net, side).net;
    BystanderKeepsEndpoint(net, net', side.Other());
    assert EndpointInv(net', side);
  }

  lemma HandleOutcome(net: Net, side: Side)
    requires Inv(net) && Enables(net, Handle(side))
    ensures DoHandle(net, side).Broken? <==> Head(net, side) == Increment(0)
    ensures DoHandle(net, side).Broken? ==> DoHandle(net, side).violation == ZeroIncrement
  {
    var id := Identifier(net, side);
    var role, l := RoleOf(side, id), LinkOf(net, id);
    HeadOfLink(net, side);
    LinkParts(net, side, id);
    LinkReceive.NothingUnexpected(role, WindowsOf(net, id), l.At(role), l.At(role.Peer()),
                                  l.From(role.Peer()), l.From(role));
  }

  lemma HandleKeepsInv(net: Net, side: Side)
    requires Inv(net) && Enables(net, Handle(side)) && DoHandle(net, side).Stepped?
    ensures Inv(DoHandle(net, side).net)
  {
    HandleChanges(net, side);
    StreamsStay(net, Handle(side));
    var net', id := DoHandle(net, side).net, Identifier(net, side);
    var e' := net'.At(side).At(id);
    SameOrigin(net.At(side), side, id, e');
    assert net'.At(side) == net.At(side).With(id, e');
    BystanderKeepsEndpoint(net, net', side.Other());
    assert EndpointInv(net', side);
  }

  /** An open message is for an inbound stream that does not exist yet. */
  lemma OpenMeetsAbsence(net: Net, side: Side)
    requires Inv(net) && Enables(net, HandleOpen(side))
    ensures
      var id := Identifier(net, side);
      id >= 1 && !IsOutbound(side, id) && net.At(side).At(id).origin.Absent?
  {
    var id := Identifier(net, side);
    var role, l := RoleOf(side, id), LinkOf(net, id);
    HeadOfLink(net, side);
    LinkParts(net, side, id);
    LinkReceive.HeadIsInOrder(role.Peer(), l.At(role).seen, l.At(role.Peer()).sent, l.From(role.Peer()));
    LinkReceive.OpenIsExpected(WindowsOf(net, id), l.acceptor, l.opener, l.fromOpener, l.fromAcceptor);
  }

  lemma OpenChecks(net: Net, side: Side)
    requires Enables(net, HandleOpen(side)) && Identifier(net, side) >= 1 && !IsOutbound(side, Identifier(net, side))
    ensures DoHandleOpen(net, side).Broken? <==> Identifier(net, side) <= net.At(side).largestOpenedInbound
    ensures DoHandleOpen(net, side).Broken? ==> DoHandleOpen(net, side).violation == IdentifierNotIncreasing
  {
  }

  /** The only check on an open message that can fail is that identifiers increase. */
  lemma HandleOpenOutcome(net: Net, side: Side)
    requires Inv(net) && Enables(net, HandleOpen(side))
    ensures DoHandleOpen(net, side).Broken? <==> Identifier(net, side) <= net.At(side).largestOpenedInbound
    ensures DoHandleOpen(net, side).Broken? ==> DoHandleOpen(net, side).violation == IdentifierNotIncreasing
    ensures !IsOutbound(side, Identifier(net, side)) && net.At(side).At(Identifier(net, side)).origin.Absent?
  {
    OpenMeetsAbsence(net, side);
    OpenChecks(net, side);
  }

  lemma HandleOpenKeepsInv(net: Net, side: Side)
    requires Inv(net) && Enables(net, HandleOpen(side)) && DoHandleOpen(net, side).Stepped?
    ensures Inv(DoHandleOpen(net, side).net)
  {
    HandleOpenOutcome(net, side);
    HandleOpenChanges(net, side);
    StreamsStay(net, HandleOpen(side));
    var net', id := DoHandleOpen(net, side).net, Identifier(net, side);
    BystanderKeepsEndpoint(net, net', side.Other());
    HandleOpenKeepsEndpoint(net, side);
  }

  /** The endpoint after an open message. */
  lemma OpenedEndpoint(net: Net, side: Side)
    requires Enables(net, HandleOpen(side)) && DoHandleOpen(net, side).Stepped?
    ensures
      var p, id, net' := net.At(side), Identifier(net, side), DoHandleOpen(net, side).net;
      var full, e := |p.backlog| == p.configuration.acceptBacklog, net'.At(side).At(id);
      && id > p.largestOpenedInbound
      && e.origin == (if full then Rejected else Queued)
      && net'.At(side) ==
         p.(largestOpenedInbound := id, backlog := if full then p.backlog else p.backlog + [id]).With(id, e)
      && net'.From(side) == net.From(side)
  {
  }

  lemma HandleOpenKeepsEndpoint(net: Net, side: Side)
    requires EndpointInv(net, side) && FramesInv(net.From(side.Other()))
    requires Enables(net, HandleOpen(side)) && DoHandleOpen(net, side).Stepped?
    requires !IsOutbound(side, Identifier(net, side)) && net.At(side).At(Identifier(net, side)).origin.Absent?
    ensures EndpointInv(DoHandleOpen(net, side).net, side)
  {
    OpenedEndpoint(net, side);
    var id := Identifier(net, side);
    OpenKeepsEndpoint(net.At(side), side, id, DoHandleOpen(net, side).net.At(side).At(id));
  }

  lemma HeartbeatKeepsInv(net: Net, step: Step)
    requires Inv(net) && Enables(net, step) && (step.SendHeartbeat? || step.HandleHeartbeat?)
    ensures Do(net, step).Stepped?
    ensures Inv(Do(net, step).net)
  {
    StreamsStay(net, step);
    HeartbeatKeepsEndpoint(net, step, Odd);
    HeartbeatKeepsEndpoint(net, step, Even);
  }

  lemma HeartbeatKeepsEndpoint(net: Net, step: Step, side: Side)
    requires EndpointInv(net, side) && Enables(net, step) && (step.SendHeartbeat? || step.HandleHeartbeat?)
    ensures EndpointInv(Do(net, step).net, side)
  {
    var net' := Do(net, step).net;
    assert net'.At(side) == net.At(side);
    assert FramesInv(net'.From(side));
  }

  /** Every step of two conforming multiplexers, however it is interleaved: the only
      messages that a reader goroutine can object to are an empty increment and an open
      message that overtook another. */
  lemma StepKeepsInv(net: Net, step: Step)
    requires Inv(net) && Enables(net, step)
    ensures Do(net, step).Stepped? ==> Inv(Do(net, step).net)
    ensures Do(net, step).Broken? <==>
              || (step.Handle? && Head(net, step.side) == Increment(0))
              || (step.HandleOpen? && Identifier(net, step.side) <= net.At(step.side).largestOpenedInbound)
  {
    match step
    case Act(side, id, action) => ActKeepsInv(net, side, id, action);
    case SendHeartbeat(_, _) => HeartbeatKeepsInv(net, step);
    case HandleHeartbeat(_) => HeartbeatKeepsInv(net, step);
    case LookUp(side) => LookUpKeepsInv(net, side);
    case Handle(side) =>
      HandleOutcome(net, side);
      if DoHandle(net, side).Stepped? {
        HandleKeepsInv(net, side);
      }
    case HandleOpen(side) =>
      HandleOpenOutcome(net, side);
      if DoHandleOpen(net, side).Stepped? {
        HandleOpenKeepsInv(net, side);
      }
  }
}
