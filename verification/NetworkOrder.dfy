/** The discipline under which the multiplexers never object to each other: one
    OpenStream at a time, and no read into an empty buffer. */
module NetworkOrder {
  import opened Messages
  import opened StreamEnd
  import Link
  import LinkTheorems
  import opened Network
  import opened NetworkSimulation
  import opened NetworkInvariants

  /** OpenStream is not entered while another call holds an identifier that has not been
      sent, and Read is given room for at least one byte. */
  predicate Disciplined(net: Net, step: Step) {
    step.Act? ==>
      && (step.action == Opening(Allocate) ==> net.At(step.side).opening == {})
      && LinkTheorems.Disciplined(step.action)
  }

  predicate IsOpen(frame: Frame) { frame.ForStream? && frame.message.Open? }

  /** The last identifier opened once `frames` have been handled, given the last one before. */
  function HighestOpen(frames: seq<Frame>, floor: nat): nat {
    if frames == [] then floor
    else HighestOpen(frames[1..], if IsOpen(frames[0]) then frames[0].id else floor)
  }

  /** Open messages come with increasing identifiers. */
  predicate Increasing(frames: seq<Frame>, floor: nat) {
    frames == [] ||
    (if IsOpen(frames[0]) then frames[0].id > floor && Increasing(frames[1..], frames[0].id)
     else Increasing(frames[1..], floor))
  }

  predicate NoEmptyIncrement(frames: seq<Frame>) {
    forall i | 0 <= i < |frames| :: frames[i].ForStream? ==> frames[i].message != Increment(0)
  }

  lemma {:induction false} IncreasingConcat(a: seq<Frame>, b: seq<Frame>, floor: nat)
    ensures Increasing(a + b, floor) <==> Increasing(a, floor) && Increasing(b, HighestOpen(a, floor))
    ensures HighestOpen(a + b, floor) == HighestOpen(b, HighestOpen(a, floor))
    decreases |a|
  {
    if a == [] {
      assert a + b == b;
    } else {
      assert (a + b)[1..] == a[1..] + b;
      IncreasingConcat(a[1..], b, if IsOpen(a[0]) then a[0].id else floor);
    }
  }

  lemma IncreasingOne(frame: Frame, floor: nat)
    ensures Increasing([frame], floor) <==> (IsOpen(frame) ==> frame.id > floor)
    ensures HighestOpen([frame], floor) == if IsOpen(frame) then frame.id else floor
  {
    assert [frame][1..] == [];
  }

  lemma IncreasingInsert(frames: seq<Frame>, position: nat, floor: nat)
    requires position <= |frames|
    ensures
      var frames' := frames[..position] + [Heartbeat] + frames[position..];
      && Increasing(frames', floor) == Increasing(frames, floor)
      && HighestOpen(frames', floor) == HighestOpen(frames, floor)
  {
    var a, b := frames[..position], frames[position..];
    assert frames == a + b;
    assert a + [Heartbeat] + b == a + ([Heartbeat] + b);
    IncreasingConcat(a, b, floor);
    IncreasingConcat(a, [Heartbeat] + b, floor);
    IncreasingConcat([Heartbeat], b, HighestOpen(a, floor));
    IncreasingOne(Heartbeat, HighestOpen(a, floor));
  }

  // ----- What the discipline buys -----

  /** Open messages from `side` will arrive in order. */
  ghost predicate OpensInv(net: Net, side: Side) {
    OpensInOrder(net.At(side), net.From(side), net.At(side.Other()).largestOpenedInbound)
  }

  ghost predicate OpensInOrder(p: Endpoint, frames: seq<Frame>, floor: nat) {
    && Increasing(frames, floor)
    && (forall id | id in p.opening :: id > HighestOpen(frames, floor))
    && (forall id, id' | id in p.opening && id' in p.opening :: id == id')
    && (p.nextOutbound != 0 ==> HighestOpen(frames, floor) < p.nextOutbound)
  }

  ghost predicate PositiveStreams(net: Net) {
    forall id | id >= 1 :: Link.Positive(LinkOf(net, id))
  }

  ghost predicate Orderly(net: Net) {
    PositiveStreams(net) && OpensInv(net, Odd) && OpensInv(net, Even)
  }

  lemma InitialOrderly(odd: Configuration, even: Configuration)
    ensures Orderly(Initial(odd, even))
  {
    var net := Initial(odd, even);
    forall id | id >= 1
      ensures Link.Positive(LinkOf(net, id))
    {
      assert LinkOf(net, id) == Link.IDLE;
    }
  }

  lemma DisciplinedForStream(net: Net, step: Step, id: nat)
    requires Enables(net, step) && Disciplined(net, step)
    ensures
      var s := StepFor(net, step, id);
      s.Some? && s.value.Act? ==> LinkTheorems.Disciplined(s.value.action)
  {
    match step
    case Act(_, _, _) =>
    case SendHeartbeat(_, _) =>
    case HandleHeartbeat(_) =>
    case LookUp(_) =>
    case Handle(_) =>
    case HandleOpen(_) =>
  }

  lemma PositiveFollows(windows: Link.Windows, l: Link.Link, l': Link.Link, s: Link.Step)
    requires Link.Inv(windows, l) && Link.Positive(l) && Link.Enables(l, s)
    requires Link.Do(windows, l, s) == Link.Stepped(l')
    requires s.Act? ==> LinkTheorems.Disciplined(s.action)
    ensures Link.Positive(l')
  {
    LinkTheorems.StepKeepsPositive(windows, l, s);
  }

  lemma PositiveStaysFor(net: Net, step: Step, id: nat)
    requires Link.Inv(WindowsOf(net, id), LinkOf(net, id)) && Link.Positive(LinkOf(net, id)) && id >= 1
    requires Enables(net, step) && Disciplined(net, step) && Do(net, step).Stepped?
    ensures Link.Positive(LinkOf(Do(net, step).net, id))
  {
    StepFollows(net, step, id);
    DisciplinedForStream(net, step, id);
    var s := StepFor(net, step, id);
    if s.Some? {
      PositiveFollows(WindowsOf(net, id), LinkOf(net, id), LinkOf(Do(net, step).net, id), s.value);
    }
  }

  lemma PositiveStay(net: Net, step: Step)
    requires StreamsInv(net) && PositiveStreams(net) && Enables(net, step) && Disciplined(net, step)
    requires Do(net, step).Stepped?
    ensures PositiveStreams(Do(net, step).net)
  {
    forall id | id >= 1 ensures Link.Positive(LinkOf(Do(net, step).net, id)) {
      PositiveStaysFor(net, step, id);
    }
  }

  lemma ActKeepsOrder(p: Endpoint, frames: seq<Frame>, floor: nat, id: nat, a: Action, e: End)
    requires OpensInOrder(p, frames, floor) && a != Opening(SendOpen)
    requires a == Opening(Allocate) ==> p.opening == {} && id == p.nextOutbound && 1 <= id <= MAX_UINT64
    ensures OpensInOrder(Account(p, id, a).With(id, e), frames, floor)
  {
  }

  lemma SendOpenKeepsOrder(p: Endpoint, frames: seq<Frame>, floor: nat, id: nat, window: nat, e: End)
    requires OpensInOrder(p, frames, floor) && id in p.opening
    requires p.nextOutbound != 0 ==> id < p.nextOutbound
    ensures OpensInOrder(Account(p, id, Opening(SendOpen)).With(id, e), frames + [ForStream(id, Open(window))], floor)
  {
    IncreasingConcat(frames, [ForStream(id, Open(window))], floor);
    IncreasingOne(ForStream(id, Open(window)), HighestOpen(frames, floor));
    assert p.opening - {id} == {};
  }

  lemma OtherFramesKeepOrder(p: Endpoint, frames: seq<Frame>, floor: nat, frame: Frame)
    requires OpensInOrder(p, frames, floor) && !IsOpen(frame)
    ensures OpensInOrder(p, frames + [frame], floor)
  {
    IncreasingConcat(frames, [frame], floor);
    IncreasingOne(frame, HighestOpen(frames, floor));
  }

  lemma AllocatedIsOutbound(net: Net, side: Side, id: nat)
    requires Inv(net) && id >= 1 && net.At(side).At(id).origin.Allocated?
    ensures IsOutbound(side, id) && id in net.At(side).opening
  {
    assert Link.Inv(WindowsOf(net, id), LinkOf(net, id));
    LinkParts(net, side, id);
    Roles(side, id);
  }

  lemma ActKeepsOpens(net: Net, side: Side, id: nat, a: Action)
    requires Inv(net) && OpensInv(net, side) && Enables(net, Act(side, id, a)) && Disciplined(net, Act(side, id, a))
    requires DoAct(net, side, id, a).Stepped?
    ensures OpensInv(DoAct(net, side, id, a).net, side)
  {
    var p, frames, floor := net.At(side), net.From(side), net.At(side.Other()).largestOpenedInbound;
    var o := Local(RoleOf(side, id), p.configuration.streamReceiveWindow, p.At(id), a);
    ActChanges(net, side, id, a);
    if a == Opening(SendOpen) {
      AllocatedIsOutbound(net, side, id);
      SendOpenKeepsOrder(p, frames, floor, id, p.configuration.streamReceiveWindow, o.end);
    } else {
      ActKeepsOrder(p, frames, floor, id, a, o.end);
      if o.output.Some? {
        OnlySendOpenOpens(RoleOf(side, id), p.configuration.streamReceiveWindow, p.At(id), a);
        OtherFramesKeepOrder(Account(p, id, a).With(id, o.end), frames, floor, ForStream(id, o.output.value));
      }
    }
  }

  lemma OnlySendOpenOpens(role: Role, window: nat, e: End, a: Action)
    requires Enabled(role, e, a) && Local(role, window, e, a).Next?
    ensures
      var m := Local(role, window, e, a).output;
      m.Some? && m.value.Open? ==> a == Opening(SendOpen)
  {
  }

  /** Handling a message takes it off the frames of the other side. */
  lemma HandlingKeepsOpens(net: Net, side: Side, step: Step)
    requires OpensInv(net, side) && Enables(net, step) && Do(net, step).Stepped?
    requires step.HandleHeartbeat? || step.Handle? || step.HandleOpen?
    requires step.side == side.Other()
    ensures OpensInv(Do(net, step).net, side)
  {
    var net' := Do(net, step).net;
    assert net'.From(side) == net.From(side)[1..];
    assert net'.At(side) == net.At(side);
  }

  lemma BystanderKeepsOpens(net: Net, side: Side, id: nat, a: Action)
    requires OpensInv(net, side.Other()) && Enables(net, Act(side, id, a)) && DoAct(net, side, id, a).Stepped?
    ensures OpensInv(DoAct(net, side, id, a).net, side.Other())
  {
    ActChanges(net, side, id, a);
  }

  /** Steps that no OpenStream call takes. */
  lemma RestKeepsOpens(net: Net, step: Step, side: Side)
    requires OpensInv(net, side) && Enables(net, step) && !step.Act? && Do(net, step).Stepped?
    ensures OpensInv(Do(net, step).net, side)
  {
    match step
    case SendHeartbeat(s, position) =>
      if s == side {
        IncreasingInsert(net.From(side), position, net.At(side.Other()).largestOpenedInbound);
      }
    case HandleHeartbeat(s) => if s != side { HandlingKeepsOpens(net, side, step); }
    case LookUp(s) =>
    case Handle(s) =>
      HandleChanges(net, s);
      if s != side { HandlingKeepsOpens(net, side, step); }
    case HandleOpen(s) =>
      HandleOpenChanges(net, s);
      if s != side { HandlingKeepsOpens(net, side, step); }
  }

  lemma StepKeepsOpens(net: Net, step: Step, side: Side)
    requires Inv(net) && OpensInv(net, side) && Enables(net, step) && Disciplined(net, step)
    requires Do(net, step).Stepped?
    ensures OpensInv(Do(net, step).net, side)
  {
    if !step.Act? {
      RestKeepsOpens(net, step, side);
    } else if step.side == side {
      ActKeepsOpens(net, side, step.id, step.action);
    } else {
      BystanderKeepsOpens(net, step.side, step.id, step.action);
    }
  }

  lemma NoEmptyHead(net: Net, side: Side)
    requires Inv(net) && PositiveStreams(net) && HasMessage(net, side)
    ensures Head(net, side) != Increment(0)
  {
    HeadOfLink(net, side);
    assert Link.Positive(LinkOf(net, Identifier(net, side)));
  }

  /** The discipline is enough: nothing that either multiplexer sends is ever a protocol
      violation for the other. */
  lemma DisciplineSuffices(net: Net, step: Step)
    requires Inv(net) && Orderly(net) && Enables(net, step) && Disciplined(net, step)
    ensures Do(net, step).Stepped?
    ensures Inv(Do(net, step).net) && Orderly(Do(net, step).net)
  {
    StepKeepsInv(net, step);
    if step.Handle? { NoEmptyHead(net, step.side); }
    PositiveStay(net, step);
    StepKeepsOpens(net, step, Odd);
    StepKeepsOpens(net, step, Even);
  }
}
