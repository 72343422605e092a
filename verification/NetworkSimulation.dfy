/** A step of the network is a step of one of its streams and leaves the others alone. */
module NetworkSimulation {
  import opened Wrappers
  import opened Messages
  import opened StreamEnd
  import Link
  import opened Network

  /** The step that the network step `step` is for the stream `id`, if it concerns it. */
  function StepFor(net: Net, step: Step, id: nat): Option<Link.Step>
    requires Enables(net, step)
  {
    match step
    case Act(side, i, action) => if i == id then Some(Link.Act(RoleOf(side, id), action)) else None
    case SendHeartbeat(_, _) => None
    case HandleHeartbeat(_) => None
    case LookUp(side) => if Identifier(net, side) == id then Some(Link.LookUp(RoleOf(side, id))) else None
    case Handle(side) => if Identifier(net, side) == id then Some(Link.Handle(RoleOf(side, id))) else None
    case HandleOpen(side) =>
      if Identifier(net, side) == id
      then Some(Link.HandleOpen(|net.At(side).backlog| == net.At(side).configuration.acceptBacklog))
      else None
  }

  /** Stream `id` of `net'` is what `step` makes of stream `id` of `net`. */
  predicate Follows(net: Net, net': Net, step: Option<Link.Step>, id: nat) {
    && WindowsOf(net', id) == WindowsOf(net, id)
    && match step
       case None => LinkOf(net', id) == LinkOf(net, id)
       case Some(s) =>
         && Link.Enables(LinkOf(net, id), s)
         && Link.Do(WindowsOf(net, id), LinkOf(net, id), s) == Link.Stepped(LinkOf(net', id))
  }

  lemma Roles(side: Side, id: nat)
    ensures RoleOf(side, id).Opener? <==> side == OpenerSide(id)
    ensures RoleOf(side.Other(), id) == RoleOf(side, id).Peer()
  {
  }

  lemma LinkParts(net: Net, side: Side, id: nat)
    ensures LinkOf(net, id).At(RoleOf(side, id)) == net.At(side).At(id)
    ensures LinkOf(net, id).At(RoleOf(side, id).Peer()) == net.At(side.Other()).At(id)
    ensures LinkOf(net, id).From(RoleOf(side, id)) == Project(net.From(side), id)
    ensures LinkOf(net, id).From(RoleOf(side, id).Peer()) == Project(net.From(side.Other()), id)
    ensures WindowsOf(net, id).Of(RoleOf(side, id)) == net.At(side).configuration.streamReceiveWindow
  {
    Roles(side, id);
  }

  /** A stream of a network, put together from one side's point of view. */
  function Assemble(side: Side, id: nat, own: End, peer: End, out: seq<Message>, back: seq<Message>): Link.Link {
    if RoleOf(side, id).Opener? then Link.Link(own, peer, out, back) else Link.Link(peer, own, back, out)
  }

  lemma Assembled(net: Net, side: Side, id: nat)
    ensures LinkOf(net, id) == Assemble(side, id, net.At(side).At(id), net.At(side.Other()).At(id),
                                        Project(net.From(side), id), Project(net.From(side.Other()), id))
    ensures WindowsOf(net, id).Of(RoleOf(side, id)) == net.At(side).configuration.streamReceiveWindow
  {
  }

  /** The network after one side's stream and the frames have changed. */
  predicate Changed(net: Net, net': Net, side: Side, id: nat, e: End) {
    && net'.At(side).configuration == net.At(side).configuration
    && net'.At(side.Other()) == net.At(side.Other())
    && net'.At(side).streams == net.At(side).streams[id := e]
  }

  lemma ActChanges(net: Net, side: Side, id: nat, a: Action)
    requires Enables(net, Act(side, id, a)) && DoAct(net, side, id, a).Stepped?
    ensures
      var net' := DoAct(net, side, id, a).net;
      var o := Local(RoleOf(side, id), net.At(side).configuration.streamReceiveWindow, net.At(side).At(id), a);
      && o.Next?
      && Changed(net, net', side, id, o.end)
      && net'.From(side.Other()) == net.From(side.Other())
      && net'.From(side) == if o.output.Some? then net.From(side) + [ForStream(id, o.output.value)] else net.From(side)
  {
  }

  lemma ActFollows(net: Net, side: Side, id: nat, a: Action, j: nat)
    requires Enables(net, Act(side, id, a)) && DoAct(net, side, id, a).Stepped?
    ensures Follows(net, DoAct(net, side, id, a).net, StepFor(net, Act(side, id, a), j), j)
  {
    var net' := DoAct(net, side, id, a).net;
    ActChanges(net, side, id, a);
    Assembled(net, side, j);
    Assembled(net', side, j);
    var o := Local(RoleOf(side, id), net.At(side).configuration.streamReceiveWindow, net.At(side).At(id), a);
    if o.output.Some? {
      ProjectConcat(net.From(side), [ForStream(id, o.output.value)], j);
      ProjectOne(ForStream(id, o.output.value), j);
    }
    if id == j {
      LinkParts(net, side, j);
    }
  }

  lemma {:induction false} ProjectInsert(frames: seq<Frame>, position: nat, id: nat)
    requires position <= |frames|
    ensures Project(frames[..position] + [Heartbeat] + frames[position..], id) == Project(frames, id)
  {
    var a, b := frames[..position], frames[position..];
    assert frames == a + b;
    assert a + [Heartbeat] + b == a + ([Heartbeat] + b);
    ProjectConcat(a, b, id);
    ProjectConcat(a, [Heartbeat] + b, id);
    ProjectConcat([Heartbeat], b, id);
    ProjectOne(Heartbeat, id);
  }

  lemma HeartbeatFollows(net: Net, step: Step, j: nat)
    requires Enables(net, step) && (step.SendHeartbeat? || step.HandleHeartbeat?)
    ensures Do(net, step).Stepped?
    ensures Follows(net, Do(net, step).net, None, j)
  {
    var net' := Do(net, step).net;
    Assembled(net, step.side, j);
    Assembled(net', step.side, j);
    if step.SendHeartbeat? {
      ProjectInsert(net.From(step.side), step.position, j);
    }
  }

  lemma LookUpFollows(net: Net, side: Side, j: nat)
    requires Enables(net, LookUp(side)) && DoLookUp(net, side).Stepped?
    ensures Follows(net, DoLookUp(net, side).net, StepFor(net, LookUp(side), j), j)
  {
    var net' := DoLookUp(net, side).net;
    Assembled(net, side, j);
    Assembled(net', side, j);
    if Identifier(net, side) == j {
      LinkParts(net, side, j);
    }
  }

  lemma HandleChanges(net: Net, side: Side)
    requires Enables(net, Handle(side)) && DoHandle(net, side).Stepped?
    ensures
      var net', id, m := DoHandle(net, side).net, Identifier(net, side), Head(net, side);
      var e := net.At(side).At(id);
      var o := Receive(IsOutbound(side, id), net.At(side).configuration.streamReceiveWindow, e, m, e.lookedUp.value);
      && o.Next?
      && Changed(net, net', side, id, Link.Settle(RoleOf(side.Other(), id), o.end, m))
      && net'.From(side) == net.From(side)
      && net'.From(side.Other()) == net.From(side.Other())[1..]
  {
  }

  lemma HandleFollows(net: Net, side: Side, j: nat)
    requires Enables(net, Handle(side)) && DoHandle(net, side).Stepped?
    ensures Follows(net, DoHandle(net, side).net, StepFor(net, Handle(side), j), j)
  {
    var net' := DoHandle(net, side).net;
    HandleChanges(net, side);
    Assembled(net, side, j);
    Assembled(net', side, j);
    Roles(side, j);
    if Identifier(net, side) == j {
      LinkParts(net, side, j);
    }
  }

  lemma HandleOpenChanges(net: Net, side: Side)
    requires Enables(net, HandleOpen(side)) && DoHandleOpen(net, side).Stepped?
    ensures
      var net', id, m := DoHandleOpen(net, side).net, Identifier(net, side), Head(net, side);
      var full := |net.At(side).backlog| == net.At(side).configuration.acceptBacklog;
      var o := ReceiveOpen(net.At(side).At(id), m.window, full);
      && !IsOutbound(side, id)
      && o.Next?
      && Changed(net, net', side, id, Link.Settle(Opener, o.end, m))
      && net'.From(side) == net.From(side)
      && net'.From(side.Other()) == net.From(side.Other())[1..]
  {
  }

  lemma HandleOpenFollows(net: Net, side: Side, j: nat)
    requires Enables(net, HandleOpen(side)) && DoHandleOpen(net, side).Stepped?
    ensures Follows(net, DoHandleOpen(net, side).net, StepFor(net, HandleOpen(side), j), j)
  {
    var net' := DoHandleOpen(net, side).net;
    HandleOpenChanges(net, side);
    Assembled(net, side, j);
    Assembled(net', side, j);
    Roles(side, j);
    if Identifier(net, side) == j {
      LinkParts(net, side, j);
    }
  }

  /** Whatever the network does, each of its streams follows. */
  lemma StepFollows(net: Net, step: Step, j: nat)
    requires Enables(net, step) && Do(net, step).Stepped?
    ensures Follows(net, Do(net, step).net, StepFor(net, step, j), j)
  {
    match step
    case Act(side, id, action) => ActFollows(net, side, id, action, j);
    case SendHeartbeat(_, _) => HeartbeatFollows(net, step, j);
    case HandleHeartbeat(_) => HeartbeatFollows(net, step, j);
    case LookUp(side) => LookUpFollows(net, side, j);
    case Handle(side) => HandleFollows(net, side, j);
    case HandleOpen(side) => HandleOpenFollows(net, side, j);
  }
}
