/** Stream identifiers: which are given out, and which the reader goroutine lets pass. */
module Identifiers {
  import opened Wrappers
  import opened Messages
  import opened StreamEnd
  import Link
  import opened Network
  import opened NetworkSimulation
  import opened NetworkInvariants
  import opened NetworkTheorems

  /** The identifiers below the next one have all been given out, and no others. */
  ghost predicate DenseInv(p: Endpoint, side: Side) {
    forall id | 1 <= id <= MAX_UINT64 && IsOutbound(side, id) ::
      !p.At(id).origin.Absent? <==> p.nextOutbound == 0 || id < p.nextOutbound
  }

  /** The step neither gives out an identifier nor makes an outbound stream exist. */
  ghost predicate SameOutbound(p: Endpoint, p': Endpoint, side: Side) {
    && p'.nextOutbound == p.nextOutbound
    && forall id | id >= 1 && IsOutbound(side, id) :: p'.At(id).origin.Absent? == p.At(id).origin.Absent?
  }

  lemma SameStaysDense(p: Endpoint, p': Endpoint, side: Side)
    requires DenseInv(p, side) && SameOutbound(p, p', side)
    ensures DenseInv(p', side)
  {
  }

  lemma SameParity(side: Side, id: nat, i: nat)
    requires IsOutbound(side, id) && IsOutbound(side, i) && id <= i < id + 2
    ensures i == id
  {
  }

  lemma AllocationStaysDense(p: Endpoint, side: Side, id: nat, e: End)
    requires DenseInv(p, side) && 1 <= id <= MAX_UINT64 && id == p.nextOutbound && IsOutbound(side, id)
    requires !e.origin.Absent?
    ensures DenseInv(Account(p, id, Opening(Allocate)).With(id, e), side)
  {
    var p' := Account(p, id, Opening(Allocate)).With(id, e);
    forall i | 1 <= i <= MAX_UINT64 && IsOutbound(side, i)
      ensures !p'.At(i).origin.Absent? <==> p'.nextOutbound == 0 || i < p'.nextOutbound
    {
      assert p'.At(i) == if i == id then e else p.At(i);
      if id <= i < id + 2 { SameParity(side, id, i); }
    }
  }

  /** An end that does not exist does nothing but come into existence. */
  lemma OnlyAllocation(role: Role, e: End, a: Action)
    requires Link.EndInv(role, e) && Enabled(role, e, a) && e.origin.Absent?
    ensures a == Opening(Allocate)
  {
  }

  lemma OtherActsAreSame(p: Endpoint, side: Side, id: nat, a: Action, e: End)
    requires a != Opening(Allocate) && !p.At(id).origin.Absent? && !e.origin.Absent?
    ensures SameOutbound(p, Account(p, id, a).With(id, e), side)
  {
    var p' := Account(p, id, a).With(id, e);
    assert p'.nextOutbound == p.nextOutbound;
    assert forall i :: p'.At(i) == if i == id then e else p.At(i);
  }

  lemma ActStaysDense(net: Net, side: Side, id: nat, a: Action)
    requires Inv(net) && DenseInv(net.At(side), side) && Enables(net, Act(side, id, a))
    ensures DoAct(net, side, id, a).Stepped? && DenseInv(DoAct(net, side, id, a).net.At(side), side)
  {
    var p, role := net.At(side), RoleOf(side, id);
    ActSteps(net, side, id, a);
    EndIsInOrder(net, side, id);
    var o := Local(role, p.configuration.streamReceiveWindow, p.At(id), a);
    ActOrigin(role, p.configuration.streamReceiveWindow, p.At(id), a);
    ActResult(net, side, id, a);
    if a == Opening(Allocate) {
      AllocationStaysDense(p, side, id, o.end);
    } else {
      if p.At(id).origin.Absent? { OnlyAllocation(role, p.At(id), a); }
      OtherActsAreSame(p, side, id, a, o.end);
      SameStaysDense(p, Account(p, id, a).With(id, o.end), side);
    }
  }

  lemma ActResult(net: Net, side: Side, id: nat, a: Action)
    requires Enables(net, Act(side, id, a)) && DoAct(net, side, id, a).Stepped?
    ensures
      var p := net.At(side);
      var o := Local(RoleOf(side, id), p.configuration.streamReceiveWindow, p.At(id), a);
      o.Next? && DoAct(net, side, id, a).net.At(side) == Account(p, id, a).With(id, o.end)
  {
  }

  lemma LookUpIsSame(net: Net, side: Side)
    requires Enables(net, LookUp(side)) && DoLookUp(net, side).Stepped?
    ensures SameOutbound(net.At(side), DoLookUp(net, side).net.At(side), side)
  {
  }

  lemma HandleIsSame(net: Net, side: Side)
    requires Enables(net, Handle(side)) && DoHandle(net, side).Stepped?
    ensures SameOutbound(net.At(side), DoHandle(net, side).net.At(side), side)
  {
  }

  lemma HandleOpenIsSame(net: Net, side: Side)
    requires Enables(net, HandleOpen(side)) && DoHandleOpen(net, side).Stepped?
    ensures SameOutbound(net.At(side), DoHandleOpen(net, side).net.At(side), side)
  {
    HandleOpenChanges(net, side);
  }

  lemma StepStaysDense(net: Net, step: Step, side: Side)
    requires Inv(net) && DenseInv(net.At(side), side) && Enables(net, step) && Do(net, step).Stepped?
    ensures DenseInv(Do(net, step).net.At(side), side)
  {
    var net' := Do(net, step).net;
    if !step.SendHeartbeat? && !step.HandleHeartbeat? && step.side == side {
      match step
      case Act(_, id, a) => ActStaysDense(net, side, id, a);
      case LookUp(_) => LookUpIsSame(net, side); SameStaysDense(net.At(side), net'.At(side), side);
      case Handle(_) => HandleIsSame(net, side); SameStaysDense(net.At(side), net'.At(side), side);
      case HandleOpen(_) => HandleOpenIsSame(net, side); SameStaysDense(net.At(side), net'.At(side), side);
    } else {
      Elsewhere(net, step, side);
    }
  }

  lemma Elsewhere(net: Net, step: Step, side: Side)
    requires Enables(net, step) && Do(net, step).Stepped?
    requires step.SendHeartbeat? || step.HandleHeartbeat? || step.side != side
    ensures Do(net, step).net.At(side) == net.At(side)
  {
    match step
    case Act(s, id, a) => ActChanges(net, s, id, a);
    case SendHeartbeat(_, _) =>
    case HandleHeartbeat(_) =>
    case LookUp(_) =>
    case Handle(s) => HandleChanges(net, s);
    case HandleOpen(s) => HandleOpenChanges(net, s);
  }

  lemma {:induction false} RunStaysDense(net: Net, side: Side, steps: seq<Step>)
    requires Inv(net) && DenseInv(net.At(side), side)
    requires Possible(net, steps) && Run(net, steps).Stepped?
    ensures DenseInv(Run(net, steps).net.At(side), side)
    decreases |steps|
  {
    if steps != [] {
      StepKeepsInv(net, steps[0]);
      StepStaysDense(net, steps[0], side);
      RunStaysDense(Do(net, steps[0]).net, side, steps[1..]);
    }
  }

  /** In every run each side gives out its identifiers one after the other, leaving none out,
      until there are no more. */
  lemma IdentifiersAreDense(net: Net, side: Side, id: nat)
    requires Reachable(net) && 1 <= id <= MAX_UINT64 && IsOutbound(side, id)
    ensures !net.At(side).At(id).origin.Absent? <==> net.At(side).nextOutbound == 0 || id < net.At(side).nextOutbound
  {
    var odd: Configuration, even: Configuration, steps: seq<Step> :|
      odd.Valid() && even.Valid() && Possible(Initial(odd, even), steps)
      && Run(Initial(odd, even), steps) == Stepped(net);
    InitialInv(odd, even);
    RunStaysDense(Initial(odd, even), side, steps);
  }

  /** Whatever a peer sends, a message other than open gets past the checks on its identifier
      exactly when it names a stream that has been allocated here, or, unless it is an accept,
      one in the range that the peer has opened. */
  lemma LookUpIsExact(net: Net, side: Side)
    requires DenseInv(net.At(side), side) && Enables(net, LookUp(side)) && Identifier(net, side) <= MAX_UINT64
    ensures
      var p, id := net.At(side), Identifier(net, side);
      DoLookUp(net, side).Stepped? <==>
        && id >= 1
        && if IsOutbound(side, id) then !p.At(id).origin.Absent?
           else !Head(net, side).Accept? && id <= p.largestOpenedInbound
  {
  }

  /** Whatever a peer sends, an open message is let in exactly when its identifier is one of the
      peer's and higher than every one before it; it is then the highest. */
  lemma OpenIsExact(net: Net, side: Side)
    requires Enables(net, HandleOpen(side))
    ensures
      var p, id := net.At(side), Identifier(net, side);
      var o := DoHandleOpen(net, side);
      && (o.Stepped? <==> id >= 1 && !IsOutbound(side, id) && id > p.largestOpenedInbound)
      && (o.Stepped? ==> o.net.At(side).largestOpenedInbound == id)
  {
  }

  // ----- The accept backlog is a queue -----

  predicate Ascending(ids: seq<nat>, limit: nat) {
    && (forall i | 0 <= i < |ids| :: ids[i] <= limit)
    && (forall i, j | 0 <= i < j < |ids| :: ids[i] < ids[j])
  }

  /** The step leaves the backlog and the highest identifier alone, or takes the first entry. */
  predicate BacklogStays(p: Endpoint, p': Endpoint) {
    && p'.largestOpenedInbound == p.largestOpenedInbound
    && (p'.backlog == p.backlog || (p.backlog != [] && p'.backlog == p.backlog[1..]))
  }

  lemma ActLeavesBacklog(net: Net, side: Side, id: nat, a: Action)
    requires Enables(net, Act(side, id, a)) && DoAct(net, side, id, a).Stepped?
    ensures BacklogStays(net.At(side), DoAct(net, side, id, a).net.At(side))
  {
    ActResult(net, side, id, a);
  }

  lemma StepKeepsAscending(net: Net, step: Step, side: Side)
    requires Enables(net, step) && Do(net, step).Stepped?
    requires Ascending(net.At(side).backlog, net.At(side).largestOpenedInbound)
    ensures Ascending(Do(net, step).net.At(side).backlog, Do(net, step).net.At(side).largestOpenedInbound)
  {
    if !step.SendHeartbeat? && !step.HandleHeartbeat? && step.side == side {
      match step
      case Act(_, id, a) => ActLeavesBacklog(net, side, id, a);
      case LookUp(_) =>
      case Handle(_) =>
      case HandleOpen(_) => OpenExtendsBacklog(net, side);
    } else {
      Elsewhere(net, step, side);
    }
  }

  lemma OpenExtendsBacklog(net: Net, side: Side)
    requires Enables(net, HandleOpen(side)) && DoHandleOpen(net, side).Stepped?
    ensures
      var p, p', id := net.At(side), DoHandleOpen(net, side).net.At(side), Identifier(net, side);
      && id > p.largestOpenedInbound && p'.largestOpenedInbound == id
      && (p'.backlog == p.backlog || p'.backlog == p.backlog + [id])
  {
  }

  lemma {:induction false} RunKeepsAscending(net: Net, side: Side, steps: seq<Step>)
    requires Ascending(net.At(side).backlog, net.At(side).largestOpenedInbound)
    requires Possible(net, steps) && Run(net, steps).Stepped?
    ensures
      Ascending(Run(net, steps).net.At(side).backlog, Run(net, steps).net.At(side).largestOpenedInbound)
    decreases |steps|
  {
    if steps != [] {
      StepKeepsAscending(net, steps[0], side);
      RunKeepsAscending(Do(net, steps[0]).net, side, steps[1..]);
    }
  }

  /** In every run, streams are accepted in the order in which they were opened: the one that
      is taken was opened before all others that wait. */
  lemma AcceptsInOrder(net: Net, side: Side, id: nat, other: nat)
    requires Reachable(net) && Enables(net, Act(side, id, Accepting(TakePending)))
    requires other in net.At(side).backlog && other != id
    ensures id < other <= net.At(side).largestOpenedInbound
  {
    var odd: Configuration, even: Configuration, steps: seq<Step> :|
      odd.Valid() && even.Valid() && Possible(Initial(odd, even), steps)
      && Run(Initial(odd, even), steps) == Stepped(net);
    RunKeepsAscending(Initial(odd, even), side, steps);
  }
}
