/** What holds in every run of two multiplexers. */
module NetworkTheorems {
  import opened Wrappers
  import opened Messages
  import opened StreamEnd
  import Link
  import LinkTheorems
  import opened Network
  import opened NetworkSimulation
  import opened NetworkInvariants
  import opened NetworkOrder

  // ----- Runs -----

  /** Every step can be taken when its turn comes, up to the first violation. */
  predicate Possible(net: Net, steps: seq<Step>)
    decreases |steps|
  {
    steps == [] ||
    (Enables(net, steps[0]) && (Do(net, steps[0]).Stepped? ==> Possible(Do(net, steps[0]).net, steps[1..])))
  }

  function Run(net: Net, steps: seq<Step>): Network.Outcome
    requires Possible(net, steps)
    decreases |steps|
  {
    if steps == [] then Stepped(net)
    else
      var o := Do(net, steps[0]);
      if o.Broken? then o else Run(o.net, steps[1..])
  }

  predicate DisciplinedRun(net: Net, steps: seq<Step>)
    requires Possible(net, steps)
    decreases |steps|
  {
    steps == [] ||
    (Disciplined(net, steps[0]) &&
     (Do(net, steps[0]).Stepped? ==> DisciplinedRun(Do(net, steps[0]).net, steps[1..])))
  }

  lemma {:induction false} DisciplinedRunIsSafe(net: Net, steps: seq<Step>)
    requires Inv(net) && Orderly(net) && Possible(net, steps) && DisciplinedRun(net, steps)
    ensures Run(net, steps).Stepped?
    ensures Inv(Run(net, steps).net) && Orderly(Run(net, steps).net)
    decreases |steps|
  {
    if steps != [] {
      DisciplineSuffices(net, steps[0]);
      DisciplinedRunIsSafe(Do(net, steps[0]).net, steps[1..]);
    }
  }

  /** Two multiplexers that are used with discipline never break off: no run, however
      interleaved, reaches a protocol violation or a blocked readiness send. */
  lemma NoSelfInflictedViolation(odd: Configuration, even: Configuration, steps: seq<Step>)
    requires odd.Valid() && even.Valid()
    requires Possible(Initial(odd, even), steps) && DisciplinedRun(Initial(odd, even), steps)
    ensures Run(Initial(odd, even), steps).Stepped?
    ensures Inv(Run(Initial(odd, even), steps).net) && Orderly(Run(Initial(odd, even), steps).net)
  {
    InitialInv(odd, even);
    InitialOrderly(odd, even);
    DisciplinedRunIsSafe(Initial(odd, even), steps);
  }

  /** The invariant holds at the end of any run, disciplined or not, that has not broken off. */
  lemma {:induction false} RunKeepsInv(net: Net, steps: seq<Step>)
    requires Inv(net) && Possible(net, steps) && Run(net, steps).Stepped?
    ensures Inv(Run(net, steps).net)
    decreases |steps|
  {
    if steps != [] {
      StepKeepsInv(net, steps[0]);
      RunKeepsInv(Do(net, steps[0]).net, steps[1..]);
    }
  }

  // ----- Why both rules are needed -----

  /** Among these frames is one that a reader goroutine objects to. */
  predicate DoomedFrames(frames: seq<Frame>, floor: nat) {
    !Increasing(frames, floor) || !NoEmptyIncrement(frames)
  }

  /** A reader goroutine that goes on will meet a message it objects to. */
  predicate Doomed(net: Net, side: Side) {
    DoomedFrames(net.From(side.Other()), net.At(side).largestOpenedInbound)
  }

  /** If it is not the first frame, it is among the others. */
  lemma DoomedTail(frames: seq<Frame>, floor: nat)
    requires DoomedFrames(frames, floor)
    ensures frames != []
    ensures (frames[0].ForStream? && frames[0].message == Increment(0))
            || (IsOpen(frames[0]) && frames[0].id <= floor)
            || DoomedFrames(frames[1..], if IsOpen(frames[0]) then frames[0].id else floor)
  {
    if !NoEmptyIncrement(frames) {
      var i :| 0 <= i < |frames| && frames[i].ForStream? && frames[i].message == Increment(0);
      if i > 0 {
        assert frames[1..][i - 1] == frames[i];
      }
    }
  }

  /** The step that a reader goroutine takes next. */
  function NextRead(net: Net, side: Side): Step
    requires net.From(side.Other()) != []
  {
    if !HasMessage(net, side) then HandleHeartbeat(side)
    else if Head(net, side).Open? then HandleOpen(side)
    else if net.At(side).At(Identifier(net, side)).lookedUp.None? then LookUp(side)
    else Handle(side)
  }

  lemma NextReadIsEnabled(net: Net, side: Side)
    requires net.From(side.Other()) != []
    ensures Enables(net, NextRead(net, side))
  {
  }

  lemma NextReadTakes(net: Net, side: Side)
    requires net.From(side.Other()) != [] && !NextRead(net, side).LookUp?
    requires Enables(net, NextRead(net, side)) && Do(net, NextRead(net, side)).Stepped?
    ensures
      var net', frame := Do(net, NextRead(net, side)).net, net.From(side.Other())[0];
      && net'.From(side.Other()) == net.From(side.Other())[1..]
      && net'.At(side).largestOpenedInbound == if IsOpen(frame) then frame.id else net.At(side).largestOpenedInbound
  {
  }

  lemma DoomedGoesOn(net: Net, side: Side)
    requires Inv(net) && Doomed(net, side)
    ensures net.From(side.Other()) != []
    ensures Enables(net, NextRead(net, side))
    ensures
      var o := Do(net, NextRead(net, side));
      o.Stepped? ==>
        && Doomed(o.net, side)
        && if NextRead(net, side).LookUp?
           then o.net.From(side.Other()) == net.From(side.Other()) && !NextRead(o.net, side).LookUp?
           else |o.net.From(side.Other())| < |net.From(side.Other())|
  {
    DoomedTail(net.From(side.Other()), net.At(side).largestOpenedInbound);
    NextReadIsEnabled(net, side);
    var step := NextRead(net, side);
    if step.LookUp? {
      LookUpLeavesFrames(net, side);
    } else if Do(net, step).Stepped? {
      StepKeepsInv(net, step);
      NextReadTakes(net, side);
    }
  }

  lemma LookUpLeavesFrames(net: Net, side: Side)
    requires Enables(net, LookUp(side))
    ensures
      var o := DoLookUp(net, side);
      o.Stepped? ==>
        && o.net.From(side.Other()) == net.From(side.Other())
        && o.net.At(side).largestOpenedInbound == net.At(side).largestOpenedInbound
        && !NextRead(o.net, side).LookUp?
  {
  }

  /** A doomed reader goroutine breaks off if it just goes on reading. */
  lemma {:induction false} DoomedBreaks(net: Net, side: Side) returns (steps: seq<Step>)
    requires Inv(net) && Doomed(net, side)
    ensures Possible(net, steps) && DisciplinedRun(net, steps) && Run(net, steps).Broken?
    decreases |net.From(side.Other())|, if net.From(side.Other()) != [] && NextRead(net, side).LookUp? then 1 else 0
  {
    DoomedGoesOn(net, side);
    var step := NextRead(net, side);
    var o := Do(net, step);
    if o.Broken? {
      steps := [step];
    } else {
      StepKeepsInv(net, step);
      var rest := DoomedBreaks(o.net, side);
      steps := [step] + rest;
      assert steps[1..] == rest;
    }
  }

  /** Taking one more step before a run that breaks off. */
  lemma Prepend(net: Net, step: Step, rest: seq<Step>) returns (steps: seq<Step>)
    requires Enables(net, step) && Disciplined(net, step) && Do(net, step).Stepped?
    requires
      var net' := Do(net, step).net;
      Possible(net', rest) && DisciplinedRun(net', rest) && Run(net', rest).Broken?
    ensures Possible(net, steps) && DisciplinedRun(net, steps) && Run(net, steps).Broken?
  {
    steps := [step] + rest;
    assert steps[1..] == rest;
  }

  lemma OvertakenOpenDooms(frames: seq<Frame>, floor: nat, a: nat, b: nat, wa: nat, wb: nat)
    requires a < b
    ensures !Increasing(frames + [ForStream(b, Open(wb))] + [ForStream(a, Open(wa))], floor)
  {
    var first, second := ForStream(b, Open(wb)), ForStream(a, Open(wa));
    IncreasingConcat(frames + [first], [second], floor);
    IncreasingConcat(frames, [first], floor);
    IncreasingOne(first, HighestOpen(frames, floor));
    IncreasingOne(second, b);
  }

  lemma OvertakingOpenBreaks(net: Net, side: Side, a: nat, b: nat, frames: seq<Frame>) returns (steps: seq<Step>)
    requires Inv(net) && a in net.At(side).opening && a < b
    requires net.From(side) == frames + [ForStream(b, Open(net.At(side).configuration.streamReceiveWindow))]
    ensures Possible(net, steps) && DisciplinedRun(net, steps) && Run(net, steps).Broken?
  {
    assert a >= 1 && net.At(side).At(a).origin.Allocated?;
    var step := Act(side, a, Opening(SendOpen));
    ActKeepsInv(net, side, a, Opening(SendOpen));
    ActChanges(net, side, a, Opening(SendOpen));
    var w := net.At(side).configuration.streamReceiveWindow;
    OvertakenOpenDooms(frames, net.At(side.Other()).largestOpenedInbound, a, b, w, w);
    var rest := DoomedBreaks(Do(net, step).net, side.Other());
    steps := Prepend(net, step, rest);
  }

  /** Two OpenStream calls that both hold an identifier can send them in the wrong order. */
  lemma ConcurrentOpensBreak(net: Net, side: Side, a: nat, b: nat) returns (steps: seq<Step>)
    requires Inv(net) && a in net.At(side).opening && b in net.At(side).opening && a < b
    ensures Possible(net, steps) && DisciplinedRun(net, steps) && Run(net, steps).Broken?
  {
    assert b >= 1 && net.At(side).At(b).origin.Allocated?;
    var step := Act(side, b, Opening(SendOpen));
    ActKeepsInv(net, side, b, Opening(SendOpen));
    ActChanges(net, side, b, Opening(SendOpen));
    var rest := OvertakingOpenBreaks(Do(net, step).net, side, a, b, net.From(side));
    steps := Prepend(net, step, rest);
  }

  lemma EmptyIncrementDooms(net: Net, side: Side, id: nat)
    requires Inv(net) && id >= 1 && net.At(side).At(id).windowIncrement == Some(0)
    ensures
      var flush := Act(side, id, Flushing(FlushIncrement));
      && Enables(net, flush) && DoAct(net, side, id, flush.action).Stepped?
      && Doomed(DoAct(net, side, id, flush.action).net, side.Other())
  {
    ActSteps(net, side, id, Flushing(FlushIncrement));
    ActChanges(net, side, id, Flushing(FlushIncrement));
    var frames := DoAct(net, side, id, Flushing(FlushIncrement)).net.From(side);
    assert frames[|frames| - 1] == ForStream(id, Increment(0));
  }

  /** An empty increment that is pending can be sent, and the peer will not have it. */
  lemma EmptyIncrementBreaks(net: Net, side: Side, id: nat) returns (steps: seq<Step>)
    requires Inv(net) && id >= 1 && net.At(side).At(id).windowIncrement == Some(0)
    ensures Possible(net, steps) && DisciplinedRun(net, steps) && Run(net, steps).Broken?
  {
    var flush := Act(side, id, Flushing(FlushIncrement));
    EmptyIncrementDooms(net, side, id);
    ActKeepsInv(net, side, id, Flushing(FlushIncrement));
    var rest := DoomedBreaks(Do(net, flush).net, side.Other());
    steps := Prepend(net, flush, rest);
  }

  /** An empty read announces an empty increment. */
  lemma EmptyReadBreaks(net: Net, side: Side, id: nat) returns (steps: seq<Step>)
    requires Inv(net) && id >= 1 && net.At(side).At(id).reader == Announcing(0)
    requires net.At(side).At(id).windowIncrement.None?
    ensures Possible(net, steps) && DisciplinedRun(net, steps) && Run(net, steps).Broken?
  {
    var announce := Act(side, id, Reading(ReadAnnounces));
    ActKeepsInv(net, side, id, Reading(ReadAnnounces));
    ActChanges(net, side, id, Reading(ReadAnnounces));
    var net' := Do(net, announce).net;
    var rest := EmptyIncrementBreaks(net', side, id);
    steps := Prepend(net, announce, rest);
  }

  /** The same when an earlier increment is still pending: it can go out first. */
  lemma AnyEmptyReadBreaks(net: Net, side: Side, id: nat) returns (steps: seq<Step>)
    requires Inv(net) && id >= 1 && net.At(side).At(id).reader == Announcing(0)
    ensures Possible(net, steps) && DisciplinedRun(net, steps) && Run(net, steps).Broken?
  {
    if net.At(side).At(id).windowIncrement.None? {
      steps := EmptyReadBreaks(net, side, id);
    } else {
      var flush := Act(side, id, Flushing(FlushIncrement));
      ActKeepsInv(net, side, id, Flushing(FlushIncrement));
      ActChanges(net, side, id, Flushing(FlushIncrement));
      var net1 := Do(net, flush).net;
      var rest := EmptyReadBreaks(net1, side, id);
      steps := Prepend(net, flush, rest);
    }
  }

  /** No disciplined future breaks off. */
  ghost predicate SafeFromHere(net: Net) {
    forall steps | Possible(net, steps) && DisciplinedRun(net, steps) :: Run(net, steps).Stepped?
  }

  /** The discipline is exact.  From any state that disciplined use can reach, a step
      leaves the multiplexers safe from each other exactly when it is disciplined. */
  lemma DisciplineIsExact(net: Net, step: Step)
    requires Inv(net) && Orderly(net) && Enables(net, step)
    ensures Disciplined(net, step) <==> Do(net, step).Stepped? && SafeFromHere(Do(net, step).net)
  {
    if Disciplined(net, step) {
      DisciplineSuffices(net, step);
      var net' := Do(net, step).net;
      forall steps | Possible(net', steps) && DisciplinedRun(net', steps)
        ensures Run(net', steps).Stepped?
      {
        DisciplinedRunIsSafe(net', steps);
      }
    } else {
      ActKeepsInv(net, step.side, step.id, step.action);
      var net' := Do(net, step).net;
      var steps := UndisciplinedBreaks(net, step.side, step.id, step.action);
      assert !Run(net', steps).Stepped?;
    }
  }

  lemma ConcurrentAllocationBreaks(net: Net, side: Side, id: nat) returns (steps: seq<Step>)
    requires Inv(net) && Enables(net, Act(side, id, Opening(Allocate))) && net.At(side).opening != {}
    requires DoAct(net, side, id, Opening(Allocate)).Stepped?
    ensures
      var net' := DoAct(net, side, id, Opening(Allocate)).net;
      Possible(net', steps) && DisciplinedRun(net', steps) && Run(net', steps).Broken?
  {
    ActKeepsInv(net, side, id, Opening(Allocate));
    ActChanges(net, side, id, Opening(Allocate));
    var other :| other in net.At(side).opening;
    assert net.At(side).At(other).origin.Allocated?;
    AllocatedIsOutbound(net, side, other);
    assert other < id;
    steps := ConcurrentOpensBreak(DoAct(net, side, id, Opening(Allocate)).net, side, other, id);
  }

  lemma UndisciplinedBreaks(net: Net, side: Side, id: nat, a: Action) returns (steps: seq<Step>)
    requires Inv(net) && Enables(net, Act(side, id, a)) && !Disciplined(net, Act(side, id, a))
    requires DoAct(net, side, id, a).Stepped?
    ensures
      var net' := DoAct(net, side, id, a).net;
      Possible(net', steps) && DisciplinedRun(net', steps) && Run(net', steps).Broken?
  {
    if a == Opening(Allocate) {
      steps := ConcurrentAllocationBreaks(net, side, id);
    } else {
      ActKeepsInv(net, side, id, a);
      ActChanges(net, side, id, a);
      var net' := DoAct(net, side, id, a).net;
      assert net'.At(side).At(id).reader == Announcing(0);
      steps := AnyEmptyReadBreaks(net', side, id);
    }
  }

  // ----- Every reachable state -----

  /** A state that some run reaches, whether or not the run is disciplined. */
  ghost predicate Reachable(net: Net) {
    exists odd: Configuration, even: Configuration, steps: seq<Step> ::
      odd.Valid() && even.Valid() && Possible(Initial(odd, even), steps)
      && Run(Initial(odd, even), steps) == Stepped(net)
  }

  lemma ReachableInv(net: Net)
    requires Reachable(net)
    ensures Inv(net)
  {
    var odd: Configuration, even: Configuration, steps: seq<Step> :|
      odd.Valid() && even.Valid() && Possible(Initial(odd, even), steps)
      && Run(Initial(odd, even), steps) == Stepped(net);
    InitialInv(odd, even);
    RunKeepsInv(Initial(odd, even), steps);
  }

  /** The two ends of a stream, seen from one side. */
  lemma StreamInv(net: Net, side: Side, id: nat)
    requires Inv(net) && id >= 1
    ensures
      var role, e, peer := RoleOf(side, id), net.At(side).At(id), net.At(side.Other()).At(id);
      var out, back := Project(net.From(side), id), Project(net.From(side.Other()), id);
      && Link.Inv(WindowsOf(net, id), LinkOf(net, id))
      && Link.EndInv(role, e) && Link.EndInv(role.Peer(), peer) && Link.LogInv(role, e)
      && Link.DirectionInv(role, WindowsOf(net, id), Link.SendingOf(e), Link.ReceivingOf(peer), out, back)
      && WindowsOf(net, id).Of(role.Peer()) == net.At(side.Other()).configuration.streamReceiveWindow
  {
    assert Link.Inv(WindowsOf(net, id), LinkOf(net, id));
    Roles(side, id);
    Assembled(net, side, id);
  }

  /** In every run, what one end has read is a prefix of what the other has written. */
  lemma DeliveredIsPrefix(net: Net, side: Side, id: nat)
    requires Reachable(net) && id >= 1
    ensures net.At(side.Other()).At(id).delivered <= net.At(side).At(id).written
  {
    ReachableInv(net);
    StreamInv(net, side, id);
    var e, peer := net.At(side).At(id), net.At(side.Other()).At(id);
    assert peer.delivered <= peer.delivered + peer.receiveBuffer;
  }

  /** Read returns EOF only when everything the peer has written has been returned, and
      the peer writes nothing afterwards, whatever happens. */
  lemma EofIsExact(net: Net, side: Side, id: nat, steps: seq<Step>)
    requires Reachable(net) && id >= 1
    requires ReadEnabled(net.At(side).At(id), ReadReturnsEOF)
    requires Possible(net, steps) && Run(net, steps).Stepped?
    ensures net.At(side).At(id).delivered == net.At(side.Other()).At(id).written
    ensures Run(net, steps).net.At(side.Other()).At(id).written == net.At(side.Other()).At(id).written
  {
    ReachableInv(net);
    StreamInv(net, side, id);
    Roles(side, id);
    LinkParts(net, side, id);
    LinkTheorems.EofMeansDelivered(WindowsOf(net, id), LinkOf(net, id), RoleOf(side, id));
    WritingStaysOver(net, side.Other(), id, steps);
  }

  lemma {:induction false} WritingStaysOver(net: Net, side: Side, id: nat, steps: seq<Step>)
    requires Inv(net) && id >= 1 && LinkTheorems.WritingIsOver(net.At(side).At(id))
    requires Possible(net, steps) && Run(net, steps).Stepped?
    ensures Run(net, steps).net.At(side).At(id).written == net.At(side).At(id).written
    decreases |steps|
  {
    if steps != [] {
      var net' := Do(net, steps[0]).net;
      StepKeepsInv(net, steps[0]);
      StepLeavesWritten(net, steps[0], side, id);
      WritingStaysOver(net', side, id, steps[1..]);
    }
  }

  lemma StepLeavesWritten(net: Net, step: Step, side: Side, id: nat)
    requires Inv(net) && id >= 1 && LinkTheorems.WritingIsOver(net.At(side).At(id))
    requires Enables(net, step) && Do(net, step).Stepped?
    ensures Do(net, step).net.At(side).At(id).written == net.At(side).At(id).written
    ensures LinkTheorems.WritingIsOver(Do(net, step).net.At(side).At(id))
  {
    StreamInv(net, side, id);
    StepFollows(net, step, id);
    LinkParts(net, side, id);
    LinkParts(Do(net, step).net, side, id);
    var s := StepFor(net, step, id);
    if s.Some? {
      LinkTheorems.StepLeavesWritten(WindowsOf(net, id), LinkOf(net, id), s.value, RoleOf(side, id));
    }
  }

  /** Credit is conserved.  For the direction in which `side` sends, the send window,
      the bytes in flight, the bytes buffered, the bytes read and not yet announced and
      the announcements in flight never add up to more than the receiver's window, and
      add up to exactly that while the stream is registered at both ends, the window has
      been advertised and the receiver has not announced its own close. */
  lemma CreditIsConserved(net: Net, side: Side, id: nat)
    requires Reachable(net) && id >= 1
    ensures
      var s, r := net.At(side).At(id), net.At(side.Other()).At(id);
      var total :=
        s.sendWindow + (if s.writer.Sending? then |s.writer.block| else 0)
        + |Payload(Project(net.From(side), id))|
        + |r.receiveBuffer| + (if r.reader.Announcing? then r.reader.count else 0)
        + Pending(r) + Credit(Project(net.From(side.Other()), id));
      var window := net.At(side.Other()).configuration.streamReceiveWindow;
      && total <= window
      && (s.registered && r.registered && r.sent.Granted() && !r.closing.Announced? ==> total == window)
  {
    ReachableInv(net);
    StreamInv(net, side, id);
  }

  /** Readiness tokens: the channel and the goroutine that drained it hold one token between
      them exactly while there is data to read, or window to write with and no writer has left
      for good with the token.  A writer does that only under a terminal condition. */
  lemma TokensAreExact(net: Net, side: Side, id: nat)
    requires Reachable(net) && id >= 1
    ensures
      var e := net.At(side).At(id);
      var readTokens := (if e.receiveBufferReady then 1 else 0) + (if e.reader.DataReady? then 1 else 0);
      var writeTokens := (if e.sendWindowReady then 1 else 0) + (if e.WriterHoldsToken() then 1 else 0);
      && readTokens == (if |e.receiveBuffer| > 0 then 1 else 0)
      && writeTokens == (if e.sendWindow > 0 && !e.tokenLeft then 1 else 0)
      && (e.tokenLeft ==> e.WriteOver())
  {
    ReachableInv(net);
    StreamInv(net, side, id);
  }

  /** The only thing that makes a writer leave with the token is a terminal exit of Write. */
  lemma TokenLeavesWithWriter(net: Net, side: Side, id: nat, a: Action)
    requires Enables(net, Act(side, id, a)) && DoAct(net, side, id, a).Stepped?
    ensures
      var e, e' := net.At(side).At(id), DoAct(net, side, id, a).net.At(side).At(id);
      e'.tokenLeft == (e.tokenLeft || (a == Writing(WriteAborts) && e.WriterHoldsToken()))
  {
    var p := net.At(side);
    ActChanges(net, side, id, a);
    LinkTheorems.ActLeavesToken(RoleOf(side, id), p.configuration.streamReceiveWindow, p.At(id), a);
  }

  /** Everything one endpoint ever queues for a stream is in order: greeting first, or else a
      lone close, data before the half-close, nothing after the close. */
  lemma WireOrderInEveryRun(net: Net, side: Side, id: nat)
    requires Reachable(net) && id >= 1
    ensures LinkTheorems.InWireOrder(RoleOf(side, id), net.At(side).At(id).log)
  {
    ReachableInv(net);
    StreamInv(net, side, id);
    LinkTheorems.LogIsInOrder(RoleOf(side, id), net.At(side).At(id).log);
  }

  lemma {:induction false} ProjectContains(frames: seq<Frame>, i: nat) returns (k: nat)
    requires i < |frames| && frames[i].ForStream?
    ensures k < |Project(frames, frames[i].id)|
    ensures Project(frames, frames[i].id)[k] == frames[i].message
    decreases |frames|
  {
    if i == 0 {
      k := 0;
    } else {
      k := ProjectContains(frames[1..], i - 1);
      if frames[0].ForStream? && frames[0].id == frames[i].id {
        k := k + 1;
      }
    }
  }

  lemma {:induction false} CreditCoversIncrements(queue: seq<Message>, k: nat)
    requires k < |queue| && queue[k].Increment?
    ensures queue[k].amount <= Credit(queue)
    decreases |queue|
  {
    if k > 0 {
      CreditCoversIncrements(queue[1..], k - 1);
    }
  }

  predicate Fits(m: Message) {
    match m
    case Open(w) => w <= MAX_INT64
    case Accept(w) => w <= MAX_INT64
    case Data(block) => 1 <= |block| <= MAX_BLOCK
    case Increment(n) => n <= MAX_INT64
    case CloseWrite => true
    case Close => true
  }

  lemma QueueFits(windows: Link.Windows, role: Role, s: Link.SenderView, r: Link.ReceiverView,
                  s': Link.SenderView, r': Link.ReceiverView, out: seq<Message>, back: seq<Message>, k: nat)
    requires windows.Valid() && k < |out|
    requires Link.DirectionInv(role, windows, s, r, out, back)
    requires Link.DirectionInv(role.Peer(), windows, s', r', back, out)
    ensures Fits(out[k])
  {
    if out[k].Increment? { CreditCoversIncrements(out, k); }
  }

  lemma ProjectionFits(net: Net, side: Side, id: nat, k: nat)
    requires Inv(net) && id >= 1 && k < |Project(net.From(side), id)|
    ensures Fits(Project(net.From(side), id)[k])
  {
    StreamInv(net, side, id);
    StreamInv(net, side.Other(), id);
    Roles(side, id);
    var role, e, peer := RoleOf(side, id), net.At(side).At(id), net.At(side.Other()).At(id);
    QueueFits(WindowsOf(net, id), role, Link.SendingOf(e), Link.ReceivingOf(peer),
              Link.SendingOf(peer), Link.ReceivingOf(e),
              Project(net.From(side), id), Project(net.From(side.Other()), id), k);
  }

  /** What is in flight fits the wire format. */
  lemma FramesFitTheWire(net: Net, side: Side, i: nat)
    requires Reachable(net) && i < |net.From(side)| && net.From(side)[i].ForStream?
    ensures 1 <= net.From(side)[i].id <= MAX_UINT64 && Fits(net.From(side)[i].message)
  {
    ReachableInv(net);
    var k := ProjectContains(net.From(side), i);
    assert EndpointInv(net, side);
    ProjectionFits(net, side, net.From(side)[i].id, k);
  }

  /** The identifier that acceptOneStream takes from the backlog always names a stream
      that is registered and waiting, and the backlog has room for what the reader
      goroutine adds to it. */
  lemma BacklogIsSound(net: Net, side: Side)
    requires Reachable(net)
    ensures
      var p := net.At(side);
      && |p.backlog| <= p.configuration.acceptBacklog
      && forall id | id in p.backlog :: p.At(id).origin.Queued? && p.At(id).registered
  {
    ReachableInv(net);
    assert BacklogInv(net.At(side));
    forall id | id in net.At(side).backlog
      ensures net.At(side).At(id).origin.Queued? && net.At(side).At(id).registered
    {
      WaitingIsRegistered(net, side, id);
    }
  }

  lemma WaitingIsRegistered(net: Net, side: Side, id: nat)
    requires Inv(net) && id in net.At(side).backlog
    ensures net.At(side).At(id).origin.Queued? && net.At(side).At(id).registered
  {
    assert BacklogInv(net.At(side)) && id >= 1;
    EndIsInOrder(net, side, id);
  }
}
