/** Two runs from new multiplexers in which undisciplined use makes one give up on the other. */
module NetworkFailures {
  import opened Wrappers
  import opened Messages
  import opened StreamEnd
  import Link
  import opened Network
  import opened NetworkOrder
  import opened NetworkTheorems

  // ----- Composing runs -----

  ghost predicate Ends(net: Net, steps: seq<Step>, o: Network.Outcome) {
    Possible(net, steps) && Run(net, steps) == o
  }

  lemma Goes(net: Net, steps: seq<Step>, i: nat, net': Net, o: Network.Outcome)
    requires i < |steps| && Enables(net, steps[i]) && Do(net, steps[i]) == Stepped(net')
    requires Ends(net', steps[i + 1..], o)
    ensures Ends(net, steps[i..], o)
  {
    assert steps[i..][0] == steps[i] && steps[i..][1..] == steps[i + 1..];
  }

  lemma Breaks(net: Net, steps: seq<Step>, i: nat, violation: Violation)
    requires i < |steps| && Enables(net, steps[i]) && Do(net, steps[i]) == Broken(violation)
    ensures Ends(net, steps[i..], Broken(violation))
  {
    assert steps[i..][0] == steps[i];
  }

  lemma Stops(net: Net, steps: seq<Step>)
    ensures Ends(net, steps[|steps|..], Stepped(net))
  {
  }

  lemma {:induction false} Concat(net: Net, a: seq<Step>, net': Net, b: seq<Step>, o: Network.Outcome)
    requires Ends(net, a, Stepped(net')) && Ends(net', b, o)
    ensures Ends(net, a + b, o)
    decreases |a|
  {
    if a == [] {
      assert a + b == b;
    } else {
      assert (a + b)[1..] == a[1..] + b;
      Concat(Do(net, a[0]).net, a[1..], net', b, o);
    }
  }

  // ----- Overlapping opens -----

  const OVERTAKING: seq<Step> := [
    Act(Odd, 1, Opening(Allocate)), Act(Odd, 3, Opening(Allocate)),
    Act(Odd, 3, Opening(SendOpen)), Act(Odd, 1, Opening(SendOpen)),
    HandleOpen(Even), HandleOpen(Even)
  ]

  const ALLOCATED := FRESH.(origin := Allocated, registered := true)

  /** What matters of the state after both allocations and some sends. */
  predicate Overtaking(net: Net, odd: Configuration, even: Configuration, first: End, third: End, frames: seq<Frame>) {
    && net.odd.configuration == odd && net.even == Start(even, Even)
    && net.odd.At(1) == first && net.odd.At(3) == third && net.fromOdd == frames && net.fromEven == []
  }

  lemma BothAllocate(odd: Configuration, even: Configuration) returns (net1: Net, net2: Net)
    ensures
      var net0 := Initial(odd, even);
      && Enables(net0, OVERTAKING[0]) && Do(net0, OVERTAKING[0]) == Stepped(net1)
      && Enables(net1, OVERTAKING[1]) && Do(net1, OVERTAKING[1]) == Stepped(net2)
      && !Disciplined(net1, OVERTAKING[1])
      && Overtaking(net2, odd, even, ALLOCATED, ALLOCATED, [])
  {
    var net0 := Initial(odd, even);
    net1 := Do(net0, OVERTAKING[0]).net;
    assert net1.odd.opening == {1} && net1.odd.nextOutbound == 3;
    net2 := Do(net1, OVERTAKING[1]).net;
  }

  function Sent(w: nat): End {
    ALLOCATED.(origin := Requested, log := [Open(w)], sent := Live)
  }

  lemma SendsOpen(net: Net, odd: Configuration, even: Configuration, first: End, frames: seq<Frame>, id: nat)
    returns (net': Net)
    requires id == 1 || id == 3
    requires Overtaking(net, odd, even, ALLOCATED, first, frames) && (id == 3 ==> first == ALLOCATED)
    ensures
      var step, w := Act(Odd, id, Opening(SendOpen)), odd.streamReceiveWindow;
      && Enables(net, step) && Do(net, step) == Stepped(net')
      && Overtaking(net', odd, even, if id == 1 then Sent(w) else ALLOCATED, if id == 3 then Sent(w) else first,
                    frames + [ForStream(id, Open(w))])
  {
    var step, w := Act(Odd, id, Opening(SendOpen)), odd.streamReceiveWindow;
    assert FRESH.log + [Open(w)] == [Open(w)];
    assert OpenStep(Opener, w, ALLOCATED, SendOpen) == Next(Sent(w), Some(Open(w)));
    net' := Do(net, step).net;
  }

  lemma OpensArriveOutOfOrder(net: Net, odd: Configuration, even: Configuration, first: End, third: End)
    returns (net': Net)
    requires
      var w := odd.streamReceiveWindow;
      Overtaking(net, odd, even, first, third, [ForStream(3, Open(w)), ForStream(1, Open(w))])
    ensures Enables(net, HandleOpen(Even)) && Do(net, HandleOpen(Even)) == Stepped(net')
    ensures Enables(net', HandleOpen(Even)) && Do(net', HandleOpen(Even)) == Broken(IdentifierNotIncreasing)
  {
    net' := Do(net, HandleOpen(Even)).net;
    assert net'.fromOdd == [ForStream(1, Open(odd.streamReceiveWindow))];
    assert net'.even.largestOpenedInbound == 3;
  }

  lemma OvertakingEnds(net2: Net, odd: Configuration, even: Configuration)
    requires Overtaking(net2, odd, even, ALLOCATED, ALLOCATED, [])
    ensures Ends(net2, OVERTAKING[2..], Broken(IdentifierNotIncreasing))
  {
    var w := odd.streamReceiveWindow;
    var net3 := SendsOpen(net2, odd, even, ALLOCATED, [], 3);
    var net4 := SendsOpen(net3, odd, even, Sent(w), [ForStream(3, Open(w))], 1);
    assert [ForStream(3, Open(w))] + [ForStream(1, Open(w))] == [ForStream(3, Open(w)), ForStream(1, Open(w))];
    var net5 := OpensArriveOutOfOrder(net4, odd, even, Sent(w), Sent(w));
    Breaks(net5, OVERTAKING, 5, IdentifierNotIncreasing);
    Goes(net4, OVERTAKING, 4, net5, Broken(IdentifierNotIncreasing));
    Goes(net3, OVERTAKING, 3, net4, Broken(IdentifierNotIncreasing));
    Goes(net2, OVERTAKING, 2, net3, Broken(IdentifierNotIncreasing));
  }

  /** Two OpenStream calls overlap: the second identifier is sent first, and the peer gives up. */
  lemma OverlappingOpensFail(odd: Configuration, even: Configuration)
    requires odd.Valid() && even.Valid()
    ensures Possible(Initial(odd, even), OVERTAKING)
    ensures Run(Initial(odd, even), OVERTAKING) == Broken(IdentifierNotIncreasing)
    ensures !DisciplinedRun(Initial(odd, even), OVERTAKING)
  {
    var net0 := Initial(odd, even);
    var net1, net2 := BothAllocate(odd, even);
    OvertakingEnds(net2, odd, even);
    Goes(net1, OVERTAKING, 1, net2, Broken(IdentifierNotIncreasing));
    Goes(net0, OVERTAKING, 0, net1, Broken(IdentifierNotIncreasing));
    assert OVERTAKING[0..] == OVERTAKING;
    Undisciplined(odd, even, OVERTAKING);
  }

  lemma Undisciplined(odd: Configuration, even: Configuration, steps: seq<Step>)
    requires odd.Valid() && even.Valid()
    requires Possible(Initial(odd, even), steps) && Run(Initial(odd, even), steps).Broken?
    ensures !DisciplinedRun(Initial(odd, even), steps)
  {
    if DisciplinedRun(Initial(odd, even), steps) {
      NoSelfInflictedViolation(odd, even, steps);
      assert false;
    }
  }

  // ----- A read of nothing -----

  const OPENING: seq<Step> := [
    Act(Odd, 1, Opening(Allocate)), Act(Odd, 1, Opening(SendOpen)), HandleOpen(Even),
    Act(Even, 1, Accepting(TakePending)), Act(Even, 1, Accepting(MarkEstablished)), Act(Even, 1, Accepting(SendAccept)),
    LookUp(Odd), Handle(Odd), Act(Odd, 1, Opening(OpenReturns))
  ]

  const SENDING: seq<Step> := [
    Act(Odd, 1, Writing(WriteBegins([0]))), Act(Odd, 1, Writing(WriteTakesToken)),
    Act(Odd, 1, Writing(WriteTakesWindow)), Act(Odd, 1, Writing(WriteSends)),
    LookUp(Even), Handle(Even)
  ]

  const READING: seq<Step> := [
    Act(Even, 1, Reading(ReadBegins)), Act(Even, 1, Reading(ReadTakesToken)), Act(Even, 1, Reading(ReadTakes(0))),
    Act(Even, 1, Reading(ReadAnnounces)), Act(Even, 1, Flushing(FlushIncrement)),
    LookUp(Odd), Handle(Odd)
  ]

  /** What matters of a state in which stream 1 is the only one. */
  datatype View = View(
    o: End, e: End,
    fromOdd: seq<Frame>, fromEven: seq<Frame>,
    next: nat, largest: nat, backlog: seq<nat>
  ) {
    function At(side: Side): End { if side.Odd? then o else e }

    function Moved(side: Side, outcome: StreamEnd.Outcome): View
      requires outcome.Next?
    {
      var v := if side.Odd? then this.(o := outcome.end) else this.(e := outcome.end);
      if outcome.output.None? then v
      else if side.Odd? then v.(fromOdd := fromOdd + [ForStream(1, outcome.output.value)])
      else v.(fromEven := fromEven + [ForStream(1, outcome.output.value)])
    }
  }

  predicate Shows(net: Net, odd: Configuration, even: Configuration, v: View) {
    && net.odd.configuration == odd && net.even.configuration == even
    && net.odd.At(1) == v.o && net.even.At(1) == v.e
    && net.fromOdd == v.fromOdd && net.fromEven == v.fromEven
    && net.odd.nextOutbound == v.next && net.even.largestOpenedInbound == v.largest && net.even.backlog == v.backlog
  }

  function WindowOf(odd: Configuration, even: Configuration, side: Side): nat {
    if side.Odd? then odd.streamReceiveWindow else even.streamReceiveWindow
  }

  /** The endpoint of a side after an action that involves no fields but the stream's. */
  lemma AccountsForNothing(p: Endpoint, id: nat, a: Action, e: End)
    requires a != Opening(Allocate) && a != Accepting(TakePending)
    ensures
      var p' := Account(p, id, a).With(id, e);
      && p'.configuration == p.configuration && p'.nextOutbound == p.nextOutbound
      && p'.largestOpenedInbound == p.largestOpenedInbound && p'.backlog == p.backlog && p'.At(id) == e
  {
  }

  lemma OddIsApplied(net: Net, odd: Configuration, even: Configuration, v: View, a: Action, o: StreamEnd.Outcome)
    requires Shows(net, odd, even, v) && a != Opening(Allocate) && a != Accepting(TakePending) && o.Next?
    ensures Applied(net, Odd, 1, a, o).Stepped? && Shows(Applied(net, Odd, 1, a, o).net, odd, even, v.Moved(Odd, o))
  {
    AccountsForNothing(net.odd, 1, a, o.end);
  }

  lemma EvenIsApplied(net: Net, odd: Configuration, even: Configuration, v: View, a: Action, o: StreamEnd.Outcome)
    requires Shows(net, odd, even, v) && a != Opening(Allocate) && a != Accepting(TakePending) && o.Next?
    ensures Applied(net, Even, 1, a, o).Stepped? && Shows(Applied(net, Even, 1, a, o).net, odd, even, v.Moved(Even, o))
  {
    AccountsForNothing(net.even, 1, a, o.end);
  }

  lemma ActApplies(net: Net, odd: Configuration, even: Configuration, v: View, side: Side, a: Action)
    requires Shows(net, odd, even, v) && a != Opening(Allocate) && a != Accepting(TakePending)
    requires Enabled(RoleOf(side, 1), v.At(side), a)
    ensures Enables(net, Act(side, 1, a))
    ensures
      Do(net, Act(side, 1, a)) ==
      Applied(net, side, 1, a, Local(RoleOf(side, 1), WindowOf(odd, even, side), v.At(side), a))
  {
    assert net.At(side).At(1) == v.At(side);
    assert net.At(side).configuration.streamReceiveWindow == WindowOf(odd, even, side);
  }

  /** An action on stream 1 other than the two that involve other fields. */
  lemma Acts(net: Net, odd: Configuration, even: Configuration, v: View, side: Side, a: Action) returns (net': Net)
    requires Shows(net, odd, even, v) && a != Opening(Allocate) && a != Accepting(TakePending)
    requires Enabled(RoleOf(side, 1), v.At(side), a)
    requires Local(RoleOf(side, 1), WindowOf(odd, even, side), v.At(side), a).Next?
    ensures Enables(net, Act(side, 1, a)) && Do(net, Act(side, 1, a)) == Stepped(net')
    ensures Shows(net', odd, even, v.Moved(side, Local(RoleOf(side, 1), WindowOf(odd, even, side), v.At(side), a)))
  {
    var o := Local(RoleOf(side, 1), WindowOf(odd, even, side), v.At(side), a);
    ActApplies(net, odd, even, v, side, a);
    if side.Odd? { OddIsApplied(net, odd, even, v, a, o); } else { EvenIsApplied(net, odd, even, v, a, o); }
    net' := Applied(net, side, 1, a, o).net;
  }

  /** Such an action as step `i` of a run. */
  lemma ActGoes(net: Net, odd: Configuration, even: Configuration, v: View, side: Side, a: Action,
                steps: seq<Step>, i: nat)
    returns (net': Net)
    requires Shows(net, odd, even, v) && a != Opening(Allocate) && a != Accepting(TakePending)
    requires Enabled(RoleOf(side, 1), v.At(side), a)
    requires Local(RoleOf(side, 1), WindowOf(odd, even, side), v.At(side), a).Next?
    requires i < |steps| && steps[i] == Act(side, 1, a)
    ensures Shows(net', odd, even, v.Moved(side, Local(RoleOf(side, 1), WindowOf(odd, even, side), v.At(side), a)))
    ensures forall o :: Ends(net', steps[i + 1..], o) ==> Ends(net, steps[i..], o)
  {
    net' := Acts(net, odd, even, v, side, a);
    forall o | Ends(net', steps[i + 1..], o) ensures Ends(net, steps[i..], o) {
      Goes(net, steps, i, net', o);
    }
  }

  function Incoming(v: View, side: Side): seq<Frame> { if side.Odd? then v.fromEven else v.fromOdd }

  function Handled(v: View, side: Side, e: End): View
    requires Incoming(v, side) != []
  {
    if side.Odd? then v.(o := e, fromEven := v.fromEven[1..]) else v.(e := e, fromOdd := v.fromOdd[1..])
  }

  /** The reader goroutine of a side looks stream 1 up. */
  lemma LooksUp(net: Net, odd: Configuration, even: Configuration, v: View, side: Side, m: Message) returns (net': Net)
    requires Shows(net, odd, even, v) && v.next == 3 && v.largest == 1
    requires Incoming(v, side) == [ForStream(1, m)] && !m.Open? && (m.Accept? ==> side.Odd?)
    requires v.At(side).lookedUp.None?
    ensures Enables(net, LookUp(side)) && Do(net, LookUp(side)) == Stepped(net')
    ensures Shows(net', odd, even, v.Moved(side, Quiet(v.At(side).(lookedUp := Some(v.At(side).registered)))))
  {
    net' := Do(net, LookUp(side)).net;
  }

  /** It then handles the message, or gives up. */
  lemma Handles(net: Net, odd: Configuration, even: Configuration, v: View, side: Side, m: Message)
    requires Shows(net, odd, even, v)
    requires Incoming(v, side) == [ForStream(1, m)] && !m.Open? && v.At(side).lookedUp.Some?
    ensures Enables(net, Handle(side))
    ensures
      var o := Receive(side.Odd?, WindowOf(odd, even, side), v.At(side), m, v.At(side).lookedUp.value);
      match Do(net, Handle(side))
      case Broken(violation) => o == Violated(violation)
      case Stepped(net') =>
        o.Next? && Shows(net', odd, even, Handled(v, side, Link.Settle(RoleOf(side.Other(), 1), o.end, m)))
  {
  }

  // The run is put together from its end: each lemma says how it ends from some point on.

  lemma IncrementArrives(net: Net, odd: Configuration, even: Configuration, v: View)
    requires Shows(net, odd, even, v) && v.next == 3 && v.largest == 1
    requires v.fromEven == [ForStream(1, Increment(0))] && v.o.lookedUp.None?
    ensures Ends(net, READING[5..], Broken(ZeroIncrement))
  {
    var net' := LooksUp(net, odd, even, v, Odd, Increment(0));
    Handles(net', odd, even, v.Moved(Odd, Quiet(v.o.(lookedUp := Some(v.o.registered)))), Odd, Increment(0));
    Breaks(net', READING, 6, ZeroIncrement);
    Goes(net, READING, 5, net', Broken(ZeroIncrement));
  }

  /** The rest of the network is quiet while the even side reads. */
  predicate Undisturbed(v: View) {
    v.fromEven == [] && v.next == 3 && v.largest == 1 && v.o.lookedUp.None?
  }

  lemma IncrementGoesOut(net: Net, odd: Configuration, even: Configuration, v: View)
    requires Shows(net, odd, even, v) && Undisturbed(v) && v.e.windowIncrement == Some(0)
    ensures Ends(net, READING[4..], Broken(ZeroIncrement))
  {
    var net' := ActGoes(net, odd, even, v, Even, Flushing(FlushIncrement), READING, 4);
    FlushMoves(v);
    IncrementArrives(net', odd, even, v.Moved(Even, FlushStep(Acceptor, v.e, FlushIncrement)));
  }

  lemma FlushMoves(v: View)
    requires Undisturbed(v) && v.e.windowIncrement == Some(0)
    ensures
      var o := FlushStep(Acceptor, v.e, FlushIncrement);
      && o.Next?
      && v.Moved(Even, o) == v.(e := o.end, fromEven := [ForStream(1, Increment(0))])
  {
  }

  lemma NothingIsAnnounced(net: Net, odd: Configuration, even: Configuration, v: View)
    requires Shows(net, odd, even, v) && Undisturbed(v) && v.e.windowIncrement.None? && v.e.reader == Announcing(0)
    ensures Ends(net, READING[3..], Broken(ZeroIncrement))
  {
    var net' := ActGoes(net, odd, even, v, Even, Reading(ReadAnnounces), READING, 3);
    IncrementGoesOut(net', odd, even, v.Moved(Even, ReadStep(v.e, ReadAnnounces)));
  }

  lemma NothingIsTaken(net: Net, odd: Configuration, even: Configuration, v: View)
    requires Shows(net, odd, even, v) && Undisturbed(v) && v.e.windowIncrement.None?
    requires v.e.reader.DataReady? && !v.e.receiveBufferReady
    ensures Ends(net, READING[2..], Broken(ZeroIncrement)) && !Disciplined(net, READING[2])
  {
    var net' := ActGoes(net, odd, even, v, Even, Reading(ReadTakes(0)), READING, 2);
    NothingIsAnnounced(net', odd, even, v.Moved(Even, ReadStep(v.e, ReadTakes(0))));
  }

  lemma TokenIsTaken(net: Net, odd: Configuration, even: Configuration, v: View)
    requires Shows(net, odd, even, v) && Undisturbed(v) && v.e.windowIncrement.None?
    requires v.e.reader.AwaitingData? && v.e.receiveBufferReady
    ensures Ends(net, READING[1..], Broken(ZeroIncrement))
  {
    var net' := ActGoes(net, odd, even, v, Even, Reading(ReadTakesToken), READING, 1);
    NothingIsTaken(net', odd, even, v.Moved(Even, ReadStep(v.e, ReadTakesToken)));
  }

  /** A byte has arrived and nothing else is going on. */
  predicate ByteArrived(v: View) {
    && Undisturbed(v) && v.e.windowIncrement.None?
    && v.e.origin.Returned? && v.e.readTimer && v.e.receiveBufferReady
  }

  lemma ReadingFails(net: Net, odd: Configuration, even: Configuration, v: View)
    requires Shows(net, odd, even, v) && ByteArrived(v)
    ensures Ends(net, READING, Broken(ZeroIncrement))
  {
    var net' := ActGoes(net, odd, even, v, Even, Reading(ReadBegins), READING, 0);
    TokenIsTaken(net', odd, even, v.Moved(Even, ReadStep(v.e, ReadBegins)));
    assert READING[0..] == READING;
  }

  /** The even side is ready for data and for a read. */
  predicate ReadyForData(v: View) {
    && Undisturbed(v)
    && v.e.origin.Returned? && v.e.established && v.e.registered && v.e.readTimer
    && v.e.receiveBuffer == [] && !v.e.receiveBufferReady && !v.e.remoteClosed && !v.e.remoteClosedWrite
    && v.e.windowIncrement.None? && v.e.lookedUp.None?
  }

  lemma ByteIsHandled(net: Net, odd: Configuration, even: Configuration, v: View) returns (net': Net, v': View)
    requires Shows(net, odd, even, v) && even.streamReceiveWindow >= 1 && v.fromOdd == [ForStream(1, Data([0]))]
    requires ReadyForData(v.(e := v.e.(lookedUp := None))) && v.e.lookedUp == Some(true)
    ensures Ends(net, SENDING[5..], Stepped(net')) && Shows(net', odd, even, v') && ByteArrived(v')
  {
    var o := ReceiveData(v.e, [0], even.streamReceiveWindow);
    assert o.Next? && o.end.receiveBufferReady;
    assert Receive(false, even.streamReceiveWindow, v.e, Data([0]), true) == o;
    Handles(net, odd, even, v, Even, Data([0]));
    net' := Do(net, Handle(Even)).net;
    v' := Handled(v, Even, Link.Settle(Opener, o.end, Data([0])));
    Stops(net', SENDING);
    Goes(net, SENDING, 5, net', Stepped(net'));
  }

  lemma ByteIsLookedUp(net: Net, odd: Configuration, even: Configuration, v: View) returns (net': Net, v': View)
    requires Shows(net, odd, even, v) && even.streamReceiveWindow >= 1 && v.fromOdd == [ForStream(1, Data([0]))]
    requires ReadyForData(v)
    ensures Ends(net, SENDING[4..], Stepped(net')) && Shows(net', odd, even, v') && ByteArrived(v')
  {
    var next := LooksUp(net, odd, even, v, Even, Data([0]));
    var v1 := v.Moved(Even, Quiet(v.e.(lookedUp := Some(v.e.registered))));
    assert v1.e.(lookedUp := None) == v.e;
    net', v' := ByteIsHandled(next, odd, even, v1);
    Goes(net, SENDING, 4, next, Stepped(net'));
  }

  lemma ByteIsSent(net: Net, odd: Configuration, even: Configuration, v: View) returns (net': Net, v': View)
    requires Shows(net, odd, even, v) && even.streamReceiveWindow >= 1 && v.fromOdd == [] && ReadyForData(v)
    requires v.o.writer.Sending? && v.o.writer.block == [0]
    ensures Ends(net, SENDING[3..], Stepped(net')) && Shows(net', odd, even, v') && ByteArrived(v')
  {
    var next := ActGoes(net, odd, even, v, Odd, Writing(WriteSends), SENDING, 3);
    var v1 := v.Moved(Odd, WriteStep(Opener, v.o, WriteSends));
    assert v1.fromOdd == [ForStream(1, Data([0]))];
    net', v' := ByteIsLookedUp(next, odd, even, v1);
  }

  lemma WindowIsTaken(net: Net, odd: Configuration, even: Configuration, v: View) returns (net': Net, v': View)
    requires Shows(net, odd, even, v) && even.streamReceiveWindow >= 1 && v.fromOdd == [] && ReadyForData(v)
    requires v.o.writer.AwaitingWindow? && v.o.writer.data == [0] && v.o.writer.ready
    requires v.o.sendWindow >= 1 && !v.o.sendWindowReady
    ensures Ends(net, SENDING[2..], Stepped(net')) && Shows(net', odd, even, v') && ByteArrived(v')
  {
    var next := ActGoes(net, odd, even, v, Odd, Writing(WriteTakesWindow), SENDING, 2);
    var v1 := v.Moved(Odd, WriteStep(Opener, v.o, WriteTakesWindow));
    assert [0][..1] == [0];
    net', v' := ByteIsSent(next, odd, even, v1);
  }

  lemma WriteTokenIsTaken(net: Net, odd: Configuration, even: Configuration, v: View) returns (net': Net, v': View)
    requires Shows(net, odd, even, v) && even.streamReceiveWindow >= 1 && v.fromOdd == [] && ReadyForData(v)
    requires v.o.writer.AwaitingWindow? && v.o.writer.data == [0] && !v.o.writer.ready
    requires v.o.sendWindow >= 1 && v.o.sendWindowReady
    ensures Ends(net, SENDING[1..], Stepped(net')) && Shows(net', odd, even, v') && ByteArrived(v')
  {
    var next := ActGoes(net, odd, even, v, Odd, Writing(WriteTakesToken), SENDING, 1);
    net', v' := WindowIsTaken(next, odd, even, v.Moved(Odd, WriteStep(Opener, v.o, WriteTakesToken)));
  }

  /** Both ends have the stream and the odd side may send. */
  predicate Established(v: View) {
    && v.fromOdd == [] && ReadyForData(v)
    && v.o.origin.Returned? && v.o.writeTimer && v.o.sendWindow >= 1 && v.o.sendWindowReady
  }

  lemma SendingArrives(net: Net, odd: Configuration, even: Configuration, v: View) returns (net': Net, v': View)
    requires Shows(net, odd, even, v) && even.streamReceiveWindow >= 1 && Established(v)
    ensures Ends(net, SENDING, Stepped(net')) && Shows(net', odd, even, v') && ByteArrived(v')
  {
    var next := ActGoes(net, odd, even, v, Odd, Writing(WriteBegins([0])), SENDING, 0);
    net', v' := WriteTokenIsTaken(next, odd, even, v.Moved(Odd, WriteStep(Opener, v.o, WriteBegins([0]))));
    assert SENDING[0..] == SENDING;
  }

  predicate EvenIsFresh(e: End) {
    && e.registered && e.readTimer && e.receiveBuffer == [] && !e.receiveBufferReady
    && !e.remoteClosed && !e.remoteClosedWrite && e.windowIncrement.None? && e.lookedUp.None?
  }

  predicate OddIsWaiting(o: End) {
    && o.origin.Requested? && o.registered && !o.established && !o.remoteClosed && !o.sendWindowReady && o.writeTimer
  }

  predicate Accepted(v: View) {
    && v.fromOdd == [] && v.next == 3 && v.largest == 1
    && v.e.origin.Returned? && v.e.established && EvenIsFresh(v.e)
  }

  lemma OpenCompletes(net: Net, odd: Configuration, even: Configuration, v: View) returns (net': Net, v': View)
    requires Shows(net, odd, even, v) && Accepted(v) && v.fromEven == []
    requires v.o.origin.Requested? && v.o.established && v.o.writeTimer && v.o.sendWindow >= 1 && v.o.sendWindowReady
    requires v.o.lookedUp.None?
    ensures Ends(net, OPENING[8..], Stepped(net')) && Shows(net', odd, even, v') && Established(v')
  {
    net' := ActGoes(net, odd, even, v, Odd, Opening(OpenReturns), OPENING, 8);
    v' := v.Moved(Odd, OpenStep(Opener, odd.streamReceiveWindow, v.o, OpenReturns));
    Stops(net', OPENING);
  }

  lemma AcceptIsHandled(net: Net, odd: Configuration, even: Configuration, v: View) returns (net': Net, v': View)
    requires Shows(net, odd, even, v) && Accepted(v) && even.streamReceiveWindow >= 1
    requires v.fromEven == [ForStream(1, Accept(even.streamReceiveWindow))]
    requires OddIsWaiting(v.o) && v.o.lookedUp == Some(true)
    ensures Ends(net, OPENING[7..], Stepped(net')) && Shows(net', odd, even, v') && Established(v')
  {
    var w := even.streamReceiveWindow;
    var o := ReceiveAccept(v.o, w);
    assert Receive(true, odd.streamReceiveWindow, v.o, Accept(w), true) == o;
    Handles(net, odd, even, v, Odd, Accept(w));
    var next := Do(net, Handle(Odd)).net;
    net', v' := OpenCompletes(next, odd, even, Handled(v, Odd, Link.Settle(Acceptor, o.end, Accept(w))));
    Goes(net, OPENING, 7, next, Stepped(net'));
  }

  lemma AcceptIsLookedUp(net: Net, odd: Configuration, even: Configuration, v: View) returns (net': Net, v': View)
    requires Shows(net, odd, even, v) && Accepted(v) && even.streamReceiveWindow >= 1
    requires v.fromEven == [ForStream(1, Accept(even.streamReceiveWindow))]
    requires OddIsWaiting(v.o) && v.o.lookedUp.None?
    ensures Ends(net, OPENING[6..], Stepped(net')) && Shows(net', odd, even, v') && Established(v')
  {
    var next := LooksUp(net, odd, even, v, Odd, Accept(even.streamReceiveWindow));
    net', v' := AcceptIsHandled(next, odd, even, v.Moved(Odd, Quiet(v.o.(lookedUp := Some(v.o.registered)))));
    Goes(net, OPENING, 6, next, Stepped(net'));
  }

  /** The even side is accepting the stream that the odd side has asked for. */
  predicate Waits(v: View) {
    && v.fromOdd == [] && v.fromEven == [] && v.next == 3 && v.largest == 1
    && OddIsWaiting(v.o) && v.o.lookedUp.None? && EvenIsFresh(v.e)
  }

  lemma AcceptIsSent(net: Net, odd: Configuration, even: Configuration, v: View) returns (net': Net, v': View)
    requires Shows(net, odd, even, v) && Waits(v) && v.e.origin.Marked? && v.e.established
    requires even.streamReceiveWindow >= 1
    ensures Ends(net, OPENING[5..], Stepped(net')) && Shows(net', odd, even, v') && Established(v')
  {
    var w := even.streamReceiveWindow;
    var next := ActGoes(net, odd, even, v, Even, Accepting(SendAccept), OPENING, 5);
    var v1 := v.Moved(Even, AcceptStep(Acceptor, w, v.e, SendAccept));
    assert v1.fromEven == [ForStream(1, Accept(w))];
    net', v' := AcceptIsLookedUp(next, odd, even, v1);
  }

  lemma StreamIsMarked(net: Net, odd: Configuration, even: Configuration, v: View) returns (net': Net, v': View)
    requires Shows(net, odd, even, v) && Waits(v) && v.e.origin.Taken? && even.streamReceiveWindow >= 1
    ensures Ends(net, OPENING[4..], Stepped(net')) && Shows(net', odd, even, v') && Established(v')
  {
    var next := ActGoes(net, odd, even, v, Even, Accepting(MarkEstablished), OPENING, 4);
    var v1 := v.Moved(Even, AcceptStep(Acceptor, even.streamReceiveWindow, v.e, MarkEstablished));
    net', v' := AcceptIsSent(next, odd, even, v1);
  }

  lemma PendingIsTaken(net: Net, odd: Configuration, even: Configuration, v: View) returns (net': Net, v': View)
    requires Shows(net, odd, even, v) && Waits(v) && v.e.origin.Queued? && v.backlog == [1]
    requires even.streamReceiveWindow >= 1
    ensures Ends(net, OPENING[3..], Stepped(net')) && Shows(net', odd, even, v') && Established(v')
  {
    var step := Act(Even, 1, Accepting(TakePending));
    var next := Do(net, step).net;
    var v1 := v.(e := v.e.(origin := Taken), backlog := []);
    assert Shows(next, odd, even, v1);
    net', v' := StreamIsMarked(next, odd, even, v1);
    Goes(net, OPENING, 3, next, Stepped(net'));
  }

  lemma OpenArrives(net: Net, odd: Configuration, even: Configuration, v: View) returns (net': Net, v': View)
    requires Shows(net, odd, even, v) && even.Valid() && even.streamReceiveWindow >= 1
    requires v.fromOdd == [ForStream(1, Open(odd.streamReceiveWindow))] && v.fromEven == []
    requires v.next == 3 && v.largest == 0 && v.backlog == []
    requires OddIsWaiting(v.o) && v.o.lookedUp.None? && v.e == FRESH
    ensures Ends(net, OPENING[2..], Stepped(net')) && Shows(net', odd, even, v') && Established(v')
  {
    var w := odd.streamReceiveWindow;
    var next := Do(net, HandleOpen(Even)).net;
    var e' := Link.Settle(Opener, ReceiveOpen(FRESH, w, false).end, Open(w));
    var v1 := v.(e := e', fromOdd := [], largest := 1, backlog := [1]);
    assert Shows(next, odd, even, v1);
    net', v' := PendingIsTaken(next, odd, even, v1);
    Goes(net, OPENING, 2, next, Stepped(net'));
  }

  lemma OpeningEstablishes(odd: Configuration, even: Configuration) returns (net': Net, v': View)
    requires odd.Valid() && even.Valid() && even.streamReceiveWindow >= 1
    ensures Ends(Initial(odd, even), OPENING, Stepped(net')) && Shows(net', odd, even, v') && Established(v')
  {
    var net0, w := Initial(odd, even), odd.streamReceiveWindow;
    var net1 := Do(net0, OPENING[0]).net;
    var v1 := View(ALLOCATED, FRESH, [], [], 3, 0, []);
    assert Shows(net1, odd, even, v1);
    var net2 := Acts(net1, odd, even, v1, Odd, Opening(SendOpen));
    var v2 := v1.Moved(Odd, OpenStep(Opener, w, ALLOCATED, SendOpen));
    assert v2.fromOdd == [ForStream(1, Open(w))];
    net', v' := OpenArrives(net2, odd, even, v2);
    Goes(net1, OPENING, 1, net2, Stepped(net'));
    Goes(net0, OPENING, 0, net1, Stepped(net'));
    assert OPENING[0..] == OPENING;
  }

  /** One byte is sent and arrives; the receiver reads with an empty buffer, and the sender
      gives up.  The window must let a byte through: with no window there is nothing to read. */
  lemma EmptyReadFails(odd: Configuration, even: Configuration)
    requires odd.Valid() && even.Valid() && even.streamReceiveWindow >= 1
    ensures
      var steps := (OPENING + SENDING) + READING;
      && Possible(Initial(odd, even), steps)
      && Run(Initial(odd, even), steps) == Broken(ZeroIncrement)
      && !DisciplinedRun(Initial(odd, even), steps)
  {
    var net1, v1 := OpeningEstablishes(odd, even);
    var net2, v2 := SendingArrives(net1, odd, even, v1);
    ReadingFails(net2, odd, even, v2);
    Concat(Initial(odd, even), OPENING, net1, SENDING, Stepped(net2));
    Concat(Initial(odd, even), OPENING + SENDING, net2, READING, Broken(ZeroIncrement));
    Undisciplined(odd, even, (OPENING + SENDING) + READING);
  }
}
