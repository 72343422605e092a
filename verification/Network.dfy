/** Two multiplexers of opposite parity joined by a carrier: every stream of both,
    identifier allocation, the accept backlog and the reader goroutines. */
module Network {
  import opened Wrappers
  import opened Messages
  import opened StreamEnd
  import Link

  datatype Side = Odd | Even {
    function Other(): Side { if Odd? then Even else Odd }
  }

  /** The even side opens streams with even identifiers, the odd side those with odd ones. */
  predicate IsOutbound(side: Side, id: nat) { side.Even? <==> id % 2 == 0 }

  function RoleOf(side: Side, id: nat): Role { if IsOutbound(side, id) then Opener else Acceptor }

  datatype Configuration = Configuration(streamReceiveWindow: nat, acceptBacklog: nat) {
    /** What normalize leaves, in the range of Go's int. */
    predicate Valid() { streamReceiveWindow <= MAX_INT64 && 1 <= acceptBacklog <= MAX_INT64 }
  }

  /** One multiplexer.  `streams` keeps the ends that have been deregistered too. */
  datatype Endpoint = Endpoint(
    configuration: Configuration,
    nextOutbound: nat,                   // 0 once identifiers are exhausted
    largestOpenedInbound: nat,
    streams: map<nat, End>,
    backlog: seq<nat>,                   // pendingInboundStreamIdentifiers
    opening: set<nat>                    // OpenStream calls that hold an identifier not yet sent
  ) {
    function At(id: nat): End { if id in streams then streams[id] else FRESH }

    function With(id: nat, e: End): Endpoint { this.(streams := streams[id := e]) }
  }

  /** `fromOdd` and `fromEven` hold what has been queued and not yet handled, in order. */
  datatype Net = Net(odd: Endpoint, even: Endpoint, fromOdd: seq<Frame>, fromEven: seq<Frame>) {
    function At(side: Side): Endpoint { if side.Odd? then odd else even }

    function From(side: Side): seq<Frame> { if side.Odd? then fromOdd else fromEven }

    function With(side: Side, p: Endpoint): Net {
      if side.Odd? then this.(odd := p) else this.(even := p)
    }

    function WithFrames(side: Side, frames: seq<Frame>): Net {
      if side.Odd? then this.(fromOdd := frames) else this.(fromEven := frames)
    }
  }

  function Start(configuration: Configuration, side: Side): Endpoint {
    Endpoint(configuration, if side.Even? then 2 else 1, 0, map[], [], {})
  }

  function Initial(odd: Configuration, even: Configuration): Net {
    Net(Start(odd, Odd), Start(even, Even), [], [])
  }

  // ----- Steps -----

  datatype Step =
    | Act(side: Side, id: nat, action: Action)
    | SendHeartbeat(side: Side, position: nat)
    | HandleHeartbeat(side: Side)
    | LookUp(side: Side)
    | Handle(side: Side)
    | HandleOpen(side: Side)

  datatype Outcome = Stepped(net: Net) | Broken(violation: Violation)

  /** The message the reader goroutine is at. */
  predicate HasMessage(net: Net, side: Side) {
    net.From(side.Other()) != [] && net.From(side.Other())[0].ForStream?
  }

  function Identifier(net: Net, side: Side): nat
    requires HasMessage(net, side)
  {
    net.From(side.Other())[0].id
  }

  function Head(net: Net, side: Side): Message
    requires HasMessage(net, side)
  {
    net.From(side.Other())[0].message
  }

  predicate Enables(net: Net, step: Step) {
    match step
    case Act(side, id, action) =>
      && id >= 1
      && Enabled(RoleOf(side, id), net.At(side).At(id), action)
      && (action == Opening(Allocate) ==> id == net.At(side).nextOutbound)
      && (action == Accepting(TakePending) ==> net.At(side).backlog != [] && net.At(side).backlog[0] == id)
    case SendHeartbeat(side, position) => position <= |net.From(side)|
    case HandleHeartbeat(side) => net.From(side.Other()) != [] && net.From(side.Other())[0].Heartbeat?
    case LookUp(side) =>
      && HasMessage(net, side) && !Head(net, side).Open?
      && net.At(side).At(Identifier(net, side)).lookedUp.None?
    case Handle(side) =>
      && HasMessage(net, side) && !Head(net, side).Open?
      && net.At(side).At(Identifier(net, side)).lookedUp.Some?
    case HandleOpen(side) => HasMessage(net, side) && Head(net, side).Open?
  }

  /** Identifiers advance by two and stop before they would wrap. */
  function NextIdentifier(id: nat): nat
    requires id <= MAX_UINT64
  {
    if MAX_UINT64 - id < 2 then 0 else id + 2
  }

  /** The fields of the multiplexer that the sections of OpenStream and acceptOneStream
      change besides the stream itself. */
  function Account(p: Endpoint, id: nat, a: Action): Endpoint {
    if a == Opening(Allocate) then
      p.(nextOutbound := if id <= MAX_UINT64 then NextIdentifier(id) else 0, opening := p.opening + {id})
    else if a == Opening(SendOpen) || a == Opening(OpenFails) then p.(opening := p.opening - {id})
    else if a == Accepting(TakePending) && p.backlog != [] then p.(backlog := p.backlog[1..])
    else p
  }

  /** The acting end changes, and what it sends joins the frames. */
  function Applied(net: Net, side: Side, id: nat, a: Action, o: StreamEnd.Outcome): Outcome {
    if o.Violated? then Broken(o.violation)
    else
      var frames := if o.output.Some? then net.From(side) + [ForStream(id, o.output.value)] else net.From(side);
      Stepped(net.With(side, Account(net.At(side), id, a).With(id, o.end)).WithFrames(side, frames))
  }

  function DoAct(net: Net, side: Side, id: nat, a: Action): Outcome
    requires Enables(net, Act(side, id, a))
  {
    var p := net.At(side);
    Applied(net, side, id, a, Local(RoleOf(side, id), p.configuration.streamReceiveWindow, p.At(id), a))
  }

  /** The range checks on the identifier of a message other than open, then the lookup. */
  function DoLookUp(net: Net, side: Side): Outcome
    requires Enables(net, LookUp(side))
  {
    var p, id, m := net.At(side), Identifier(net, side), Head(net, side);
    var outbound := IsOutbound(side, id);
    if id == 0 then Broken(ZeroIdentifier)
    else if m.Accept? && !outbound then Broken(InboundIdentifierAccepted)
    else if !outbound && id > p.largestOpenedInbound then Broken(UnopenedInboundIdentifier)
    else if outbound && p.nextOutbound != 0 && id >= p.nextOutbound then Broken(UnusedOutboundIdentifier)
    else
      var e := p.At(id);
      Stepped(net.With(side, p.With(id, e.(lookedUp := Some(e.registered)))))
  }

  function DoHandle(net: Net, side: Side): Outcome
    requires Enables(net, Handle(side))
  {
    var p, id, m := net.At(side), Identifier(net, side), Head(net, side);
    var e := p.At(id);
    var o := Receive(IsOutbound(side, id), p.configuration.streamReceiveWindow, e, m, e.lookedUp.value);
    if o.Violated? then Broken(o.violation)
    else
      Stepped(net.With(side, p.With(id, Link.Settle(RoleOf(side.Other(), id), o.end, m)))
                 .WithFrames(side.Other(), net.From(side.Other())[1..]))
  }

  function DoHandleOpen(net: Net, side: Side): Outcome
    requires Enables(net, HandleOpen(side))
  {
    var p, id, m := net.At(side), Identifier(net, side), Head(net, side);
    if id == 0 then Broken(ZeroIdentifier)
    else if IsOutbound(side, id) then Broken(OutboundIdentifierOpened)
    else if id <= p.largestOpenedInbound then Broken(IdentifierNotIncreasing)
    else
      var full := |p.backlog| == p.configuration.acceptBacklog;
      var o := ReceiveOpen(p.At(id), m.window, full);
      if o.Violated? then Broken(o.violation)
      else
        var p' := p.(largestOpenedInbound := id, backlog := if full then p.backlog else p.backlog + [id]);
        Stepped(net.With(side, p'.With(id, Link.Settle(Opener, o.end, m)))
                   .WithFrames(side.Other(), net.From(side.Other())[1..]))
  }

  function Do(net: Net, step: Step): Outcome
    requires Enables(net, step)
  {
    match step
    case Act(side, id, action) => DoAct(net, side, id, action)
    case SendHeartbeat(side, position) =>
      var frames := net.From(side);
      Stepped(net.WithFrames(side, frames[..position] + [Heartbeat] + frames[position..]))
    case HandleHeartbeat(side) =>
      Stepped(net.WithFrames(side.Other(), net.From(side.Other())[1..]))
    case LookUp(side) => DoLookUp(net, side)
    case Handle(side) => DoHandle(net, side)
    case HandleOpen(side) => DoHandleOpen(net, side)
  }

  // ----- One stream of the network -----

  /** The messages of one stream among the frames of one direction. */
  function Project(frames: seq<Frame>, id: nat): seq<Message> {
    if frames == [] then []
    else (if frames[0].ForStream? && frames[0].id == id then [frames[0].message] else []) + Project(frames[1..], id)
  }

  function OpenerSide(id: nat): Side { if id % 2 == 0 then Even else Odd }

  function LinkOf(net: Net, id: nat): Link.Link {
    var side := OpenerSide(id);
    Link.Link(net.At(side).At(id), net.At(side.Other()).At(id),
              Project(net.From(side), id), Project(net.From(side.Other()), id))
  }

  function WindowsOf(net: Net, id: nat): Link.Windows {
    var side := OpenerSide(id);
    Link.Windows(net.At(side).configuration.streamReceiveWindow,
                 net.At(side.Other()).configuration.streamReceiveWindow)
  }

  lemma {:induction false} ProjectConcat(a: seq<Frame>, b: seq<Frame>, id: nat)
    ensures Project(a + b, id) == Project(a, id) + Project(b, id)
  {
    if a == [] {
      assert a + b == b;
    } else {
      assert (a + b)[1..] == a[1..] + b;
      ProjectConcat(a[1..], b, id);
    }
  }

  lemma ProjectOne(frame: Frame, id: nat)
    ensures Project([frame], id) ==
            if frame.ForStream? && frame.id == id then [frame.message] else []
  {
    assert [frame][1..] == [];
  }
}
