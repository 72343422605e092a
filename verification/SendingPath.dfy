/** How messages get from the goroutines to the carrier: the write-buffer pool beside the
    network. */
module SendingPath {
  import opened Wrappers
  import opened Messages
  import opened StreamEnd
  import opened Network
  import opened NetworkSimulation
  import opened NetworkInvariants
  import NetworkTheorems
  import Enqueue
  import opened EnqueueSteps
  import WriteBuffers

  /** One endpoint's pool beside the network.  `handled` is history: the frames from that
      endpoint that the peer's reader goroutine has dealt with. */
  datatype Path = Path(net: Net, pool: WriteBuffers.Pool, handled: seq<Frame>)

  datatype PathStep =
    | Buffers(buffers: WriteBuffers.Step)              // anything but handing a buffer over
    | HandsOver(holder: nat, steps: seq<Step>)         // the network steps that queue its messages
    | Elsewhere(elsewhere: Step)                       // a network step that queues nothing on this side

  /** The step takes a frame of `side` off the network. */
  predicate Receives(step: Step, side: Side) {
    (step.HandleHeartbeat? || step.Handle? || step.HandleOpen?) && step.side == side.Other()
  }

  /** Only what is on the carrier can be handled. */
  ghost predicate PathEnabled(side: Side, path: Path, step: PathStep) {
    match step
    case Buffers(b) => WriteBuffers.Enabled(path.pool, b) && !b.Submit? && WriteBuffers.Do(path.pool, b).Stepped?
    case HandsOver(h, steps) =>
      && WriteBuffers.Enabled(path.pool, WriteBuffers.Submit(h))
      && WriteBuffers.Do(path.pool, WriteBuffers.Submit(h)).Stepped?
      && NetworkTheorems.Possible(path.net, steps) && NetworkTheorems.Run(path.net, steps).Stepped?
      && NetworkTheorems.Run(path.net, steps).net.From(side) == path.net.From(side) + path.pool.held[h].frames
    case Elsewhere(s) =>
      && Enables(path.net, s) && Do(path.net, s).Stepped?
      && (s.Act? && s.side == side ==> Do(path.net, s).net.From(side) == path.net.From(side))
      && (Receives(s, side) && path.net.From(side)[0].ForStream? ==>
            |WriteBuffers.StreamFrames(path.handled)| < |WriteBuffers.StreamFrames(path.pool.carrier)|)
  }

  ghost function PathDo(side: Side, path: Path, step: PathStep): Path
    requires PathEnabled(side, path, step)
  {
    match step
    case Buffers(b) => path.(pool := WriteBuffers.Do(path.pool, b).pool)
    case HandsOver(h, steps) =>
      path.(pool := WriteBuffers.Do(path.pool, WriteBuffers.Submit(h)).pool,
            net := NetworkTheorems.Run(path.net, steps).net)
    case Elsewhere(s) =>
      path.(net := Do(path.net, s).net,
            handled := if Receives(s, side) then path.handled + [path.net.From(side)[0]] else path.handled)
  }

  // ----- Handing over is always possible -----

  /** The goroutine that owns the end is about to queue `m`. */
  predicate Sends(e: End, window: nat, m: Message) {
    || (m == Open(window) && e.origin.Allocated?)
    || (m == Accept(window) && e.origin.Marked?)
    || (m.Data? && e.writer.Sending? && e.writer.block == m.block)
  }

  /** A held buffer is that of an OpenStream, acceptOneStream or Write call that has encoded its
      message, or a batch of what the enqueue goroutine has accumulated. */
  ghost predicate Tied(net: Net, side: Side, holding: WriteBuffers.Holding) {
    match holding
    case Single(frames, _) =>
      && |frames| == 1 && frames[0].ForStream? && frames[0].id >= 1
      && Sends(net.At(side).At(frames[0].id), net.At(side).configuration.streamReceiveWindow, frames[0].message)
    case Batch(frames) => exists u, u' :: Describes(u, net.At(side)) && Enqueue.Drains(u, frames, u')
  }

  function SendOf(m: Message): Action {
    if m.Open? then Opening(SendOpen) else if m.Accept? then Accepting(SendAccept) else Writing(WriteSends)
  }

  lemma EndSends(role: Role, window: nat, e: End, m: Message)
    requires Sends(e, window, m)
    ensures Enabled(role, e, SendOf(m))
    ensures Local(role, window, e, SendOf(m)).Next? && Local(role, window, e, SendOf(m)).output == Some(m)
  {
    match m
    case Open(_) =>
    case Accept(_) =>
    case Data(_) =>
    case _ => assert false;
  }

  /** A single message is queued by one step of its goroutine. */
  lemma MessageIsStep(net: Net, side: Side, frame: Frame)
    requires frame.ForStream? && frame.id >= 1
    requires Sends(net.At(side).At(frame.id), net.At(side).configuration.streamReceiveWindow, frame.message)
    ensures
      var step := Act(side, frame.id, SendOf(frame.message));
      && NetworkTheorems.Possible(net, [step]) && NetworkTheorems.Run(net, [step]).Stepped?
      && NetworkTheorems.Run(net, [step]).net.From(side) == net.From(side) + [frame]
  {
    var id, a := frame.id, SendOf(frame.message);
    EndSends(RoleOf(side, id), net.At(side).configuration.streamReceiveWindow, net.At(side).At(id), frame.message);
    ActChanges(net, side, id, a);
    OneStep(net, Act(side, id, a));
  }

  lemma OneStep(net: Net, step: Step)
    requires Enables(net, step) && Do(net, step).Stepped?
    ensures NetworkTheorems.Possible(net, [step]) && NetworkTheorems.Run(net, [step]) == Do(net, step)
  {
    assert [step][0] == step && [step][1..] == [];
    assert NetworkTheorems.Possible(Do(net, step).net, []);
  }

  /** Whenever a goroutine can hand over its buffer, the network has steps that queue the same
      messages, so that the joint step is enabled. */
  lemma HandoverIsPossible(side: Side, path: Path, h: nat)
    requires Inv(path.net) && WriteBuffers.Inv(path.pool) && WriteBuffers.Enabled(path.pool, WriteBuffers.Submit(h))
    requires Tied(path.net, side, path.pool.held[h])
    ensures exists steps :: PathEnabled(side, path, HandsOver(h, steps))
  {
    WriteBuffers.StepKeepsInv(path.pool, WriteBuffers.Submit(h));
    var holding := path.pool.held[h];
    if holding.Single? {
      var frame := holding.frames[0];
      MessageIsStep(path.net, side, frame);
      assert holding.frames == [frame];
      assert PathEnabled(side, path, HandsOver(h, [Act(side, frame.id, SendOf(frame.message))]));
    } else {
      var u, u' :| Describes(u, path.net.At(side)) && Enqueue.Drains(u, holding.frames, u');
      var net' := BatchIsRun(path.net, side, u, holding.frames, u');
      assert PathEnabled(side, path, HandsOver(h, StepsOf(side, holding.frames)));
    }
  }

  // ----- Order -----

  /** What the network model has in flight, after what was handled, is what was submitted to
      the pool, in the same order; and the peer is not ahead of the carrier. */
  ghost predicate PathInv(side: Side, path: Path) {
    && WriteBuffers.Inv(path.pool)
    && WriteBuffers.StreamFrames(path.handled) + WriteBuffers.StreamFrames(path.net.From(side)) == path.pool.submitted
    && |WriteBuffers.StreamFrames(path.handled)| <= |WriteBuffers.StreamFrames(path.pool.carrier)|
  }

  lemma HeartbeatIsNoMessage(frames: seq<Frame>, position: nat)
    requires position <= |frames|
    ensures
      WriteBuffers.StreamFrames(frames[..position] + [Heartbeat] + frames[position..]) ==
      WriteBuffers.StreamFrames(frames)
  {
    HeartbeatBetween(frames[..position], frames[position..]);
    assert frames == frames[..position] + frames[position..];
  }

  lemma HeartbeatBetween(a: seq<Frame>, b: seq<Frame>)
    ensures WriteBuffers.StreamFrames(a + [Heartbeat] + b) == WriteBuffers.StreamFrames(a + b)
  {
    WriteBuffers.StreamFramesConcat(a + [Heartbeat], b);
    WriteBuffers.StreamFramesConcat(a, [Heartbeat]);
    WriteBuffers.StreamFramesConcat(a, b);
    NoMessage();
    assert WriteBuffers.StreamFrames(a) + [] == WriteBuffers.StreamFrames(a);
  }

  lemma NoMessage()
    ensures WriteBuffers.StreamFrames([Heartbeat]) == []
  {
    assert [Heartbeat][1..] == [];
  }

  /** What a network step that queues nothing does to the frames. */
  lemma ElsewhereFrames(net: Net, s: Step, side: Side)
    requires Enables(net, s) && Do(net, s).Stepped? && !s.SendHeartbeat?
    requires s.Act? && s.side == side ==> Do(net, s).net.From(side) == net.From(side)
    ensures
      var frames, frames' := net.From(side), Do(net, s).net.From(side);
      if Receives(s, side) then frames != [] && frames' == frames[1..] else frames' == frames
  {
    match s
    case Act(s, id, a) => ActChanges(net, s, id, a);
    case Handle(s) => HandleChanges(net, s);
    case HandleOpen(s) => HandleOpenChanges(net, s);
    case LookUp(s) =>
    case HandleHeartbeat(s) =>
  }

  lemma ElsewhereKeepsFrames(net: Net, s: Step, side: Side)
    requires Enables(net, s) && Do(net, s).Stepped?
    requires s.Act? && s.side == side ==> Do(net, s).net.From(side) == net.From(side)
    ensures
      var frames, frames' := net.From(side), Do(net, s).net.From(side);
      if Receives(s, side) then frames != [] && frames' == frames[1..]
      else WriteBuffers.StreamFrames(frames') == WriteBuffers.StreamFrames(frames)
  {
    if !s.SendHeartbeat? {
      ElsewhereFrames(net, s, side);
    } else if s.side == side {
      HeartbeatIsNoMessage(net.From(side), s.position);
    }
  }

  /** Moving the first frame from what is in flight to what was handled. */
  lemma FrameIsHandled(handled: seq<Frame>, frames: seq<Frame>)
    requires frames != []
    ensures
      WriteBuffers.StreamFrames(handled + [frames[0]]) + WriteBuffers.StreamFrames(frames[1..]) ==
      WriteBuffers.StreamFrames(handled) + WriteBuffers.StreamFrames(frames)
    ensures
      |WriteBuffers.StreamFrames(handled + [frames[0]])| ==
      |WriteBuffers.StreamFrames(handled)| + if frames[0].ForStream? then 1 else 0
  {
    WriteBuffers.StreamFramesConcat(handled, [frames[0]]);
    assert [frames[0]][1..] == [];
    assert frames == [frames[0]] + frames[1..];
    WriteBuffers.StreamFramesConcat([frames[0]], frames[1..]);
    WriteBuffers.Associate(WriteBuffers.StreamFrames(handled), WriteBuffers.StreamFrames([frames[0]]),
                           WriteBuffers.StreamFrames(frames[1..]));
  }

  /** Buffers move, the carrier only grows, and only handing over submits. */
  lemma BuffersKeepSubmitted(p: WriteBuffers.Pool, b: WriteBuffers.Step)
    requires WriteBuffers.Enabled(p, b) && !b.Submit? && WriteBuffers.Do(p, b).Stepped?
    ensures WriteBuffers.Do(p, b).pool.submitted == p.submitted
    ensures |WriteBuffers.StreamFrames(WriteBuffers.Do(p, b).pool.carrier)| >= |WriteBuffers.StreamFrames(p.carrier)|
  {
    if b.WriteOut? {
      WriteBuffers.StreamFramesConcat(p.carrier, p.writing.frames);
    } else if b.WriteHeartbeat? {
      WriteBuffers.StreamFramesConcat(p.carrier, [Heartbeat]);
    }
  }

  lemma HandingOverKeepsPath(side: Side, path: Path, h: nat, steps: seq<Step>)
    requires PathInv(side, path) && PathEnabled(side, path, HandsOver(h, steps))
    ensures PathInv(side, PathDo(side, path, HandsOver(h, steps)))
  {
    var frames := path.pool.held[h].frames;
    WriteBuffers.StepKeepsInv(path.pool, WriteBuffers.Submit(h));
    assert WriteBuffers.HoldingInv(path.pool.held[h]);
    WriteBuffers.StreamFramesConcat(path.net.From(side), frames);
    WriteBuffers.StreamFramesOfStreamFrames(frames);
    WriteBuffers.Associate(WriteBuffers.StreamFrames(path.handled), WriteBuffers.StreamFrames(path.net.From(side)),
                           frames);
  }

  lemma StepKeepsPath(side: Side, path: Path, step: PathStep)
    requires PathInv(side, path) && PathEnabled(side, path, step)
    ensures PathInv(side, PathDo(side, path, step))
  {
    match step
    case Buffers(b) =>
      WriteBuffers.StepKeepsInv(path.pool, b);
      BuffersKeepSubmitted(path.pool, b);
    case HandsOver(h, steps) => HandingOverKeepsPath(side, path, h, steps);
    case Elsewhere(s) =>
      ElsewhereKeepsFrames(path.net, s, side);
      if Receives(s, side) { FrameIsHandled(path.handled, path.net.From(side)); }
  }

  ghost predicate PathPossible(side: Side, path: Path, steps: seq<PathStep>)
    decreases |steps|
  {
    steps == [] || (PathEnabled(side, path, steps[0]) && PathPossible(side, PathDo(side, path, steps[0]), steps[1..]))
  }

  ghost function PathRun(side: Side, path: Path, steps: seq<PathStep>): Path
    requires PathPossible(side, path, steps)
    decreases |steps|
  {
    if steps == [] then path else PathRun(side, PathDo(side, path, steps[0]), steps[1..])
  }

  lemma {:induction false} RunKeepsPath(side: Side, path: Path, steps: seq<PathStep>)
    requires PathInv(side, path) && PathPossible(side, path, steps)
    ensures PathInv(side, PathRun(side, path, steps))
    decreases |steps|
  {
    if steps != [] {
      StepKeepsPath(side, path, steps[0]);
      RunKeepsPath(side, PathDo(side, path, steps[0]), steps[1..]);
    }
  }

  /** In every run of two new multiplexers together with one side's pool: the messages on the
      carrier, then those in the writer's hands and pending, are those the peer has handled,
      then those the network has in flight, in the same order; and what has been handled is
      the beginning of what is on the carrier. */
  lemma CarrierOrderIsNetworkOrder(odd: Configuration, even: Configuration, side: Side, count: nat,
                                   steps: seq<PathStep>)
    requires PathPossible(side, Path(Initial(odd, even), WriteBuffers.Initial(count), []), steps)
    ensures
      var path := PathRun(side, Path(Initial(odd, even), WriteBuffers.Initial(count), []), steps);
      var carried, handled := WriteBuffers.StreamFrames(path.pool.carrier), WriteBuffers.StreamFrames(path.handled);
      && carried + WriteBuffers.Unwritten(path.pool) == handled + WriteBuffers.StreamFrames(path.net.From(side))
      && handled <= carried
  {
    var start := Path(Initial(odd, even), WriteBuffers.Initial(count), []);
    assert PathInv(side, start);
    RunKeepsPath(side, start, steps);
    var path := PathRun(side, start, steps);
    PrefixOf(WriteBuffers.StreamFrames(path.pool.carrier), WriteBuffers.Unwritten(path.pool),
             WriteBuffers.StreamFrames(path.handled), WriteBuffers.StreamFrames(path.net.From(side)));
  }

  lemma PrefixOf(a: seq<Frame>, b: seq<Frame>, c: seq<Frame>, d: seq<Frame>)
    requires a + b == c + d && |c| <= |a|
    ensures c <= a
  {
    assert c == (c + d)[..|c|] && a[..|c|] == (a + b)[..|c|];
  }
}
