/** The fixed pool of write buffers that goroutines borrow, fill, and hand to the writer
    goroutine. */
module WriteBuffers {
  import opened Messages
  import opened Codec

  /** What a buffer was borrowed for: one open, accept or data message, or as many
      accumulated updates as fit. */
  datatype Holding =
    | Single(frames: seq<Frame>, encoded: bool)
    | Batch(frames: seq<Frame>)

  /** The writer goroutine: between buffers, about to write one out, or about to put it back. */
  datatype Writing = Idle | Taken(frames: seq<Frame>) | Written(frames: seq<Frame>)

  /** A buffer is the frames encoded in it.  `held` maps each goroutine that holds a buffer
      to that buffer. */
  datatype Pool = Pool(
    count: nat,                        // WriteBufferCount
    available: seq<seq<Frame>>,        // writeBufferAvailable
    pending: seq<seq<Frame>>,          // writeBufferPending
    held: map<nat, Holding>,
    writing: Writing,
    carrier: seq<Frame>,               // everything written to the carrier
    submitted: seq<Frame>              // history: everything placed in pending, in order
  )

  datatype Step =
    | Borrow(holder: nat, single: bool)
    | Encode(holder: nat, frame: Frame)
    | Submit(holder: nat)
    | Take
    | WriteOut
    | PutBack
    | WriteHeartbeat

  datatype Outcome = Stepped(pool: Pool) | Panicked | Blocked

  function Initial(count: nat): Pool {
    Pool(count, seq(count, _ => []), [], map[], Idle, [], [])
  }

  /** What the canEncode checks and ensureSufficientFreeSpace ask. */
  predicate HasRoom(frames: seq<Frame>, frame: Frame) {
    AllEncodable(frames) && |EncodeAll(frames)| + MaximumSize(frame) <= MAXIMUM_MESSAGE_SIZE
  }

  predicate IsUpdate(frame: Frame) {
    frame.ForStream? && (frame.message.Increment? || frame.message.CloseWrite? || frame.message.Close?)
  }

  /** OpenStream, acceptOneStream and Write encode one message without asking; the enqueue
      goroutine asks before each update. */
  predicate Enabled(p: Pool, step: Step) {
    match step
    case Borrow(h, _) => h !in p.held && p.available != []
    case Encode(h, frame) =>
      && h in p.held && Encodable(frame) && frame.ForStream?
      && (match p.held[h]
          case Single(_, encoded) => !encoded && !IsUpdate(frame)
          case Batch(frames) => IsUpdate(frame) && HasRoom(frames, frame))
    case Submit(h) => h in p.held && (p.held[h].Single? ==> p.held[h].encoded)
    case Take => p.writing.Idle? && p.pending != []
    case WriteOut => p.writing.Taken?
    case PutBack => p.writing.Written?
    case WriteHeartbeat => p.writing.Idle?
  }

  function Add(holding: Holding, frame: Frame): Holding {
    match holding
    case Single(frames, _) => Single(frames + [frame], true)
    case Batch(frames) => Batch(frames + [frame])
  }

  function Do(p: Pool, step: Step): Outcome
    requires Enabled(p, step)
  {
    match step
    case Borrow(h, single) =>
      var buffer := p.available[0];
      Stepped(p.(available := p.available[1..],
                 held := p.held[h := if single then Single(buffer, false) else Batch(buffer)]))
    case Encode(h, frame) =>
      if HasRoom(p.held[h].frames, frame) then Stepped(p.(held := p.held[h := Add(p.held[h], frame)]))
      else Panicked
    case Submit(h) =>
      if |p.pending| == p.count then Blocked
      else
        Stepped(p.(pending := p.pending + [p.held[h].frames], held := p.held - {h},
                   submitted := p.submitted + p.held[h].frames))
    case Take => Stepped(p.(pending := p.pending[1..], writing := Taken(p.pending[0])))
    case WriteOut => Stepped(p.(carrier := p.carrier + p.writing.frames, writing := Written([])))
    case PutBack =>
      if |p.available| == p.count then Blocked
      else Stepped(p.(available := p.available + [p.writing.frames], writing := Idle))
    case WriteHeartbeat => Stepped(p.(carrier := p.carrier + [Heartbeat]))
  }

  function Flatten(buffers: seq<seq<Frame>>): seq<Frame> {
    if buffers == [] then [] else buffers[0] + Flatten(buffers[1..])
  }

  /** The frames that are about streams. */
  function StreamFrames(frames: seq<Frame>): seq<Frame> {
    if frames == [] then []
    else (if frames[0].ForStream? then [frames[0]] else []) + StreamFrames(frames[1..])
  }

  // ----- Invariant -----

  predicate Fits(frames: seq<Frame>) {
    && AllEncodable(frames)
    && |EncodeAll(frames)| <= MAXIMUM_MESSAGE_SIZE
    && forall i | 0 <= i < |frames| :: frames[i].ForStream?
  }

  predicate Conserved(p: Pool) {
    |p.available| + |p.pending| + |p.held| + (if p.writing.Idle? then 0 else 1) == p.count
  }

  predicate HoldingInv(holding: Holding) {
    Fits(holding.frames) && (holding.Single? && !holding.encoded ==> |holding.frames| == 0)
  }

  predicate BuffersInv(p: Pool) {
    && (forall i | 0 <= i < |p.available| :: p.available[i] == [])
    && (forall i | 0 <= i < |p.pending| :: Fits(p.pending[i]))
    && (forall h | h in p.held :: HoldingInv(p.held[h]))
    && (p.writing.Taken? ==> Fits(p.writing.frames))
    && (p.writing.Written? ==> p.writing.frames == [])
  }

  function Unwritten(p: Pool): seq<Frame> {
    (if p.writing.Taken? then p.writing.frames else []) + Flatten(p.pending)
  }

  predicate OrderInv(p: Pool) { StreamFrames(p.carrier) + Unwritten(p) == p.submitted }

  predicate Inv(p: Pool) { Conserved(p) && BuffersInv(p) && OrderInv(p) }

  lemma {:induction false} FlattenAppend(buffers: seq<seq<Frame>>, b: seq<Frame>)
    ensures Flatten(buffers + [b]) == Flatten(buffers) + b
  {
    if buffers == [] {
      assert buffers + [b] == [b] && [b][1..] == [];
    } else {
      assert (buffers + [b])[1..] == buffers[1..] + [b];
      FlattenAppend(buffers[1..], b);
      assert buffers[0] + (Flatten(buffers[1..]) + b) == (buffers[0] + Flatten(buffers[1..])) + b;
    }
  }

  lemma {:induction false} StreamFramesConcat(a: seq<Frame>, b: seq<Frame>)
    ensures StreamFrames(a + b) == StreamFrames(a) + StreamFrames(b)
  {
    if a == [] {
      assert a + b == b;
    } else {
      assert (a + b)[1..] == a[1..] + b;
      StreamFramesConcat(a[1..], b);
    }
  }

  lemma {:induction false} StreamFramesOfStreamFrames(frames: seq<Frame>)
    requires forall i | 0 <= i < |frames| :: frames[i].ForStream?
    ensures StreamFrames(frames) == frames
  {
    if frames != [] {
      StreamFramesOfStreamFrames(frames[1..]);
    }
  }

  /** A frame that was admitted still leaves the buffer within its size. */
  lemma AddedFits(frames: seq<Frame>, frame: Frame)
    requires Fits(frames) && Encodable(frame) && frame.ForStream? && HasRoom(frames, frame)
    ensures Fits(frames + [frame])
  {
    EncodeAllConcat(frames, [frame]);
    assert [frame][1..] == [];
    assert EncodeAll([frame]) == EncodeFrame(frame) + [];
    FrameFits(frame);
  }

  lemma EncodeKeepsHolding(holding: Holding, frame: Frame)
    requires HoldingInv(holding) && Encodable(frame) && frame.ForStream?
    requires match holding
             case Single(_, encoded) => !encoded
             case Batch(frames) => HasRoom(frames, frame)
    ensures HasRoom(holding.frames, frame) && HoldingInv(Add(holding, frame))
  {
    if holding.Single? {
      FrameFits(frame);
      assert EncodeAll(holding.frames) == [];
    }
    AddedFits(holding.frames, frame);
  }

  /** No send on either channel blocks, and every buffer is accounted for. */
  lemma StepConserves(p: Pool, step: Step)
    requires Conserved(p) && Enabled(p, step)
    ensures !Do(p, step).Blocked?
    ensures Do(p, step).Stepped? ==> Conserved(Do(p, step).pool)
  {
    match step
    case Submit(h) => assert |p.held - {h}| == |p.held| - 1;
    case Borrow(_, _) =>
    case Encode(_, _) =>
    case Take =>
    case WriteOut =>
    case PutBack =>
    case WriteHeartbeat =>
  }

  lemma HolderKeepsBuffers(p: Pool, step: Step)
    requires BuffersInv(p) && Enabled(p, step) && (step.Borrow? || step.Encode? || step.Submit?)
    ensures !Do(p, step).Panicked?
    ensures Do(p, step).Stepped? ==> BuffersInv(Do(p, step).pool)
  {
    match step
    case Borrow(_, _) =>
    case Encode(h, frame) => EncodeKeepsHolding(p.held[h], frame);
    case Submit(h) => assert HoldingInv(p.held[h]);
  }

  /** No borrower panics for lack of space, and every buffer put back is empty. */
  lemma StepKeepsBuffers(p: Pool, step: Step)
    requires BuffersInv(p) && Enabled(p, step)
    ensures !Do(p, step).Panicked?
    ensures Do(p, step).Stepped? ==> BuffersInv(Do(p, step).pool)
  {
    if step.Borrow? || step.Encode? || step.Submit? {
      HolderKeepsBuffers(p, step);
    }
  }

  lemma Associate(a: seq<Frame>, b: seq<Frame>, c: seq<Frame>)
    ensures (a + b) + c == a + (b + c)
  {
  }

  lemma SubmitKeepsOrder(p: Pool, h: nat)
    requires OrderInv(p) && Enabled(p, Submit(h)) && Do(p, Submit(h)).Stepped?
    ensures OrderInv(Do(p, Submit(h)).pool)
  {
    var frames := p.held[h].frames;
    var first := if p.writing.Taken? then p.writing.frames else [];
    FlattenAppend(p.pending, frames);
    Associate(first, Flatten(p.pending), frames);
    Associate(StreamFrames(p.carrier), Unwritten(p), frames);
  }

  lemma TakeKeepsOrder(p: Pool)
    requires OrderInv(p) && Enabled(p, Take)
    ensures OrderInv(Do(p, Take).pool)
  {
    var p' := Do(p, Take).pool;
    assert Unwritten(p) == Flatten(p.pending) == Unwritten(p');
  }

  lemma WriteOutKeepsOrder(p: Pool)
    requires OrderInv(p) && p.writing.Taken? && Fits(p.writing.frames)
    ensures OrderInv(Do(p, WriteOut).pool)
  {
    var frames, p' := p.writing.frames, Do(p, WriteOut).pool;
    StreamFramesConcat(p.carrier, frames);
    StreamFramesOfStreamFrames(frames);
    Associate(StreamFrames(p.carrier), frames, Flatten(p.pending));
    assert StreamFrames(p'.carrier) == StreamFrames(p.carrier) + frames;
    assert Unwritten(p') == Flatten(p.pending) && Unwritten(p) == frames + Flatten(p.pending);
  }

  lemma HeartbeatKeepsOrder(p: Pool)
    requires OrderInv(p) && p.writing.Idle?
    ensures OrderInv(Do(p, WriteHeartbeat).pool)
  {
    StreamFramesConcat(p.carrier, [Heartbeat]);
    assert [Heartbeat][1..] == [];
    assert StreamFrames([Heartbeat]) == [];
  }

  /** What reaches the carrier is what was submitted, in that order, with heartbeats only
      between buffers. */
  lemma StepKeepsOrder(p: Pool, step: Step)
    requires BuffersInv(p) && OrderInv(p) && Enabled(p, step) && Do(p, step).Stepped?
    ensures OrderInv(Do(p, step).pool)
  {
    match step
    case Submit(h) => SubmitKeepsOrder(p, h);
    case Take => TakeKeepsOrder(p);
    case WriteOut => WriteOutKeepsOrder(p);
    case WriteHeartbeat => HeartbeatKeepsOrder(p);
    case Borrow(_, _) =>
    case Encode(_, _) =>
    case PutBack =>
  }

  lemma StepKeepsInv(p: Pool, step: Step)
    requires Inv(p) && Enabled(p, step)
    ensures Do(p, step).Stepped? && Inv(Do(p, step).pool)
  {
    StepConserves(p, step);
    StepKeepsBuffers(p, step);
    StepKeepsOrder(p, step);
  }

  predicate Possible(p: Pool, steps: seq<Step>)
    decreases |steps|
  {
    steps == [] || (Enabled(p, steps[0]) && (Do(p, steps[0]).Stepped? ==> Possible(Do(p, steps[0]).pool, steps[1..])))
  }

  function Run(p: Pool, steps: seq<Step>): Outcome
    requires Possible(p, steps)
    decreases |steps|
  {
    if steps == [] then Stepped(p)
    else
      var o := Do(p, steps[0]);
      if o.Stepped? then Run(o.pool, steps[1..]) else o
  }

  lemma {:induction false} RunKeepsInv(p: Pool, steps: seq<Step>)
    requires Inv(p) && Possible(p, steps)
    ensures Run(p, steps).Stepped? && Inv(Run(p, steps).pool) && Run(p, steps).pool.count == p.count
    decreases |steps|
  {
    if steps != [] {
      StepKeepsInv(p, steps[0]);
      RunKeepsInv(Do(p, steps[0]).pool, steps[1..]);
    }
  }

  /** In every run, for any number of goroutines: no free-space panic, no blocked send,
      every buffer available, pending, held or being written, every available buffer empty,
      and submissions reaching the carrier in order. */
  lemma PoolIsSound(count: nat, steps: seq<Step>)
    requires Possible(Initial(count), steps)
    ensures Run(Initial(count), steps).Stepped?
    ensures
      var p := Run(Initial(count), steps).pool;
      && |p.available| + |p.pending| + |p.held| + (if p.writing.Idle? then 0 else 1) == count
      && (forall i | 0 <= i < |p.available| :: p.available[i] == [])
      && StreamFrames(p.carrier) + Unwritten(p) == p.submitted
  {
    RunKeepsInv(Initial(count), steps);
  }

  // ----- What the carrier gets, read off the steps -----

  /** What a goroutine has encoded since it last borrowed a buffer. */
  function EncodedBy(steps: seq<Step>, h: nat): seq<Frame> {
    if steps == [] then []
    else
      var before, last := steps[..|steps| - 1], steps[|steps| - 1];
      if last.Borrow? && last.holder == h then []
      else EncodedBy(before, h) + (if last.Encode? && last.holder == h then [last.frame] else [])
  }

  /** What has been handed over, in the order of the handovers. */
  function HandedOver(steps: seq<Step>): seq<Frame> {
    if steps == [] then []
    else
      var before, last := steps[..|steps| - 1], steps[|steps| - 1];
      HandedOver(before) + (if last.Submit? then EncodedBy(before, last.holder) else [])
  }

  /** The pool agrees with the steps that led to it. */
  predicate Agrees(p: Pool, steps: seq<Step>) {
    && p.submitted == HandedOver(steps)
    && forall h | h in p.held :: p.held[h].frames == EncodedBy(steps, h)
  }

  lemma OneMoreStep(before: seq<Step>, last: Step, h: nat)
    ensures
      EncodedBy(before + [last], h) ==
        if last.Borrow? && last.holder == h then []
        else EncodedBy(before, h) + (if last.Encode? && last.holder == h then [last.frame] else [])
    ensures
      HandedOver(before + [last]) ==
        HandedOver(before) + (if last.Submit? then EncodedBy(before, last.holder) else [])
  {
    var steps := before + [last];
    assert steps[..|steps| - 1] == before && steps[|steps| - 1] == last;
  }

  /** What a step does to the buffer of one goroutine. */
  lemma HeldAfter(p: Pool, step: Step, h: nat)
    requires BuffersInv(p) && Enabled(p, step) && Do(p, step).Stepped? && h in Do(p, step).pool.held
    ensures
      var frames := Do(p, step).pool.held[h].frames;
      if step.Borrow? && step.holder == h then frames == []
      else h in p.held
           && frames == p.held[h].frames + (if step.Encode? && step.holder == h then [step.frame] else [])
  {
    match step
    case Borrow(_, _) =>
    case Encode(_, _) =>
    case Submit(_) =>
    case Take =>
    case WriteOut =>
    case PutBack =>
    case WriteHeartbeat =>
  }

  lemma SubmittedAfter(p: Pool, step: Step)
    requires Enabled(p, step) && Do(p, step).Stepped?
    ensures
      Do(p, step).pool.submitted == p.submitted + (if step.Submit? then p.held[step.holder].frames else [])
  {
    match step
    case Borrow(_, _) =>
    case Encode(_, _) =>
    case Submit(_) =>
    case Take =>
    case WriteOut =>
    case PutBack =>
    case WriteHeartbeat =>
  }

  lemma StepAgrees(p: Pool, before: seq<Step>, last: Step)
    requires BuffersInv(p) && Enabled(p, last) && Do(p, last).Stepped? && Agrees(p, before)
    ensures Agrees(Do(p, last).pool, before + [last])
  {
    var p' := Do(p, last).pool;
    SubmittedAfter(p, last);
    OneMoreStep(before, last, 0);
    forall h | h in p'.held ensures p'.held[h].frames == EncodedBy(before + [last], h) {
      HeldAfter(p, last, h);
      OneMoreStep(before, last, h);
    }
  }

  lemma Regroup(before: seq<Step>, steps: seq<Step>)
    requires steps != []
    ensures (before + [steps[0]]) + steps[1..] == before + steps
  {
  }

  lemma {:induction false} RunAgrees(p: Pool, before: seq<Step>, steps: seq<Step>)
    requires Inv(p) && Agrees(p, before) && Possible(p, steps)
    ensures Run(p, steps).Stepped? && Agrees(Run(p, steps).pool, before + steps)
    decreases |steps|
  {
    if steps == [] {
      assert before + steps == before;
    } else {
      StepKeepsInv(p, steps[0]);
      StepAgrees(p, before, steps[0]);
      RunAgrees(Do(p, steps[0]).pool, before + [steps[0]], steps[1..]);
      Regroup(before, steps);
    }
  }

  /** In every run the frames on the carrier, heartbeats apart, and then those the writer
      goroutine has yet to write are what was encoded for each handover, handover by handover. */
  lemma CarrierGetsWhatWasEncoded(count: nat, steps: seq<Step>)
    requires Possible(Initial(count), steps)
    ensures Run(Initial(count), steps).Stepped?
    ensures
      var p := Run(Initial(count), steps).pool;
      && StreamFrames(p.carrier) + Unwritten(p) == HandedOver(steps)
      && forall h | h in p.held :: p.held[h].frames == EncodedBy(steps, h)
  {
    RunKeepsInv(Initial(count), steps);
    RunAgrees(Initial(count), [], steps);
    assert [] + steps == steps;
  }

  /** In every run, if no buffer is available then some goroutine holds one, or the writer
      goroutine has one that it can write out or put back, or one to take. */
  lemma BuffersComeBack(count: nat, steps: seq<Step>)
    requires Possible(Initial(count), steps) && count > 0
    ensures Run(Initial(count), steps).Stepped?
    ensures
      var p := Run(Initial(count), steps).pool;
      p.available != [] || p.held != map[] || Enabled(p, Take) || Enabled(p, WriteOut) || Enabled(p, PutBack)
  {
    RunKeepsInv(Initial(count), steps);
  }
}
