/** What becomes of flush requests, and what an answer to one is worth. */
module SyncFlush {
  import opened Wrappers
  import opened SyncController
  import opened SyncLifecycle

  // ----- Where a request is -----

  ghost predicate Held(loops: map<nat, Loop>, r: nat) {
    exists l :: l in loops && Serving(loops[l].at) == Some(r)
  }

  /** The request has been sent and is yet to be answered. */
  ghost predicate Unanswered(c: Controller, r: nat) {
    r in c.flushers && !c.flushers[r].at.Sending? && r !in c.answered
  }

  ghost predicate QueuesInv(c: Controller) {
    && (forall q | q in c.queues :: Unanswered(c, c.queues[q]) && !Held(c.loops, c.queues[q]))
    && (forall q, q' | q in c.queues && q' in c.queues && c.queues[q] == c.queues[q'] :: q == q')
  }

  /** A loop that serves a request does not poll, and so does not take another. */
  ghost predicate ServiceInv(c: Controller) {
    forall l | l in c.loops ::
      && (Serving(c.loops[l].at).Some? ==> Unanswered(c, Serving(c.loops[l].at).value))
      && (c.loops[l].at.Top? && c.loops[l].at.flush.Some? ==> c.loops[l].at.skipPolling)
  }

  /** A flush that waits has something to wait for. */
  ghost predicate Attended(c: Controller, r: nat, loop: nat, signal: nat) {
    || r in c.answered
    || (loop in c.queues && c.queues[loop] == r)
    || Held(c.loops, r)
    || signal in c.signal.closed
  }

  ghost predicate FlusherInv(c: Controller, r: nat, at: FlushCall) {
    match at
    case Sending(_, k) => k < c.signal.next && r !in c.answered
    case Waiting(q, k) => k < c.signal.next && Attended(c, r, q, k)
    case Returned(result) => result.Completed? ==> r in c.answered
  }

  ghost predicate FlushersInv(c: Controller) {
    && (forall r | r in c.answered :: r in c.flushers)
    && (forall r | r in c.flushers :: FlusherInv(c, r, c.flushers[r].at))
    && (forall r | r in c.flushers :: KindInv(c.flushers[r]))
  }

  /** A flush that wants to wait does not return nil before it is answered; one that does not
      want to never waits. */
  predicate KindInv(f: Flusher) {
    && (f.at == Returned(Sent) ==> f.skipWait)
    && (f.at.Waiting? || f.at == Returned(Completed) ==> !f.skipWait)
  }

  ghost predicate PlaceInv(c: Controller) {
    QueuesInv(c) && ServiceInv(c) && FlushersInv(c)
  }

  // ----- Holder steps -----

  lemma HolderLeavesFlushes(c: Controller, step: HolderStep)
    requires HolderEnabled(c, step)
    ensures
      var c' := HolderDo(c, step);
      && c'.queues == c.queues && c'.answered == c.answered && c'.flushers == c.flushers
      && c'.signal == c.signal && c'.log == c.log
  {
  }

  lemma HolderLeavesService(c: Controller, step: HolderStep)
    requires Inv(c) && HolderEnabled(c, step)
    ensures
      forall l | l in HolderDo(c, step).loops ::
        var at := HolderDo(c, step).loops[l].at;
        if l in c.loops then at == c.loops[l].at else at.Dialing?
    ensures forall r :: Held(HolderDo(c, step).loops, r) <==> Held(c.loops, r)
  {
    if step.Start? {
      StartKeepsLife(c);
    } else {
      HolderKeepsPositions(c, step);
      var c' := HolderDo(c, step);
      forall r ensures Held(c'.loops, r) <==> Held(c.loops, r) {
        assert forall l | l in c.loops :: Serving(c'.loops[l].at) == Serving(c.loops[l].at);
      }
    }
  }

  lemma HolderKeepsPlaces(c: Controller, step: HolderStep)
    requires Inv(c) && PlaceInv(c) && HolderEnabled(c, step)
    ensures PlaceInv(HolderDo(c, step))
  {
    HolderLeavesService(c, step);
    HolderLeavesFlushes(c, step);
  }

  // ----- Flush steps -----

  lemma FlushKeepsFlushers(c: Controller, r: nat, step: FlushStep)
    requires Inv(c) && PlaceInv(c) && FlushEnabled(c, r, step)
    ensures FlushersInv(FlushDo(c, r, step))
  {
  }

  lemma FlushKeepsPlaces(c: Controller, r: nat, step: FlushStep)
    requires Inv(c) && PlaceInv(c) && FlushEnabled(c, r, step)
    ensures PlaceInv(FlushDo(c, r, step))
  {
    FlushKeepsFlushers(c, r, step);
    FlushKeepsService(c, r, step);
    FlushKeepsQueues(c, r, step);
  }

  lemma FlushKeepsService(c: Controller, r: nat, step: FlushStep)
    requires ServiceInv(c) && FlushEnabled(c, r, step)
    ensures ServiceInv(FlushDo(c, r, step))
  {
  }

  lemma FlushKeepsQueues(c: Controller, r: nat, step: FlushStep)
    requires QueuesInv(c) && ServiceInv(c) && FlushersInv(c) && FlushEnabled(c, r, step)
    ensures QueuesInv(FlushDo(c, r, step))
  {
  }

  // ----- Loop steps -----

  /** What a loop step does to requests: the one it serves stays, is dropped or answered,
      or comes from the queue. */
  lemma LoopKeepsService(c: Controller, valid: Content -> bool, l: nat, step: LoopStep)
    requires Inv(c) && PlaceInv(c) && LoopEnabled(c, valid, l, step)
    ensures LoopDo(c, valid, l, step).Stepped?
    ensures ServiceInv(LoopDo(c, valid, l, step).controller)
  {
    LoopIsCurrent(c, l);
    LoopKeepsSignal(c, valid, l, step);
  }

  /** What the loop serves after a step it served before, unless it comes from the queue. */
  lemma HeldAfter(c: Controller, valid: Content -> bool, l: nat, step: LoopStep, r: nat)
    requires Inv(c) && ServiceInv(c) && LoopEnabled(c, valid, l, step) && LoopDo(c, valid, l, step).Stepped?
    requires Held(LoopDo(c, valid, l, step).controller.loops, r)
    ensures Held(c.loops, r) || (step.Dequeue? && r == c.queues[c.life.flushRequests.value])
  {
    LoopIsCurrent(c, l);
    assert Serving(c.loops[l].at) == Some(r) || step.Dequeue?;
  }

  lemma LoopKeepsQueues(c: Controller, valid: Content -> bool, l: nat, step: LoopStep)
    requires Inv(c) && PlaceInv(c) && LoopEnabled(c, valid, l, step) && LoopDo(c, valid, l, step).Stepped?
    ensures QueuesInv(LoopDo(c, valid, l, step).controller)
  {
    var c' := LoopDo(c, valid, l, step).controller;
    forall q | q in c'.queues ensures Unanswered(c', c'.queues[q]) && !Held(c'.loops, c'.queues[q]) {
      assert q in c.queues && c'.queues[q] == c.queues[q];
      if Held(c'.loops, c'.queues[q]) { HeldAfter(c, valid, l, step, c'.queues[q]); }
      ServedIsNotQueued(c, l, q);
    }
  }

  lemma ServedIsNotQueued(c: Controller, l: nat, q: nat)
    requires QueuesInv(c) && l in c.loops && q in c.queues
    ensures Serving(c.loops[l].at) != Some(c.queues[q])
  {
    var r := c.queues[q];
    assert !Held(c.loops, r);
  }

  /** A request the loop was serving is served, answered, or its flush sees the failure. */
  lemma HeldStaysAttended(c: Controller, valid: Content -> bool, l: nat, step: LoopStep, r: nat, q: nat, k: nat)
    requires Inv(c) && PlaceInv(c) && LoopEnabled(c, valid, l, step) && LoopDo(c, valid, l, step).Stepped?
    requires Held(c.loops, r) && k < c.signal.next
    ensures Attended(LoopDo(c, valid, l, step).controller, r, q, k)
  {
    LoopIsCurrent(c, l);
    var c' := LoopDo(c, valid, l, step).controller;
    assert Serving(c.loops[l].at) == Some(r);
    if l in c'.loops && Serving(c'.loops[l].at) == Some(r) { assert Held(c'.loops, r); }
  }

  lemma AttendedStays(c: Controller, valid: Content -> bool, l: nat, step: LoopStep, r: nat, q: nat, k: nat)
    requires Inv(c) && PlaceInv(c) && LoopEnabled(c, valid, l, step) && LoopDo(c, valid, l, step).Stepped?
    requires Attended(c, r, q, k) && k < c.signal.next
    ensures Attended(LoopDo(c, valid, l, step).controller, r, q, k)
  {
    var c' := LoopDo(c, valid, l, step).controller;
    if Held(c.loops, r) {
      HeldStaysAttended(c, valid, l, step, r, q, k);
    } else if step.Dequeue? && q in c.queues && c.queues[q] == r && q !in c'.queues {
      assert Serving(c'.loops[l].at) == Some(r);
      assert Held(c'.loops, r);
    }
  }

  lemma LoopKeepsFlushers(c: Controller, valid: Content -> bool, l: nat, step: LoopStep)
    requires Inv(c) && PlaceInv(c) && LoopEnabled(c, valid, l, step) && LoopDo(c, valid, l, step).Stepped?
    ensures FlushersInv(LoopDo(c, valid, l, step).controller)
  {
    var c' := LoopDo(c, valid, l, step).controller;
    forall r | r in c.flushers ensures FlusherInv(c', r, c.flushers[r].at) {
      assert FlusherInv(c, r, c.flushers[r].at);
      match c.flushers[r].at
      case Waiting(q, k) => AttendedStays(c, valid, l, step, r, q, k);
      case _ =>
    }
  }

  lemma StepKeepsPlaces(c: Controller, valid: Content -> bool, step: Step)
    requires Inv(c) && PlaceInv(c) && Enabled(c, valid, step)
    ensures Do(c, valid, step).Stepped? && PlaceInv(Do(c, valid, step).controller)
  {
    match step
    case Holding(h) => HolderKeepsPlaces(c, h);
    case Looping(l, s) =>
      LoopKeepsService(c, valid, l, s); LoopKeepsQueues(c, valid, l, s); LoopKeepsFlushers(c, valid, l, s);
    case Flushing(r, f) => FlushKeepsPlaces(c, r, f);
  }

  // ----- What an answer is worth -----

  /** `r` was taken from the queue and since then scans have only been retried. */
  ghost predicate Waits(log: seq<Event>, r: nat) {
    |log| > 0 &&
    var last := |log| - 1;
    log[last] == Dequeued(r) || (log[last] == ScanRetried(true) && Waits(log[..last], r))
  }

  ghost predicate HasScanned(log: seq<Event>, r: nat) {
    |log| > 0 && log[|log| - 1] == ScanSucceeded(true) && Waits(log[..|log| - 1], r)
  }

  ghost predicate HasRecorded(log: seq<Event>, r: nat) {
    |log| > 0 && (log[|log| - 1].AncestorUnchanged? || log[|log| - 1].AncestorSaved?) && HasScanned(log[..|log| - 1], r)
  }

  /** A whole cycle has been completed for `r`. */
  ghost predicate Earned(log: seq<Event>, r: nat) {
    |log| > 0 && log[|log| - 1].TransitionsSucceeded? && HasRecorded(log[..|log| - 1], r)
  }

  ghost predicate ProgressInv(at: Position, log: seq<Event>) {
    match at
    case Top(_, flush, _) => flush.Some? ==> Waits(log, flush.value)
    case Scanning(_, flush) => flush.Some? ==> Waits(log, flush.value)
    case Scanned(_, flush) => flush.Some? ==> HasScanned(log, flush.value)
    case Applied(_, flush, _) => flush.Some? ==> HasScanned(log, flush.value)
    case Recorded(a, flush) =>
      && |log| > 0 && (log[|log| - 1].AncestorUnchanged? || log[|log| - 1] == AncestorSaved(a))
      && (flush.Some? ==> HasRecorded(log, flush.value))
    case _ => true
  }

  ghost predicate AnswersInv(log: seq<Event>, answered: set<nat>) {
    && (forall i | 0 <= i < |log| && log[i].Answered? :: log[i].request in answered && Earned(log[..i], log[i].request))
    && (forall i, j | 0 <= i < j < |log| && log[i].Answered? :: log[i] != log[j])
    && (forall r | r in answered :: Answered(r) in log)
  }

  /** Requests are taken from the queue only after the flush they come from began. */
  ghost predicate OrderInv(log: seq<Event>, flushers: map<nat, Flusher>) {
    && (forall i | 0 <= i < |log| && log[i].Dequeued? ::
          log[i].request in flushers && flushers[log[i].request].since <= i)
    && (forall r | r in flushers :: flushers[r].since <= |log|)
  }

  ghost predicate TraceInv(c: Controller) {
    && (forall l | l in c.loops :: ProgressInv(c.loops[l].at, c.log))
    && AnswersInv(c.log, c.answered)
    && OrderInv(c.log, c.flushers)
  }

  lemma HolderKeepsTrace(c: Controller, step: HolderStep)
    requires Inv(c) && TraceInv(c) && HolderEnabled(c, step)
    ensures TraceInv(HolderDo(c, step))
  {
    HolderLeavesService(c, step);
    HolderLeavesFlushes(c, step);
  }

  lemma FlushKeepsTrace(c: Controller, r: nat, step: FlushStep)
    requires TraceInv(c) && FlushEnabled(c, r, step)
    ensures TraceInv(FlushDo(c, r, step))
  {
  }

  lemma ProgressAppend(at: Position, at': Position, log: seq<Event>, e: Event)
    requires ProgressInv(at, log) && Serving(at') == Serving(at)
    requires
      || (at.Scanning? && at'.Top? && e == ScanRetried(true))
      || (at.Scanning? && at'.Scanned? && e == ScanSucceeded(true))
      || ((at.Scanned? || at.Applied?) && at'.Recorded?)
      || Serving(at').None?
    requires at'.Recorded? ==> e.AncestorUnchanged? || e == AncestorSaved(at'.ancestor)
    ensures ProgressInv(at', log + [e])
  {
    assert (log + [e])[..|log|] == log;
  }

  lemma StepProgresses(c: Controller, valid: Content -> bool, l: nat, step: LoopStep)
    requires LoopEnabled(c, valid, l, step) && LoopDo(c, valid, l, step).Stepped? && !step.Exit?
    requires ProgressInv(c.loops[l].at, c.log)
    ensures ProgressInv(LoopDo(c, valid, l, step).controller.loops[l].at, LoopDo(c, valid, l, step).controller.log)
  {
    var at, c' := c.loops[l].at, LoopDo(c, valid, l, step).controller;
    match step
    case Rescan => ProgressAppend(at, c'.loops[l].at, c.log, ScanRetried(at.flush.Some?));
    case Scan => ProgressAppend(at, c'.loops[l].at, c.log, ScanSucceeded(at.flush.Some?));
    case NoChange => ProgressAppend(at, c'.loops[l].at, c.log, AncestorUnchanged);
    case Save => ProgressAppend(at, c'.loops[l].at, c.log, AncestorSaved(at.ancestor));
    case _ => assert c.log + [] == c.log;
  }

  lemma LoopKeepsProgress(c: Controller, valid: Content -> bool, l: nat, step: LoopStep)
    requires Inv(c) && TraceInv(c) && LoopEnabled(c, valid, l, step) && LoopDo(c, valid, l, step).Stepped?
    ensures
      var c' := LoopDo(c, valid, l, step).controller;
      forall l' | l' in c'.loops :: ProgressInv(c'.loops[l'].at, c'.log)
  {
    LoopIsCurrent(c, l);
    if !step.Exit? { StepProgresses(c, valid, l, step); }
  }

  lemma AnswersAppend(log: seq<Event>, answered: set<nat>, e: Event)
    requires AnswersInv(log, answered)
    requires e.Answered? ==> e.request !in answered && Earned(log, e.request)
    ensures AnswersInv(log + [e], if e.Answered? then answered + {e.request} else answered)
  {
    var log' := log + [e];
    assert log'[..|log|] == log;
    forall i | 0 <= i < |log| ensures log'[..i] == log[..i] { }
    assert log'[|log|] == e;
  }

  lemma OrderAppend(log: seq<Event>, flushers: map<nat, Flusher>, e: Event)
    requires OrderInv(log, flushers)
    requires e.Dequeued? ==> e.request in flushers
    ensures OrderInv(log + [e], flushers)
  {
  }

  /** The step adds one event that answers nothing, and takes only what is queued. */
  predicate Adds(c: Controller, step: LoopStep, e: Event, log: seq<Event>) {
    && log == c.log + [e] && !e.Answered?
    && (e.Dequeued? ==>
          && step.Dequeue? && c.life.flushRequests.Some? && c.life.flushRequests.value in c.queues
          && e.request == c.queues[c.life.flushRequests.value])
  }

  lemma OneEvent(c: Controller, valid: Content -> bool, l: nat, step: LoopStep)
    requires LoopEnabled(c, valid, l, step) && LoopDo(c, valid, l, step).Stepped? && !step.Finish?
    ensures
      var c' := LoopDo(c, valid, l, step).controller;
      && c'.flushers == c.flushers && c'.answered == c.answered
      && (c'.log == c.log || (exists e :: Adds(c, step, e, c'.log)))
  {
    var at := c.loops[l].at;
    var c' := LoopDo(c, valid, l, step).controller;
    match step
    case Dequeue => assert Adds(c, step, Dequeued(c.queues[c.life.flushRequests.value]), c'.log);
    case Rescan => assert Adds(c, step, ScanRetried(at.flush.Some?), c'.log);
    case Scan => assert Adds(c, step, ScanSucceeded(at.flush.Some?), c'.log);
    case NoChange => assert Adds(c, step, AncestorUnchanged, c'.log);
    case Save => assert Adds(c, step, AncestorSaved(at.ancestor), c'.log);
    case EndSynchronizing => assert Adds(c, step, SynchronizationFailed, c'.log);
    case _ =>
  }

  lemma EarnedByTransitions(log: seq<Event>, r: nat)
    requires HasRecorded(log, r)
    ensures Earned(log + [TransitionsSucceeded], r)
  {
    assert (log + [TransitionsSucceeded])[..|log|] == log;
  }

  lemma AnswerKeepsTrace(log: seq<Event>, answered: set<nat>, flushers: map<nat, Flusher>, flush: Option<nat>)
    requires AnswersInv(log, answered) && OrderInv(log, flushers)
    requires flush.Some? ==> HasRecorded(log, flush.value) && flush.value !in answered
    ensures
      var log' := log + [TransitionsSucceeded];
      if flush.None? then AnswersInv(log', answered) && OrderInv(log', flushers)
      else
        && AnswersInv(log' + [Answered(flush.value)], answered + {flush.value})
        && OrderInv(log' + [Answered(flush.value)], flushers)
  {
    var log' := log + [TransitionsSucceeded];
    AnswersAppend(log, answered, TransitionsSucceeded);
    OrderAppend(log, flushers, TransitionsSucceeded);
    if flush.Some? {
      EarnedByTransitions(log, flush.value);
      AnswersAppend(log', answered, Answered(flush.value));
      OrderAppend(log', flushers, Answered(flush.value));
    }
  }

  lemma FinishKeepsTrace(c: Controller, l: nat, skipPolling: bool)
    requires l in c.loops && c.loops[l].at.Recorded? && ProgressInv(c.loops[l].at, c.log)
    requires AnswersInv(c.log, c.answered) && OrderInv(c.log, c.flushers) && FinishStep(c, l, skipPolling).Stepped?
    ensures
      var c' := FinishStep(c, l, skipPolling).controller;
      AnswersInv(c'.log, c'.answered) && OrderInv(c'.log, c'.flushers)
  {
    var c' := FinishStep(c, l, skipPolling).controller;
    var flush := c.loops[l].at.flush;
    AnswerKeepsTrace(c.log, c.answered, c.flushers, flush);
    if flush.Some? {
      assert c'.log == (c.log + [TransitionsSucceeded]) + [Answered(flush.value)];
    }
  }

  lemma LoopKeepsTrace(c: Controller, valid: Content -> bool, l: nat, step: LoopStep)
    requires Inv(c) && PlaceInv(c) && TraceInv(c) && LoopEnabled(c, valid, l, step)
    requires LoopDo(c, valid, l, step).Stepped?
    ensures TraceInv(LoopDo(c, valid, l, step).controller)
  {
    LoopKeepsProgress(c, valid, l, step);
    if step.Finish? {
      FinishKeepsTrace(c, l, step.skipPolling);
    } else {
      var c' := LoopDo(c, valid, l, step).controller;
      OneEvent(c, valid, l, step);
      if c'.log != c.log {
        var e :| Adds(c, step, e, c'.log);
        AnswersAppend(c.log, c.answered, e);
        OrderAppend(c.log, c.flushers, e);
      }
    }
  }

  lemma StepKeepsTrace(c: Controller, valid: Content -> bool, step: Step)
    requires Inv(c) && PlaceInv(c) && TraceInv(c) && Enabled(c, valid, step) && Do(c, valid, step).Stepped?
    ensures TraceInv(Do(c, valid, step).controller)
  {
    match step
    case Holding(h) => HolderKeepsTrace(c, h);
    case Looping(l, s) => LoopKeepsTrace(c, valid, l, s);
    case Flushing(r, f) => FlushKeepsTrace(c, r, f);
  }

  /** The request that waits was taken from the queue at `j`, and only retries followed. */
  ghost predicate TakenAt(log: seq<Event>, r: nat, j: nat) {
    j < |log| && log[j] == Dequeued(r) && forall i | j < i < |log| :: log[i] == ScanRetried(true)
  }

  lemma {:induction false} WaitsSince(log: seq<Event>, r: nat)
    requires Waits(log, r)
    ensures exists j: nat :: TakenAt(log, r, j)
    decreases |log|
  {
    var last := |log| - 1;
    if log[last] == Dequeued(r) {
      assert TakenAt(log, r, last);
    } else {
      WaitsSince(log[..last], r);
      var j: nat :| TakenAt(log[..last], r, j);
      assert TakenAt(log, r, j);
    }
  }

  /** The whole cycle behind the answer at `i` to the request taken at `j`. */
  ghost predicate Cycle(log: seq<Event>, r: nat, j: nat, i: nat) {
    && j < i - 3 && i < |log|
    && log[j] == Dequeued(r)
    && (forall k | j < k < i - 3 :: log[k] == ScanRetried(true))
    && log[i - 3] == ScanSucceeded(true)
    && (log[i - 2].AncestorUnchanged? || log[i - 2].AncestorSaved?)
    && log[i - 1] == TransitionsSucceeded
    && log[i] == Answered(r)
  }

  lemma AnswerEndsCycle(log: seq<Event>, r: nat, i: nat)
    requires i < |log| && log[i] == Answered(r) && Earned(log[..i], r)
    ensures exists j: nat :: Cycle(log, r, j, i)
  {
    var before := log[..i];
    assert before[..i - 1][..i - 2] == log[..i - 2];
    assert log[..i - 2][..i - 3] == log[..i - 3];
    WaitsSince(log[..i - 3], r);
    var j: nat :| TakenAt(log[..i - 3], r, j);
    forall k | j < k < i - 3 ensures log[k] == ScanRetried(true) {
      assert log[..i - 3][k] == ScanRetried(true);
    }
    assert Cycle(log, r, j, i);
  }

  // ----- Which scans are forced -----

  /** A request is waiting for a scan. */
  ghost predicate Served(log: seq<Event>) { exists r: nat :: Waits(log, r) }

  predicate IsScan(e: Event) { e.ScanRetried? || e.ScanSucceeded? }

  /** A scan is a full one exactly if a request is waiting for it. */
  ghost predicate ScansInv(log: seq<Event>) {
    forall i | 0 <= i < |log| && IsScan(log[i]) :: log[i].full <==> Served(log[..i])
  }

  /** The request that waits for a scan is the one that the loop serves. */
  ghost predicate WaitingInv(c: Controller) {
    forall r: nat | Waits(c.log, r) :: Held(c.loops, r)
  }

  lemma WaitsAppend(log: seq<Event>, e: Event, r: nat)
    ensures Waits(log + [e], r) <==> e == Dequeued(r) || (e == ScanRetried(true) && Waits(log, r))
  {
    assert (log + [e])[..|log|] == log;
  }

  lemma ScansAppend(log: seq<Event>, e: Event)
    requires ScansInv(log) && (IsScan(e) ==> (e.full <==> Served(log)))
    ensures ScansInv(log + [e])
  {
    var log' := log + [e];
    forall i | 0 <= i < |log'| && IsScan(log'[i]) ensures log'[i].full <==> Served(log'[..i]) {
      assert log'[..i] == log[..i];
    }
  }

  lemma QuietKeepsWaiting(c: Controller, valid: Content -> bool, l: nat, step: LoopStep)
    requires Inv(c) && WaitingInv(c) && LoopEnabled(c, valid, l, step) && LoopDo(c, valid, l, step).Stepped?
    requires LoopDo(c, valid, l, step).controller.log == c.log && !step.Finish?
    ensures WaitingInv(LoopDo(c, valid, l, step).controller)
  {
    LoopIsCurrent(c, l);
    var c' := LoopDo(c, valid, l, step).controller;
    forall r: nat | Waits(c'.log, r) ensures Held(c'.loops, r) {
      assert Held(c.loops, r) && Serving(c.loops[l].at) == Some(r);
      assert Serving(c'.loops[l].at) == Some(r);
    }
  }

  lemma EventKeepsWaiting(c: Controller, valid: Content -> bool, l: nat, step: LoopStep, e: Event)
    requires Inv(c) && WaitingInv(c) && LoopEnabled(c, valid, l, step) && LoopDo(c, valid, l, step).Stepped?
    requires !step.Finish? && Adds(c, step, e, LoopDo(c, valid, l, step).controller.log)
    ensures WaitingInv(LoopDo(c, valid, l, step).controller)
  {
    LoopIsCurrent(c, l);
    var c' := LoopDo(c, valid, l, step).controller;
    forall r: nat | Waits(c'.log, r) ensures Held(c'.loops, r) {
      WaitsAppend(c.log, e, r);
      if e != Dequeued(r) {
        assert Held(c.loops, r) && Serving(c.loops[l].at) == Some(r);
      }
      assert Serving(c'.loops[l].at) == Some(r);
    }
  }

  /** A scan is forced exactly if a request is being served. */
  lemma ScanIsForced(c: Controller, valid: Content -> bool, l: nat, step: LoopStep)
    requires Inv(c) && WaitingInv(c) && TraceInv(c) && LoopEnabled(c, valid, l, step) && (step.Scan? || step.Rescan?)
    ensures c.loops[l].at.flush.Some? <==> Served(c.log)
  {
    LoopIsCurrent(c, l);
    assert ProgressInv(c.loops[l].at, c.log);
    if Served(c.log) {
      var r: nat :| Waits(c.log, r);
      assert Held(c.loops, r);
    }
  }

  lemma FinishKeepsScans(c: Controller, valid: Content -> bool, l: nat, skipPolling: bool)
    requires Inv(c) && ScansInv(c.log) && LoopEnabled(c, valid, l, Finish(skipPolling))
    requires FinishStep(c, l, skipPolling).Stepped?
    ensures
      var c' := FinishStep(c, l, skipPolling).controller;
      ScansInv(c'.log) && WaitingInv(c')
  {
    var c', flush := FinishStep(c, l, skipPolling).controller, c.loops[l].at.flush;
    var log := c.log + [TransitionsSucceeded];
    ScansAppend(c.log, TransitionsSucceeded);
    if flush.Some? {
      ScansAppend(log, Answered(flush.value));
      assert c'.log == log + [Answered(flush.value)];
    }
    forall r: nat ensures !Waits(c'.log, r) {
      WaitsAppend(c.log, TransitionsSucceeded, r);
      if flush.Some? { WaitsAppend(log, Answered(flush.value), r); }
    }
  }

  lemma LoopKeepsScans(c: Controller, valid: Content -> bool, l: nat, step: LoopStep)
    requires Inv(c) && TraceInv(c) && ScansInv(c.log) && WaitingInv(c) && LoopEnabled(c, valid, l, step)
    requires LoopDo(c, valid, l, step).Stepped?
    ensures
      var c' := LoopDo(c, valid, l, step).controller;
      ScansInv(c'.log) && WaitingInv(c')
  {
    var c' := LoopDo(c, valid, l, step).controller;
    if step.Finish? {
      FinishKeepsScans(c, valid, l, step.skipPolling);
    } else {
      OneEvent(c, valid, l, step);
      if c'.log == c.log {
        QuietKeepsWaiting(c, valid, l, step);
      } else {
        var e :| Adds(c, step, e, c'.log);
        EventKeepsWaiting(c, valid, l, step, e);
        if step.Scan? || step.Rescan? {
          ScanIsForced(c, valid, l, step);
          assert c'.log[|c.log|] == e;
        }
        ScanEvents(c, valid, l, step, e);
        ScansAppend(c.log, e);
      }
    }
  }

  lemma ScanEvents(c: Controller, valid: Content -> bool, l: nat, step: LoopStep, e: Event)
    requires LoopEnabled(c, valid, l, step) && LoopDo(c, valid, l, step).Stepped? && !step.Finish?
    requires LoopDo(c, valid, l, step).controller.log == c.log + [e]
    ensures IsScan(e) ==> (step.Scan? || step.Rescan?) && e.full == c.loops[l].at.flush.Some?
  {
    assert LoopDo(c, valid, l, step).controller.log[|c.log|] == e;
  }

  lemma StepKeepsScans(c: Controller, valid: Content -> bool, step: Step)
    requires Inv(c) && TraceInv(c) && ScansInv(c.log) && WaitingInv(c) && Enabled(c, valid, step)
    requires Do(c, valid, step).Stepped?
    ensures
      var c' := Do(c, valid, step).controller;
      ScansInv(c'.log) && WaitingInv(c')
  {
    match step
    case Holding(h) => HolderLeavesService(c, h); HolderLeavesFlushes(c, h);
    case Looping(l, s) => LoopKeepsScans(c, valid, l, s);
    case Flushing(_, _) =>
  }
}
