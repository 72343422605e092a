/** A synchronization session's controller: the lifecycle operations, the run loop that they
    start and stop, and flush requests.

    Whoever holds the lifecycle lock, the run loops and the callers of flush each move in
    steps between which any of the others may run.  Endpoints, reconciliation and file
    operations are free to succeed or fail at every step. */
module SyncController {
  import opened Wrappers

  /** The content of an archive.  The tree itself is irrelevant here. */
  type Content = int

  const BLANK: Content := 0

  // ----- Lifecycle -----

  datatype Mode = Pause | Shutdown | Terminate
  datatype Operation = Resume | Halt(mode: Mode) | Reset

  /** The holder of the lifecycle lock. */
  datatype Holder =
    | Free
    | Began(operation: Operation)
    | Joining(operation: Operation)    // the loop is cancelled, waiting on done
    | Stopped(operation: Operation)    // there is no loop
    | Clearing(running: bool)          // reset: about to overwrite the archive
    | Connecting                       // resume: about to start a loop
    | Removing                         // halt: about to remove the files

  /** The controller fields under the lifecycle lock, and Paused.  A run loop, its cancel
      function, its done channel and its flush request channel share a number. */
  datatype Life = Life(
    paused: bool,
    disabled: bool,
    cancel: Option<nat>,
    done: Option<nat>,
    flushRequests: Option<nat>,
    holder: Holder,
    doneClosed: set<nat>,
    nextLoop: nat
  )

  // ----- Run loop -----

  /** Where a run loop is, with the local variables of synchronize: the ancestor and the
      flush request being served. */
  datatype Position =
    | Dialing
    | Loading
    | Top(ancestor: Content, flush: Option<nat>, skipPolling: bool)
    | Scanning(ancestor: Content, flush: Option<nat>)
    | Scanned(ancestor: Content, flush: Option<nat>)
    | Applied(base: Content, flush: Option<nat>, ancestor: Content)
    | Recorded(ancestor: Content, flush: Option<nat>)
    | Failing(flush: Option<nat>, halted: bool)    // synchronize has returned an error
    | Ended(halted: bool)

  datatype Loop = Loop(cancelled: bool, at: Position)

  /** What loops do that a flush cares about. */
  datatype Event =
    | Dequeued(request: nat)
    | ScanRetried(full: bool)
    | ScanSucceeded(full: bool)
    | AncestorUnchanged
    | AncestorSaved(content: Content)
    | TransitionsSucceeded
    | Answered(request: nat)
    | SynchronizationFailed

  /** The synchronizing channel: the current instance and the closed ones. */
  datatype Signal = Signal(current: Option<nat>, closed: set<nat>, next: nat)

  // ----- Flush -----

  datatype FlushResult = Refused | Sent | Completed | GaveUp

  /** A call of flush: the channels it captured. */
  datatype FlushCall =
    | Sending(loop: nat, signal: nat)
    | Waiting(loop: nat, signal: nat)
    | Returned(result: FlushResult)

  /** `since` is history: the length of the log when flush captured its channels. */
  datatype Flusher = Flusher(since: nat, skipWait: bool, at: FlushCall)

  datatype Controller = Controller(
    life: Life,
    loops: map<nat, Loop>,             // the run loops that have not exited
    signal: Signal,
    queues: map<nat, nat>,             // the flush request channels that are full
    answered: set<nat>,                // requests to which a response was sent
    flushers: map<nat, Flusher>,       // by request
    session: Option<bool>,             // session file: its Paused field
    archive: Option<Content>,          // archive file
    log: seq<Event>                    // history
  )

  datatype Outcome = Stepped(controller: Controller) | Panicked | Blocked

  /** newSession and loadSession: a loop is started unless the session is paused. */
  function Initial(paused: bool, session: Option<bool>, archive: Option<Content>): Controller {
    var loop := if paused then None else Some(0);
    Controller(Life(paused, false, loop, loop, loop, Free, {}, 1),
               if paused then map[] else map[0 := Loop(false, Dialing)],
               Signal(None, {}, 0), map[], {}, map[], session, archive, [])
  }

  // ----- Lifecycle steps -----

  /** Parameters say what the environment answers: whether the session status counts as
      connected, and whether a file operation succeeds. */
  datatype HolderStep =
    | Acquire(operation: Operation)
    | Decide(connected: bool)
    | Join
    | Settle(saved: bool)
    | Clear(saved: bool)
    | Remove(session: bool, archive: bool)
    | Start

  predicate HolderEnabled(c: Controller, step: HolderStep) {
    var holder := c.life.holder;
    match step
    case Acquire(_) => holder.Free?
    case Decide(_) => holder.Began?
    case Join => holder.Joining? && (c.life.done.Some? ==> c.life.done.value in c.life.doneClosed)
    case Settle(_) => holder.Stopped?
    case Clear(_) => holder.Clearing?
    case Remove(_, _) => holder.Removing?
    case Start => holder.Connecting?
  }

  function Goto(c: Controller, holder: Holder): Controller {
    c.(life := c.life.(holder := holder))
  }

  /** Calls cancel and starts waiting on done, if there is a loop. */
  function CancelAndJoin(c: Controller, operation: Operation): Controller {
    if c.life.cancel.None? then Goto(c, Stopped(operation))
    else
      var l := c.life.cancel.value;
      c.(life := c.life.(holder := Joining(operation)),
         loops := if l in c.loops then c.loops[l := c.loops[l].(cancelled := true)] else c.loops)
  }

  function DecideStep(c: Controller, connected: bool): Controller
    requires c.life.holder.Began?
  {
    match c.life.holder.operation
    case Resume =>
      if c.life.disabled || (c.life.cancel.Some? && connected) then Goto(c, Free) else CancelAndJoin(c, Resume)
    case Halt(mode) =>
      if c.life.disabled then Goto(c, Free) else CancelAndJoin(c, Halt(mode))
    case Reset =>
      if c.life.cancel.None? then Goto(c, Clearing(false))
      else if c.life.disabled then Goto(c, Free)
      else CancelAndJoin(c, Reset)
  }

  function SettleStep(c: Controller, saved: bool): Controller
    requires c.life.holder.Stopped?
  {
    match c.life.holder.operation
    case Resume =>
      c.(life := c.life.(paused := false, holder := Connecting),
         session := if saved then Some(false) else c.session)
    case Reset =>
      c.(life := c.life.(paused := true, holder := if saved then Clearing(true) else Free),
         session := if saved then Some(true) else c.session)
    case Halt(mode) =>
      match mode
      case Pause =>
        c.(life := c.life.(paused := true, holder := Free),
           session := if saved then Some(true) else c.session)
      case Shutdown => c.(life := c.life.(disabled := true, holder := Free))
      case Terminate => c.(life := c.life.(disabled := true, holder := Removing))
  }

  function HolderDo(c: Controller, step: HolderStep): Controller
    requires HolderEnabled(c, step)
  {
    match step
    case Acquire(operation) => Goto(c, Began(operation))
    case Decide(connected) => DecideStep(c, connected)
    case Join =>
      c.(life := c.life.(cancel := None, done := None, flushRequests := None,
                         holder := Stopped(c.life.holder.operation)))
    case Settle(saved) => SettleStep(c, saved)
    case Clear(saved) =>
      c.(life := c.life.(holder := if saved && c.life.holder.running then Began(Resume) else Free),
         archive := if saved then Some(BLANK) else c.archive)
    case Remove(session, archive) =>
      c.(life := c.life.(holder := Free),
         session := if session then None else c.session,
         archive := if archive then None else c.archive)
    case Start =>
      var l := c.life.nextLoop;
      c.(life := c.life.(cancel := Some(l), done := Some(l), flushRequests := Some(l),
                         holder := Free, nextLoop := l + 1),
         loops := c.loops[l := Loop(false, Dialing)])
  }

  // ----- Run loop steps -----

  datatype LoopStep =
    | Connect
    | Load(skipPolling: bool)
    | Proceed                          // skips polling, or an endpoint reports a change
    | Dequeue
    | Rescan
    | Scan
    | Change(ancestor: Content)
    | NoChange
    | Save
    | Finish(skipPolling: bool)
    | Fail(halted: bool)
    | EndSynchronizing
    | Reconnect
    | Exit

  /** `valid` stands for EnsureValid on an archive. */
  predicate LoopEnabled(c: Controller, valid: Content -> bool, l: nat, step: LoopStep) {
    l in c.loops &&
    var at := c.loops[l].at;
    match step
    case Connect => at.Dialing?
    case Load(_) => at.Loading? && c.archive.Some? && valid(c.archive.value)
    case Proceed => at.Top?
    case Dequeue => at.Top? && !at.skipPolling && c.life.flushRequests.Some? && c.life.flushRequests.value in c.queues
    case Rescan => at.Scanning?
    case Scan => at.Scanning?
    case Change(_) => at.Scanned?
    case NoChange => at.Scanned?
    case Save => at.Applied? && valid(at.ancestor)
    case Finish(_) => at.Recorded?
    case Fail(_) => Synchronizing(at) && !at.Failing?
    case EndSynchronizing => at.Failing?
    case Reconnect => at.Ended? && !at.halted
    case Exit => (at.Dialing? || at.Ended?) && c.loops[l].cancelled
  }

  /** Inside synchronize, or just returned from it. */
  predicate Synchronizing(at: Position) { !at.Dialing? && !at.Ended? }

  /** The request the loop is serving. */
  function Serving(at: Position): Option<nat> {
    if at.Top? || at.Scanning? || at.Scanned? || at.Applied? || at.Recorded? || at.Failing? then at.flush
    else None
  }

  function Move(c: Controller, l: nat, at: Position, events: seq<Event>): Controller
    requires l in c.loops
  {
    c.(loops := c.loops[l := c.loops[l].(at := at)], log := c.log + events)
  }

  function LoopDo(c: Controller, valid: Content -> bool, l: nat, step: LoopStep): Outcome
    requires LoopEnabled(c, valid, l, step)
  {
    var at := c.loops[l].at;
    match step
    case Connect =>
      var k := c.signal.next;
      Stepped(Move(c, l, Loading, []).(signal := Signal(Some(k), c.signal.closed, k + 1)))
    case Load(skipPolling) => Stepped(Move(c, l, Top(c.archive.value, None, skipPolling), []))
    case Proceed => Stepped(Move(c, l, Scanning(at.ancestor, at.flush), []))
    case Dequeue =>
      var q := c.life.flushRequests.value;
      Stepped(Move(c, l, Scanning(at.ancestor, Some(c.queues[q])), [Dequeued(c.queues[q])]).(queues := c.queues - {q}))
    case Rescan => Stepped(Move(c, l, Top(at.ancestor, at.flush, true), [ScanRetried(at.flush.Some?)]))
    case Scan => Stepped(Move(c, l, Scanned(at.ancestor, at.flush), [ScanSucceeded(at.flush.Some?)]))
    case Change(ancestor) => Stepped(Move(c, l, Applied(at.ancestor, at.flush, ancestor), []))
    case NoChange => Stepped(Move(c, l, Recorded(at.ancestor, at.flush), [AncestorUnchanged]))
    case Save =>
      Stepped(Move(c, l, Recorded(at.ancestor, at.flush), [AncestorSaved(at.ancestor)]).(archive := Some(at.ancestor)))
    case Finish(skipPolling) => FinishStep(c, l, skipPolling)
    case Fail(halted) => Stepped(Move(c, l, Failing(Serving(at), halted), []))
    case EndSynchronizing =>
      // Closing a nil or closed channel panics.
      if c.signal.current.None? || c.signal.current.value in c.signal.closed then Panicked
      else
        Stepped(Move(c, l, Ended(at.halted), [SynchronizationFailed])
                .(signal := Signal(None, c.signal.closed + {c.signal.current.value}, c.signal.next)))
    case Reconnect => Stepped(Move(c, l, Dialing, []))
    case Exit =>
      if c.life.done.None? || c.life.done.value in c.life.doneClosed then Panicked
      else
        Stepped(c.(life := c.life.(doneClosed := c.life.doneClosed + {c.life.done.value}), loops := c.loops - {l}))
  }

  function FinishStep(c: Controller, l: nat, skipPolling: bool): Outcome
    requires l in c.loops && c.loops[l].at.Recorded?
  {
    var at := c.loops[l].at;
    var next := Top(at.ancestor, None, skipPolling);
    if at.flush.None? then Stepped(Move(c, l, next, [TransitionsSucceeded]))
    else if at.flush.value in c.answered then Blocked
    else
      Stepped(Move(c, l, next, [TransitionsSucceeded, Answered(at.flush.value)])
              .(answered := c.answered + {at.flush.value}))
  }

  // ----- Flush steps -----

  datatype FlushStep =
    | FlushBegins(skipWait: bool)
    | FlushSends
    | FlushSkips                       // not waiting, and a request is already queued
    | FlushCompletes
    | FlushGivesUp                     // its context, synchronizing or done ends the wait

  predicate FlushEnabled(c: Controller, r: nat, step: FlushStep) {
    if step.FlushBegins? then r !in c.flushers && c.life.holder.Free?
    else
      r in c.flushers &&
      var at := c.flushers[r].at;
      match step
      case FlushSends => at.Sending? && at.loop !in c.queues
      case FlushSkips => at.Sending? && c.flushers[r].skipWait && at.loop in c.queues
      case FlushCompletes => at.Waiting? && r in c.answered
      case FlushGivesUp => at.Sending? || at.Waiting?
  }

  function FlushDo(c: Controller, r: nat, step: FlushStep): Controller
    requires FlushEnabled(c, r, step)
  {
    match step
    case FlushBegins(skipWait) =>
      var able := !c.life.disabled && c.life.cancel.Some? && c.signal.current.Some? && c.life.flushRequests.Some?;
      var at := if able then Sending(c.life.flushRequests.value, c.signal.current.value) else Returned(Refused);
      c.(flushers := c.flushers[r := Flusher(|c.log|, skipWait, at)])
    case FlushSends =>
      var f := c.flushers[r];
      c.(queues := c.queues[f.at.loop := r],
         flushers :=
           c.flushers[r := f.(at := if f.skipWait then Returned(Sent) else Waiting(f.at.loop, f.at.signal))])
    case FlushSkips => c.(flushers := c.flushers[r := c.flushers[r].(at := Returned(Sent))])
    case FlushCompletes => c.(flushers := c.flushers[r := c.flushers[r].(at := Returned(Completed))])
    case FlushGivesUp => c.(flushers := c.flushers[r := c.flushers[r].(at := Returned(GaveUp))])
  }

  // ----- All steps -----

  datatype Step =
    | Holding(holding: HolderStep)
    | Looping(loop: nat, looping: LoopStep)
    | Flushing(request: nat, flushing: FlushStep)

  predicate Enabled(c: Controller, valid: Content -> bool, step: Step) {
    match step
    case Holding(h) => HolderEnabled(c, h)
    case Looping(l, s) => LoopEnabled(c, valid, l, s)
    case Flushing(r, f) => FlushEnabled(c, r, f)
  }

  function Do(c: Controller, valid: Content -> bool, step: Step): Outcome
    requires Enabled(c, valid, step)
  {
    match step
    case Holding(h) => Stepped(HolderDo(c, h))
    case Looping(l, s) => LoopDo(c, valid, l, s)
    case Flushing(r, f) => Stepped(FlushDo(c, r, f))
  }
}
