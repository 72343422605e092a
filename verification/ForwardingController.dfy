/** A forwarding session's controller: lifecycle operations, the run loop, the forwarding
    loop it starts for each pair of connected endpoints, and a goroutine per connection.
    Each moves in steps between which any of the others may run. */
module ForwardingController {
  import opened Wrappers

  /** Values of a 64-bit counter. */
  const WORD: nat := 0x1_0000_0000_0000_0000

  datatype Mode = Pause | Shutdown | Terminate
  datatype Operation = Resume | Halt(mode: Mode)

  /** The holder of the lifecycle lock. */
  datatype Holder =
    | Free
    | Began(operation: Operation)
    | Joining(operation: Operation)
    | Stopped(operation: Operation)
    | Connecting
    | Removing

  /** A run loop, its cancel function and its done channel share a number. */
  datatype Life = Life(
    paused: bool,
    disabled: bool,
    cancel: Option<nat>,
    done: Option<nat>,
    holder: Holder,
    doneClosed: set<nat>,
    nextLoop: nat
  )

  /** Where a run loop is.  A forwarding loop has a number. */
  datatype Position =
    | Dialing
    | Forwarding(worker: nat)
    | Draining(worker: nat, exiting: bool)   // endpoints shut down, awaiting the forwarding loop
    | Replacing(exiting: bool)               // about to replace the state object
    | Resting                                // waiting before reconnecting
    | Cleaning                               // deferred: about to replace the state object
    | Closing                                // deferred: about to close done

  datatype Loop = Loop(cancelled: bool, at: Position)

  /** A forwarding loop, with the state object it captured. */
  datatype Worker = Entering | Accepting(state: nat) | Launching(state: nat)

  /** A forwarding goroutine; `worker` is history. */
  datatype Connection = Connection(state: nat, worker: nat)

  /** The counters of a state object; `launched` is history. */
  datatype Counters = Counters(openConnections: nat, totalConnections: nat, launched: nat)

  datatype Controller = Controller(
    life: Life,
    loops: map<nat, Loop>,               // the run loops that have not exited
    workers: map<nat, Worker>,           // the forwarding loops that have not returned
    nextWorker: nat,
    connections: map<nat, Connection>,   // the goroutines that have not counted themselves out
    nextConnection: nat,
    current: nat,                        // the controller's state object
    states: seq<Counters>,               // all state objects there have been
    users: map<nat, nat>,                // history: the forwarding loop that captured each
    session: Option<bool>                // session file: its Paused field
  )

  datatype Outcome = Stepped(controller: Controller) | Panicked

  function Initial(paused: bool, session: Option<bool>): Controller {
    var loop := if paused then None else Some(0);
    Controller(Life(paused, false, loop, loop, Free, {}, 1),
               if paused then map[] else map[0 := Loop(false, Dialing)],
               map[], 0, map[], 0, 0, [Counters(0, 0, 0)], map[], session)
  }

  // ----- Lifecycle steps -----

  datatype HolderStep =
    | Acquire(operation: Operation)
    | Decide(forwarding: bool)
    | Join
    | Settle(saved: bool)
    | Remove(session: bool)
    | Start

  predicate HolderEnabled(c: Controller, step: HolderStep) {
    var holder := c.life.holder;
    match step
    case Acquire(_) => holder.Free?
    case Decide(_) => holder.Began?
    case Join => holder.Joining? && (c.life.done.Some? ==> c.life.done.value in c.life.doneClosed)
    case Settle(_) => holder.Stopped?
    case Remove(_) => holder.Removing?
    case Start => holder.Connecting?
  }

  function Decided(c: Controller, forwarding: bool): Controller
    requires c.life.holder.Began?
  {
    var operation := c.life.holder.operation;
    if c.life.disabled || (operation.Resume? && c.life.cancel.Some? && forwarding) then
      c.(life := c.life.(holder := Free))
    else if c.life.cancel.None? then
      c.(life := c.life.(holder := Stopped(operation)))
    else
      var l := c.life.cancel.value;
      c.(life := c.life.(holder := Joining(operation)),
         loops := if l in c.loops then c.loops[l := c.loops[l].(cancelled := true)] else c.loops)
  }

  function Settled(c: Controller, saved: bool): Controller
    requires c.life.holder.Stopped?
  {
    match c.life.holder.operation
    case Resume =>
      c.(life := c.life.(paused := false, holder := Connecting),
         session := if saved then Some(false) else c.session)
    case Halt(mode) =>
      match mode
      case Pause =>
        c.(life := c.life.(paused := true, holder := Free),
           session := if saved then Some(true) else c.session)
      case Shutdown => c.(life := c.life.(disabled := true, holder := Free))
      case Terminate => c.(life := c.life.(disabled := true, holder := Removing))
  }

  function HolderDo(c: Controller, step: HolderStep): Controller
    requires HolderEnabled(c, step)
  {
    match step
    case Acquire(operation) => c.(life := c.life.(holder := Began(operation)))
    case Decide(forwarding) => Decided(c, forwarding)
    case Join =>
      c.(life := c.life.(cancel := None, done := None, holder := Stopped(c.life.holder.operation)))
    case Settle(saved) => Settled(c, saved)
    case Remove(removed) =>
      c.(life := c.life.(holder := Free), session := if removed then None else c.session)
    case Start =>
      var l := c.life.nextLoop;
      c.(life := c.life.(cancel := Some(l), done := Some(l), holder := Free, nextLoop := l + 1),
         loops := c.loops[l := Loop(false, Dialing)])
  }

  // ----- Run loop steps -----

  datatype LoopStep =
    | BeginForwarding
    | StopForwarding(exiting: bool)
    | Drained
    | ReplaceState
    | Redial
    | Return
    | CleanUp
    | CloseDone

  predicate LoopEnabled(c: Controller, l: nat, step: LoopStep) {
    l in c.loops &&
    var at := c.loops[l].at;
    match step
    case BeginForwarding => at.Dialing?
    case StopForwarding(exiting) => at.Forwarding? && (exiting ==> c.loops[l].cancelled)
    case Drained => at.Draining? && at.worker !in c.workers
    case ReplaceState => at.Replacing?
    case Redial => at.Resting?
    case Return => (at.Dialing? || at.Resting?) && c.loops[l].cancelled
    case CleanUp => at.Cleaning?
    case CloseDone => at.Closing?
  }

  function Move(c: Controller, l: nat, at: Position): Controller
    requires l in c.loops
  {
    c.(loops := c.loops[l := c.loops[l].(at := at)])
  }

  /** A new state object takes the place of the controller's. */
  function FreshState(c: Controller): Controller {
    c.(current := |c.states|, states := c.states + [Counters(0, 0, 0)])
  }

  function LoopDo(c: Controller, l: nat, step: LoopStep): Outcome
    requires LoopEnabled(c, l, step)
  {
    var at := c.loops[l].at;
    match step
    case BeginForwarding =>
      Stepped(Move(c, l, Forwarding(c.nextWorker))
              .(workers := c.workers[c.nextWorker := Entering], nextWorker := c.nextWorker + 1))
    case StopForwarding(exiting) => Stepped(Move(c, l, Draining(at.worker, exiting)))
    case Drained => Stepped(Move(c, l, Replacing(at.exiting)))
    case ReplaceState => Stepped(Move(FreshState(c), l, if at.exiting then Cleaning else Resting))
    case Redial => Stepped(Move(c, l, Dialing))
    case Return => Stepped(Move(c, l, Cleaning))
    case CleanUp => Stepped(Move(FreshState(c), l, Closing))
    case CloseDone =>
      // Closing a nil or closed channel panics.
      if c.life.done.None? || c.life.done.value in c.life.doneClosed then Panicked
      else
        Stepped(c.(life := c.life.(doneClosed := c.life.doneClosed + {c.life.done.value}), loops := c.loops - {l}))
  }

  // ----- Forwarding loops and connections -----

  datatype WorkerStep = Enter | Count | Launch | Quit

  predicate WorkerEnabled(c: Controller, w: nat, step: WorkerStep) {
    w in c.workers &&
    match step
    case Enter => c.workers[w].Entering? && c.current < |c.states|
    case Count => c.workers[w].Accepting? && c.workers[w].state < |c.states|
    case Launch => c.workers[w].Launching?
    case Quit => c.workers[w].Accepting?
  }

  /** 64-bit arithmetic. */
  function Increment(x: nat): nat { (x + 1) % WORD }
  function Decrement(x: nat): nat { (x + (WORD - 1)) % WORD }

  function WorkerDo(c: Controller, w: nat, step: WorkerStep): Controller
    requires WorkerEnabled(c, w, step)
  {
    match step
    case Enter => c.(workers := c.workers[w := Accepting(c.current)], users := c.users[c.current := w])
    case Count =>
      var s := c.workers[w].state;
      var n := c.states[s];
      c.(workers := c.workers[w := Launching(s)],
         states := c.states[s := Counters(Increment(n.openConnections), Increment(n.totalConnections), n.launched + 1)])
    case Launch =>
      var s := c.workers[w].state;
      c.(workers := c.workers[w := Accepting(s)],
         connections := c.connections[c.nextConnection := Connection(s, w)],
         nextConnection := c.nextConnection + 1)
    case Quit => c.(workers := c.workers - {w})
  }

  /** The connection's goroutine has finished forwarding and counts itself out. */
  function CountedOut(c: Controller, g: nat): Controller
    requires g in c.connections && c.connections[g].state < |c.states|
  {
    var s := c.connections[g].state;
    var n := c.states[s];
    c.(connections := c.connections - {g},
       states := c.states[s := n.(openConnections := Decrement(n.openConnections))])
  }

  datatype Step =
    | Holding(holding: HolderStep)
    | Looping(loop: nat, looping: LoopStep)
    | Working(worker: nat, working: WorkerStep)
    | CountOut(connection: nat)

  predicate Enabled(c: Controller, step: Step) {
    match step
    case Holding(h) => HolderEnabled(c, h)
    case Looping(l, s) => LoopEnabled(c, l, s)
    case Working(w, s) => WorkerEnabled(c, w, s)
    case CountOut(g) => g in c.connections && c.connections[g].state < |c.states|
  }

  function Do(c: Controller, step: Step): Outcome
    requires Enabled(c, step)
  {
    match step
    case Holding(h) => Stepped(HolderDo(c, h))
    case Looping(l, s) => LoopDo(c, l, s)
    case Working(w, s) => Stepped(WorkerDo(c, w, s))
    case CountOut(g) => Stepped(CountedOut(c, g))
  }
}
