/** What holds in every run of a forwarding controller. */
module ForwardingTheorems {
  import opened Wrappers
  import opened ForwardingController

  // ----- Invariants -----

  ghost predicate LifeInv(life: Life, loops: map<nat, Loop>) {
    && life.cancel == life.done
    && (forall l | l in loops :: life.done == Some(l) && l !in life.doneClosed)
    && (forall l | l in life.doneClosed :: l < life.nextLoop)
    && (life.done.Some? ==> life.done.value < life.nextLoop && (life.done.value in loops || life.holder.Joining?))
    && (life.done.Some? && life.done.value !in loops ==> life.done.value in life.doneClosed)
    && (forall l | l in loops :: loops[l].cancelled <==> life.holder.Joining?)
    && (forall l | l in loops && Leaving(loops[l].at) :: loops[l].cancelled)
    && (life.disabled ==> life.cancel.None?)
    && match life.holder
       case Free => life.disabled || (life.paused <==> life.cancel.None?)
       case Began(_) => life.disabled || (life.paused <==> life.cancel.None?)
       case Joining(_) => !life.disabled && life.cancel.Some?
       case Stopped(_) => !life.disabled && life.cancel.None?
       case Connecting => !life.disabled && life.cancel.None? && !life.paused
       case Removing => life.disabled
  }

  /** The run loop will not reconnect. */
  predicate Leaving(at: Position) {
    at.Cleaning? || at.Closing? || ((at.Draining? || at.Replacing?) && at.exiting)
  }

  /** The forwarding loop that a run loop has started. */
  function Started(at: Position): Option<nat> {
    if at.Forwarding? || at.Draining? then Some(at.worker) else None
  }

  /** The run loop awaits the one forwarding loop, which uses the controller's state object. */
  ghost predicate WorkersInv(c: Controller) {
    && (forall w | w in c.workers :: Tended(c.loops, w) && w < c.nextWorker)
    && (forall w | w in c.workers && !c.workers[w].Entering? :: c.workers[w].state == c.current)
    && (forall l | l in c.loops && Started(c.loops[l].at).Some? :: Started(c.loops[l].at).value < c.nextWorker)
  }

  ghost predicate Tended(loops: map<nat, Loop>, w: nat) {
    exists l :: l in loops && Started(loops[l].at) == Some(w)
  }

  /** The controller's state object has a user only between that forwarding loop's start and
      the replacement of the object. */
  ghost predicate UsersInv(c: Controller) {
    && c.current < |c.states|
    && (forall s | s in c.users :: s < |c.states| && c.users[s] < c.nextWorker)
    && (forall w | w in c.workers :: if c.workers[w].Entering? then c.current !in c.users
                                     else c.current in c.users && c.users[c.current] == w)
    && (forall g | g in c.connections ::
          c.connections[g].state in c.users && c.users[c.connections[g].state] == c.connections[g].worker)
    && (c.current in c.users ==> InUse(c.loops))
  }

  ghost predicate InUse(loops: map<nat, Loop>) {
    exists l :: l in loops && (Started(loops[l].at).Some? || loops[l].at.Replacing?)
  }

  // ----- Counting -----

  /** The goroutines that run against a state object. */
  function Against(connections: map<nat, Connection>, s: nat): set<nat> {
    set g | g in connections && connections[g].state == s
  }

  /** The forwarding loops that have counted a connection in a state object and are about to
      launch its goroutine. */
  function AboutToLaunch(workers: map<nat, Worker>, s: nat): set<nat> {
    set w | w in workers && workers[w] == Launching(s)
  }

  function Live(c: Controller, s: nat): nat {
    |Against(c.connections, s)| + |AboutToLaunch(c.workers, s)|
  }

  predicate Exact(n: Counters, live: nat) {
    && live <= n.launched
    && n.openConnections == live % WORD
    && n.totalConnections == n.launched % WORD
  }

  ghost predicate CountersInv(c: Controller) {
    && (forall s | 0 <= s < |c.states| :: Exact(c.states[s], Live(c, s)))
    && (forall g | g in c.connections :: g < c.nextConnection && c.connections[g].state < |c.states|)
  }

  ghost predicate Inv(c: Controller) {
    LifeInv(c.life, c.loops) && WorkersInv(c) && UsersInv(c) && CountersInv(c)
  }

  lemma LoopIsCurrent(c: Controller, l: nat)
    requires LifeInv(c.life, c.loops) && l in c.loops
    ensures c.life.done == Some(l) && c.loops.Keys == {l}
  {
  }

  // ----- Lifecycle -----

  lemma DecideKeepsLife(c: Controller, forwarding: bool)
    requires LifeInv(c.life, c.loops) && c.life.holder.Began?
    ensures LifeInv(Decided(c, forwarding).life, Decided(c, forwarding).loops)
  {
  }

  lemma SettleKeepsLife(c: Controller, saved: bool)
    requires LifeInv(c.life, c.loops) && c.life.holder.Stopped?
    ensures LifeInv(Settled(c, saved).life, Settled(c, saved).loops)
  {
    match c.life.holder.operation
    case Resume =>
    case Halt(_) =>
  }

  lemma HolderKeepsLife(c: Controller, step: HolderStep)
    requires LifeInv(c.life, c.loops) && HolderEnabled(c, step)
    ensures LifeInv(HolderDo(c, step).life, HolderDo(c, step).loops)
  {
    match step
    case Decide(forwarding) => DecideKeepsLife(c, forwarding);
    case Settle(saved) => SettleKeepsLife(c, saved);
    case Acquire(_) =>
    case Join =>
    case Remove(_) =>
    case Start =>
  }

  lemma LoopKeepsLife(c: Controller, l: nat, step: LoopStep)
    requires LifeInv(c.life, c.loops) && LoopEnabled(c, l, step)
    ensures LoopDo(c, l, step).Stepped?
    ensures LifeInv(LoopDo(c, l, step).controller.life, LoopDo(c, l, step).controller.loops)
  {
  }

  /** The holder leaves everything but the lifecycle alone. */
  lemma HolderLeavesRest(c: Controller, step: HolderStep)
    requires LifeInv(c.life, c.loops) && HolderEnabled(c, step)
    ensures
      var c' := HolderDo(c, step);
      && c' == c.(life := c'.life, loops := c'.loops, session := c'.session)
      && (forall l | l in c.loops :: l in c'.loops && c'.loops[l].at == c.loops[l].at)
      && (forall l | l in c'.loops && l !in c.loops :: c'.loops[l].at == Dialing)
  {
  }

  lemma HolderKeepsInv(c: Controller, step: HolderStep)
    requires Inv(c) && HolderEnabled(c, step)
    ensures Inv(HolderDo(c, step))
  {
    HolderKeepsLife(c, step);
    HolderLeavesRest(c, step);
  }

  // ----- Run loop -----

  lemma LoopKeepsWorkers(c: Controller, l: nat, step: LoopStep)
    requires Inv(c) && LoopEnabled(c, l, step) && LoopDo(c, l, step).Stepped?
    ensures WorkersInv(LoopDo(c, l, step).controller)
  {
    LoopIsCurrent(c, l);
    var c' := LoopDo(c, l, step).controller;
    forall w | w in c'.workers ensures Tended(c'.loops, w) && w < c'.nextWorker {
      if w in c.workers { assert Tended(c.loops, w) && Started(c.loops[l].at) == Some(w); }
      assert l in c'.loops && Started(c'.loops[l].at) == Some(w);
    }
  }

  lemma LoopKeepsUsers(c: Controller, l: nat, step: LoopStep)
    requires Inv(c) && LoopEnabled(c, l, step) && LoopDo(c, l, step).Stepped?
    ensures UsersInv(LoopDo(c, l, step).controller)
  {
    LoopIsCurrent(c, l);
    var c' := LoopDo(c, l, step).controller;
    if InUse(c.loops) { assert Started(c.loops[l].at).Some? || c.loops[l].at.Replacing?; }
    if l in c'.loops && (Started(c'.loops[l].at).Some? || c'.loops[l].at.Replacing?) { assert InUse(c'.loops); }
    forall w | w in c.workers ensures Started(c.loops[l].at) == Some(w) { assert Tended(c.loops, w); }
  }

  lemma LoopKeepsCounters(c: Controller, l: nat, step: LoopStep)
    requires Inv(c) && LoopEnabled(c, l, step) && LoopDo(c, l, step).Stepped?
    ensures CountersInv(LoopDo(c, l, step).controller)
  {
    match step
    case BeginForwarding =>
    case StopForwarding(_) =>
    case Drained =>
    case ReplaceState =>
    case Redial =>
    case Return =>
    case CleanUp =>
    case CloseDone =>
  }

  // ----- Forwarding loops and connections -----

  lemma WorkerKeepsWorkers(c: Controller, w: nat, step: WorkerStep)
    requires Inv(c) && WorkerEnabled(c, w, step)
    ensures WorkersInv(WorkerDo(c, w, step)) && UsersInv(WorkerDo(c, w, step))
  {
  }

  lemma WordOf(q: nat, k: nat)
    requires k < WORD
    ensures (q * WORD + k) % WORD == k
  {
    var m := q * WORD + k;
    assert m == (m / WORD) * WORD + m % WORD;
    assert (q - m / WORD) * WORD == m % WORD - k;
  }

  lemma IncrementWraps(x: nat)
    ensures Increment(x % WORD) == (x + 1) % WORD
  {
    var q, k := x / WORD, x % WORD;
    assert x == q * WORD + k;
    if k + 1 < WORD {
      WordOf(q, k + 1);
    } else {
      assert x + 1 == (q + 1) * WORD + 0;
      WordOf(q + 1, 0);
    }
  }

  lemma DecrementWraps(x: nat)
    requires x > 0
    ensures Decrement(x % WORD) == (x - 1) % WORD
  {
    IncrementWraps(x - 1);
    var k := (x - 1) % WORD;
    if k + 1 == WORD {
      assert Increment(k) == 0;
    } else {
      WordOf(1, k);
    }
  }

  lemma CountKeepsExact(n: Counters, live: nat)
    requires Exact(n, live)
    ensures Exact(Counters(Increment(n.openConnections), Increment(n.totalConnections), n.launched + 1), live + 1)
  {
    IncrementWraps(live);
    IncrementWraps(n.launched);
  }

  lemma AboutToLaunchAfter(workers: map<nat, Worker>, w: nat, worker: Worker, s: nat)
    requires w in workers
    ensures
      |AboutToLaunch(workers[w := worker], s)| + (if workers[w] == Launching(s) then 1 else 0) ==
      |AboutToLaunch(workers, s)| + (if worker == Launching(s) then 1 else 0)
  {
    var before, after := AboutToLaunch(workers, s), AboutToLaunch(workers[w := worker], s);
    assert after - {w} == before - {w};
    assert w in before <==> workers[w] == Launching(s);
    assert w in after <==> worker == Launching(s);
    assert |before| == |before - {w}| + if w in before then 1 else 0;
    assert |after| == |after - {w}| + if w in after then 1 else 0;
  }

  lemma AgainstAfter(connections: map<nat, Connection>, g: nat, connection: Connection, s: nat)
    requires g !in connections
    ensures
      |Against(connections[g := connection], s)| ==
      |Against(connections, s)| + if connection.state == s then 1 else 0
  {
    var before, after := Against(connections, s), Against(connections[g := connection], s);
    assert after == if connection.state == s then before + {g} else before;
  }

  /** Only counting a connection makes the state object's live connections more. */
  lemma LiveAfter(c: Controller, w: nat, step: WorkerStep, s: nat)
    requires WorkerEnabled(c, w, step) && c.nextConnection !in c.connections
    ensures Live(WorkerDo(c, w, step), s) == Live(c, s) + if step.Count? && c.workers[w].state == s then 1 else 0
  {
    match step
    case Enter => AboutToLaunchAfter(c.workers, w, Accepting(c.current), s);
    case Count => AboutToLaunchAfter(c.workers, w, Launching(c.workers[w].state), s);
    case Launch =>
      AboutToLaunchAfter(c.workers, w, Accepting(c.workers[w].state), s);
      AgainstAfter(c.connections, c.nextConnection, Connection(c.workers[w].state, w), s);
    case Quit => assert AboutToLaunch(c.workers - {w}, s) == AboutToLaunch(c.workers, s);
  }

  lemma WorkerKeepsCounters(c: Controller, w: nat, step: WorkerStep)
    requires CountersInv(c) && WorkersInv(c) && c.current < |c.states| && WorkerEnabled(c, w, step)
    ensures CountersInv(WorkerDo(c, w, step))
  {
    var c' := WorkerDo(c, w, step);
    forall s | 0 <= s < |c.states| ensures Exact(c'.states[s], Live(c', s)) {
      LiveAfter(c, w, step, s);
      if step.Count? && c.workers[w].state == s { CountKeepsExact(c.states[s], Live(c, s)); }
    }
  }

  lemma CountOutKeepsCounters(c: Controller, g: nat)
    requires CountersInv(c) && g in c.connections
    ensures CountersInv(CountedOut(c, g))
  {
    var c' := CountedOut(c, g);
    forall s | 0 <= s < |c.states| ensures Exact(c'.states[s], Live(c', s)) {
      assert Exact(c.states[s], Live(c, s));
      if s == c.connections[g].state {
        assert g in Against(c.connections, s);
        assert Against(c'.connections, s) == Against(c.connections, s) - {g};
        DecrementWraps(Live(c, s));
      } else {
        assert Against(c'.connections, s) == Against(c.connections, s);
      }
    }
  }

  lemma StepKeepsInv(c: Controller, step: Step)
    requires Inv(c) && Enabled(c, step)
    ensures Do(c, step).Stepped? && Inv(Do(c, step).controller)
  {
    match step
    case Holding(h) => HolderKeepsInv(c, h);
    case Looping(l, s) =>
      LoopKeepsLife(c, l, s); LoopKeepsWorkers(c, l, s); LoopKeepsUsers(c, l, s); LoopKeepsCounters(c, l, s);
    case Working(w, s) => WorkerKeepsWorkers(c, w, s); WorkerKeepsCounters(c, w, s);
    case CountOut(g) => CountOutKeepsCounters(c, g);
  }

  // ----- Runs -----

  ghost predicate Possible(c: Controller, steps: seq<Step>)
    decreases |steps|
  {
    steps == [] ||
    (Enabled(c, steps[0]) && (Do(c, steps[0]).Stepped? ==> Possible(Do(c, steps[0]).controller, steps[1..])))
  }

  ghost function Run(c: Controller, steps: seq<Step>): Outcome
    requires Possible(c, steps)
    decreases |steps|
  {
    if steps == [] then Stepped(c)
    else
      var o := Do(c, steps[0]);
      if o.Stepped? then Run(o.controller, steps[1..]) else o
  }

  lemma {:induction false} RunKeepsInv(c: Controller, steps: seq<Step>)
    requires Inv(c) && Possible(c, steps)
    ensures Run(c, steps).Stepped? && Inv(Run(c, steps).controller)
    decreases |steps|
  {
    if steps != [] {
      StepKeepsInv(c, steps[0]);
      RunKeepsInv(Do(c, steps[0]).controller, steps[1..]);
    }
  }

  ghost predicate Leads(start: Controller, c: Controller) {
    exists steps: seq<Step> :: Possible(start, steps) && Run(start, steps) == Stepped(c)
  }

  ghost predicate Reachable(c: Controller) {
    exists paused, session :: Leads(Initial(paused, session), c)
  }

  lemma InitialInv(paused: bool, session: Option<bool>)
    ensures Inv(Initial(paused, session))
  {
    assert Exact(Counters(0, 0, 0), 0);
  }

  lemma ReachableInv(c: Controller)
    requires Reachable(c)
    ensures Inv(c)
  {
    var paused, session :| Leads(Initial(paused, session), c);
    var start := Initial(paused, session);
    var steps: seq<Step> :| Possible(start, steps) && Run(start, steps) == Stepped(c);
    InitialInv(paused, session);
    RunKeepsInv(start, steps);
  }

  /** No loop ever closes a nil or closed channel. */
  lemma NeverPanics(paused: bool, session: Option<bool>, steps: seq<Step>)
    requires Possible(Initial(paused, session), steps)
    ensures Run(Initial(paused, session), steps).Stepped?
  {
    InitialInv(paused, session);
    RunKeepsInv(Initial(paused, session), steps);
  }

  /** In every state object there has been, however long its goroutines outlive their loop,
      the connection counters are exact up to 64-bit wrap-around; short of 2^64 connections
      they are exact, the open connections are within the total, and counting out a live
      connection does not underflow. */
  lemma CountersAreExact(c: Controller, s: nat)
    requires Reachable(c) && s < |c.states|
    ensures c.states[s].openConnections == Live(c, s) % 0x1_0000_0000_0000_0000
    ensures c.states[s].totalConnections == c.states[s].launched % 0x1_0000_0000_0000_0000
    ensures
      c.states[s].launched < 0x1_0000_0000_0000_0000 ==>
        && c.states[s].openConnections == Live(c, s) <= c.states[s].totalConnections == c.states[s].launched
        && (forall g | g in c.connections && c.connections[g].state == s :: c.states[s].openConnections >= 1)
  {
    ReachableInv(c);
    assert Exact(c.states[s], Live(c, s));
    forall g | g in c.connections && c.connections[g].state == s ensures Live(c, s) >= 1 {
      assert g in Against(c.connections, s);
    }
  }

  /** A forwarding loop counts in the controller's own state object, and goroutines that
      some earlier forwarding loop left behind count elsewhere. */
  lemma StateObjectsAreSeparate(c: Controller, w: nat)
    requires Reachable(c) && w in c.workers && !c.workers[w].Entering?
    ensures c.workers[w].state == c.current
    ensures forall g | g in c.connections && c.connections[g].state == c.current :: c.connections[g].worker == w
    ensures forall w' | w' in c.workers :: w' == w
  {
    ReachableInv(c);
    assert Tended(c.loops, w);
    var l :| l in c.loops && Started(c.loops[l].at) == Some(w);
    LoopIsCurrent(c, l);
    forall w' | w' in c.workers ensures w' == w { assert Tended(c.loops, w'); }
  }

  /** At most one run loop is alive, and none once the controller is disabled; with the
      lifecycle lock free, Paused holds exactly when there is no cancel function. */
  lemma OneLoop(c: Controller)
    requires Reachable(c)
    ensures forall l, l' | l in c.loops && l' in c.loops :: l == l'
    ensures c.life.disabled ==> c.loops == map[] && c.life.cancel.None?
    ensures
      c.life.holder.Free? && !c.life.disabled ==>
        (c.life.paused <==> c.life.cancel.None?) && (c.life.paused <==> c.loops == map[])
  {
    ReachableInv(c);
    if c.life.done.Some? && c.life.done.value in c.loops { LoopIsCurrent(c, c.life.done.value); }
  }

  /** A loop that exits closes its own done channel, for the first time. */
  lemma ExitClosesOwnDone(c: Controller, l: nat)
    requires Reachable(c) && LoopEnabled(c, l, CloseDone)
    ensures l !in c.life.doneClosed && LoopDo(c, l, CloseDone).Stepped?
    ensures LoopDo(c, l, CloseDone).controller.life.doneClosed == c.life.doneClosed + {l}
  {
    ReachableInv(c);
  }

  lemma HolderLeavesDisabled(c: Controller, step: HolderStep)
    requires LifeInv(c.life, c.loops) && c.life.disabled && HolderEnabled(c, step)
    ensures HolderDo(c, step).life.disabled
    ensures HolderDo(c, step).session == c.session || HolderDo(c, step).session.None?
  {
  }

  /** Once disabled, always disabled, and the session file is only ever removed. */
  lemma DisabledIsFinal(c: Controller, step: Step)
    requires Reachable(c) && c.life.disabled && Enabled(c, step)
    ensures Do(c, step).Stepped?
    ensures
      var c' := Do(c, step).controller;
      c'.life.disabled && c'.loops == map[] && (c'.session == c.session || c'.session.None?)
  {
    ReachableInv(c);
    StepKeepsInv(c, step);
    if step.Holding? { HolderLeavesDisabled(c, step.holding); }
  }

  // ----- The session file -----

  /** The step saves the session. */
  predicate Saves(c: Controller, step: Step) {
    && step == Holding(Settle(true)) && c.life.holder.Stopped?
    && (c.life.holder.operation.Halt? ==> c.life.holder.operation.mode.Pause?)
  }

  /** Terminate succeeds in removing the session file. */
  predicate Removes(step: Step) { step.Holding? && step.holding.Remove? && step.holding.session }

  /** What a step does to the session file: a successful save writes the Paused that the
      controller then has, and a failed one leaves the file as it was. */
  lemma SessionStep(c: Controller, step: Step)
    requires Enabled(c, step) && Do(c, step).Stepped?
    ensures
      var c' := Do(c, step).controller;
      && c'.session == (if Saves(c, step) then Some(c'.life.paused) else if Removes(step) then None else c.session)
      && (c'.life.paused != c.life.paused ==> step.Holding? && step.holding.Settle?)
  {
    match step
    case Holding(h) => HolderSession(c, h);
    case Looping(_, _) =>
    case Working(_, _) =>
    case CountOut(_) =>
  }

  lemma HolderSession(c: Controller, step: HolderStep)
    requires HolderEnabled(c, step)
    ensures
      var c' := HolderDo(c, step);
      && c'.session ==
         (if Saves(c, Holding(step)) then Some(c'.life.paused)
          else if Removes(Holding(step)) then None
          else c.session)
      && (c'.life.paused != c.life.paused ==> step.Settle?)
  {
    match step
    case Settle(_) => match c.life.holder.operation { case Resume => case Halt(_) => }
    case Decide(_) =>
    case Acquire(_) =>
    case Join =>
    case Remove(_) =>
    case Start =>
  }

  /** Only shutdown and terminate disable, and nothing enables. */
  lemma HolderDisables(c: Controller, step: HolderStep)
    requires LifeInv(c.life, c.loops) && HolderEnabled(c, step)
    ensures
      var ends := step.Settle? && c.life.holder.operation.Halt? && !c.life.holder.operation.mode.Pause?;
      HolderDo(c, step).life.disabled == (c.life.disabled || ends)
    ensures step.Remove? ==> c.life.disabled
  {
    match step
    case Settle(_) => match c.life.holder.operation { case Resume => case Halt(_) => }
    case Decide(_) =>
    case Acquire(_) =>
    case Join =>
    case Remove(_) =>
    case Start =>
  }

  predicate SavingSucceeds(step: Step) { step.Holding? && step.holding.Settle? ==> step.holding.saved }

  ghost predicate SessionInv(c: Controller) { !c.life.disabled ==> c.session == Some(c.life.paused) }

  lemma StepKeepsSession(c: Controller, step: Step)
    requires LifeInv(c.life, c.loops) && SessionInv(c) && SavingSucceeds(step)
    requires Enabled(c, step) && Do(c, step).Stepped?
    ensures SessionInv(Do(c, step).controller)
  {
    SessionStep(c, step);
    if step.Holding? { HolderDisables(c, step.holding); }
  }

  lemma {:induction false} RunKeepsSession(c: Controller, steps: seq<Step>)
    requires Inv(c) && SessionInv(c) && Possible(c, steps)
    requires forall i | 0 <= i < |steps| :: SavingSucceeds(steps[i])
    ensures Run(c, steps).Stepped? && SessionInv(Run(c, steps).controller)
    decreases |steps|
  {
    if steps != [] {
      StepKeepsInv(c, steps[0]);
      StepKeepsSession(c, steps[0]);
      RunKeepsSession(Do(c, steps[0]).controller, steps[1..]);
    }
  }

  /** In every run of a session whose file says whether it is paused, and whose saves succeed,
      the file goes on saying so until the controller is disabled. */
  lemma SessionFileAgrees(paused: bool, steps: seq<Step>)
    requires Possible(Initial(paused, Some(paused)), steps)
    requires forall i | 0 <= i < |steps| :: SavingSucceeds(steps[i])
    ensures
      var o := Run(Initial(paused, Some(paused)), steps);
      o.Stepped? && (!o.controller.life.disabled ==> o.controller.session == Some(o.controller.life.paused))
  {
    InitialInv(paused, Some(paused));
    RunKeepsSession(Initial(paused, Some(paused)), steps);
  }

  lemma {:induction false} DisabledSessionRun(c: Controller, steps: seq<Step>)
    requires Inv(c) && c.life.disabled && Possible(c, steps)
    ensures
      var removed := exists i :: 0 <= i < |steps| && Removes(steps[i]);
      && Run(c, steps).Stepped?
      && Run(c, steps).controller.session == (if removed then None else c.session)
    decreases |steps|
  {
    if steps != [] {
      StepKeepsInv(c, steps[0]);
      SessionStep(c, steps[0]);
      if steps[0].Holding? { HolderDisables(c, steps[0].holding); }
      DisabledSessionRun(Do(c, steps[0]).controller, steps[1..]);
      assert forall i | 0 <= i < |steps[1..]| :: steps[1..][i] == steps[i + 1];
      assert forall i | 1 <= i < |steps| :: steps[i] == steps[1..][i - 1];
    }
  }

  /** Once disabled, the session file is gone if the terminate removes it, and otherwise what it
      was, in every run. */
  lemma DisabledSessionIsExact(c: Controller, steps: seq<Step>)
    requires Reachable(c) && c.life.disabled && Possible(c, steps)
    ensures
      var removed := exists i :: 0 <= i < |steps| && Removes(steps[i]);
      && Run(c, steps).Stepped?
      && Run(c, steps).controller.session == (if removed then None else c.session)
  {
    ReachableInv(c);
    DisabledSessionRun(c, steps);
  }

  // ----- What the operations do -----

  lemma RunningIffCancel(c: Controller)
    requires LifeInv(c.life, c.loops) && !c.life.holder.Joining?
    ensures c.loops != map[] <==> c.life.cancel.Some?
    ensures c.life.cancel.Some? ==> c.loops.Keys == {c.life.cancel.value} && !c.life.disabled
  {
    if c.life.cancel.Some? { LoopIsCurrent(c, c.life.cancel.value); }
    assert c.loops == map[] || exists l :: l in c.loops;
  }

  /** The first decision of an operation: it changes nothing if the controller is disabled or if
      resume finds the session forwarding; otherwise it stops the loop if there is one. */
  lemma Decisions(c: Controller, forwarding: bool)
    requires Reachable(c) && HolderEnabled(c, Decide(forwarding))
    ensures
      var c', operation, running := HolderDo(c, Decide(forwarding)), c.life.holder.operation, c.loops != map[];
      var idle := c.life.disabled || (operation.Resume? && running && forwarding);
      && c'.life == c.life.(holder := if idle then Free else if running then Joining(operation) else Stopped(operation))
      && c'.loops.Keys == c.loops.Keys
      && (forall l | l in c.loops :: c'.loops[l].at == c.loops[l].at && (c'.loops[l].cancelled <==> !idle))
      && c'.session == c.session && c'.states == c.states
  {
    ReachableInv(c);
    RunningIffCancel(c);
  }

  /** What an operation has achieved when it releases the lifecycle lock. */
  lemma Achievements(c: Controller, step: HolderStep)
    requires Reachable(c) && HolderEnabled(c, step) && !step.Acquire? && HolderDo(c, step).life.holder.Free?
    ensures
      var c' := HolderDo(c, step);
      match c.life.holder
      case Began(_) => c' == c.(life := c.life.(holder := Free))
      case Stopped(operation) =>
        && operation.Halt? && c'.loops == map[]
        && (if operation.mode.Pause? then c'.life.paused && !c'.life.disabled else c'.life.disabled)
      case Connecting =>
        !c'.life.paused && c'.life.done.Some? && c'.loops == map[c'.life.done.value := Loop(false, Dialing)]
      case Removing => c'.life.disabled
      case _ => true
  {
    ReachableInv(c);
    match c.life.holder
    case Stopped(operation) => match operation { case Resume => case Halt(_) => }
    case Connecting => assert c.loops == map[];
    case Began(_) =>
    case Removing =>
    case Joining(_) =>
  }

  // ----- The lifecycle lock is released -----

  /** How far a cancelled run loop is from having closed done. */
  function LoopDistance(c: Controller, at: Position): nat {
    match at
    case Closing => 1
    case Cleaning => 2
    case Dialing => 3
    case Resting => 3
    case Replacing(_) => 4
    case Draining(w, _) => 5 + (if w !in c.workers then 0 else if c.workers[w].Accepting? then 1 else 2)
    case Forwarding(_) => 8
  }

  function Distance(c: Controller): nat {
    match c.life.holder
    case Free => 0
    case Connecting => 1
    case Removing => 1
    case Stopped(_) => 3
    case Joining(_) =>
      if c.life.done.None? || c.life.done.value !in c.loops then 4
      else 4 + LoopDistance(c, c.loops[c.life.done.value].at)
    case Began(_) => 13
  }

  /** The next step of a cancelled run loop, or of the forwarding loop it waits for. */
  function LoopNext(c: Controller, l: nat, at: Position): Step {
    match at
    case Closing => Looping(l, CloseDone)
    case Cleaning => Looping(l, CleanUp)
    case Dialing => Looping(l, Return)
    case Resting => Looping(l, Return)
    case Replacing(_) => Looping(l, ReplaceState)
    case Draining(w, _) =>
      if w !in c.workers then Looping(l, Drained)
      else
        Working(w, if c.workers[w].Entering? then Enter else if c.workers[w].Accepting? then Quit else Launch)
    case Forwarding(_) => Looping(l, StopForwarding(true))
  }

  function NextStep(c: Controller, works: bool): Step {
    match c.life.holder
    case Free => Holding(Acquire(Resume))
    case Began(_) => Holding(Decide(works))
    case Joining(_) =>
      if c.life.done.None? || c.life.done.value !in c.loops then Holding(Join)
      else LoopNext(c, c.life.done.value, c.loops[c.life.done.value].at)
    case Stopped(_) => Holding(Settle(works))
    case Removing => Holding(Remove(works))
    case Connecting => Holding(Start)
  }

  lemma LoopStepHelps(c: Controller, works: bool)
    requires LifeInv(c.life, c.loops) && c.current < |c.states|
    requires c.life.holder.Joining? && c.life.done.Some? && c.life.done.value in c.loops
    ensures Enabled(c, NextStep(c, works))
    ensures Do(c, NextStep(c, works)).Stepped? ==> Distance(Do(c, NextStep(c, works)).controller) < Distance(c)
  {
    var l := c.life.done.value;
    assert c.loops[l].cancelled;
    match c.loops[l].at
    case Closing =>
    case Cleaning =>
    case Dialing =>
    case Resting =>
    case Replacing(_) =>
    case Draining(_, _) =>
    case Forwarding(_) =>
  }

  lemma HolderStepHelps(c: Controller, works: bool)
    requires LifeInv(c.life, c.loops) && !c.life.holder.Free?
    requires c.life.holder.Joining? ==> c.life.done.None? || c.life.done.value !in c.loops
    ensures NextStep(c, works).Holding? && HolderEnabled(c, NextStep(c, works).holding)
    ensures Distance(HolderDo(c, NextStep(c, works).holding)) < Distance(c)
  {
    match c.life.holder
    case Began(operation) => match operation { case Resume => case Halt(_) => }
    case Stopped(operation) => match operation { case Resume => case Halt(_) => }
    case Joining(_) =>
    case Removing =>
    case Connecting =>
  }

  lemma StepHelps(c: Controller, works: bool)
    requires Inv(c) && !c.life.holder.Free?
    ensures Enabled(c, NextStep(c, works))
    ensures Do(c, NextStep(c, works)).Stepped?
    ensures Distance(Do(c, NextStep(c, works)).controller) < Distance(c)
  {
    if c.life.holder.Joining? && c.life.done.Some? && c.life.done.value in c.loops {
      LoopStepHelps(c, works);
    } else {
      HolderStepHelps(c, works);
    }
    StepKeepsInv(c, NextStep(c, works));
  }

  lemma {:induction false} ReleaseRun(c: Controller, works: bool) returns (steps: seq<Step>)
    requires Inv(c)
    ensures Possible(c, steps) && Run(c, steps).Stepped?
    ensures Run(c, steps).controller.life.holder.Free? && |steps| <= Distance(c)
    decreases Distance(c)
  {
    if c.life.holder.Free? {
      steps := [];
    } else {
      var step := NextStep(c, works);
      StepHelps(c, works);
      StepKeepsInv(c, step);
      var rest := ReleaseRun(Do(c, step).controller, works);
      steps := [step] + rest;
      assert steps[1..] == rest;
    }
  }

  /** Whatever state a run has led to, and whether file operations succeed or fail, the holder of
      the lifecycle lock, the run loop it waits for and the forwarding loop that one waits for
      can go on by themselves, in at most 13 steps, until the lock is free. */
  lemma LockIsReleased(c: Controller, works: bool) returns (steps: seq<Step>)
    requires Reachable(c)
    ensures Possible(c, steps) && Run(c, steps).Stepped?
    ensures Run(c, steps).controller.life.holder.Free? && |steps| <= 13
  {
    ReachableInv(c);
    steps := ReleaseRun(c, works);
  }
}
