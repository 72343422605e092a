/** What holds in every run of a synchronization controller. */
module SyncTheorems {
  import opened Wrappers
  import opened SyncController
  import opened SyncLifecycle
  import opened SyncFlush

  ghost predicate AllInv(c: Controller) {
    Inv(c) && PlaceInv(c) && TraceInv(c) && ScansInv(c.log) && WaitingInv(c)
  }

  ghost predicate Possible(c: Controller, valid: Content -> bool, steps: seq<Step>)
    decreases |steps|
  {
    steps == [] ||
    (Enabled(c, valid, steps[0]) &&
     (Do(c, valid, steps[0]).Stepped? ==> Possible(Do(c, valid, steps[0]).controller, valid, steps[1..])))
  }

  ghost function Run(c: Controller, valid: Content -> bool, steps: seq<Step>): Outcome
    requires Possible(c, valid, steps)
    decreases |steps|
  {
    if steps == [] then Stepped(c)
    else
      var o := Do(c, valid, steps[0]);
      if o.Stepped? then Run(o.controller, valid, steps[1..]) else o
  }

  /** `c` comes about in some run from `start`. */
  ghost predicate Leads(start: Controller, valid: Content -> bool, c: Controller) {
    exists steps: seq<Step> :: Possible(start, valid, steps) && Run(start, valid, steps) == Stepped(c)
  }

  ghost predicate Reachable(valid: Content -> bool, c: Controller) {
    exists paused, session, archive :: Leads(Initial(paused, session, archive), valid, c)
  }

  lemma StepKeepsAll(c: Controller, valid: Content -> bool, step: Step)
    requires AllInv(c) && Enabled(c, valid, step)
    ensures Do(c, valid, step).Stepped? && AllInv(Do(c, valid, step).controller)
  {
    StepKeepsInv(c, valid, step);
    StepKeepsPlaces(c, valid, step);
    StepKeepsTrace(c, valid, step);
    StepKeepsScans(c, valid, step);
  }

  lemma {:induction false} RunKeepsAll(c: Controller, valid: Content -> bool, steps: seq<Step>)
    requires AllInv(c) && Possible(c, valid, steps)
    ensures Run(c, valid, steps).Stepped? && AllInv(Run(c, valid, steps).controller)
    decreases |steps|
  {
    if steps != [] {
      StepKeepsAll(c, valid, steps[0]);
      RunKeepsAll(Do(c, valid, steps[0]).controller, valid, steps[1..]);
    }
  }

  lemma InitialInv(paused: bool, session: Option<bool>, archive: Option<Content>)
    ensures AllInv(Initial(paused, session, archive))
  {
  }

  lemma ReachableInv(valid: Content -> bool, c: Controller)
    requires Reachable(valid, c)
    ensures AllInv(c)
  {
    var paused, session, archive :| Leads(Initial(paused, session, archive), valid, c);
    var start := Initial(paused, session, archive);
    var steps: seq<Step> :| Possible(start, valid, steps) && Run(start, valid, steps) == Stepped(c);
    InitialInv(paused, session, archive);
    RunKeepsAll(start, valid, steps);
  }

  /** No goroutine ever closes a nil or closed channel, or blocks on answering a request. */
  lemma NeverStuck(paused: bool, session: Option<bool>, archive: Option<Content>, valid: Content -> bool,
                   steps: seq<Step>)
    requires Possible(Initial(paused, session, archive), valid, steps)
    ensures Run(Initial(paused, session, archive), valid, steps).Stepped?
  {
    InitialInv(paused, session, archive);
    RunKeepsAll(Initial(paused, session, archive), valid, steps);
  }

  /** At most one run loop is alive, and none once the controller is disabled; with the
      lifecycle lock free, Paused holds exactly when there is no cancel function. */
  lemma OneLoop(valid: Content -> bool, c: Controller)
    requires Reachable(valid, c)
    ensures forall l, l' | l in c.loops && l' in c.loops :: l == l'
    ensures c.life.disabled ==> c.loops == map[] && c.life.cancel.None?
    ensures
      c.life.holder.Free? && !c.life.disabled ==>
        (c.life.paused <==> c.life.cancel.None?) && (c.life.paused <==> c.loops == map[])
  {
    ReachableInv(valid, c);
    if c.life.done.Some? && c.life.done.value in c.loops { LoopIsCurrent(c, c.life.done.value); }
  }

  /** A loop that exits closes its own done channel, for the first time. */
  lemma ExitClosesOwnDone(valid: Content -> bool, c: Controller, l: nat)
    requires Reachable(valid, c) && LoopEnabled(c, valid, l, Exit)
    ensures l !in c.life.doneClosed && LoopDo(c, valid, l, Exit).Stepped?
    ensures LoopDo(c, valid, l, Exit).controller.life.doneClosed == c.life.doneClosed + {l}
  {
    ReachableInv(valid, c);
  }

  lemma HolderLeavesDisabled(c: Controller, step: HolderStep)
    requires LifeInv(c.life, c.loops) && c.life.disabled && HolderEnabled(c, step)
    ensures HolderDo(c, step).life.disabled
    ensures HolderDo(c, step).session == c.session || HolderDo(c, step).session.None?
  {
  }

  /** Once disabled, always disabled; the session file is only ever removed, and the archive
      only blanked by reset or removed by terminate. */
  lemma DisabledIsFinal(valid: Content -> bool, c: Controller, step: Step)
    requires Reachable(valid, c) && c.life.disabled && Enabled(c, valid, step)
    ensures Do(c, valid, step).Stepped?
    ensures
      var c' := Do(c, valid, step).controller;
      && c'.life.disabled && c'.loops == map[]
      && (c'.session == c.session || c'.session.None?)
      && c'.archive == (if Blanks(step) then Some(BLANK) else if Removes(step) then None else c.archive)
  {
    ReachableInv(valid, c);
    DisabledStep(c, valid, step);
    if step.Holding? { HolderLeavesDisabled(c, step.holding); }
  }

  // ----- The session file -----

  /** The step saves the session. */
  predicate Saves(c: Controller, step: Step) {
    && step == Holding(Settle(true)) && c.life.holder.Stopped?
    && (c.life.holder.operation.Halt? ==> c.life.holder.operation.mode.Pause?)
  }

  /** Terminate succeeds in removing the session file. */
  predicate RemovesSession(step: Step) { step.Holding? && step.holding.Remove? && step.holding.session }

  /** What a step does to the session file: a successful save writes the Paused that the
      controller then has, and a failed one leaves the file as it was. */
  lemma SessionStep(c: Controller, valid: Content -> bool, step: Step)
    requires Enabled(c, valid, step) && Do(c, valid, step).Stepped?
    ensures
      var c' := Do(c, valid, step).controller;
      && c'.session ==
         (if Saves(c, step) then Some(c'.life.paused) else if RemovesSession(step) then None else c.session)
      && (c'.life.paused != c.life.paused ==> step.Holding? && step.holding.Settle?)
  {
    match step
    case Holding(h) => HolderSession(c, h);
    case Looping(_, _) =>
    case Flushing(_, _) =>
  }

  lemma HolderSession(c: Controller, step: HolderStep)
    requires HolderEnabled(c, step)
    ensures
      var c' := HolderDo(c, step);
      && c'.session ==
         (if Saves(c, Holding(step)) then Some(c'.life.paused)
          else if RemovesSession(Holding(step)) then None
          else c.session)
      && (c'.life.paused != c.life.paused ==> step.Settle?)
  {
    match step
    case Settle(_) => match c.life.holder.operation { case Resume => case Reset => case Halt(_) => }
    case Decide(_) => match c.life.holder.operation { case Resume => case Reset => case Halt(_) => }
    case Acquire(_) =>
    case Join =>
    case Clear(_) =>
    case Remove(_, _) =>
    case Start =>
  }

  predicate SavingSucceeds(step: Step) { step.Holding? && step.holding.Settle? ==> step.holding.saved }

  ghost predicate SessionInv(c: Controller) { !c.life.disabled ==> c.session == Some(c.life.paused) }

  lemma StepKeepsSession(c: Controller, valid: Content -> bool, step: Step)
    requires LifeInv(c.life, c.loops) && SessionInv(c) && SavingSucceeds(step)
    requires Enabled(c, valid, step) && Do(c, valid, step).Stepped?
    ensures SessionInv(Do(c, valid, step).controller)
  {
    SessionStep(c, valid, step);
    if step.Holding? { HolderDisables(c, step.holding); }
  }

  /** Only shutdown and terminate disable, and nothing enables. */
  lemma HolderDisables(c: Controller, step: HolderStep)
    requires LifeInv(c.life, c.loops) && HolderEnabled(c, step)
    ensures
      var h := c.life.holder;
      var ends := step.Settle? && h.Stopped? && h.operation.Halt? && !h.operation.mode.Pause?;
      HolderDo(c, step).life.disabled == (c.life.disabled || ends)
    ensures step.Remove? ==> c.life.disabled
  {
    match step
    case Settle(_) => match c.life.holder.operation { case Resume => case Reset => case Halt(_) => }
    case Decide(_) => match c.life.holder.operation { case Resume => case Reset => case Halt(_) => }
    case Acquire(_) =>
    case Join =>
    case Clear(_) =>
    case Remove(_, _) =>
    case Start =>
  }

  lemma {:induction false} RunKeepsSession(c: Controller, valid: Content -> bool, steps: seq<Step>)
    requires AllInv(c) && SessionInv(c) && Possible(c, valid, steps)
    requires forall i | 0 <= i < |steps| :: SavingSucceeds(steps[i])
    ensures Run(c, valid, steps).Stepped? && SessionInv(Run(c, valid, steps).controller)
    decreases |steps|
  {
    if steps != [] {
      StepKeepsAll(c, valid, steps[0]);
      StepKeepsSession(c, valid, steps[0]);
      RunKeepsSession(Do(c, valid, steps[0]).controller, valid, steps[1..]);
    }
  }

  /** In every run of a session whose file says whether it is paused, and whose saves succeed,
      the file goes on saying so until the controller is disabled. */
  lemma SessionFileAgrees(paused: bool, archive: Option<Content>, valid: Content -> bool, steps: seq<Step>)
    requires Possible(Initial(paused, Some(paused), archive), valid, steps)
    requires forall i | 0 <= i < |steps| :: SavingSucceeds(steps[i])
    ensures
      var o := Run(Initial(paused, Some(paused), archive), valid, steps);
      o.Stepped? && (!o.controller.life.disabled ==> o.controller.session == Some(o.controller.life.paused))
  {
    InitialInv(paused, Some(paused), archive);
    RunKeepsSession(Initial(paused, Some(paused), archive), valid, steps);
  }

  lemma {:induction false} DisabledSessionRun(c: Controller, valid: Content -> bool, steps: seq<Step>)
    requires AllInv(c) && c.life.disabled && Possible(c, valid, steps)
    ensures
      var removed := exists i :: 0 <= i < |steps| && RemovesSession(steps[i]);
      && Run(c, valid, steps).Stepped?
      && Run(c, valid, steps).controller.session == (if removed then None else c.session)
    decreases |steps|
  {
    if steps != [] {
      var c' := Do(c, valid, steps[0]).controller;
      DisabledStep(c, valid, steps[0]);
      SessionStep(c, valid, steps[0]);
      DisabledSessionRun(c', valid, steps[1..]);
      assert forall i | 0 <= i < |steps[1..]| :: steps[1..][i] == steps[i + 1];
      assert forall i | 1 <= i < |steps| :: steps[i] == steps[1..][i - 1];
    }
  }

  /** Once disabled, the session file is gone if the terminate removes it, and otherwise what it
      was, in every run. */
  lemma DisabledSessionIsExact(valid: Content -> bool, c: Controller, steps: seq<Step>)
    requires Reachable(valid, c) && c.life.disabled && Possible(c, valid, steps)
    ensures
      var removed := exists i :: 0 <= i < |steps| && RemovesSession(steps[i]);
      && Run(c, valid, steps).Stepped?
      && Run(c, valid, steps).controller.session == (if removed then None else c.session)
  {
    ReachableInv(valid, c);
    DisabledSessionRun(c, valid, steps);
  }

  // ----- What the operations do -----

  lemma Decided(c: Controller, connected: bool)
    requires LifeInv(c.life, c.loops) && HolderEnabled(c, Decide(connected))
    ensures
      var c', operation, running := HolderDo(c, Decide(connected)), c.life.holder.operation, c.loops != map[];
      var idle := if operation.Reset? then false else c.life.disabled || (operation.Resume? && running && connected);
      && c'.life == c.life.(holder := if idle then Free
                                      else if running then Joining(operation)
                                      else if operation.Reset? then Clearing(false)
                                      else Stopped(operation))
      && c'.loops.Keys == c.loops.Keys
      && (forall l | l in c.loops :: c'.loops[l].at == c.loops[l].at && (c'.loops[l].cancelled <==> !idle))
      && c'.session == c.session && c'.archive == c.archive
  {
    RunningIffCancel(c);
    match c.life.holder.operation
    case Resume =>
    case Halt(_) =>
    case Reset =>
  }

  /** The first decision of an operation: it changes nothing if the controller is disabled (for
      reset, only if there is a loop) or if resume finds the session connected; otherwise it
      stops the loop if there is one. */
  lemma Decisions(valid: Content -> bool, c: Controller, connected: bool)
    requires Reachable(valid, c) && HolderEnabled(c, Decide(connected))
    ensures
      var c', operation, running := HolderDo(c, Decide(connected)), c.life.holder.operation, c.loops != map[];
      var idle := if operation.Reset? then false else c.life.disabled || (operation.Resume? && running && connected);
      && c'.life == c.life.(holder := if idle then Free
                                      else if running then Joining(operation)
                                      else if operation.Reset? then Clearing(false)
                                      else Stopped(operation))
      && c'.loops.Keys == c.loops.Keys
      && (forall l | l in c.loops :: c'.loops[l].at == c.loops[l].at && (c'.loops[l].cancelled <==> !idle))
      && c'.session == c.session && c'.archive == c.archive
  {
    ReachableInv(valid, c);
    Decided(c, connected);
  }

  lemma RunningIffCancel(c: Controller)
    requires LifeInv(c.life, c.loops) && !c.life.holder.Joining?
    ensures c.loops != map[] <==> c.life.cancel.Some?
    ensures c.life.cancel.Some? ==> c.loops.Keys == {c.life.cancel.value} && !c.life.disabled
  {
    if c.life.cancel.Some? { LoopIsCurrent(c, c.life.cancel.value); }
    assert c.loops == map[] || exists l :: l in c.loops;
  }

  lemma Released(c: Controller, step: HolderStep)
    requires LifeInv(c.life, c.loops) && HolderEnabled(c, step) && !step.Acquire?
    requires HolderDo(c, step).life.holder.Free?
    ensures
      var c' := HolderDo(c, step);
      match c.life.holder
      case Began(operation) => c' == Goto(c, Free)
      case Stopped(operation) =>
        if operation.Halt? && !operation.mode.Pause? then c'.life.disabled && c'.loops == map[]
        else c'.life.paused && c'.loops == map[] && !c'.life.disabled
      case Clearing(_) =>
        c'.archive == (if step.saved then Some(BLANK) else c.archive) && c'.life.paused == c.life.paused
      case Connecting =>
        !c'.life.paused && c'.life.done.Some? && c'.loops == map[c'.life.done.value := Loop(false, Dialing)]
      case Removing => c'.life.disabled
      case _ => true
  {
    match c.life.holder
    case Connecting => StartKeepsLife(c);
    case Began(operation) => match operation { case Resume => case Halt(_) => case Reset => }
    case Stopped(operation) => match operation { case Resume => case Halt(_) => case Reset => }
    case Clearing(_) =>
    case Removing =>
    case Joining(_) =>
  }

  /** What an operation has achieved when it releases the lifecycle lock. */
  lemma Achievements(valid: Content -> bool, c: Controller, step: HolderStep)
    requires Reachable(valid, c) && HolderEnabled(c, step) && !step.Acquire? && HolderDo(c, step).life.holder.Free?
    ensures
      var c' := HolderDo(c, step);
      match c.life.holder
      case Began(operation) => c' == Goto(c, Free)
      case Stopped(operation) =>
        if operation.Halt? && !operation.mode.Pause? then c'.life.disabled && c'.loops == map[]
        else c'.life.paused && c'.loops == map[] && !c'.life.disabled
      case Clearing(_) =>
        c'.archive == (if step.saved then Some(BLANK) else c.archive) && c'.life.paused == c.life.paused
      case Connecting =>
        !c'.life.paused && c'.life.done.Some? && c'.loops == map[c'.life.done.value := Loop(false, Dialing)]
      case Removing => c'.life.disabled
      case _ => true
  {
    ReachableInv(valid, c);
    Released(c, step);
  }

  /** After reset has blanked the archive of a session that was running, it goes on to resume. */
  lemma ResetResumes(c: Controller, saved: bool)
    requires HolderEnabled(c, Clear(saved))
    ensures
      HolderDo(c, Clear(saved)).life.holder == if saved && c.life.holder.running then Began(Resume) else Free
  {
  }

  /** Scans are full exactly when they are made for a flush request. */
  lemma FullScansAreForFlushes(valid: Content -> bool, c: Controller, i: nat)
    requires Reachable(valid, c) && i < |c.log| && IsScan(c.log[i])
    ensures c.log[i].full <==> Served(c.log[..i])
  {
    ReachableInv(valid, c);
  }

  /** Once a cycle has recorded its result, the archive on disk is what it says it saved. */
  lemma RecordedIsOnDisk(valid: Content -> bool, c: Controller, l: nat)
    requires Reachable(valid, c) && l in c.loops && c.loops[l].at.Recorded?
    ensures |c.log| > 0
    ensures
      var last := c.log[|c.log| - 1];
      last.AncestorUnchanged? || (last.AncestorSaved? && c.archive == Some(last.content))
  {
    ReachableInv(valid, c);
    assert ProgressInv(c.loops[l].at, c.log);
  }

  /** What reconciliation and the transitions make of the ancestor is what is saved, and what
      the next cycle starts from. */
  lemma ChangedAncestorIsSaved(c: Controller, valid: Content -> bool, l: nat, ancestor: Content)
    requires LoopEnabled(c, valid, l, Change(ancestor)) && valid(ancestor)
    ensures
      var changed := LoopDo(c, valid, l, Change(ancestor)).controller;
      && LoopEnabled(changed, valid, l, Save)
      && var saved := LoopDo(changed, valid, l, Save).controller;
         && saved.archive == Some(ancestor)
         && l in saved.loops && saved.loops[l].at == Recorded(ancestor, c.loops[l].at.flush)
  {
  }

  /** What a loop works from has passed validation. */
  predicate SoundPosition(valid: Content -> bool, at: Position) {
    match at
    case Top(a, _, _) => valid(a)
    case Scanning(a, _) => valid(a)
    case Scanned(a, _) => valid(a)
    case Applied(base, _, _) => valid(base)
    case Recorded(a, _) => valid(a)
    case _ => true
  }

  ghost predicate SoundLoops(valid: Content -> bool, c: Controller) {
    forall l | l in c.loops :: SoundPosition(valid, c.loops[l].at)
  }

  lemma HolderKeepsSound(c: Controller, valid: Content -> bool, step: HolderStep)
    requires SoundLoops(valid, c) && HolderEnabled(c, step)
    ensures SoundLoops(valid, HolderDo(c, step))
  {
    match step
    case Acquire(_) =>
    case Decide(_) =>
    case Join =>
    case Settle(_) => match c.life.holder.operation { case Resume => case Reset => case Halt(_) => }
    case Clear(_) =>
    case Remove(_, _) =>
    case Start =>
  }

  lemma LoopKeepsSound(c: Controller, valid: Content -> bool, l: nat, step: LoopStep)
    requires SoundLoops(valid, c) && LoopEnabled(c, valid, l, step) && LoopDo(c, valid, l, step).Stepped?
    ensures SoundLoops(valid, LoopDo(c, valid, l, step).controller)
  {
    match step
    case Connect =>
    case Load(_) =>
    case Proceed =>
    case Dequeue =>
    case Rescan =>
    case Scan =>
    case Change(_) =>
    case NoChange =>
    case Save =>
    case Finish(_) =>
    case Fail(_) =>
    case EndSynchronizing =>
    case Reconnect =>
    case Exit =>
  }

  lemma {:induction false} RunKeepsSound(c: Controller, valid: Content -> bool, steps: seq<Step>)
    requires AllInv(c) && SoundLoops(valid, c) && Possible(c, valid, steps)
    ensures Run(c, valid, steps).Stepped? && SoundLoops(valid, Run(c, valid, steps).controller)
    decreases |steps|
  {
    if steps != [] {
      StepKeepsAll(c, valid, steps[0]);
      match steps[0]
      case Holding(h) => HolderKeepsSound(c, valid, h);
      case Looping(l, s) => LoopKeepsSound(c, valid, l, s);
      case Flushing(_, _) =>
    }
    if steps != [] { RunKeepsSound(Do(c, valid, steps[0]).controller, valid, steps[1..]); }
  }

  /** The ancestor from which a loop scans and reconciles has always passed validation. */
  lemma AncestorIsValid(valid: Content -> bool, c: Controller, l: nat)
    requires Reachable(valid, c) && l in c.loops
    ensures SoundPosition(valid, c.loops[l].at)
  {
    var paused, session, archive :| Leads(Initial(paused, session, archive), valid, c);
    var start := Initial(paused, session, archive);
    var steps: seq<Step> :| Possible(start, valid, steps) && Run(start, valid, steps) == Stepped(c);
    InitialInv(paused, session, archive);
    RunKeepsSound(start, valid, steps);
  }

  // ----- Halting for safety -----

  /** Synchronization was given up for a reason that the user has to look into. */
  predicate HaltedForSafety(at: Position) { (at.Failing? || at.Ended?) && at.halted }

  /** The loop, if it is still there, does nothing any more. */
  ghost predicate Resting(c: Controller, l: nat) {
    l < c.life.nextLoop && (l in c.loops ==> HaltedForSafety(c.loops[l].at))
  }

  /** Of the loop's own steps, only the end of synchronize and its exit are left. */
  predicate MayRest(step: Step, l: nat) {
    step.Looping? && step.loop == l ==> step.looping.EndSynchronizing? || step.looping.Exit?
  }

  lemma HolderLetsRest(c: Controller, step: HolderStep, l: nat)
    requires HolderEnabled(c, step) && Resting(c, l)
    ensures Resting(HolderDo(c, step), l)
  {
    match step
    case Acquire(_) =>
    case Decide(_) =>
    case Join =>
    case Settle(_) => match c.life.holder.operation { case Resume => case Reset => case Halt(_) => }
    case Clear(_) =>
    case Remove(_, _) =>
    case Start =>
  }

  lemma LoopRests(c: Controller, valid: Content -> bool, l: nat, k: nat, step: LoopStep)
    requires LoopEnabled(c, valid, k, step) && LoopDo(c, valid, k, step).Stepped? && Resting(c, l)
    ensures Resting(LoopDo(c, valid, k, step).controller, l)
    ensures k == l ==> step.EndSynchronizing? || step.Exit?
  {
    match step
    case Connect =>
    case Load(_) =>
    case Proceed =>
    case Dequeue =>
    case Rescan =>
    case Scan =>
    case Change(_) =>
    case NoChange =>
    case Save =>
    case Finish(_) =>
    case Fail(_) =>
    case EndSynchronizing =>
    case Reconnect =>
    case Exit =>
  }

  lemma StepLetsRest(c: Controller, valid: Content -> bool, step: Step, l: nat)
    requires Enabled(c, valid, step) && Do(c, valid, step).Stepped? && Resting(c, l)
    ensures Resting(Do(c, valid, step).controller, l)
    ensures MayRest(step, l)
  {
    match step
    case Holding(h) => HolderLetsRest(c, h, l);
    case Looping(k, s) => LoopRests(c, valid, l, k, s);
    case Flushing(_, _) =>
  }

  lemma OnlyRestingSteps(steps: seq<Step>, l: nat)
    requires steps != [] && MayRest(steps[0], l) && forall i | 0 <= i < |steps[1..]| :: MayRest(steps[1..][i], l)
    ensures forall i | 0 <= i < |steps| :: MayRest(steps[i], l)
  {
    assert forall i | 1 <= i < |steps| :: steps[i] == steps[1..][i - 1];
  }

  lemma {:induction false} RunLetsRest(c: Controller, valid: Content -> bool, steps: seq<Step>, l: nat)
    requires AllInv(c) && Resting(c, l) && Possible(c, valid, steps)
    ensures Run(c, valid, steps).Stepped? && Resting(Run(c, valid, steps).controller, l)
    ensures forall i | 0 <= i < |steps| :: MayRest(steps[i], l)
    decreases |steps|
  {
    if steps != [] {
      StepKeepsAll(c, valid, steps[0]);
      StepLetsRest(c, valid, steps[0], l);
      RunLetsRest(Do(c, valid, steps[0]).controller, valid, steps[1..], l);
      OnlyRestingSteps(steps, l);
    }
  }

  lemma FailingRests(c: Controller, valid: Content -> bool, l: nat)
    requires FieldsInv(c.life, c.loops) && LoopEnabled(c, valid, l, Fail(true))
    ensures LoopDo(c, valid, l, Fail(true)).Stepped? && Resting(LoopDo(c, valid, l, Fail(true)).controller, l)
  {
  }

  /** A loop that halts for safety does nothing more but wait for its cancellation, so only a
      lifecycle operation gets synchronization going again. */
  lemma HaltedUntilResumed(valid: Content -> bool, c: Controller, l: nat, steps: seq<Step>)
    requires Reachable(valid, c) && LoopEnabled(c, valid, l, Fail(true)) && LoopDo(c, valid, l, Fail(true)).Stepped?
    requires Possible(LoopDo(c, valid, l, Fail(true)).controller, valid, steps)
    ensures
      var end := Run(LoopDo(c, valid, l, Fail(true)).controller, valid, steps);
      end.Stepped? && (l in end.controller.loops ==> HaltedForSafety(end.controller.loops[l].at))
    ensures forall i | 0 <= i < |steps| :: MayRest(steps[i], l)
  {
    ReachableInv(valid, c);
    StepKeepsAll(c, valid, Looping(l, Fail(true)));
    FailingRests(c, valid, l);
    RunLetsRest(LoopDo(c, valid, l, Fail(true)).controller, valid, steps, l);
  }

  lemma FailingEnds(c: Controller, valid: Content -> bool, l: nat)
    requires SignalInv(c.signal, c.loops) && LoopEnabled(c, valid, l, Fail(false))
    ensures LoopDo(c, valid, l, Fail(false)).Stepped?
    ensures
      var failed := LoopDo(c, valid, l, Fail(false)).controller;
      && LoopEnabled(failed, valid, l, EndSynchronizing)
      && var ended := LoopDo(failed, valid, l, EndSynchronizing);
         ended.Stepped? && LoopEnabled(ended.controller, valid, l, Reconnect)
  {
    assert c.signal.current.Some? && c.signal.current.value !in c.signal.closed;
  }

  /** A loop that fails for any other reason goes on to reconnect. */
  lemma FailedReconnects(valid: Content -> bool, c: Controller, l: nat)
    requires Reachable(valid, c) && LoopEnabled(c, valid, l, Fail(false))
    ensures LoopDo(c, valid, l, Fail(false)).Stepped?
    ensures
      var failed := LoopDo(c, valid, l, Fail(false)).controller;
      && LoopEnabled(failed, valid, l, EndSynchronizing)
      && var ended := LoopDo(failed, valid, l, EndSynchronizing);
         ended.Stepped? && LoopEnabled(ended.controller, valid, l, Reconnect)
  {
    ReachableInv(valid, c);
    FailingEnds(c, valid, l);
  }

  /** At the top of every iteration the ancestor in memory is the archive on disk, and a
      save replaces exactly the content from which its cycle started. */
  lemma AncestorAgrees(valid: Content -> bool, c: Controller, l: nat)
    requires Reachable(valid, c) && l in c.loops
    ensures c.loops[l].at.Top? ==> c.archive == Some(c.loops[l].at.ancestor)
    ensures c.loops[l].at.Applied? ==> c.archive == Some(c.loops[l].at.base)
  {
    ReachableInv(valid, c);
  }

  /** While reset is about to blank the archive there is no loop to overwrite it. */
  lemma ResetIsAlone(valid: Content -> bool, c: Controller)
    requires Reachable(valid, c) && c.life.holder.Clearing?
    ensures c.loops == map[]
  {
    ReachableInv(valid, c);
  }

  /** No loop has read the archive. */
  ghost predicate Unread(loops: map<nat, Loop>) {
    forall l | l in loops :: loops[l].at.Dialing? || loops[l].at.Loading? || loops[l].at.Failing? || loops[l].at.Ended?
  }

  predicate Reads(step: Step) { step.Looping? && step.looping.Load? }

  predicate TouchesFiles(step: Step) { step.Holding? && (step.holding.Clear? || step.holding.Remove?) }

  lemma UnreadStays(c: Controller, valid: Content -> bool, step: Step)
    requires LifeInv(c.life, c.loops) && Unread(c.loops) && Enabled(c, valid, step)
    requires !Reads(step) && !TouchesFiles(step) && Do(c, valid, step).Stepped?
    ensures Unread(Do(c, valid, step).controller.loops)
    ensures Do(c, valid, step).controller.archive == c.archive
  {
    if step.Holding? {
      if step.holding.Start? { StartKeepsLife(c); } else { HolderKeepsPositions(c, step.holding); }
    }
  }

  /** An archive that no loop has read stays on disk until a loop reads it or a lifecycle
      operation replaces or removes it. */
  lemma {:induction false} UnreadArchiveStays(c: Controller, valid: Content -> bool, steps: seq<Step>)
    requires AllInv(c) && Unread(c.loops) && Possible(c, valid, steps)
    requires forall i | 0 <= i < |steps| :: !Reads(steps[i]) && !TouchesFiles(steps[i])
    ensures Run(c, valid, steps).Stepped? && Run(c, valid, steps).controller.archive == c.archive
    decreases |steps|
  {
    if steps != [] {
      StepKeepsAll(c, valid, steps[0]);
      UnreadStays(c, valid, steps[0]);
      UnreadArchiveStays(Do(c, valid, steps[0]).controller, valid, steps[1..]);
    }
  }

  /** The blank archive that reset writes stays on disk, whatever happens, until a loop has
      read it or another lifecycle operation replaces or removes it. */
  lemma BlankStays(valid: Content -> bool, c: Controller, steps: seq<Step>)
    requires Reachable(valid, c) && c.life.holder.Clearing?
    requires
      var c' := HolderDo(c, Clear(true));
      && Possible(c', valid, steps)
      && forall i | 0 <= i < |steps| :: !Reads(steps[i]) && !TouchesFiles(steps[i])
    ensures
      var o := Run(HolderDo(c, Clear(true)), valid, steps);
      o.Stepped? && o.controller.archive == Some(BLANK)
  {
    ReachableInv(valid, c);
    ResetIsAlone(valid, c);
    StepKeepsAll(c, valid, Holding(Clear(true)));
    UnreadArchiveStays(HolderDo(c, Clear(true)), valid, steps);
  }

  // ----- The archive of a disabled controller -----

  /** Reset succeeds in writing a blank archive. */
  predicate Blanks(step: Step) { step == Holding(Clear(true)) }

  /** Terminate succeeds in removing the archive. */
  predicate Removes(step: Step) { step.Holding? && step.holding.Remove? && step.holding.archive }

  /** The archive file after the steps that a disabled controller has taken. */
  ghost function Afterwards(archive: Option<Content>, steps: seq<Step>): Option<Content> {
    if exists i :: 0 <= i < |steps| && Blanks(steps[i]) then Some(BLANK)
    else if exists i :: 0 <= i < |steps| && Removes(steps[i]) then None
    else archive
  }

  /** A disabled controller is not terminated again. */
  lemma StepLeavesUnremoved(c: Controller, valid: Content -> bool, step: Step)
    requires LifeInv(c.life, c.loops) && c.life.disabled && !c.life.holder.Removing?
    requires Enabled(c, valid, step) && Do(c, valid, step).Stepped?
    ensures !Removes(step) && !Do(c, valid, step).controller.life.holder.Removing?
  {
  }

  lemma {:induction false} NoRemoval(c: Controller, valid: Content -> bool, steps: seq<Step>)
    requires AllInv(c) && c.life.disabled && !c.life.holder.Removing? && Possible(c, valid, steps)
    ensures forall i | 0 <= i < |steps| :: !Removes(steps[i])
    decreases |steps|
  {
    if steps != [] {
      DisabledStep(c, valid, steps[0]);
      StepLeavesUnremoved(c, valid, steps[0]);
      NoRemoval(Do(c, valid, steps[0]).controller, valid, steps[1..]);
      assert forall i | 1 <= i < |steps| :: steps[i] == steps[1..][i - 1];
    }
  }

  /** What one step of a disabled controller does to the archive. */
  lemma DisabledStep(c: Controller, valid: Content -> bool, step: Step)
    requires AllInv(c) && c.life.disabled && Enabled(c, valid, step)
    ensures Do(c, valid, step).Stepped?
    ensures
      var c' := Do(c, valid, step).controller;
      && AllInv(c') && c'.life.disabled
      && c'.archive == (if Blanks(step) then Some(BLANK) else if Removes(step) then None else c.archive)
      && (Blanks(step) ==> !c'.life.holder.Removing?)
  {
    StepKeepsAll(c, valid, step);
    if step.Holding? { HolderLeavesDisabled(c, step.holding); }
  }

  lemma AfterwardsTail(archive: Option<Content>, step: Step, rest: seq<Step>)
    requires Blanks(step) ==> forall i | 0 <= i < |rest| :: !Removes(rest[i])
    ensures
      var next := if Blanks(step) then Some(BLANK) else if Removes(step) then None else archive;
      Afterwards(archive, [step] + rest) == Afterwards(next, rest)
  {
    var steps := [step] + rest;
    assert steps[0] == step && forall i | 1 <= i < |steps| :: steps[i] == rest[i - 1];
    assert forall i | 0 <= i < |rest| :: rest[i] == steps[i + 1];
  }

  lemma {:induction false} DisabledRun(c: Controller, valid: Content -> bool, steps: seq<Step>)
    requires AllInv(c) && c.life.disabled && Possible(c, valid, steps)
    ensures Run(c, valid, steps).Stepped? && Run(c, valid, steps).controller.archive == Afterwards(c.archive, steps)
    decreases |steps|
  {
    if steps != [] {
      var step, rest := steps[0], steps[1..];
      DisabledStep(c, valid, step);
      var c' := Do(c, valid, step).controller;
      DisabledRun(c', valid, rest);
      if Blanks(step) { NoRemoval(c', valid, rest); }
      AfterwardsTail(c.archive, step, rest);
      assert steps == [step] + rest;
    }
  }

  /** Once disabled, the archive file is written again if and only if a reset writes it: in
      every run the file is the blank archive if some reset has written it, otherwise gone if
      the terminate has removed it, and otherwise what it was. */
  lemma DisabledArchiveIsExact(valid: Content -> bool, c: Controller, steps: seq<Step>)
    requires Reachable(valid, c) && c.life.disabled && Possible(c, valid, steps)
    ensures
      var blanked := exists i :: 0 <= i < |steps| && Blanks(steps[i]);
      var removed := exists i :: 0 <= i < |steps| && Removes(steps[i]);
      && Run(c, valid, steps).Stepped?
      && Run(c, valid, steps).controller.archive ==
         (if blanked then Some(BLANK) else if removed then None else c.archive)
      && (Run(c, valid, steps).controller.archive.Some? <==> blanked || (c.archive.Some? && !removed))
  {
    ReachableInv(valid, c);
    DisabledRun(c, valid, steps);
  }

  /** Holders that will not write the archive, unless a reset is begun. */
  predicate Idle(holder: Holder) { holder.Free? || (holder.Began? && !holder.operation.Reset?) }

  lemma {:induction false} OthersDoNotBlank(c: Controller, valid: Content -> bool, steps: seq<Step>)
    requires AllInv(c) && c.life.disabled && Idle(c.life.holder) && Possible(c, valid, steps)
    requires forall i | 0 <= i < |steps| :: steps[i] != Holding(Acquire(Reset))
    ensures forall i | 0 <= i < |steps| :: !Blanks(steps[i]) && !Removes(steps[i])
    decreases |steps|
  {
    if steps != [] {
      DisabledStep(c, valid, steps[0]);
      OthersDoNotBlank(Do(c, valid, steps[0]).controller, valid, steps[1..]);
      assert forall i | 1 <= i < |steps| :: steps[i] == steps[1..][i - 1];
    }
  }

  /** At the level of operations: once the controller is disabled and the lifecycle lock free,
      the archive stays as it is in every run in which reset is not called.  That it does not
      otherwise is ResetRevivesArchive. */
  lemma OnlyResetRewrites(valid: Content -> bool, c: Controller, steps: seq<Step>)
    requires Reachable(valid, c) && c.life.disabled && c.life.holder.Free? && Possible(c, valid, steps)
    requires forall i | 0 <= i < |steps| :: steps[i] != Holding(Acquire(Reset))
    ensures Run(c, valid, steps).Stepped? && Run(c, valid, steps).controller.archive == c.archive
  {
    ReachableInv(valid, c);
    OthersDoNotBlank(c, valid, steps);
    DisabledRun(c, valid, steps);
  }

  /** Reset does not look at disabled unless there is a loop to stop: even after a terminate
      it writes a blank archive. */
  lemma ResetRevivesArchive(valid: Content -> bool, c: Controller)
    requires Reachable(valid, c) && c.life.disabled && c.life.holder.Free?
    ensures
      var steps := [Holding(Acquire(Reset)), Holding(Decide(false)), Holding(Clear(true))];
      && Possible(c, valid, steps) && Run(c, valid, steps).Stepped?
      && Run(c, valid, steps).controller.life == c.life
      && Run(c, valid, steps).controller.archive == Some(BLANK)
  {
    ReachableInv(valid, c);
    var steps := [Holding(Acquire(Reset)), Holding(Decide(false)), Holding(Clear(true))];
    var c1 := Goto(c, Began(Reset));
    var c2 := Goto(c1, Clearing(false));
    assert Do(c, valid, steps[0]) == Stepped(c1) && Do(c1, valid, steps[1]) == Stepped(c2);
    assert steps[1..][0] == steps[1] && steps[1..][1..] == [steps[2]] && [steps[2]][1..] == [];
  }

  /** The archive file is what it was at the start, removed, blank, or valid. */
  ghost predicate ArchiveOrigin(start: Option<Content>, valid: Content -> bool, c: Controller) {
    c.archive == start || c.archive.None? || c.archive == Some(BLANK) || valid(c.archive.value)
  }

  lemma {:induction false} ArchiveIsValidated(c: Controller, start: Option<Content>, valid: Content -> bool,
                                              steps: seq<Step>)
    requires ArchiveOrigin(start, valid, c) && Possible(c, valid, steps) && Run(c, valid, steps).Stepped?
    ensures ArchiveOrigin(start, valid, Run(c, valid, steps).controller)
    decreases |steps|
  {
    if steps != [] {
      StepValidates(c, start, valid, steps[0]);
      ArchiveIsValidated(Do(c, valid, steps[0]).controller, start, valid, steps[1..]);
    }
  }

  lemma StepValidates(c: Controller, start: Option<Content>, valid: Content -> bool, step: Step)
    requires ArchiveOrigin(start, valid, c) && Enabled(c, valid, step) && Do(c, valid, step).Stepped?
    ensures ArchiveOrigin(start, valid, Do(c, valid, step).controller)
  {
    match step
    case Holding(h) => HolderValidates(c, start, valid, h);
    case Looping(l, s) => LoopValidates(c, start, valid, l, s);
    case Flushing(_, _) =>
  }

  lemma HolderValidates(c: Controller, start: Option<Content>, valid: Content -> bool, step: HolderStep)
    requires ArchiveOrigin(start, valid, c) && HolderEnabled(c, step)
    ensures ArchiveOrigin(start, valid, HolderDo(c, step))
  {
  }

  lemma LoopValidates(c: Controller, start: Option<Content>, valid: Content -> bool, l: nat, step: LoopStep)
    requires ArchiveOrigin(start, valid, c) && LoopEnabled(c, valid, l, step) && LoopDo(c, valid, l, step).Stepped?
    ensures ArchiveOrigin(start, valid, LoopDo(c, valid, l, step).controller)
  {
  }

  /** The results with which flush returns nil. */
  predicate ReturnsNil(result: FlushResult) { result.Sent? || result.Completed? }

  /** Every nil return of a flush that was to wait: after it began, its request was taken from
      the queue, scans were at most retried, then one whole cycle was completed (a full scan of
      both endpoints, the ancestor saved if it changed, transitions without error), and only
      then was the request answered, once. */
  lemma FlushIsHonest(valid: Content -> bool, c: Controller, r: nat)
    requires Reachable(valid, c) && r in c.flushers && !c.flushers[r].skipWait
    requires c.flushers[r].at.Returned? && ReturnsNil(c.flushers[r].at.result)
    ensures exists j: nat, i: nat :: c.flushers[r].since <= j && Cycle(c.log, r, j, i)
    ensures forall i, j | 0 <= i < j < |c.log| && c.log[i] == Answered(r) :: c.log[j] != Answered(r)
  {
    ReachableInv(valid, c);
    assert FlusherInv(c, r, c.flushers[r].at) && KindInv(c.flushers[r]);
    assert Answered(r) in c.log;
    var i :| 0 <= i < |c.log| && c.log[i] == Answered(r);
    AnswerEndsCycle(c.log, r, i);
    var j: nat :| Cycle(c.log, r, j, i);
  }

  /** How a flush begins: it is refused exactly if the session cannot synchronize, and otherwise
      holds on to the channels of the loop that is running. */
  lemma FlushBeginning(valid: Content -> bool, c: Controller, r: nat, skipWait: bool)
    requires Reachable(valid, c) && FlushEnabled(c, r, FlushBegins(skipWait))
    ensures
      var f := FlushDo(c, r, FlushBegins(skipWait)).flushers[r];
      && f.skipWait == skipWait && f.since == |c.log|
      && (f.at == Returned(FlushResult.Refused) <==> c.life.disabled || c.life.paused || c.signal.current.None?)
      && (f.at != Returned(FlushResult.Refused) ==>
            f.at.Sending? && f.at.loop in c.loops && c.signal.current == Some(f.at.signal))
  {
    ReachableInv(valid, c);
    OneLoop(valid, c);
  }

  /** How a flush goes on: its own request is queued, and it waits for the answer unless it was
      told not to; if it was, it may also leave the request that is queued already. */
  lemma FlushSending(c: Controller, r: nat)
    requires r in c.flushers && c.flushers[r].at.Sending?
    ensures
      FlushEnabled(c, r, FlushSends) ==>
        var c' := FlushDo(c, r, FlushSends);
        var at := c.flushers[r].at;
        && at.loop in c'.queues && c'.queues[at.loop] == r
        && c'.flushers[r].at == (if c.flushers[r].skipWait then Returned(Sent) else Waiting(at.loop, at.signal))
    ensures FlushEnabled(c, r, FlushSkips) ==> c.flushers[r].skipWait && c.flushers[r].at.loop in c.queues
  {
  }

  /** A flush that waits has its request queued, served by a loop or answered, or can see
      that synchronization has failed. */
  lemma FlushIsAttended(valid: Content -> bool, c: Controller, r: nat)
    requires Reachable(valid, c) && r in c.flushers && c.flushers[r].at.Waiting?
    ensures
      || r in c.answered
      || (c.flushers[r].at.loop in c.queues && c.queues[c.flushers[r].at.loop] == r)
      || Held(c.loops, r)
      || c.flushers[r].at.signal in c.signal.closed
  {
    ReachableInv(valid, c);
    assert FlusherInv(c, r, c.flushers[r].at);
  }

  // ----- The lifecycle lock is released -----

  /** How far an operation is from releasing the lock. */
  function Remaining(operation: Operation): nat { if operation.Reset? then 20 else 0 }

  function Distance(c: Controller): nat {
    match c.life.holder
    case Free => 0
    case Connecting => 1
    case Removing => 1
    case Clearing(running) => if running then 15 else 1
    case Stopped(operation) => Remaining(operation) + 3
    case Joining(operation) =>
      Remaining(operation) +
      (if c.life.done.None? || c.life.done.value !in c.loops then 4
       else
         var at := c.loops[c.life.done.value].at;
         if !Synchronizing(at) then 5 else if at.Failing? then 6 else 7)
    case Began(operation) => Remaining(operation) + 8
  }

  /** The next step towards it: the operation's own, or that of the loop it waits for. */
  function NextStep(c: Controller, works: bool): Step {
    match c.life.holder
    case Free => Holding(Acquire(Resume))
    case Began(_) => Holding(Decide(works))
    case Joining(_) =>
      if c.life.done.None? || c.life.done.value !in c.loops then Holding(Join)
      else
        var l := c.life.done.value;
        var at := c.loops[l].at;
        Looping(l, if !Synchronizing(at) then Exit else if at.Failing? then EndSynchronizing else Fail(!works))
    case Stopped(_) => Holding(Settle(works))
    case Clearing(_) => Holding(Clear(works))
    case Removing => Holding(Remove(works, works))
    case Connecting => Holding(Start)
  }

  lemma LoopStepHelps(c: Controller, valid: Content -> bool, works: bool)
    requires LifeInv(c.life, c.loops) && SignalInv(c.signal, c.loops)
    requires c.life.holder.Joining? && c.life.done.Some? && c.life.done.value in c.loops
    ensures Enabled(c, valid, NextStep(c, works))
    ensures
      Do(c, valid, NextStep(c, works)).Stepped? ==>
        Distance(Do(c, valid, NextStep(c, works)).controller) < Distance(c)
  {
    var l := c.life.done.value;
    assert c.loops[l].cancelled;
  }

  lemma HolderStepHelps(c: Controller, works: bool)
    requires LifeInv(c.life, c.loops) && !c.life.holder.Free?
    requires c.life.holder.Joining? ==> c.life.done.None? || c.life.done.value !in c.loops
    ensures NextStep(c, works).Holding? && HolderEnabled(c, NextStep(c, works).holding)
    ensures Distance(HolderDo(c, NextStep(c, works).holding)) < Distance(c)
  {
    match c.life.holder
    case Began(operation) => match operation { case Resume => case Halt(_) => case Reset => }
    case Stopped(operation) => match operation { case Resume => case Halt(_) => case Reset => }
    case Joining(_) =>
    case Clearing(_) =>
    case Removing =>
    case Connecting =>
  }

  lemma StepHelps(c: Controller, valid: Content -> bool, works: bool)
    requires AllInv(c) && !c.life.holder.Free?
    ensures Enabled(c, valid, NextStep(c, works))
    ensures Do(c, valid, NextStep(c, works)).Stepped?
    ensures Distance(Do(c, valid, NextStep(c, works)).controller) < Distance(c)
  {
    if c.life.holder.Joining? && c.life.done.Some? && c.life.done.value in c.loops {
      LoopStepHelps(c, valid, works);
    } else {
      HolderStepHelps(c, works);
    }
    StepKeepsAll(c, valid, NextStep(c, works));
  }

  lemma {:induction false} ReleaseRun(c: Controller, valid: Content -> bool, works: bool) returns (steps: seq<Step>)
    requires AllInv(c)
    ensures Possible(c, valid, steps) && Run(c, valid, steps).Stepped?
    ensures Run(c, valid, steps).controller.life.holder.Free? && |steps| <= Distance(c)
    decreases Distance(c)
  {
    if c.life.holder.Free? {
      steps := [];
    } else {
      var step := NextStep(c, works);
      StepHelps(c, valid, works);
      StepKeepsAll(c, valid, step);
      var rest := ReleaseRun(Do(c, valid, step).controller, valid, works);
      steps := [step] + rest;
      assert steps[1..] == rest;
    }
  }

  /** Whatever state a run has led to, and whether file operations succeed or fail, the holder of
      the lifecycle lock and the loop it waits for can go on by themselves, in at most 28 steps,
      until the lock is free. */
  lemma LockIsReleased(valid: Content -> bool, c: Controller, works: bool) returns (steps: seq<Step>)
    requires Reachable(valid, c)
    ensures Possible(c, valid, steps) && Run(c, valid, steps).Stepped?
    ensures Run(c, valid, steps).controller.life.holder.Free? && |steps| <= 28
  {
    ReachableInv(valid, c);
    steps := ReleaseRun(c, valid, works);
  }

  // ----- A flush is served -----

  /** A call of flush can always go on: by sending its request, by not waiting for a full
      channel if it does not want to, by returning what it was answered, and by giving up. */
  lemma FlushCanGoOn(c: Controller, r: nat)
    requires r in c.flushers && !c.flushers[r].at.Returned?
    ensures FlushEnabled(c, r, FlushGivesUp)
    ensures
      var f := c.flushers[r];
      if f.at.Waiting? then r in c.answered ==> FlushEnabled(c, r, FlushCompletes)
      else if f.at.loop !in c.queues then FlushEnabled(c, r, FlushSends)
      else f.skipWait ==> FlushEnabled(c, r, FlushSkips)
  {
  }

  /** The loop is in the middle of a cycle, or between two, that nothing keeps from completing. */
  predicate InCycle(valid: Content -> bool, at: Position) {
    at.Top? || at.Scanning? || at.Scanned? || (at.Applied? && valid(at.ancestor)) || at.Recorded?
  }

  /** The request of the waiting call waits for the loop, or the loop is serving it. */
  ghost predicate Attending(c: Controller, valid: Content -> bool, r: nat, l: nat) {
    && r in c.flushers && c.flushers[r].at.Waiting?
    && (r in c.answered ||
        (l in c.loops && InCycle(valid, c.loops[l].at)
         && (Serving(c.loops[l].at) == Some(r) || (l in c.queues && c.queues[l] == r))))
  }

  function CycleDistance(at: Position): nat {
    if at.Recorded? then 1 else if at.Applied? then 2 else if at.Scanned? then 3 else if at.Scanning? then 4 else 5
  }

  ghost function ServiceDistance(c: Controller, r: nat, l: nat): nat {
    if r in c.answered || l !in c.loops then 1
    else
      var at := c.loops[l].at;
      if Serving(at) == Some(r) then 1 + CycleDistance(at)
      else if at.Top? && !at.skipPolling then 7
      else 7 + CycleDistance(at)
  }

  ghost function ServiceStep(c: Controller, r: nat, l: nat): Step {
    if r in c.answered || l !in c.loops then Flushing(r, FlushCompletes)
    else
      var at := c.loops[l].at;
      Looping(l,
              if at.Recorded? then Finish(false) else if at.Applied? then Save else if at.Scanned? then NoChange
              else if at.Scanning? then Scan
              else if at.Top? && !at.skipPolling && Serving(at) != Some(r) then Dequeue else Proceed)
  }

  lemma ServiceAdvances(c: Controller, valid: Content -> bool, r: nat, l: nat)
    requires FieldsInv(c.life, c.loops) && ServiceInv(c) && Attending(c, valid, r, l) && r !in c.answered
    ensures Enabled(c, valid, ServiceStep(c, r, l))
    ensures
      Do(c, valid, ServiceStep(c, r, l)).Stepped? ==>
        var c' := Do(c, valid, ServiceStep(c, r, l)).controller;
        Attending(c', valid, r, l) && ServiceDistance(c', r, l) < ServiceDistance(c, r, l)
  {
    assert c.life.flushRequests == Some(l);
    match ServiceStep(c, r, l).looping
    case Finish(_) =>
    case Save =>
    case NoChange =>
    case Scan =>
    case Proceed =>
    case Dequeue =>
  }

  lemma ServiceGoesOn(c: Controller, valid: Content -> bool, r: nat, l: nat)
    requires AllInv(c) && Attending(c, valid, r, l) && r !in c.answered
    ensures Enabled(c, valid, ServiceStep(c, r, l)) && Do(c, valid, ServiceStep(c, r, l)).Stepped?
    ensures
      var c' := Do(c, valid, ServiceStep(c, r, l)).controller;
      Attending(c', valid, r, l) && ServiceDistance(c', r, l) < ServiceDistance(c, r, l)
  {
    ServiceAdvances(c, valid, r, l);
    StepKeepsAll(c, valid, ServiceStep(c, r, l));
  }

  lemma {:induction false} ServiceRun(c: Controller, valid: Content -> bool, r: nat, l: nat) returns (steps: seq<Step>)
    requires AllInv(c) && Attending(c, valid, r, l)
    ensures Possible(c, valid, steps) && Run(c, valid, steps).Stepped?
    ensures
      var c' := Run(c, valid, steps).controller;
      r in c'.flushers && c'.flushers[r].at == Returned(Completed)
    decreases ServiceDistance(c, r, l)
  {
    var step := ServiceStep(c, r, l);
    if r in c.answered {
      steps := [step];
      assert steps[1..] == [];
    } else {
      ServiceGoesOn(c, valid, r, l);
      StepKeepsAll(c, valid, step);
      var rest := ServiceRun(Do(c, valid, step).controller, valid, r, l);
      steps := [step] + rest;
      assert steps[1..] == rest;
    }
  }

  /** In every state that a run has led to, a call of flush whose request waits for a loop that
      goes on, or is being served by it, can still be completed by that loop. */
  lemma FlushCanComplete(valid: Content -> bool, c: Controller, r: nat, l: nat) returns (steps: seq<Step>)
    requires Reachable(valid, c) && Attending(c, valid, r, l)
    ensures Possible(c, valid, steps) && Run(c, valid, steps).Stepped?
    ensures
      var c' := Run(c, valid, steps).controller;
      r in c'.flushers && c'.flushers[r].at == Returned(Completed)
  {
    ReachableInv(valid, c);
    steps := ServiceRun(c, valid, r, l);
  }
}
