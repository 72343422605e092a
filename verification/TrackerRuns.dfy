/** The tracker in use: the tracking loop, polling calls, and writers that change state
    under tracking locks, interleaved arbitrarily. */
module TrackerRuns {
  import opened Tracker

  /** Position of the tracking loop.  It holds the lock from waking up until it waits again,
      so it is only ever seen waiting; a signal reaches it only if it is waiting. */
  datatype Loop = Starting | Parked(signalled: bool) | Exited

  datatype Error = NoError | TrackingTerminated | Canceled

  /** A WaitForChange call and what its caller did with the answer.  `at` is history (see
      Response); `seen` holds the version of each piece of state in the snapshot that was
      taken after the call returned. */
  datatype Call =
    | Waiting(previous: nat)
    | Returned(previous: nat, index: nat, error: Error, at: nat, seen: map<nat, nat>)

  /** A goroutine using the tracking lock of one piece of state.  Unlock releases the lock
      first and notifies afterwards. */
  datatype Writer = Holding(cell: nat, changed: bool) | Notifying(cell: nat)

  datatype System = System(
    shared: Shared,
    loop: Loop,
    calls: map<nat, Call>,
    writers: map<nat, Writer>,
    versions: map<nat, nat>,     // how often each piece of state has been changed
    answered: multiset<nat>      // history: requests to which the loop sent a response
  ) {
    function Version(cell: nat): nat { if cell in versions then versions[cell] else 0 }

    predicate Held(cell: nat) { exists w | w in writers :: writers[w].Holding? && writers[w].cell == cell }
  }

  const INITIAL := System(Shared(1, false, map[], map[], 0), Starting, map[], map[], map[], multiset{})

  datatype Step =
    | LoopRuns
    | TerminateBegins
    | WaitBegins(call: nat, previous: nat)
    | WaitCanceled(call: nat)
    | WaitAnswered(call: nat)
    | Snapshot(call: nat, cell: nat)
    | Lock(writer: nat, cell: nat)
    | Change(writer: nat)
    | Unlock(writer: nat)
    | UnlockWithoutNotify(writer: nat)
    | Notify(writer: nat)

  datatype Outcome = Stepped(system: System) | Blocked

  predicate Enabled(s: System, step: Step) {
    match step
    case LoopRuns => s.loop.Starting? || s.loop == Parked(true)
    case TerminateBegins => true
    case WaitBegins(r, _) => r !in s.calls
    case WaitCanceled(r) => r in s.calls && s.calls[r].Waiting?
    case WaitAnswered(r) => r in s.calls && s.calls[r].Waiting? && r in s.shared.responses
    case Snapshot(r, c) => r in s.calls && s.calls[r].Returned? && s.calls[r].error.NoError? && !s.Held(c)
    case Lock(w, c) => w !in s.writers && !s.Held(c)
    case Change(w) => w in s.writers && s.writers[w].Holding?
    case Unlock(w) => w in s.writers && s.writers[w].Holding?
    case UnlockWithoutNotify(w) => w in s.writers && s.writers[w].Holding? && !s.writers[w].changed
    case Notify(w) => w in s.writers && s.writers[w].Notifying?
  }

  function Signal(loop: Loop): Loop { if loop.Parked? then Parked(true) else loop }

  function Do(s: System, step: Step): Outcome
    requires Enabled(s, step)
  {
    match step
    case LoopRuns =>
      if s.shared.Due() !! s.shared.responses.Keys then
        Stepped(s.(shared := Pass(s.shared),
                   loop := if s.shared.terminated then Exited else Parked(false),
                   answered := s.answered + multiset(s.shared.Due())))
      else Blocked
    case TerminateBegins => Stepped(s.(shared := s.shared.(terminated := true), loop := Signal(s.loop)))
    case WaitBegins(r, previous) => Stepped(Begin(s, r, previous))
    case WaitCanceled(r) =>
      Stepped(s.(shared := Deregistered(s.shared, r),
                 calls := s.calls[r := Returned(s.calls[r].previous, s.shared.index, Canceled,
                                                s.shared.notifications, map[])]))
    case WaitAnswered(r) =>
      var answer := s.shared.responses[r];
      Stepped(s.(shared := Taken(s.shared, r), calls := s.calls[r := Return(s.calls[r].previous, answer)]))
    case Snapshot(r, c) =>
      Stepped(s.(calls := s.calls[r := s.calls[r].(seen := s.calls[r].seen[c := s.Version(c)])]))
    case Lock(w, c) => Stepped(s.(writers := s.writers[w := Holding(c, false)]))
    case Change(w) =>
      var c := s.writers[w].cell;
      Stepped(s.(writers := s.writers[w := Holding(c, true)], versions := s.versions[c := s.Version(c) + 1]))
    case Unlock(w) => Stepped(s.(writers := s.writers[w := Notifying(s.writers[w].cell)]))
    case UnlockWithoutNotify(w) => Stepped(s.(writers := s.writers - {w}))
    case Notify(w) =>
      Stepped(s.(shared := Notified(s.shared),
                 loop := if s.shared.terminated then s.loop else Signal(s.loop),
                 writers := s.writers - {w}))
  }

  function Return(previous: nat, answer: Response): Call {
    Returned(previous, answer.index, if answer.terminated then TrackingTerminated else NoError, answer.at, map[])
  }

  function Begin(s: System, r: nat, previous: nat): System {
    if previous == 0 || s.shared.terminated then
      var answer := Response(s.shared.index, s.shared.terminated, s.shared.notifications);
      s.(calls := s.calls[r := Return(previous, answer)])
    else
      s.(shared := Registered(s.shared, r, previous), loop := Signal(s.loop),
         calls := s.calls[r := Waiting(previous)])
  }

  // ----- Invariant -----

  /** A waiting loop that has not been signalled has nothing to do. */
  ghost predicate LoopInv(s: System) {
    && (s.loop == Parked(false) ==> !s.shared.terminated && s.shared.Due() == {})
    && (s.loop.Exited? ==> s.shared.terminated && s.shared.pollRequests == map[])
  }

  ghost predicate CallInv(shared: Shared, r: nat, call: Call) {
    match call
    case Waiting(previous) =>
      && previous != 0
      && (r in shared.pollRequests <==> r !in shared.responses)
      && (r in shared.pollRequests ==> shared.pollRequests[r] == previous)
      && (r in shared.responses ==> shared.responses[r].terminated || shared.responses[r].index != previous)
      && (r in shared.responses && shared.responses[r].terminated ==> shared.terminated)
    case Returned(previous, index, error, at, _) =>
      && r !in shared.pollRequests
      && at <= shared.notifications && index == IndexAfter(at)
      && (error.NoError? && previous != 0 ==> index != previous)
      && (error.TrackingTerminated? ==> shared.terminated)
  }

  ghost predicate CallsInv(s: System) {
    && s.shared.pollRequests.Keys + s.shared.responses.Keys <= s.calls.Keys
    && forall r | r in s.calls :: CallInv(s.shared, r, s.calls[r])
  }

  /** Each request is answered at most once, and not while it is registered. */
  ghost predicate AnswersInv(s: System) {
    forall r :: s.answered[r] <= (if r in s.calls && r !in s.shared.pollRequests then 1 else 0)
  }

  /** `w` has changed the cell, or may have, and has yet to notify. */
  ghost predicate Owes(writers: map<nat, Writer>, w: nat, cell: nat) {
    w in writers && (writers[w] == Holding(cell, true) || writers[w] == Notifying(cell))
  }

  ghost predicate Owed(writers: map<nat, Writer>, cell: nat) {
    exists w :: Owes(writers, w, cell)
  }

  /** State that differs from a snapshot has been notified of since, or will be. */
  ghost predicate SnapshotInv(s: System, call: Call) {
    call.Returned? ==>
      forall c | c in call.seen && call.seen[c] != s.Version(c) ::
        s.shared.terminated || call.at < s.shared.notifications || Owed(s.writers, c)
  }

  ghost predicate SnapshotsInv(s: System) {
    forall r | r in s.calls :: SnapshotInv(s, s.calls[r])
  }

  ghost predicate Inv(s: System) {
    SharedInv(s.shared) && LoopInv(s) && CallsInv(s) && AnswersInv(s) && SnapshotsInv(s)
  }

  // ----- Preservation -----

  lemma StepKeepsShared(s: System, step: Step)
    requires SharedInv(s.shared) && Enabled(s, step)
    requires step.WaitBegins? ==> step.call !in s.shared.responses
    ensures Do(s, step).Stepped? && SharedInv(Do(s, step).system.shared)
  {
    match step
    case LoopRuns => PassKeepsInv(s.shared);
    case Notify(_) => NotifiedKeepsInv(s.shared);
    case _ =>
  }

  lemma StepKeepsLoop(s: System, step: Step)
    requires LoopInv(s) && Enabled(s, step) && Do(s, step).Stepped?
    ensures LoopInv(Do(s, step).system)
  {
  }

  lemma LoopKeepsCall(s: System, r: nat)
    requires SharedInv(s.shared) && r in s.calls && CallInv(s.shared, r, s.calls[r])
    ensures CallInv(Pass(s.shared), r, s.calls[r])
  {
  }

  lemma OthersKeepCall(s: System, step: Step, r: nat)
    requires SharedInv(s.shared) && Enabled(s, step) && !step.LoopRuns? && Do(s, step).Stepped?
    requires r in s.calls && CallInv(s.shared, r, s.calls[r])
    ensures CallInv(Do(s, step).system.shared, r, Do(s, step).system.calls[r])
  {
  }

  lemma StepKeepsCalls(s: System, step: Step)
    requires SharedInv(s.shared) && CallsInv(s) && Enabled(s, step) && Do(s, step).Stepped?
    ensures CallsInv(Do(s, step).system)
  {
    var s' := Do(s, step).system;
    forall r | r in s.calls
      ensures r in s'.calls && CallInv(s'.shared, r, s'.calls[r])
    {
      if step.LoopRuns? { LoopKeepsCall(s, r); } else { OthersKeepCall(s, step, r); }
    }
  }

  lemma StepKeepsAnswers(s: System, step: Step)
    requires SharedInv(s.shared) && CallsInv(s) && AnswersInv(s) && Enabled(s, step) && Do(s, step).Stepped?
    ensures AnswersInv(Do(s, step).system)
  {
  }

  /** Until a writer notifies, what it owes stays owed. */
  lemma OwedStays(s: System, step: Step, cell: nat)
    requires Enabled(s, step) && !step.Notify? && Do(s, step).Stepped? && Owed(s.writers, cell)
    ensures Owed(Do(s, step).system.writers, cell)
  {
    var w :| Owes(s.writers, w, cell);
    assert Owes(Do(s, step).system.writers, w, cell);
  }

  lemma ChangeIsOwed(s: System, w: nat)
    requires Enabled(s, Change(w))
    ensures Owed(Do(s, Change(w)).system.writers, s.writers[w].cell)
  {
    assert Owes(Do(s, Change(w)).system.writers, w, s.writers[w].cell);
  }

  /** What one snapshot is owed, after a step that did not replace it. */
  lemma StepKeepsSnapshot(s: System, step: Step, call: Call)
    requires SnapshotInv(s, call) && Enabled(s, step) && Do(s, step).Stepped?
    requires call.Returned? ==> call.at <= s.shared.notifications
    ensures SnapshotInv(Do(s, step).system, call)
  {
    if step.Change? {
      ChangeIsOwed(s, step.writer);
    }
    if !step.Notify? {
      forall c | Owed(s.writers, c) ensures Owed(Do(s, step).system.writers, c) {
        OwedStays(s, step, c);
      }
    }
  }

  /** Only new answers and new snapshots change a call. */
  lemma StepChangesCall(s: System, step: Step, r: nat)
    requires Enabled(s, step) && Do(s, step).Stepped? && r in Do(s, step).system.calls
    ensures
      var call := Do(s, step).system.calls[r];
      || (r in s.calls && call == s.calls[r])
      || call.Waiting?
      || call.seen == map[]
      || (&& step.Snapshot? && step.call == r
          && call == s.calls[r].(seen := s.calls[r].seen[step.cell := s.Version(step.cell)]))
  {
  }

  lemma StepKeepsSnapshots(s: System, step: Step)
    requires CallsInv(s) && SnapshotsInv(s) && Enabled(s, step) && Do(s, step).Stepped?
    ensures SnapshotsInv(Do(s, step).system)
  {
    var s' := Do(s, step).system;
    forall r | r in s'.calls ensures SnapshotInv(s', s'.calls[r]) {
      StepChangesCall(s, step, r);
      if r in s.calls && s'.calls[r] == s.calls[r] {
        assert CallInv(s.shared, r, s.calls[r]);
        StepKeepsSnapshot(s, step, s.calls[r]);
      } else if step.Snapshot? && step.call == r {
        assert SnapshotInv(s, s.calls[r]);
      }
    }
  }

  lemma StepKeepsInv(s: System, step: Step)
    requires Inv(s) && Enabled(s, step)
    ensures Do(s, step).Stepped? && Inv(Do(s, step).system)
  {
    StepKeepsShared(s, step);
    StepKeepsLoop(s, step);
    StepKeepsCalls(s, step);
    StepKeepsAnswers(s, step);
    StepKeepsSnapshots(s, step);
  }

  // ----- Runs -----

  ghost predicate Possible(s: System, steps: seq<Step>)
    decreases |steps|
  {
    steps == [] || (Enabled(s, steps[0]) && (Do(s, steps[0]).Stepped? ==> Possible(Do(s, steps[0]).system, steps[1..])))
  }

  ghost function Run(s: System, steps: seq<Step>): Outcome
    requires Possible(s, steps)
    decreases |steps|
  {
    if steps == [] then Stepped(s)
    else
      var o := Do(s, steps[0]);
      if o.Stepped? then Run(o.system, steps[1..]) else Blocked
  }

  lemma {:induction false} RunKeepsInv(s: System, steps: seq<Step>)
    requires Inv(s) && Possible(s, steps)
    ensures Run(s, steps).Stepped? && Inv(Run(s, steps).system)
    decreases |steps|
  {
    if steps != [] {
      StepKeepsInv(s, steps[0]);
      RunKeepsInv(Do(s, steps[0]).system, steps[1..]);
    }
  }

  ghost predicate Reachable(s: System) {
    exists steps: seq<Step> :: Possible(INITIAL, steps) && Run(INITIAL, steps) == Stepped(s)
  }

  lemma ReachableInv(s: System)
    requires Reachable(s)
    ensures Inv(s)
  {
    var steps: seq<Step> :| Possible(INITIAL, steps) && Run(INITIAL, steps) == Stepped(s);
    RunKeepsInv(INITIAL, steps);
  }

  /** The loop never blocks on a response while it holds the lock, and no request gets more
      than one response. */
  lemma OneResponse(steps: seq<Step>, r: nat)
    requires Possible(INITIAL, steps)
    ensures Run(INITIAL, steps).Stepped? && Run(INITIAL, steps).system.answered[r] <= 1
  {
    RunKeepsInv(INITIAL, steps);
  }

  /** Whenever the loop waits with no signal on its way, tracking goes on and every
      registered request has seen the current index. */
  lemma NoLostWakeup(s: System, r: nat)
    requires Reachable(s) && s.loop == Parked(false)
    ensures !s.shared.terminated
    ensures r in s.shared.pollRequests ==> s.shared.pollRequests[r] == s.shared.index
  {
    ReachableInv(s);
    assert r in s.shared.pollRequests && s.shared.pollRequests[r] != s.shared.index ==> r in s.shared.Due();
  }

  /** Once the loop has exited, every call that still waits has its answer. */
  lemma TerminationReachesAll(s: System, r: nat)
    requires Reachable(s) && s.loop.Exited? && r in s.calls && s.calls[r].Waiting?
    ensures s.shared.terminated && r in s.shared.responses
  {
    ReachableInv(s);
  }

  /** A call returns without error exactly with an index other than the one it was given,
      never 0; it reports termination only once tracking is terminated. */
  lemma ReturnedIndexIsNew(s: System, r: nat)
    requires Reachable(s) && r in s.calls && s.calls[r].Returned?
    ensures 1 <= s.calls[r].index <= MAX_INDEX
    ensures s.calls[r].error.NoError? && s.calls[r].previous != 0 ==> s.calls[r].index != s.calls[r].previous
    ensures s.calls[r].error.TrackingTerminated? ==> s.shared.terminated
  {
    ReachableInv(s);
  }

  /** In every reachable state before termination: if something in a snapshot has changed
      since, then the index is no longer the one the snapshot was taken with, or a writer has
      yet to notify, or the notifications since make up whole overflow periods of the index. */
  lemma NoMissedUpdate(s: System, earlier: nat, cell: nat)
    requires Reachable(s) && !s.shared.terminated
    requires earlier in s.calls && s.calls[earlier].Returned? && cell in s.calls[earlier].seen
    requires s.calls[earlier].seen[cell] != s.Version(cell)
    ensures
      || s.shared.index != s.calls[earlier].index
      || Owed(s.writers, cell)
      || (s.calls[earlier].at < s.shared.notifications
          && (s.shared.notifications - s.calls[earlier].at) % MAX_INDEX == 0)
  {
    ReachableInv(s);
    assert CallInv(s.shared, earlier, s.calls[earlier]);
    assert SnapshotInv(s, s.calls[earlier]);
    if s.shared.index == s.calls[earlier].index {
      SameIndex(s.calls[earlier].at, s.shared.notifications);
    }
  }

  /** Hence a call that waits on that index sleeps through the change only in the last two
      cases. */
  lemma NoMissedWakeup(s: System, earlier: nat, r: nat, cell: nat)
    requires Reachable(s)
    requires earlier in s.calls && s.calls[earlier].Returned? && cell in s.calls[earlier].seen
    requires s.calls[earlier].seen[cell] != s.Version(cell)
    requires r in s.calls && s.calls[r] == Waiting(s.calls[earlier].index)
    requires s.loop == Parked(false) && r !in s.shared.responses
    ensures
      || Owed(s.writers, cell)
      || (s.calls[earlier].at < s.shared.notifications
          && (s.shared.notifications - s.calls[earlier].at) % MAX_INDEX == 0)
  {
    ReachableInv(s);
    NoLostWakeup(s, r);
    assert CallInv(s.shared, r, s.calls[r]);
    NoMissedUpdate(s, earlier, cell);
  }

  /** Nothing moves the index any more. */
  lemma StepIsFrozen(s: System, step: Step)
    requires s.shared.terminated && Enabled(s, step) && Do(s, step).Stepped?
    ensures
      var shared' := Do(s, step).system.shared;
      shared'.terminated && shared'.index == s.shared.index && shared'.notifications == s.shared.notifications
  {
    match step
    case LoopRuns =>
    case TerminateBegins =>
    case WaitBegins(_, _) =>
    case WaitCanceled(_) =>
    case WaitAnswered(_) =>
    case Snapshot(_, _) =>
    case Lock(_, _) =>
    case Change(_) =>
    case Unlock(_) =>
    case UnlockWithoutNotify(_) =>
    case Notify(_) =>
  }

  /** Termination is final: whatever happens afterwards, the index stays as it is, and a call
      that begins then returns at once with that index and reports termination. */
  lemma {:induction false} TerminationIsFinal(s: System, steps: seq<Step>, r: nat, previous: nat)
    requires Inv(s) && s.shared.terminated && Possible(s, steps)
    ensures Run(s, steps).Stepped?
    ensures
      var s' := Run(s, steps).system;
      && s'.shared.terminated && s'.shared.index == s.shared.index
      && Begin(s', r, previous).shared == s'.shared
      && r in Begin(s', r, previous).calls
      && var call := Begin(s', r, previous).calls[r];
         call.Returned? && call.index == s.shared.index && call.error.TrackingTerminated?
    decreases |steps|
  {
    RunKeepsInv(s, steps);
    if steps != [] {
      StepKeepsInv(s, steps[0]);
      StepIsFrozen(s, steps[0]);
      TerminationIsFinal(Do(s, steps[0]).system, steps[1..], r, previous);
    }
  }

  // ----- Versions and notifications count what happened -----

  predicate Changes(s: System, step: Step, cell: nat) {
    step.Change? && step.writer in s.writers && s.writers[step.writer].cell == cell
  }

  /** How often a run changes a piece of state. */
  ghost function ChangesIn(s: System, steps: seq<Step>, cell: nat): nat
    requires Possible(s, steps) && Run(s, steps).Stepped?
    decreases |steps|
  {
    if steps == [] then 0
    else (if Changes(s, steps[0], cell) then 1 else 0) + ChangesIn(Do(s, steps[0]).system, steps[1..], cell)
  }

  /** How often it notifies, up to termination. */
  ghost function NotificationsIn(s: System, steps: seq<Step>): nat
    requires Possible(s, steps) && Run(s, steps).Stepped?
    decreases |steps|
  {
    if steps == [] then 0
    else
      (if steps[0].Notify? && !s.shared.terminated then 1 else 0)
      + NotificationsIn(Do(s, steps[0]).system, steps[1..])
  }

  lemma StepCounts(s: System, step: Step, cell: nat)
    requires Enabled(s, step) && Do(s, step).Stepped?
    ensures
      var s' := Do(s, step).system;
      && s'.Version(cell) == s.Version(cell) + (if Changes(s, step, cell) then 1 else 0)
      && s'.shared.notifications ==
         s.shared.notifications + (if step.Notify? && !s.shared.terminated then 1 else 0)
  {
    match step
    case LoopRuns =>
    case TerminateBegins =>
    case WaitBegins(_, _) =>
    case WaitCanceled(_) =>
    case WaitAnswered(_) =>
    case Snapshot(_, _) =>
    case Lock(_, _) =>
    case Change(_) =>
    case Unlock(_) =>
    case UnlockWithoutNotify(_) =>
    case Notify(_) =>
  }

  lemma {:induction false} RunCounts(s: System, steps: seq<Step>, cell: nat)
    requires Possible(s, steps) && Run(s, steps).Stepped?
    ensures
      var s' := Run(s, steps).system;
      && s'.Version(cell) == s.Version(cell) + ChangesIn(s, steps, cell)
      && s'.shared.notifications == s.shared.notifications + NotificationsIn(s, steps)
    decreases |steps|
  {
    if steps != [] {
      StepCounts(s, steps[0], cell);
      RunCounts(Do(s, steps[0]).system, steps[1..], cell);
    }
  }

  /** In every run, versions count the changes made, and the index is where the notifications
      made before termination have brought it from 1. */
  lemma IndexCountsNotifications(steps: seq<Step>, cell: nat)
    requires Possible(INITIAL, steps)
    ensures Run(INITIAL, steps).Stepped?
    ensures
      var s := Run(INITIAL, steps).system;
      && s.Version(cell) == ChangesIn(INITIAL, steps, cell)
      && s.shared.index == IndexAfter(NotificationsIn(INITIAL, steps))
  {
    RunKeepsInv(INITIAL, steps);
    RunCounts(INITIAL, steps, cell);
  }

  // ----- Answers arrive -----

  /** A call that waits on an index which is no longer current, or on a tracker that has been
      terminated, has its answer already, or the loop is about to run and then it has. */
  lemma AnswerIsNear(s: System, r: nat)
    requires Reachable(s) && r in s.calls && s.calls[r].Waiting?
    requires s.calls[r].previous != s.shared.index || s.shared.terminated
    ensures
      if r in s.shared.responses then Enabled(s, WaitAnswered(r))
      else
        && Enabled(s, LoopRuns) && Do(s, LoopRuns).Stepped?
        && Enabled(Do(s, LoopRuns).system, WaitAnswered(r))
  {
    ReachableInv(s);
    assert CallInv(s.shared, r, s.calls[r]);
    if r !in s.shared.responses {
      assert r in s.shared.Due();
      StepKeepsInv(s, LoopRuns);
    }
  }
}
