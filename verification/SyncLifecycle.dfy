/** What every step of a synchronization controller keeps: one loop at a time, in agreement
    with the lifecycle fields, the synchronizing channel and the archive on disk. */
module SyncLifecycle {
  import opened Wrappers
  import opened SyncController

  // ----- Invariants -----

  /** The fields describe the one loop that may be alive. */
  ghost predicate FieldsInv(life: Life, loops: map<nat, Loop>) {
    && life.cancel == life.done == life.flushRequests
    && (forall l | l in loops :: life.done == Some(l) && l !in life.doneClosed)
    && (forall l | l in life.doneClosed :: l < life.nextLoop)
    && (life.done.Some? ==> life.done.value < life.nextLoop)
    && (life.done.Some? && !life.holder.Joining? ==> life.done.value in loops)
    && (life.done.Some? && life.done.value !in loops ==> life.done.value in life.doneClosed)
  }

  /** Only the holder that waits for it has cancelled a loop. */
  ghost predicate CancelInv(life: Life, loops: map<nat, Loop>) {
    forall l | l in loops :: loops[l].cancelled <==> life.holder.Joining?
  }

  ghost predicate HolderInv(life: Life) {
    match life.holder
    case Free => life.disabled || (life.paused <==> life.cancel.None?)
    case Began(_) => life.disabled || (life.paused <==> life.cancel.None?)
    case Joining(_) => !life.disabled && life.cancel.Some?
    case Stopped(_) => !life.disabled && life.cancel.None?
    case Clearing(running) =>
      life.cancel.None? && (running ==> !life.disabled) && (!life.disabled ==> life.paused)
    case Connecting => !life.disabled && life.cancel.None? && !life.paused
    case Removing => life.disabled
  }

  ghost predicate LifeInv(life: Life, loops: map<nat, Loop>) {
    && FieldsInv(life, loops)
    && CancelInv(life, loops)
    && HolderInv(life)
    && (life.disabled ==> life.cancel.None?)
  }

  /** The channel exists exactly while a loop is synchronizing; all others were closed. */
  ghost predicate SignalInv(signal: Signal, loops: map<nat, Loop>) {
    && (forall l | l in loops :: Synchronizing(loops[l].at) <==> signal.current.Some?)
    && (signal.current.Some? ==>
          loops.Keys != {} && signal.current.value < signal.next && signal.current.value !in signal.closed)
    && (forall k | k in signal.closed :: k < signal.next)
    && (forall k: nat | k < signal.next :: k in signal.closed || signal.current == Some(k))
  }

  /** What a loop believes to be on disk. */
  ghost predicate Agrees(at: Position, archive: Option<Content>) {
    match at
    case Top(a, _, _) => archive == Some(a)
    case Scanning(a, _) => archive == Some(a)
    case Scanned(a, _) => archive == Some(a)
    case Applied(base, _, _) => archive == Some(base)
    case Recorded(a, _) => archive == Some(a)
    case _ => true
  }

  ghost predicate ArchiveInv(c: Controller) {
    forall l | l in c.loops :: Agrees(c.loops[l].at, c.archive)
  }

  ghost predicate Inv(c: Controller) {
    LifeInv(c.life, c.loops) && SignalInv(c.signal, c.loops) && ArchiveInv(c)
  }

  // ----- Preservation -----

  lemma DecideKeepsLife(c: Controller, connected: bool)
    requires LifeInv(c.life, c.loops) && c.life.holder.Began?
    ensures LifeInv(DecideStep(c, connected).life, DecideStep(c, connected).loops)
  {
    if c.life.cancel.Some? && !c.life.disabled { CancelKeepsLife(c, c.life.holder.operation); }
  }

  lemma CancelKeepsLife(c: Controller, operation: Operation)
    requires LifeInv(c.life, c.loops) && !c.life.holder.Joining? && c.life.cancel.Some? && !c.life.disabled
    ensures LifeInv(CancelAndJoin(c, operation).life, CancelAndJoin(c, operation).loops)
  {
  }

  lemma StartKeepsLife(c: Controller)
    requires LifeInv(c.life, c.loops) && HolderEnabled(c, Start)
    ensures c.loops == map[]
    ensures LifeInv(HolderDo(c, Start).life, HolderDo(c, Start).loops)
  {
  }

  lemma HolderKeepsLife(c: Controller, step: HolderStep)
    requires LifeInv(c.life, c.loops) && HolderEnabled(c, step)
    ensures LifeInv(HolderDo(c, step).life, HolderDo(c, step).loops)
  {
    match step
    case Decide(connected) => DecideKeepsLife(c, connected);
    case Start => StartKeepsLife(c);
    case _ =>
  }

  lemma DecideKeepsPositions(c: Controller, connected: bool)
    requires c.life.holder.Began?
    ensures DecideStep(c, connected).loops.Keys == c.loops.Keys && DecideStep(c, connected).signal == c.signal
    ensures forall l | l in c.loops :: DecideStep(c, connected).loops[l].at == c.loops[l].at
  {
  }

  /** Short of starting a loop, the holder leaves loops where they are. */
  lemma HolderKeepsPositions(c: Controller, step: HolderStep)
    requires HolderEnabled(c, step) && !step.Start?
    ensures HolderDo(c, step).loops.Keys == c.loops.Keys && HolderDo(c, step).signal == c.signal
    ensures forall l | l in c.loops :: HolderDo(c, step).loops[l].at == c.loops[l].at
  {
    if step.Decide? { DecideKeepsPositions(c, step.connected); }
  }

  lemma HolderKeepsSignal(c: Controller, step: HolderStep)
    requires Inv(c) && HolderEnabled(c, step)
    ensures SignalInv(HolderDo(c, step).signal, HolderDo(c, step).loops)
  {
    if step.Start? { StartKeepsLife(c); } else { HolderKeepsPositions(c, step); }
  }

  /** The holder touches the archive only while no loop is alive. */
  lemma HolderKeepsArchive(c: Controller, step: HolderStep)
    requires Inv(c) && HolderEnabled(c, step)
    ensures ArchiveInv(HolderDo(c, step))
    ensures HolderDo(c, step).archive != c.archive ==> c.loops == map[]
  {
    if step.Start? { StartKeepsLife(c); } else { HolderKeepsPositions(c, step); }
  }

  lemma LoopIsCurrent(c: Controller, l: nat)
    requires LifeInv(c.life, c.loops) && l in c.loops
    ensures c.life.done == Some(l) && c.loops.Keys == {l}
  {
  }

  lemma LoopKeepsLife(c: Controller, valid: Content -> bool, l: nat, step: LoopStep)
    requires LifeInv(c.life, c.loops) && LoopEnabled(c, valid, l, step) && LoopDo(c, valid, l, step).Stepped?
    ensures LifeInv(LoopDo(c, valid, l, step).controller.life, LoopDo(c, valid, l, step).controller.loops)
  {
  }

  /** Only entering and leaving synchronize touches the channel. */
  lemma LoopLeavesSignal(c: Controller, valid: Content -> bool, l: nat, step: LoopStep)
    requires LoopEnabled(c, valid, l, step) && LoopDo(c, valid, l, step).Stepped?
    requires !step.Connect? && !step.EndSynchronizing? && !step.Exit?
    ensures
      var c' := LoopDo(c, valid, l, step).controller;
      && c'.signal == c.signal && c'.loops.Keys == c.loops.Keys
      && (forall l' | l' in c.loops :: Synchronizing(c'.loops[l'].at) <==> Synchronizing(c.loops[l'].at))
  {
  }

  lemma LoopKeepsSignal(c: Controller, valid: Content -> bool, l: nat, step: LoopStep)
    requires Inv(c) && LoopEnabled(c, valid, l, step)
    ensures !LoopDo(c, valid, l, step).Panicked?
    ensures LoopDo(c, valid, l, step).Stepped? ==>
      SignalInv(LoopDo(c, valid, l, step).controller.signal, LoopDo(c, valid, l, step).controller.loops)
  {
    LoopIsCurrent(c, l);
    var o := LoopDo(c, valid, l, step);
    if step.Connect? || step.EndSynchronizing? {
      assert o.Stepped? ==> l in o.controller.loops;
    } else if !step.Exit? && o.Stepped? {
      LoopLeavesSignal(c, valid, l, step);
    }
  }

  lemma LoopKeepsArchive(c: Controller, valid: Content -> bool, l: nat, step: LoopStep)
    requires Inv(c) && LoopEnabled(c, valid, l, step) && LoopDo(c, valid, l, step).Stepped?
    ensures ArchiveInv(LoopDo(c, valid, l, step).controller)
  {
    LoopIsCurrent(c, l);
  }

  /** No step closes a nil or closed channel, and every step keeps the invariants. */
  lemma StepKeepsInv(c: Controller, valid: Content -> bool, step: Step)
    requires Inv(c) && Enabled(c, valid, step)
    ensures !Do(c, valid, step).Panicked?
    ensures Do(c, valid, step).Stepped? ==> Inv(Do(c, valid, step).controller)
  {
    match step
    case Holding(h) =>
      HolderKeepsLife(c, h); HolderKeepsSignal(c, h); HolderKeepsArchive(c, h);
    case Looping(l, s) =>
      LoopKeepsSignal(c, valid, l, s);
      if LoopDo(c, valid, l, s).Stepped? {
        LoopKeepsLife(c, valid, l, s); LoopKeepsArchive(c, valid, l, s);
      }
    case Flushing(r, f) =>
  }
}
