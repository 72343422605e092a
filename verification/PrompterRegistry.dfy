/** The global registry of prompters.  Each registration has a holder, a one-slot channel
    through which callers and the unregistering goroutine pass the prompter. */
module PrompterRegistry {
  import opened Wrappers

  /** Who has the prompter. */
  datatype Owner = Nobody | Caller(call: nat) | Reclaimer(unregistration: nat)

  datatype Holder = Holder(
    slot: Option<nat>,
    closed: bool,
    // History: what was registered, who received the prompter and has not sent it back,
    // and who removed the holder from the registry.
    identifier: string,
    prompter: nat,
    owner: Owner,
    retired: Option<nat>
  )

  /** A call of Message or Prompt. */
  datatype Call =
    | Waiting(holder: nat)
    | Using(holder: nat, prompter: nat)
    | Returned(used: bool)

  /** A call of UnregisterPrompter, which has removed the holder from the registry. */
  datatype Unregistration =
    | Reclaiming(holder: nat)
    | Closing(holder: nat)
    | Done(holder: nat)

  datatype Registry = Registry(
    registered: map<string, nat>,
    holders: seq<Holder>,
    calls: map<nat, Call>,
    unregistrations: map<nat, Unregistration>
  )

  const INITIAL := Registry(map[], [], map[], map[])

  datatype Step =
    | Register(identifier: string, prompter: nat)
    | UnregisterBegins(unregistration: nat, identifier: string)
    | UnregisterReclaims(unregistration: nat)
    | UnregisterCloses(unregistration: nat)
    | CallBegins(call: nat, identifier: string)
    | CallAcquires(call: nat)
    | CallReturns(call: nat)

  datatype Outcome =
    | Stepped(registry: Registry)
    | NotRegistered                // UnregisterPrompter's own panic
    | SentOnClosed
    | ClosedTwice
    | Blocked

  predicate Enabled(s: Registry, step: Step) {
    match step
    case Register(_, _) => true
    case UnregisterBegins(u, _) => u !in s.unregistrations
    case UnregisterReclaims(u) =>
      u in s.unregistrations && s.unregistrations[u].Reclaiming? && Receivable(s, s.unregistrations[u].holder)
    case UnregisterCloses(u) =>
      u in s.unregistrations && s.unregistrations[u].Closing? && s.unregistrations[u].holder < |s.holders|
    case CallBegins(c, _) => c !in s.calls
    case CallAcquires(c) => c in s.calls && s.calls[c].Waiting? && Receivable(s, s.calls[c].holder)
    case CallReturns(c) => c in s.calls && s.calls[c].Using? && s.calls[c].holder < |s.holders|
  }

  /** A receive from the holder does not block. */
  predicate Receivable(s: Registry, h: nat) {
    h < |s.holders| && (s.holders[h].slot.Some? || s.holders[h].closed)
  }

  function Do(s: Registry, step: Step): Outcome
    requires Enabled(s, step)
  {
    match step
    case Register(identifier, prompter) =>
      if identifier == "" || identifier in s.registered then Stepped(s)
      else
        Stepped(s.(registered := s.registered[identifier := |s.holders|],
                   holders := s.holders + [Holder(Some(prompter), false, identifier, prompter, Nobody, None)]))
    case UnregisterBegins(u, identifier) =>
      if identifier !in s.registered || s.registered[identifier] >= |s.holders| then NotRegistered
      else
        var h := s.registered[identifier];
        Stepped(s.(registered := s.registered - {identifier},
                   holders := s.holders[h := s.holders[h].(retired := Some(u))],
                   unregistrations := s.unregistrations[u := Reclaiming(h)]))
    case UnregisterReclaims(u) =>
      var h := s.unregistrations[u].holder;
      Stepped(s.(holders := s.holders[h := s.holders[h].(slot := None, owner := Reclaimer(u))],
                 unregistrations := s.unregistrations[u := Closing(h)]))
    case UnregisterCloses(u) =>
      var h := s.unregistrations[u].holder;
      if s.holders[h].closed then ClosedTwice
      else
        Stepped(s.(holders := s.holders[h := s.holders[h].(closed := true)],
                   unregistrations := s.unregistrations[u := Done(h)]))
    case CallBegins(c, identifier) =>
      // Message with an empty identifier does nothing; nothing is registered under it.
      var call := if identifier in s.registered then Waiting(s.registered[identifier]) else Returned(false);
      Stepped(s.(calls := s.calls[c := call]))
    case CallAcquires(c) =>
      var h := s.calls[c].holder;
      var slot := s.holders[h].slot;
      if slot.None? then Stepped(s.(calls := s.calls[c := Returned(false)]))
      else
        Stepped(s.(holders := s.holders[h := s.holders[h].(slot := None, owner := Caller(c))],
                   calls := s.calls[c := Using(h, slot.value)]))
    case CallReturns(c) =>
      var h := s.calls[c].holder;
      if s.holders[h].closed then SentOnClosed
      else if s.holders[h].slot.Some? then Blocked
      else
        Stepped(s.(holders := s.holders[h := s.holders[h].(slot := Some(s.calls[c].prompter), owner := Nobody)],
                   calls := s.calls[c := Returned(true)]))
  }

  // ----- Invariant -----

  /** The prompter is in the slot exactly while nobody has it; a closed holder's prompter
      stays with the goroutine that unregistered it. */
  predicate HolderInv(holder: Holder) {
    && (holder.slot == if holder.owner.Nobody? then Some(holder.prompter) else None)
    && (holder.closed ==> holder.owner.Reclaimer?)
    && (holder.owner.Reclaimer? ==> holder.retired == Some(holder.owner.unregistration))
  }

  predicate CallInv(holders: seq<Holder>, c: nat, call: Call) {
    match call
    case Waiting(h) => h < |holders|
    case Using(h, prompter) => h < |holders| && holders[h].owner == Caller(c) && holders[h].prompter == prompter
    case Returned(_) => true
  }

  predicate UnregistrationInv(holders: seq<Holder>, u: nat, unregistration: Unregistration) {
    var h := unregistration.holder;
    && h < |holders| && holders[h].retired == Some(u)
    && (unregistration.Reclaiming? <==> !holders[h].owner.Reclaimer?)
    && (unregistration.Done? <==> holders[h].closed)
  }

  predicate HoldersInv(s: Registry) {
    forall h | 0 <= h < |s.holders| :: HolderInv(s.holders[h])
  }

  predicate RegisteredInv(s: Registry) {
    && "" !in s.registered
    && forall i | i in s.registered ::
         && s.registered[i] < |s.holders|
         && s.holders[s.registered[i]].identifier == i && s.holders[s.registered[i]].retired.None?
  }

  predicate CallsInv(s: Registry) {
    forall c | c in s.calls :: CallInv(s.holders, c, s.calls[c])
  }

  predicate UnregistrationsInv(s: Registry) {
    forall u | u in s.unregistrations :: UnregistrationInv(s.holders, u, s.unregistrations[u])
  }

  predicate Inv(s: Registry) {
    HoldersInv(s) && RegisteredInv(s) && CallsInv(s) && UnregistrationsInv(s)
  }

  /** Short of unregistering what is not registered, no step panics or blocks. */
  lemma StepSucceeds(s: Registry, step: Step)
    requires Inv(s) && Enabled(s, step)
    ensures Do(s, step).Stepped? || Do(s, step).NotRegistered?
    ensures Do(s, step).NotRegistered? <==> step.UnregisterBegins? && step.identifier !in s.registered
  {
    match step
    case CallReturns(c) => assert CallInv(s.holders, c, s.calls[c]);
    case UnregisterCloses(u) => assert UnregistrationInv(s.holders, u, s.unregistrations[u]);
    case _ =>
  }

  lemma StepKeepsHolders(s: Registry, step: Step)
    requires Inv(s) && Enabled(s, step) && Do(s, step).Stepped?
    ensures HoldersInv(Do(s, step).registry)
  {
  }

  lemma StepKeepsRegistered(s: Registry, step: Step)
    requires RegisteredInv(s) && Enabled(s, step) && Do(s, step).Stepped?
    ensures RegisteredInv(Do(s, step).registry)
  {
  }

  lemma StepKeepsCalls(s: Registry, step: Step)
    requires Inv(s) && Enabled(s, step) && Do(s, step).Stepped?
    ensures CallsInv(Do(s, step).registry)
  {
  }

  lemma StepKeepsUnregistrations(s: Registry, step: Step)
    requires Inv(s) && Enabled(s, step) && Do(s, step).Stepped?
    ensures UnregistrationsInv(Do(s, step).registry)
  {
  }

  lemma StepKeepsInv(s: Registry, step: Step)
    requires Inv(s) && Enabled(s, step) && Do(s, step).Stepped?
    ensures Inv(Do(s, step).registry)
  {
    StepKeepsHolders(s, step);
    StepKeepsRegistered(s, step);
    StepKeepsCalls(s, step);
    StepKeepsUnregistrations(s, step);
  }

  // ----- Runs -----

  ghost predicate Possible(s: Registry, steps: seq<Step>)
    decreases |steps|
  {
    steps == [] ||
    (Enabled(s, steps[0]) && (Do(s, steps[0]).Stepped? ==> Possible(Do(s, steps[0]).registry, steps[1..])))
  }

  ghost function Run(s: Registry, steps: seq<Step>): Outcome
    requires Possible(s, steps)
    decreases |steps|
  {
    if steps == [] then Stepped(s)
    else
      var o := Do(s, steps[0]);
      if o.Stepped? then Run(o.registry, steps[1..]) else o
  }

  lemma {:induction false} RunKeepsInv(s: Registry, steps: seq<Step>)
    requires Inv(s) && Possible(s, steps)
    ensures Run(s, steps).Stepped? || Run(s, steps).NotRegistered?
    ensures Run(s, steps).Stepped? ==> Inv(Run(s, steps).registry)
    decreases |steps|
  {
    if steps != [] {
      StepSucceeds(s, steps[0]);
      if Do(s, steps[0]).Stepped? {
        StepKeepsInv(s, steps[0]);
        RunKeepsInv(Do(s, steps[0]).registry, steps[1..]);
      }
    }
  }

  /** In every run, with any number of callers, registrations and unregistrations: no send on
      a closed holder, no double close, no blocked send; at most one call at a time uses the
      prompter of a registration, and it uses that prompter. */
  lemma PrompterIsExclusive(steps: seq<Step>)
    requires Possible(INITIAL, steps)
    ensures Run(INITIAL, steps).Stepped? || Run(INITIAL, steps).NotRegistered?
    ensures
      Run(INITIAL, steps).Stepped? ==>
        var s := Run(INITIAL, steps).registry;
        forall c, c' | c in s.calls && c' in s.calls && s.calls[c].Using? && s.calls[c'].Using?
                       && s.calls[c].holder == s.calls[c'].holder ::
          && c == c'
          && s.calls[c].holder < |s.holders|
          && s.calls[c].prompter == s.holders[s.calls[c].holder].prompter
  {
    RunKeepsInv(INITIAL, steps);
  }

  ghost predicate Quiet(s: Registry, h: nat) {
    && h < |s.holders| && s.holders[h].owner.Reclaimer? && s.holders[h].closed
    && forall c | c in s.calls && s.calls[c].Using? :: s.calls[c].holder != h
  }

  /** Once UnregisterPrompter has returned, the prompter is not in use and never will be,
      through this registration, whatever happens afterwards. */
  lemma {:induction false} UnregisteredIsQuiet(s: Registry, steps: seq<Step>, u: nat, h: nat)
    requires Inv(s) && Possible(s, steps) && Run(s, steps).Stepped?
    requires u in s.unregistrations && s.unregistrations[u] == Done(h)
    ensures Quiet(s, h) && Quiet(Run(s, steps).registry, h)
    decreases |steps|
  {
    assert UnregistrationInv(s.holders, u, s.unregistrations[u]);
    forall c | c in s.calls && s.calls[c].Using? ensures s.calls[c].holder != h {
      assert CallInv(s.holders, c, s.calls[c]);
    }
    if steps != [] {
      StepSucceeds(s, steps[0]);
      StepKeepsInv(s, steps[0]);
      UnregisteredIsQuiet(Do(s, steps[0]).registry, steps[1..], u, h);
    }
  }

  // ----- Registrations and calls -----

  /** A registration stays as it is until it is unregistered: another one under the same
      identifier changes nothing. */
  lemma {:induction false} RegistrationStays(s: Registry, steps: seq<Step>, identifier: string)
    requires Inv(s) && Possible(s, steps) && Run(s, steps).Stepped? && identifier in s.registered
    requires forall i | 0 <= i < |steps| :: !(steps[i].UnregisterBegins? && steps[i].identifier == identifier)
    ensures
      var s', h := Run(s, steps).registry, s.registered[identifier];
      && identifier in s'.registered && s'.registered[identifier] == h
      && h < |s.holders| && h < |s'.holders| && s'.holders[h].prompter == s.holders[h].prompter
    decreases |steps|
  {
    if steps != [] {
      StepSucceeds(s, steps[0]);
      StepKeepsInv(s, steps[0]);
      StepKeepsRegistration(s, steps[0], identifier);
      RegistrationStays(Do(s, steps[0]).registry, steps[1..], identifier);
    }
  }

  lemma StepKeepsRegistration(s: Registry, step: Step, identifier: string)
    requires Inv(s) && Enabled(s, step) && Do(s, step).Stepped? && identifier in s.registered
    requires !(step.UnregisterBegins? && step.identifier == identifier)
    ensures
      var s', h := Do(s, step).registry, s.registered[identifier];
      && identifier in s'.registered && s'.registered[identifier] == h
      && h < |s.holders| && h < |s'.holders| && s'.holders[h].prompter == s.holders[h].prompter
  {
    match step
    case Register(_, _) =>
    case UnregisterBegins(_, _) =>
    case UnregisterReclaims(_) =>
    case UnregisterCloses(_) =>
    case CallBegins(_, _) =>
    case CallAcquires(_) =>
    case CallReturns(_) =>
  }

  /** An identifier that is not empty and not in use is then registered, for that prompter,
      and the prompter is free. */
  lemma RegisterRegisters(s: Registry, identifier: string, prompter: nat)
    requires Inv(s) && identifier != "" && identifier !in s.registered
    ensures
      var o := Do(s, Register(identifier, prompter));
      && o.Stepped? && identifier in o.registry.registered
      && var h := o.registry.registered[identifier];
         && h < |o.registry.holders| && o.registry.holders[h].prompter == prompter
         && Receivable(o.registry, h) && (forall c | c in s.calls && !s.calls[c].Returned? :: s.calls[c].holder != h)
  {
    forall c | c in s.calls && !s.calls[c].Returned? ensures s.calls[c].holder < |s.holders| {
      assert CallInv(s.holders, c, s.calls[c]);
    }
  }

  /** A call waits for the prompter registered under its identifier, and returns without having
      used one only if there was none or it has been unregistered meanwhile. */
  lemma CallFindsPrompter(s: Registry, step: Step)
    requires Inv(s) && Enabled(s, step) && (step.CallBegins? || step.CallAcquires? || step.CallReturns?)
    ensures Do(s, step).Stepped? && step.call in Do(s, step).registry.calls
    ensures
      var call := Do(s, step).registry.calls[step.call];
      match step
      case CallBegins(_, identifier) =>
        if identifier in s.registered then call == Waiting(s.registered[identifier]) else call == Returned(false)
      case CallAcquires(c) =>
        var h := s.calls[c].holder;
        if s.holders[h].closed then call == Returned(false) else call == Using(h, s.holders[h].prompter)
      case CallReturns(_) => call == Returned(true)
      case _ => true
  {
    StepSucceeds(s, step);
    if step.CallAcquires? { assert HolderInv(s.holders[s.calls[step.call].holder]); }
  }

  // ----- Whoever waits can be served -----

  /** The goroutine that has a prompter knows about it. */
  predicate OwnerInv(s: Registry, h: nat, owner: Owner) {
    match owner
    case Nobody => true
    case Caller(c) => c in s.calls && s.calls[c].Using? && s.calls[c].holder == h
    case Reclaimer(u) =>
      u in s.unregistrations && s.unregistrations[u].holder == h && !s.unregistrations[u].Reclaiming?
  }

  predicate OwnersInv(s: Registry) {
    forall h | 0 <= h < |s.holders| :: OwnerInv(s, h, s.holders[h].owner)
  }

  lemma StepKeepsOwners(s: Registry, step: Step)
    requires Inv(s) && OwnersInv(s) && Enabled(s, step) && Do(s, step).Stepped?
    ensures OwnersInv(Do(s, step).registry)
  {
    var s' := Do(s, step).registry;
    forall h | 0 <= h < |s'.holders| ensures OwnerInv(s', h, s'.holders[h].owner) {
      if h < |s.holders| { assert OwnerInv(s, h, s.holders[h].owner) && HolderInv(s.holders[h]); }
      match step
      case Register(_, _) =>
      case UnregisterBegins(_, _) =>
      case UnregisterReclaims(u) => assert UnregistrationInv(s.holders, u, s.unregistrations[u]);
      case UnregisterCloses(u) => assert UnregistrationInv(s.holders, u, s.unregistrations[u]);
      case CallBegins(_, _) =>
      case CallAcquires(c) => assert CallInv(s.holders, c, s.calls[c]);
      case CallReturns(c) => assert CallInv(s.holders, c, s.calls[c]);
    }
  }

  lemma {:induction false} RunKeepsOwners(s: Registry, steps: seq<Step>)
    requires Inv(s) && OwnersInv(s) && Possible(s, steps) && Run(s, steps).Stepped?
    ensures Inv(Run(s, steps).registry) && OwnersInv(Run(s, steps).registry)
    decreases |steps|
  {
    if steps != [] {
      StepSucceeds(s, steps[0]);
      StepKeepsInv(s, steps[0]);
      StepKeepsOwners(s, steps[0]);
      RunKeepsOwners(Do(s, steps[0]).registry, steps[1..]);
    }
  }

  /** In every run, a call that waits for a prompter, like an unregistration that waits to
      reclaim it, can have it now, or another call is using it and can return it, or it has been
      reclaimed and its holder can be closed. */
  lemma WaitingIsServed(steps: seq<Step>, h: nat)
    requires Possible(INITIAL, steps) && Run(INITIAL, steps).Stepped?
    requires h < |Run(INITIAL, steps).registry.holders|
    ensures
      var s := Run(INITIAL, steps).registry;
      || Receivable(s, h)
      || (exists c :: c in s.calls && s.calls[c].Using? && s.calls[c].holder == h && Enabled(s, CallReturns(c)))
      || (exists u :: u in s.unregistrations && s.unregistrations[u] == Closing(h) && Enabled(s, UnregisterCloses(u)))
  {
    RunKeepsOwners(INITIAL, steps);
    var s := Run(INITIAL, steps).registry;
    assert HolderInv(s.holders[h]) && OwnerInv(s, h, s.holders[h].owner);
    match s.holders[h].owner
    case Nobody =>
    case Caller(c) => assert Enabled(s, CallReturns(c));
    case Reclaimer(u) =>
      assert UnregistrationInv(s.holders, u, s.unregistrations[u]);
      if !s.holders[h].closed { assert Enabled(s, UnregisterCloses(u)); }
  }
}
