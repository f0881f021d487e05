/** What the runtime manager keeps over every run: one owner for each open runtime, and a lease that is released
    only after everything has stopped. */
module ManagerLaws {
  import opened Wrappers
  import opened Manager
  import R = Retirement

  ghost predicate Owned(state: State) {
    Known(state) && Listed(state) && Accounted(state) && Physical(state)
  }

  lemma {:induction false} StillOpenKeeps(owners: map<Runtime, R.Owner>, retired: seq<Runtime>)
    requires Distinct(retired) && forall runtime <- retired :: runtime in owners
    ensures forall runtime :: runtime in StillOpen(owners, retired) <==> runtime in retired && !owners[runtime].closed
    ensures Distinct(StillOpen(owners, retired))
  {
    if retired != [] {
      assert retired[0] !in retired[1..];
      StillOpenKeeps(owners, retired[1..]);
    }
  }

  lemma {:induction false} CollectKeeps(state: State)
    requires Owned(state)
    ensures Owned(CollectCleanup(state))
    ensures Serial(state) ==> Serial(CollectCleanup(state))
    ensures Shut(state) ==> Shut(CollectCleanup(state))
  {
    StillOpenKeeps(state.owners, state.retired);
  }

  lemma {:induction false} ScheduleKeeps(state: State, starts: bool)
    requires Owned(state)
    ensures Owned(ScheduleCleanup(state, starts))
    ensures Serial(state) && !(state.mode == Running && state.pending.Some?) ==> Serial(ScheduleCleanup(state, starts))
  {
  }

  // ----- Requests -----

  lemma {:induction false} SubmitKeeps(state: State, accepts: bool, starts: bool)
    requires Invariant(state) && (starts ==> !state.stopped)
    ensures Invariant(SubmitState(state, accepts, starts))
  {
    CollectKeeps(state);
  }

  lemma {:induction false} RetryKeeps(state: State, starts: bool)
    requires Invariant(state) && state.mode == Running && (starts ==> !state.stopped)
    ensures Invariant(ScheduleCleanup(CollectCleanup(state), starts))
  {
    CollectKeeps(state);
    ScheduleKeeps(CollectCleanup(state), starts);
  }

  lemma {:induction false} PreparedKeeps(state: State, candidate: Option<Snapshot>)
    requires Invariant(state) && Enabled(state, PreparationEnds(candidate))
    ensures Invariant(PreparedState(state, candidate))
  {
  }

  // ----- Publication -----

  lemma {:induction false} FailedKeeps(state: State, finish: Finished)
    requires Invariant(state) && state.mode == Running && CandidateOf(state).None?
    ensures Invariant(FinishFailed(state, finish))
  {
  }

  lemma {:induction false} FenceKeeps(state: State, finish: Finished, starts: bool)
    requires Invariant(state) && state.mode == Running && CandidateOf(state).Some? && (starts ==> !state.stopped)
    ensures Invariant(FenceCandidate(state, finish, starts))
  {
    FinishPendingOwned(state, finish);
    var fenced := RetireOption(FinishFailed(state, finish), CandidateOf(state)).(mode := Fenced);
    ScheduleKeeps(fenced, starts);
  }

  lemma {:induction false} SwitchOwned(state: State)
    requires Owned(state) && CandidateOf(state).Some?
    ensures Owned(Switched(state))
  {
  }

  lemma {:induction false} StoreKeeps(state: State, finish: Finished, starts: bool)
    requires Invariant(state) && state.mode == Running && CandidateOf(state).Some? && (starts ==> !state.stopped)
    requires state.registry.readers == 0
    ensures Invariant(PublishCandidate(state, CommitStored, finish, starts))
  {
    SwitchOwned(state);
    ScheduleKeeps(Switched(state), starts);
  }

  lemma {:induction false} CandidateKeeps(state: State, commit: Commit, finish: Finished, starts: bool)
    requires Invariant(state) && state.mode == Running && CandidateOf(state).Some? && (starts ==> !state.stopped)
    ensures Invariant(PublishCandidate(state, commit, finish, starts))
  {
    FenceKeeps(state, finish, starts);
    if state.registry.readers == 0 {
      StoreKeeps(state, finish, starts);
    }
  }

  lemma {:induction false} PublishKeeps(state: State, commit: Commit, finish: Finished, starts: bool)
    requires Invariant(state) && (starts ==> !state.stopped)
    ensures Invariant(PublishState(state, commit, finish, starts))
  {
    if state.mode == Running {
      CollectKeeps(state);
      PublishCollectedKeeps(CollectCleanup(state), commit, finish, starts);
    }
  }

  lemma {:induction false} PublishCollectedKeeps(state: State, commit: Commit, finish: Finished, starts: bool)
    requires Invariant(state) && state.mode == Running && (starts ==> !state.stopped)
    ensures CandidateOf(state).Some? ==> Invariant(PublishCandidate(state, commit, finish, starts))
    ensures CandidateOf(state).None? ==> Invariant(FinishFailed(state, finish))
  {
    if CandidateOf(state).Some? {
      CandidateKeeps(state, commit, finish, starts);
    } else {
      FailedKeeps(state, finish);
    }
  }

  // ----- Owners -----

  lemma {:induction false} UpdateKeeps(state: State, runtime: Runtime, owner: R.Owner)
    requires Owned(state) && runtime in state.owners
    requires R.Finished(state.owners[runtime]) ==> owner == state.owners[runtime]
    ensures Owned(Update(state, runtime, owner))
  {
  }

  lemma {:induction false} CleanupKeeps(state: State, answers: seq<R.Answer>, raises: bool)
    requires Invariant(state) && Enabled(state, CleanupStep(answers, raises))
    ensures Invariant(Next(state, CleanupStep(answers, raises)))
  {
    var runtime := state.cleanup.value[0];
    UpdateKeeps(state, runtime, R.RetireOwner(state.owners[runtime], answers, raises));
  }

  lemma {:induction false} AskKeeps(state: State, answers: seq<R.Answer>)
    requires Invariant(state) && Enabled(state, AskNext(answers))
    ensures Invariant(Next(state, AskNext(answers)))
  {
    var runtime := state.closer.todo[0];
    UpdateKeeps(state, runtime, R.DeactivateOwner(state.owners[runtime], answers));
  }

  lemma {:induction false} ReleaseKeeps(state: State, raises: bool)
    requires Invariant(state) && Enabled(state, ReleaseNext(raises))
    ensures Invariant(Next(state, ReleaseNext(raises)))
  {
    var runtime := state.closer.todo[0];
    UpdateKeeps(state, runtime, R.CloseOwner(state.owners[runtime], raises));
  }

  // ----- Close -----

  lemma {:induction false} FinishPendingOwned(state: State, finish: Finished)
    requires Owned(state) && state.pending.Some? && !state.pending.value.task.Working?
    ensures Owned(RetireOption(FinishFailed(state, finish), CandidateOf(state)))
  {
    if CandidateOf(state).Some? {
      RetireOwned(state, CandidateOf(state).value, FinishFailed(state, finish));
    }
  }

  /** `left` is the state without the runtime in its place. */
  ghost predicate Leaves(state: State, runtime: Runtime, left: State) {
    && left.owners == state.owners && left.retired == state.retired && left.made == state.made
    && left.open == state.open && left.tried == state.tried
    && runtime < |left.made| && runtime !in left.owners
    && (forall other :: (left.active == Some(other) || CandidateOf(left) == Some(other)) <==>
                        (state.active == Some(other) || CandidateOf(state) == Some(other)) && other != runtime)
    && (left.active.None? || CandidateOf(left).None?)
  }

  lemma {:induction false} RetireKnown(state: State, runtime: Runtime, left: State)
    requires Known(state) && Leaves(state, runtime, left)
    ensures Known(Retire(left, runtime))
  {
    assert left.active.Some? ==> left.active == Some(left.active.value);
    assert CandidateOf(left).Some? ==> CandidateOf(left) == Some(CandidateOf(left).value);
  }

  lemma {:induction false} RetireListed(state: State, runtime: Runtime, left: State)
    requires Listed(state) && Leaves(state, runtime, left)
    ensures Listed(Retire(left, runtime))
  {
  }

  lemma {:induction false} RetireAccounts(state: State, runtime: Runtime, left: State)
    requires Accounted(state) && Leaves(state, runtime, left)
    ensures Accounted(Retire(left, runtime))
  {
  }

  lemma {:induction false} RetirePhysical(state: State, runtime: Runtime, left: State)
    requires Physical(state) && Leaves(state, runtime, left)
    ensures Physical(Retire(left, runtime))
  {
  }

  /** A runtime outside the retired owners leaves its place and becomes one of them. */
  lemma {:induction false} RetireOwned(state: State, runtime: Runtime, left: State)
    requires Owned(state) && Leaves(state, runtime, left)
    ensures Owned(Retire(left, runtime))
  {
    RetireKnown(state, runtime, left);
    RetireListed(state, runtime, left);
    RetireAccounts(state, runtime, left);
    RetirePhysical(state, runtime, left);
  }

  lemma {:induction false} MoveActiveOwned(state: State)
    requires Owned(state) && CandidateOf(state).None?
    ensures Owned(RetireOption(state, state.active).(active := None))
  {
  }

  lemma {:induction false} CollectOwnedKeeps(state: State, finish: Finished)
    requires Invariant(state) && state.closer.Collecting?
    ensures Invariant(CollectOwned(state, finish))
  {
    CollectKeeps(state);
    var collected := CollectCleanup(state);
    if collected.pending.None? {
      MoveActiveOwned(collected);
      var moved := RetireOption(collected, collected.active).(active := None);
      AskingKeeps(collected, moved);
    } else if finish.FinishRaises? {
      assert Shut(collected.(closer := Outside));
    } else {
      FinishPendingOwned(collected, finish);
      var finished := RetireOption(FinishFailed(collected, finish), CandidateOf(collected));
      MoveActiveOwned(finished);
      var moved := RetireOption(finished, finished.active).(active := None);
      AskingKeeps(collected, moved);
    }
  }

  lemma {:induction false} AskingKeeps(state: State, moved: State)
    requires Listed(state) && Serial(state) && Shut(state) && state.closer.Collecting? && state.mode != Closed
    requires Owned(moved) && Emptied(moved) && (moved.mode == state.mode || moved.mode == Fenced)
    requires moved.closer == state.closer && moved.registry == state.registry && moved.revision == state.revision
    requires moved.stopped == state.stopped && moved.leaseHeld == state.leaseHeld
    ensures Invariant(moved.(closer := Asking(moved.retired)))
  {
  }

  lemma {:induction false} FinishKeeps(state: State, leaseRaises: bool)
    requires Invariant(state) && state.closer.Finishing?
    ensures Invariant(Next(state, Finish(leaseRaises)))
  {
  }

  /** Every step of every thread keeps the invariant. */
  lemma {:induction false} StepKeeps(state: State, event: Event)
    requires Invariant(state) && Enabled(state, event)
    ensures Invariant(Next(state, event))
  {
    match event
    case ReadState => CollectKeeps(state);
    case Submit(accepts, starts) => SubmitKeeps(state, accepts, starts);
    case PreparationEnds(candidate) => PreparedKeeps(state, candidate);
    case PublishReady(commit, finish, starts) => PublishKeeps(state, commit, finish, starts);
    case RetryCleanup(starts) =>
      if state.mode == Running {
        RetryKeeps(state, starts);
      }
    case CleanupStep(answers, raises) => CleanupKeeps(state, answers, raises);
    case AskNext(answers) => AskKeeps(state, answers);
    case ReleaseNext(raises) => ReleaseKeeps(state, raises);
    case Collect(finish) => CollectOwnedKeeps(state, finish);
    case Finish(leaseRaises) => FinishKeeps(state, leaseRaises);
    case Borrow => RegistryKeeps(state, event);
    case Return => RegistryKeeps(state, event);
    case CloseBegins => CloseKeeps(state, event);
    case DrainFails => CloseKeeps(state, event);
    case DrainSucceeds => CloseKeeps(state, event);
    case ExecutorStops => CloseKeeps(state, event);
    case AskEnds => PhaseKeeps(state, event);
    case NoteEnds(stored) => NoteKeeps(state, stored);
    case ReleaseEnds => PhaseKeeps(state, event);
    case RecordEnds(stored) => RecordKeeps(state, stored);
  }

  lemma {:induction false} RegistryKeeps(state: State, event: Event)
    requires Invariant(state) && Enabled(state, event) && (event.Borrow? || event.Return?)
    ensures Invariant(Next(state, event))
  {
  }

  lemma {:induction false} CloseKeeps(state: State, event: Event)
    requires Invariant(state) && Enabled(state, event)
    requires event.CloseBegins? || event.DrainFails? || event.DrainSucceeds? || event.ExecutorStops?
    ensures Invariant(Next(state, event))
  {
    var next := Next(state, event);
    assert Owned(next);
    assert Serial(next);
  }

  lemma {:induction false} PhaseKeeps(state: State, event: Event)
    requires Invariant(state) && Enabled(state, event) && (event.AskEnds? || event.ReleaseEnds?)
    ensures Invariant(Next(state, event))
  {
  }

  lemma {:induction false} NoteKeeps(state: State, stored: bool)
    requires Invariant(state) && Enabled(state, NoteEnds(stored))
    ensures Invariant(Next(state, NoteEnds(stored)))
  {
    assert Owned(Next(state, NoteEnds(stored)));
  }

  lemma {:induction false} RecordKeeps(state: State, stored: bool)
    requires Invariant(state) && Enabled(state, RecordEnds(stored))
    ensures Invariant(Next(state, RecordEnds(stored)))
  {
    assert Owned(Next(state, RecordEnds(stored)));
  }

  // ----- Runs -----

  ghost predicate IsRun(state: State, events: seq<Event>)
    requires Invariant(state)
    decreases |events|
  {
    events == [] || (Enabled(state, events[0]) && (StepKeeps(state, events[0]); IsRun(Next(state, events[0]), events[1..])))
  }

  ghost function After(state: State, events: seq<Event>): (end: State)
    requires Invariant(state) && IsRun(state, events)
    ensures Invariant(end)
    decreases |events|
  {
    if events == [] then state else (StepKeeps(state, events[0]); After(Next(state, events[0]), events[1..]))
  }

  /** How many places of the manager own the runtime. */
  function OwnerCount(state: State, runtime: Runtime): nat {
    (if state.active == Some(runtime) then 1 else 0)
    + (if CandidateOf(state) == Some(runtime) then 1 else 0)
    + multiset(state.retired)[runtime]
  }

  lemma {:induction false} DistinctCounts(runtimes: seq<Runtime>, runtime: Runtime)
    requires Distinct(runtimes)
    ensures multiset(runtimes)[runtime] == if runtime in runtimes then 1 else 0
  {
    if runtimes != [] {
      assert runtimes == [runtimes[0]] + runtimes[1..];
      assert runtimes[0] !in runtimes[1..];
      DistinctCounts(runtimes[1..], runtime);
    }
  }

  /** In every run: a prepared runtime whose resources are not closed has exactly one owner, the active runtime
      and the candidate are never closed, and while an operation is pending in running mode nothing waits for
      cleanup. */
  lemma {:induction false} EachOpenRuntimeHasOneOwner(revision: nat, events: seq<Event>, runtime: Runtime)
    requires IsRun(Start(revision), events)
    ensures var end := After(Start(revision), events);
            && (runtime in end.open ==> OwnerCount(end, runtime) == 1)
            && (end.active == Some(runtime) || CandidateOf(end) == Some(runtime) ==> runtime in end.open)
            && (end.mode == Running && end.pending.Some? ==> end.retired == [] && end.cleanup.None?)
  {
    var end := After(Start(revision), events);
    DistinctCounts(end.retired, runtime);
  }

  /** The call holds the lease while it changes stored state, or releases it. */
  predicate UsesLease(state: State, event: Event)
    requires Listed(state)
  {
    match event
    case Submit(_, _) => state.mode == Running
    case PublishReady(_, _, _) =>
      var pending := CollectCleanup(state).pending;
      state.mode == Running && pending.Some? && !pending.value.task.Working?
    case Collect(_) => state.pending.Some?
    case NoteEnds(_) => true
    case RecordEnds(_) => true
    case Finish(_) => AllClosed(state)
    case _ => false
  }

  /** The lease is released only when the registry is drained, the executor has stopped, nothing is pending or
      active, every prepared runtime is closed, and the evidence of the last owners is stored. */
  lemma {:induction false} LeaseIsReleasedLast(revision: nat, events: seq<Event>, event: Event)
    requires IsRun(Start(revision), events)
    requires Enabled(After(Start(revision), events), event)
    requires After(Start(revision), events).leaseHeld && !Next(After(Start(revision), events), event).leaseHeld
    ensures var end := After(Start(revision), events);
            && end.registry.closing && end.registry.readers == 0 && end.stopped
            && end.pending.None? && end.active.None? && end.cleanup.None?
            && end.open == {}
            && end.records != [] && end.records[|end.records| - 1] == Observations(end.owners, end.retired)
  {
    var end := After(Start(revision), events);
    OnlyFinishReleases(end, event);
    NothingOpen(end);
    FinishingIsSettled(end);
  }

  lemma {:induction false} FinishingIsSettled(state: State)
    requires Listed(state) && Shut(state) && state.closer.Finishing?
    ensures state.registry.closing && state.registry.readers == 0 && state.stopped && Emptied(state)
    ensures state.records != [] && state.records[|state.records| - 1] == Observations(state.owners, state.retired)
  {
  }

  /** Neither a close is tried nor the lease touched. */
  predicate SameFrame(state: State, next: State) {
    next.tried == state.tried && next.leaseHeld == state.leaseHeld
  }

  lemma {:induction false} PartFrame(state: State, starts: bool, finish: Finished, runtime: Option<Runtime>)
    ensures SameFrame(state, CollectCleanup(state))
    ensures SameFrame(state, ScheduleCleanup(state, starts))
    ensures SameFrame(state, FinishFailed(state, finish))
    ensures (runtime.Some? ==> runtime.value < |state.made|) ==> SameFrame(state, RetireOption(state, runtime))
  {
  }

  lemma {:induction false} FenceFrame(state: State, finish: Finished, starts: bool)
    requires Known(state) && CandidateOf(state).Some?
    ensures SameFrame(state, FenceCandidate(state, finish, starts))
  {
    if !finish.FinishRaises? {
      var failed := FinishFailed(state, finish);
      var fenced := RetireOption(failed, CandidateOf(state)).(mode := Fenced);
      PartFrame(state, starts, finish, None);
      PartFrame(failed, starts, finish, CandidateOf(state));
      PartFrame(fenced, starts, finish, None);
    }
  }

  lemma {:induction false} SwitchFrame(state: State, starts: bool)
    requires Known(state)
    ensures SameFrame(state, ScheduleCleanup(Switched(state), starts))
  {
    PartFrame(state, starts, FinishStored, state.active);
    PartFrame(Switched(state), starts, FinishStored, None);
  }

  lemma {:induction false} CandidateFrame(state: State, commit: Commit, finish: Finished, starts: bool)
    requires Known(state) && CandidateOf(state).Some?
    ensures SameFrame(state, PublishCandidate(state, commit, finish, starts))
  {
    FenceFrame(state, finish, starts);
    SwitchFrame(state, starts);
  }

  lemma {:induction false} NothingPublished(
      state: State, collected: State, commit: Commit, finish: Finished, starts: bool)
    requires Known(state) && collected == CollectCleanup(state) && Known(collected)
    requires state.mode != Running || CandidateOf(collected).None?
    ensures var next := PublishState(state, commit, finish, starts);
            next == state || next == collected || next == FinishFailed(collected, finish)
  {
  }

  lemma {:induction false} PublishesCandidate(
      state: State, collected: State, commit: Commit, finish: Finished, starts: bool)
    requires Known(state) && collected == CollectCleanup(state) && Known(collected)
    requires state.mode == Running && CandidateOf(collected).Some?
    ensures PublishState(state, commit, finish, starts) == PublishCandidate(collected, commit, finish, starts)
  {
  }

  lemma {:induction false} PublishFrame(state: State, commit: Commit, finish: Finished, starts: bool)
    requires Known(state)
    ensures SameFrame(state, PublishState(state, commit, finish, starts))
  {
    var collected := CollectCleanup(state);
    CollectedIsKnown(state);
    PartFrame(state, starts, finish, None);
    if state.mode == Running && CandidateOf(collected).Some? {
      PublishesCandidate(state, collected, commit, finish, starts);
      CandidateFrame(collected, commit, finish, starts);
    } else {
      NothingPublished(state, collected, commit, finish, starts);
      PartFrame(collected, starts, finish, None);
    }
  }

  lemma {:induction false} MoveFrame(state: State, finish: Finished)
    requires Known(state)
    ensures SameFrame(state, MoveOwned(state, finish))
  {
    if state.pending.None? {
      PartFrame(state, true, finish, state.active);
    } else if !finish.FinishRaises? {
      var failed := FinishFailed(state, finish);
      PartFrame(state, true, finish, None);
      PartFrame(failed, true, finish, CandidateOf(state));
      PartFrame(RetireOption(failed, CandidateOf(state)), true, finish, state.active);
    }
  }

  lemma {:induction false} CollectedIsKnown(state: State)
    requires Known(state)
    ensures Known(CollectCleanup(state))
  {
  }

  lemma {:induction false} RequestFrame(state: State, event: Event)
    requires Enabled(state, event) && Known(state) && Listed(state)
    requires event.ReadState? || event.Submit? || event.RetryCleanup? || event.Collect? || event.PublishReady?
    ensures SameFrame(state, Next(state, event))
  {
    var collected := CollectCleanup(state);
    CollectedIsKnown(state);
    PartFrame(state, true, FinishStored, None);
    match event
    case ReadState =>
    case Submit(_, _) =>
    case RetryCleanup(starts) => PartFrame(collected, starts, FinishStored, None);
    case Collect(finish) => MoveFrame(collected, finish);
    case PublishReady(commit, finish, starts) => PublishFrame(state, commit, finish, starts);
  }

  predicate StepsOwner(event: Event) {
    event.CleanupStep? || event.AskNext? || event.ReleaseNext?
  }

  lemma {:induction false} OtherFrame(state: State, event: Event)
    requires Enabled(state, event) && Known(state) && Listed(state) && !StepsOwner(event)
    ensures Next(state, event).tried == state.tried
    ensures !event.Finish? ==> Next(state, event).leaseHeld == state.leaseHeld
  {
    if event.ReadState? || event.Submit? || event.RetryCleanup? || event.Collect? || event.PublishReady? {
      RequestFrame(state, event);
    }
  }

  lemma {:induction false} OwnerFrame(state: State, event: Event)
    requires Enabled(state, event) && Known(state) && Listed(state) && StepsOwner(event)
    ensures state.tried <= Next(state, event).tried && Next(state, event).leaseHeld == state.leaseHeld
  {
  }

  lemma {:induction false} OnlyFinishReleases(state: State, event: Event)
    requires Enabled(state, event) && Known(state) && Listed(state)
    requires state.leaseHeld && !Next(state, event).leaseHeld
    ensures event.Finish? && AllClosed(state)
  {
    if StepsOwner(event) {
      OwnerFrame(state, event);
    } else {
      OtherFrame(state, event);
    }
  }

  lemma {:induction false} NothingOpen(state: State)
    requires Invariant(state) && state.closer.Finishing? && AllClosed(state)
    ensures state.open == {}
  {
    assert forall runtime <- state.owners :: state.owners[runtime].closed;
    assert forall runtime <- state.open :: runtime < |state.made|;
  }

  /** Every use of the lease happens while it is held. */
  lemma {:induction false} LeaseIsHeldWhenUsed(revision: nat, events: seq<Event>, event: Event)
    requires IsRun(Start(revision), events)
    requires Enabled(After(Start(revision), events), event) && UsesLease(After(Start(revision), events), event)
    ensures After(Start(revision), events).leaseHeld
  {
  }

  /** A closed manager stays closed, also when close is called again. */
  lemma {:induction false} ClosedForGood(state: State, events: seq<Event>)
    requires Invariant(state) && state.mode == Closed && IsRun(state, events)
    ensures After(state, events).mode == Closed && !After(state, events).leaseHeld
    ensures forall event :: Enabled(After(state, events), event) ==> !UsesLease(After(state, events), event)
    decreases |events|
  {
    if events != [] {
      ClosedStep(state, events[0]);
      StepKeeps(state, events[0]);
      ClosedForGood(Next(state, events[0]), events[1..]);
    }
  }

  lemma {:induction false} ClosedStep(state: State, event: Event)
    requires Invariant(state) && state.mode == Closed && Enabled(state, event)
    ensures Next(state, event).mode == Closed
  {
  }

  /** The step calls `close` on the prepared runtime. */
  predicate CallsClose(state: State, event: Event, runtime: Runtime)
    requires Enabled(state, event)
  {
    match event
    case CleanupStep(answers, raises) =>
      && state.cleanup.value[0] == runtime
      && R.CallsClose(state.owners[runtime], R.Retiring(answers, raises))
    case ReleaseNext(raises) => state.closer.todo[0] == runtime && R.CallsClose(state.owners[runtime], R.Closing(raises))
    case _ => false
  }

  ghost function CloseCalls(state: State, events: seq<Event>, runtime: Runtime): nat
    requires Invariant(state) && IsRun(state, events)
    decreases |events|
  {
    if events == [] then 0
    else
      (if CallsClose(state, events[0], runtime) then 1 else 0)
      + (StepKeeps(state, events[0]); CloseCalls(Next(state, events[0]), events[1..], runtime))
  }

  lemma {:induction false} CloseIsTriedOnce(state: State, event: Event, runtime: Runtime)
    requires Invariant(state) && Enabled(state, event)
    ensures CallsClose(state, event, runtime) ==> runtime !in state.tried && runtime in Next(state, event).tried
  {
  }

  /** A tried close is never forgotten. */
  lemma {:induction false} TriedStays(state: State, event: Event)
    requires Enabled(state, event) && Known(state) && Listed(state)
    ensures state.tried <= Next(state, event).tried
  {
    if StepsOwner(event) {
      OwnerFrame(state, event);
    } else {
      OtherFrame(state, event);
    }
  }

  /** Over a whole run, with cleanup retries and repeated closes, each runtime's close is called at most once. */
  lemma {:induction false} ClosesEachRuntimeOnce(state: State, events: seq<Event>, runtime: Runtime)
    requires Invariant(state) && IsRun(state, events)
    ensures CloseCalls(state, events, runtime) <= if runtime in state.tried then 0 else 1
    decreases |events|
  {
    if events != [] {
      CloseIsTriedOnce(state, events[0], runtime);
      TriedStays(state, events[0]);
      StepKeeps(state, events[0]);
      ClosesEachRuntimeOnce(Next(state, events[0]), events[1..], runtime);
    }
  }

  /** The background task and the closing thread never work on the owners at the same time, and the list the
      task works through cannot change under it. */
  lemma {:induction false} OwnersHaveOneUser(revision: nat, events: seq<Event>)
    requires IsRun(Start(revision), events)
    ensures var end := After(Start(revision), events);
            end.cleanup.Some? ==> !end.closer.Asking? && !end.closer.Releasing? && !end.closer.Noting? && !end.closer.Recording?
  {
  }

  /** The revision that a pending operation expects is always the registry's: only a refused commit is stale. */
  lemma {:induction false} OnlyRefusedCommitsFence(revision: nat, events: seq<Event>, commit: Commit, finish: Finished, starts: bool)
    requires IsRun(Start(revision), events)
    requires var end := After(Start(revision), events);
             && end.mode == Running && CandidateOf(end).Some?
             && Enabled(end, PublishReady(commit, finish, starts))
             && Next(end, PublishReady(commit, finish, starts)).mode == Fenced
    ensures commit == CommitRefused && After(Start(revision), events).registry.readers == 0
  {
  }

  // ----- A failed close -----

  predicate Stuck(state: State, runtime: Runtime) {
    runtime in state.retired && runtime in state.owners && state.owners[runtime].closeIssue.Some?
    && !state.owners[runtime].closed
  }

  lemma {:induction false} StuckCollect(state: State, runtime: Runtime)
    requires Invariant(state) && Stuck(state, runtime)
    ensures Stuck(CollectCleanup(state), runtime)
    ensures CollectCleanup(state).pending == state.pending
    ensures state.mode == Running ==> state.pending.None?
  {
    StillOpenKeeps(state.owners, state.retired);
  }

  /** A request finds the stuck owner. */
  predicate IsRequest(event: Event) {
    event.ReadState? || event.Submit? || event.PublishReady? || event.RetryCleanup?
  }

  lemma {:induction false} StuckRequest(state: State, event: Event, runtime: Runtime)
    requires Invariant(state) && Enabled(state, event) && Stuck(state, runtime) && IsRequest(event)
    ensures Stuck(Next(state, event), runtime)
    ensures event.Submit? ==> Next(state, event).pending == state.pending
  {
    StuckCollect(state, runtime);
  }

  lemma {:induction false} StuckOwnerStep(state: State, event: Event, runtime: Runtime)
    requires Invariant(state) && Enabled(state, event) && Stuck(state, runtime)
    requires event.CleanupStep? || event.AskNext? || event.ReleaseNext?
    ensures Stuck(Next(state, event), runtime)
  {
  }

  lemma {:induction false} StuckRetire(state: State, other: Option<Runtime>, runtime: Runtime)
    requires Stuck(state, runtime) && (other.Some? ==> other.value < |state.made| && other.value != runtime)
    ensures Stuck(RetireOption(state, other), runtime)
  {
  }

  lemma {:induction false} StuckMove(state: State, finish: Finished, runtime: Runtime)
    requires Known(state) && Stuck(state, runtime)
    ensures Stuck(MoveOwned(state, finish), runtime)
  {
    var failed := FinishFailed(state, finish);
    StuckRetire(failed, CandidateOf(state), runtime);
    StuckRetire(RetireOption(failed, CandidateOf(state)), state.active, runtime);
    StuckRetire(state, state.active, runtime);
  }

  lemma {:induction false} StuckCollectOwned(state: State, finish: Finished, runtime: Runtime)
    requires Invariant(state) && state.closer.Collecting? && Stuck(state, runtime)
    ensures Stuck(CollectOwned(state, finish), runtime)
  {
    StuckCollect(state, runtime);
    CollectedIsKnown(state);
    StuckMove(CollectCleanup(state), finish, runtime);
  }

  lemma {:induction false} StuckStep(state: State, event: Event, runtime: Runtime)
    requires Invariant(state) && Enabled(state, event) && Stuck(state, runtime)
    ensures Stuck(Next(state, event), runtime)
    ensures event.Submit? ==> Next(state, event).pending == state.pending
  {
    if IsRequest(event) {
      StuckRequest(state, event, runtime);
    } else if event.CleanupStep? || event.AskNext? || event.ReleaseNext? {
      StuckOwnerStep(state, event, runtime);
    } else if event.Collect? {
      StuckCollectOwned(state, event.finish, runtime);
    }
  }

  /** A step that calls the close of a runtime and sees it fail leaves the runtime stuck. */
  lemma {:induction false} FailingCloseIsStuck(state: State, event: Event, runtime: Runtime)
    requires Invariant(state) && Enabled(state, event) && CallsClose(state, event, runtime) && event.raises
    ensures Stuck(Next(state, event), runtime)
  {
  }

  lemma {:induction false} StuckRefuses(state: State, runtime: Runtime, accepts: bool, starts: bool)
    requires Invariant(state) && Stuck(state, runtime) && Enabled(state, Submit(accepts, starts))
    ensures Next(state, Submit(accepts, starts)).pending == state.pending
  {
    StuckStep(state, Submit(accepts, starts), runtime);
  }

  lemma {:induction false} StuckForGood(state: State, events: seq<Event>, runtime: Runtime)
    requires Invariant(state) && Stuck(state, runtime) && IsRun(state, events)
    ensures Stuck(After(state, events), runtime)
    decreases |events|
  {
    if events != [] {
      StuckStep(state, events[0], runtime);
      StepKeeps(state, events[0]);
      StuckForGood(Next(state, events[0]), events[1..], runtime);
    }
  }

  /** A close that failed, in the cleanup task or in the closing thread, is never repeated: in every later run the
      runtime stays retired and open, no operation is accepted, and the lease stays held. */
  lemma {:induction false} FailedCloseHoldsTheLease(state: State, event: Event, events: seq<Event>, runtime: Runtime)
    requires Invariant(state) && Enabled(state, event) && CallsClose(state, event, runtime) && event.raises
    requires Invariant(Next(state, event)) && IsRun(Next(state, event), events)
    ensures var end := After(Next(state, event), events);
            && end.leaseHeld && runtime in end.retired && runtime in end.open
            && forall accepts, starts :: Enabled(end, Submit(accepts, starts)) ==>
                 Next(end, Submit(accepts, starts)).pending == end.pending
  {
    FailingCloseIsStuck(state, event, runtime);
    StuckForGood(Next(state, event), events, runtime);
    var end := After(Next(state, event), events);
    StuckIsHeld(end, runtime);
    forall accepts, starts | Enabled(end, Submit(accepts, starts))
      ensures Next(end, Submit(accepts, starts)).pending == end.pending
    {
      StuckRefuses(end, runtime, accepts, starts);
    }
  }

  lemma {:induction false} StuckIsHeld(state: State, runtime: Runtime)
    requires Invariant(state) && Stuck(state, runtime)
    ensures state.leaseHeld && runtime in state.open
  {
  }
}
