/** What each request, each task and the close leave in the manager, in its fields (extensions/manager_admission.py,
    manager_publication.py, manager_state.py, manager_shutdown.py). */
module ManagerSteps {
  import opened Wrappers
  import R = Retirement
  import opened Manager
  import opened ManagerLaws

  // ----- Collected cleanup -----

  /** A finished cleanup task is collected: exactly the owners whose resources are closed are let go, in order. */
  predicate LetsClosedGo(state: State, next: State)
    requires Listed(state)
  {
    if state.cleanup == Some([]) then
      && next.cleanup.None?
      && R.Subsequence(next.retired, state.retired)
      && forall runtime <- state.retired :: runtime in next.retired <==> !state.owners[runtime].closed
    else next.cleanup == state.cleanup && next.retired == state.retired
  }

  lemma {:induction false} StillOpenIs(owners: map<Runtime, R.Owner>, retired: seq<Runtime>)
    requires Distinct(retired) && forall runtime <- retired :: runtime in owners
    ensures R.Subsequence(StillOpen(owners, retired), retired)
    ensures forall runtime :: runtime in StillOpen(owners, retired) <==> runtime in retired && !owners[runtime].closed
  {
    if retired != [] {
      var rest := StillOpen(owners, retired[1..]);
      StillOpenIs(owners, retired[1..]);
      if owners[retired[0]].closed {
        R.SubsequenceSkips(rest, retired[0], retired[1..]);
        assert [retired[0]] + retired[1..] == retired && [] + rest == rest;
      } else {
        assert ([retired[0]] + rest)[1..] == rest;
      }
    }
  }

  lemma {:induction false} CollectionDecides(state: State)
    requires Listed(state)
    ensures LetsClosedGo(state, CollectCleanup(state))
    ensures CollectCleanup(state)
            == state.(retired := CollectCleanup(state).retired, cleanup := CollectCleanup(state).cleanup)
  {
    if state.cleanup == Some([]) {
      StillOpenIs(state.owners, state.retired);
    }
  }

  /** Nothing of an older runtime is left once a finished cleanup is collected. */
  predicate NothingLeft(state: State)
    requires Listed(state)
  {
    forall runtime <- state.retired :: state.cleanup == Some([]) && state.owners[runtime].closed
  }

  lemma {:induction false} NothingLeftIff(state: State)
    requires Listed(state)
    ensures CollectCleanup(state).retired == [] <==> NothingLeft(state)
  {
    CollectionDecides(state);
    var left := CollectCleanup(state).retired;
    if left != [] {
      assert left[0] in left;
      if state.cleanup == Some([]) {
        StillOpenIs(state.owners, state.retired);
      } else {
        assert left[0] in state.retired;
      }
    }
    if !NothingLeft(state) {
      var runtime :| runtime in state.retired && !(state.cleanup == Some([]) && state.owners[runtime].closed);
      assert runtime in left;
    }
  }

  /** Everything but the pending operation, the retired owners and their cleanup. */
  predicate SameBesides(state: State, next: State) {
    next == state.(pending := next.pending, retired := next.retired, cleanup := next.cleanup)
  }

  // ----- Requests -----

  /** A request becomes the pending operation, for the registry's current revision, exactly when the manager runs, the
      store accepts it, nothing is pending and no older runtime is left; an executor that refuses leaves a failed one.
      Any other request leaves the pending operation as it was. */
  lemma {:induction false} SubmitDecides(state: State, accepts: bool, starts: bool)
    requires Invariant(state) && Enabled(state, Submit(accepts, starts))
    ensures var next := Next(state, Submit(accepts, starts));
            && next.pending ==
                 (if state.mode == Running && accepts && state.pending.None? && NothingLeft(state)
                  then Some(Pending(state.registry.revision, if starts then Working else Failed)) else state.pending)
            && (state.mode == Running ==> LetsClosedGo(state, next) && SameBesides(state, next))
            && (state.mode != Running ==> next == state)
  {
    CollectionDecides(state);
    NothingLeftIff(state);
  }

  /** A new manager is open: the first request that the store accepts is prepared for its revision. */
  lemma {:induction false} FirstRequestIsPrepared(revision: nat)
    ensures var next := Next(Start(revision), Submit(true, true));
            && next.pending == Some(Pending(revision, Working))
            && next.mode == Running && next.leaseHeld && next.active.None? && next.retired == []
            && next.registry == Registry(revision, 0, false)
  {
    SubmitDecides(Start(revision), true, true);
  }

  /** Starting a cleanup: a task for all owners, or a finished one when the executor refuses. */
  predicate StartsCleanup(state: State, next: State, starts: bool) {
    && next.retired == state.retired
    && next.cleanup == (if state.retired == [] || state.cleanup.Some? then state.cleanup
                        else Some(if starts then state.retired else []))
  }

  /** A retry, and a read of the state, collect a finished cleanup; the retry of a running manager then starts one when
      owners are left and no task works on them. */
  lemma {:induction false} RetryDecides(state: State, starts: bool) returns (collected: State)
    requires Invariant(state) && Enabled(state, RetryCleanup(starts))
    ensures SameBesides(state, collected) && collected.pending == state.pending
    ensures LetsClosedGo(state, collected)
    ensures Next(state, ReadState) == collected
    ensures var next := Next(state, RetryCleanup(starts));
            if state.mode != Running then next == state
            else SameBesides(state, next) && next.pending == state.pending && StartsCleanup(collected, next, starts)
  {
    collected := CollectCleanup(state);
    CollectionDecides(state);
  }

  // ----- Preparation and publication -----

  /** A preparation ends with a failure, or with a new candidate and its own resources. */
  lemma {:induction false} PreparationDecides(state: State, candidate: Option<Snapshot>)
    requires Invariant(state) && Enabled(state, PreparationEnds(candidate))
    ensures var next := Next(state, PreparationEnds(candidate));
            && next == state.(pending := next.pending, made := next.made, open := next.open)
            && next.pending.Some? && next.pending.value.expected == state.pending.value.expected
            && (candidate.None? ==> next.pending.value.task == Failed && next.made == state.made && next.open == state.open)
            && (candidate.Some? ==>
                  && next.pending.value.task == Candidate(|state.made|)
                  && next.made == state.made + [candidate.value] && next.open == state.open + {|state.made|})
  {
  }

  /** One new owner for a runtime; those of the others stay. */
  predicate RetiresAlso(state: State, next: State, runtime: Runtime)
    requires runtime < |state.made|
  {
    var snapshot := state.made[runtime];
    next.owners == state.owners[runtime := R.NewOwner(snapshot.revision, snapshot.activeOrder, snapshot.packages)]
  }

  predicate HasCandidate(state: State) {
    state.mode == Running && state.pending.Some? && state.pending.value.task.Candidate?
  }

  /** The candidate becomes active; the runtime before it is the one retired owner, and its cleanup starts. */
  predicate Switches(state: State, next: State, starts: bool)
    requires HasCandidate(state) && Known(state)
  {
    && next.active == Some(state.pending.value.task.runtime) && next.pending.None?
    && next.revision == next.registry.revision == state.registry.revision + 1
    && next.retired == (if state.active.None? then [] else [state.active.value])
    && next.cleanup == (if state.active.None? then None else Some(if starts then [state.active.value] else []))
    && (if state.active.None? then next.owners == state.owners else RetiresAlso(state, next, state.active.value))
    && next == state.(active := next.active, pending := next.pending, revision := next.revision,
                      registry := state.registry.(revision := next.revision),
                      retired := next.retired, cleanup := next.cleanup, owners := next.owners)
  }

  /** The candidate is the one retired owner, and the manager is fenced. */
  predicate Fences(state: State, next: State, starts: bool)
    requires HasCandidate(state) && Known(state)
  {
    var candidate := state.pending.value.task.runtime;
    && next.mode == Fenced && next.pending.None?
    && next.retired == [candidate] && next.cleanup == Some(if starts then [candidate] else [])
    && RetiresAlso(state, next, candidate)
    && next == state.(mode := next.mode, pending := next.pending, retired := next.retired,
                      cleanup := next.cleanup, owners := next.owners)
  }

  /** One publication attempt with a candidate: it switches exactly when no reader holds the registry and the store takes
      the commit, and fences exactly when the store refuses it and the operation can be finished; else nothing changes. */
  lemma {:induction false} CandidateDecides(state: State, commit: Commit, finish: Finished, starts: bool)
    requires Invariant(state) && Enabled(state, PublishReady(commit, finish, starts)) && HasCandidate(state)
    ensures var next := Next(state, PublishReady(commit, finish, starts));
            if state.registry.readers == 0 && commit.CommitStored? then Switches(state, next, starts)
            else if state.registry.readers == 0 && commit.CommitRefused? && !finish.FinishRaises?
            then Fences(state, next, starts)
            else next == state
  {
    assert CollectCleanup(state) == state;
    if state.active.Some? {
      assert [] + [state.active.value] == [state.active.value];
    }
    var candidate := state.pending.value.task.runtime;
    assert [] + [candidate] == [candidate];
  }

  /** An attempt without a candidate: a failed preparation is finished, unless the store raises, and a refusal fences; in
      every other case at most a finished cleanup is collected. */
  lemma {:induction false} AttemptDecides(state: State, commit: Commit, finish: Finished, starts: bool)
    requires Invariant(state) && Enabled(state, PublishReady(commit, finish, starts)) && !HasCandidate(state)
    ensures var next := Next(state, PublishReady(commit, finish, starts));
            if state.mode != Running then next == state
            else if state.pending.Some? && state.pending.value.task.Failed? then
              if finish.FinishRaises? then next == state
              else next == state.(pending := None, mode := if finish.FinishRefused? then Fenced else Running)
            else LetsClosedGo(state, next) && SameBesides(state, next) && next.pending == state.pending
  {
    CollectionDecides(state);
  }

  // ----- Close -----

  /** The owned work of a closing manager: what is retired, then the candidate, then the active runtime. */
  function OwnedWork(state: State, retired: seq<Runtime>): seq<Runtime> {
    retired
    + (if CandidateOf(state).Some? then [CandidateOf(state).value] else [])
    + (if state.active.Some? then [state.active.value] else [])
  }

  predicate GetsOwner(state: State, next: State, runtime: Runtime)
    requires runtime < |state.made|
  {
    var snapshot := state.made[runtime];
    runtime in next.owners
    && next.owners[runtime] == R.NewOwner(snapshot.revision, snapshot.activeOrder, snapshot.packages)
  }

  lemma {:induction false} CandidateIsRetired(state: State, finish: Finished)
    requires Known(state) && state.pending.Some? && !finish.FinishRaises?
    ensures var next := RetireOption(FinishFailed(state, finish), CandidateOf(state));
            && next.pending.None? && next.active == state.active && next.made == state.made && next.closer == state.closer
            && next.mode == (if finish.FinishRefused? then Fenced else state.mode)
            && next.retired == state.retired + (if CandidateOf(state).Some? then [CandidateOf(state).value] else [])
            && KeepsOwners(state, next)
            && (CandidateOf(state).Some? ==> GetsOwner(state, next, CandidateOf(state).value))
  {
    assert state.retired + [] == state.retired;
  }

  lemma {:induction false} ActiveIsRetired(state: State)
    requires state.active.Some? ==> state.active.value < |state.made| && state.active.value !in state.owners
    ensures var next := RetireOption(state, state.active);
            && next.pending == state.pending && next.mode == state.mode && next.made == state.made
            && next.retired == state.retired + (if state.active.Some? then [state.active.value] else [])
            && KeepsOwners(state, next)
            && (state.active.Some? ==> GetsOwner(state, next, state.active.value))
  {
    assert state.retired + [] == state.retired;
  }

  predicate KeepsOwners(state: State, next: State) {
    forall runtime <- state.owners :: runtime in next.owners && next.owners[runtime] == state.owners[runtime]
  }

  lemma {:induction false} CollectedIsOwned(state: State, finish: Finished)
    requires Known(state)
    ensures var next := MoveOwned(state, finish);
            if state.pending.Some? && finish.FinishRaises? then next == state.(closer := Outside)
            else
              && next.pending.None? && next.active.None?
              && next.mode == (if state.pending.Some? && finish.FinishRefused? then Fenced else state.mode)
              && next.retired == OwnedWork(state, state.retired)
              && next.closer == Asking(next.retired)
              && (CandidateOf(state).Some? ==> GetsOwner(state, next, CandidateOf(state).value))
              && (state.active.Some? ==> GetsOwner(state, next, state.active.value))
              && KeepsOwners(state, next)
  {
    if state.pending.None? {
      assert state.retired + [] == state.retired;
      ActiveIsRetired(state);
    } else if !finish.FinishRaises? {
      CandidateIsRetired(state, finish);
      ActiveIsRetired(RetireOption(FinishFailed(state, finish), CandidateOf(state)));
    }
  }

  /** Collecting the owned work: unless the store raises for a pending operation, nothing is pending or active any more,
      and every owned runtime is asked next. */
  lemma {:induction false} CollectionOwnsAll(state: State, finish: Finished)
    requires Invariant(state) && Enabled(state, Collect(finish))
    ensures var collected, next := CollectCleanup(state), Next(state, Collect(finish));
            && LetsClosedGo(state, collected)
            && (if state.pending.Some? && finish.FinishRaises? then next == collected.(closer := Outside)
                else
                  && next.pending.None? && next.active.None?
                  && next.mode == (if state.pending.Some? && finish.FinishRefused? then Fenced else state.mode)
                  && next.retired == OwnedWork(state, collected.retired)
                  && next.closer == Asking(next.retired)
                  && (CandidateOf(state).Some? ==> GetsOwner(state, next, CandidateOf(state).value))
                  && (state.active.Some? ==> GetsOwner(state, next, state.active.value))
                  && KeepsOwners(state, next))
  {
    CollectionDecides(state);
    CollectedIsOwned(CollectCleanup(state), finish);
  }

  lemma {:induction false} ObservationAt(owners: map<Runtime, R.Owner>, retired: seq<Runtime>, i: nat)
    requires (forall runtime <- retired :: runtime in owners) && i < |retired|
    ensures |Observations(owners, retired)| == |retired|
    ensures Observations(owners, retired)[i] == R.Observed(owners[retired[i]])
  {
    if i > 0 {
      ObservationAt(owners, retired[1..], i - 1);
    } else if |retired| > 1 {
      ObservationAt(owners, retired[1..], 0);
    }
  }

  /** What a close stores before and after it releases the resources: for each retired owner in its order its revision,
      whether its resources are closed, and its issues, those of the workers and then that of the close. When the evidence
      cannot be stored the thread leaves. */
  lemma {:induction false} EvidenceIsComplete(state: State, event: Event, i: nat)
    requires Invariant(state) && Enabled(state, event) && (event.NoteEnds? || event.RecordEnds?)
    ensures var next := Next(state, event);
            if !event.stored then next == state.(closer := Outside)
            else
              && next.closer == (if event.NoteEnds? then Releasing(state.retired) else Finishing)
              && |next.records| == |state.records| + 1 && next.records[..|state.records|] == state.records
              && var evidence := next.records[|state.records|];
                 && |evidence| == |state.retired|
                 && (i < |state.retired| ==>
                       var owner := state.owners[state.retired[i]];
                       && evidence[i].revision == owner.revision && evidence[i].resourcesClosed == owner.closed
                       && evidence[i].issues
                          == owner.issues + match owner.closeIssue case None => [] case Some(issue) => [issue])
  {
    if i < |state.retired| {
      ObservationAt(state.owners, state.retired, i);
    } else if state.retired != [] {
      ObservationAt(state.owners, state.retired, 0);
    }
  }

  /** The close is the only way out: it ends with a free lease exactly when every owner's resources are closed and the
      release succeeds; else the thread leaves with everything still owned. */
  lemma {:induction false} FinishDecides(state: State, leaseRaises: bool)
    requires Invariant(state) && Enabled(state, Finish(leaseRaises))
    ensures var next := Next(state, Finish(leaseRaises));
            if !leaseRaises && forall runtime <- state.retired :: state.owners[runtime].closed
            then !next.leaseHeld && next.mode == Closed && next.retired == [] && next.closer == Outside
            else next == state.(closer := Outside)
  {
  }

  /** One owner's turn in a cleanup task, and in the two passes of a close: exactly this owner changes, the task goes on
      to the next one, and its runtime is no longer open exactly when its resources are closed. */
  lemma {:induction false} OwnersTakeTurns(state: State, event: Event, runtime: Runtime, other: Runtime)
    requires Invariant(state) && Enabled(state, event) && StepsOwner(event)
    requires runtime == (if event.CleanupStep? then state.cleanup.value[0] else state.closer.todo[0])
    ensures var next := Next(state, event);
            && (event.CleanupStep? ==> next.cleanup == Some(state.cleanup.value[1..]) && next.closer == state.closer)
            && (event.AskNext? ==> next.closer == Asking(state.closer.todo[1..]) && next.cleanup == state.cleanup)
            && (event.ReleaseNext? ==> next.closer == Releasing(state.closer.todo[1..]) && next.cleanup == state.cleanup)
            && runtime in next.owners
            && (runtime in next.open <==> runtime in state.open && !next.owners[runtime].closed)
            && (other != runtime ==>
                  && (other in next.owners <==> other in state.owners) && (other in next.open <==> other in state.open)
                  && (other in state.owners ==> next.owners[other] == state.owners[other]))
            && next.retired == state.retired && next.pending == state.pending && next.active == state.active
            && next.mode == state.mode && next.registry == state.registry && next.leaseHeld == state.leaseHeld
  {
  }
}
