/** One uninterrupted close as a function of the manager's state, and the run of the state machine that it is
    (extensions/manager.py, extensions/manager_shutdown.py). */
module ManagerClose {
  import opened Wrappers
  import opened Manager
  import opened ManagerLaws
  import R = Retirement

  /** What happens around one close: whether the readers leave in time, what the preparation still returns, how
      the store and the workers answer, and which resource closes fail. */
  datatype CloseScript = CloseScript(
    drains: bool,
    candidate: Option<Snapshot>,
    finish: Finished,
    ask: (Runtime, R.Package) -> R.Answer,
    failing: set<Runtime>,
    noted: bool,
    recorded: bool,
    leaseRaises: bool)

  ghost predicate Reaches(start: State, end: State)
    requires Invariant(start)
  {
    exists events :: IsRun(start, events) && After(start, events) == end
  }

  lemma {:induction false} RunAppend(start: State, events: seq<Event>, event: Event)
    requires Invariant(start) && IsRun(start, events) && Enabled(After(start, events), event)
    ensures IsRun(start, events + [event])
    ensures After(start, events + [event]) == Next(After(start, events), event)
    decreases |events|
  {
    if events == [] {
      StepKeeps(start, event);
      assert [] + [event] == [event];
    } else {
      StepKeeps(start, events[0]);
      assert (events + [event])[0] == events[0] && (events + [event])[1..] == events[1..] + [event];
      RunAppend(Next(start, events[0]), events[1..], event);
    }
  }

  lemma {:induction false} ReachesSelf(start: State)
    requires Invariant(start)
    ensures Reaches(start, start)
  {
    assert IsRun(start, []) && After(start, []) == start;
  }

  lemma {:induction false} ReachesStep(start: State, middle: State, event: Event)
    requires Invariant(start) && Invariant(middle) && Reaches(start, middle) && Enabled(middle, event)
    ensures Invariant(Next(middle, event)) && Reaches(start, Next(middle, event))
  {
    var events :| IsRun(start, events) && After(start, events) == middle;
    RunAppend(start, events, event);
    StepKeeps(middle, event);
  }

  // ----- The phases -----

  function AnswersOf(runtime: Runtime, owner: R.Owner, ask: (Runtime, R.Package) -> R.Answer): (answers: seq<R.Answer>)
    ensures R.Fits(owner, answers)
  {
    seq(|owner.pending|, i requires 0 <= i < |owner.pending| => ask(runtime, owner.pending[i]))
  }

  predicate AllOwned(state: State, runtimes: seq<Runtime>) {
    forall runtime <- runtimes :: runtime in state.owners
  }

  function Drained(state: State, drains: bool): State {
    if drains
    then state.(registry := state.registry.(readers := 0, closing := true), closer := Stopping)
    else state.(registry := state.registry.(closing := true), closer := Outside)
  }

  function Awaited(state: State, candidate: Option<Snapshot>): State {
    if state.pending.Some? && state.pending.value.task.Working? then PreparedState(state, candidate) else state
  }

  function CleanStep(state: State, script: CloseScript): State
    requires state.cleanup.Some? && state.cleanup.value != [] && AllOwned(state, state.cleanup.value)
  {
    var runtime := state.cleanup.value[0];
    var owner := state.owners[runtime];
    Update(state, runtime, R.RetireOwner(owner, AnswersOf(runtime, owner, script.ask), runtime in script.failing)).(
      cleanup := Some(state.cleanup.value[1..]))
  }

  function Cleaned(state: State, script: CloseScript): State
    requires state.cleanup.Some? ==> AllOwned(state, state.cleanup.value)
    decreases if state.cleanup.Some? then |state.cleanup.value| else 0
  {
    if state.cleanup.None? || state.cleanup.value == [] then state else Cleaned(CleanStep(state, script), script)
  }

  function ExecutorStopped(state: State): State {
    state.(stopped := true, closer := Collecting)
  }

  function AskStep(state: State, script: CloseScript): State
    requires state.closer.Asking? && state.closer.todo != [] && AllOwned(state, state.closer.todo)
  {
    var runtime := state.closer.todo[0];
    var owner := state.owners[runtime];
    Update(state, runtime, R.DeactivateOwner(owner, AnswersOf(runtime, owner, script.ask))).(
      closer := Asking(state.closer.todo[1..]))
  }

  function AskedAll(state: State, script: CloseScript): State
    requires state.closer.Asking? && AllOwned(state, state.closer.todo)
    decreases |state.closer.todo|
  {
    if state.closer.todo == [] then state.(closer := Noting) else AskedAll(AskStep(state, script), script)
  }

  function ReleaseStep(state: State, script: CloseScript): State
    requires state.closer.Releasing? && state.closer.todo != [] && AllOwned(state, state.closer.todo)
  {
    var runtime := state.closer.todo[0];
    Update(state, runtime, R.CloseOwner(state.owners[runtime], runtime in script.failing)).(
      closer := Releasing(state.closer.todo[1..]))
  }

  function ReleasedAll(state: State, script: CloseScript): State
    requires state.closer.Releasing? && AllOwned(state, state.closer.todo)
    decreases |state.closer.todo|
  {
    if state.closer.todo == [] then state.(closer := Recording) else ReleasedAll(ReleaseStep(state, script), script)
  }

  function Recorded(state: State, stored: bool): State
    requires AllOwned(state, state.retired)
  {
    if !stored then state.(closer := Outside)
    else
      state.(
        records := state.records + [Observations(state.owners, state.retired)],
        closer := if state.closer.Noting? then Releasing(state.retired) else Finishing)
  }

  function Ended(state: State, leaseRaises: bool): State
    requires Listed(state)
  {
    if !AllClosed(state) || leaseRaises then state.(closer := Outside)
    else state.(leaseHeld := false, retired := [], mode := Closed, closer := Outside)
  }

  lemma {:induction false} AskedAllStep(state: State, script: CloseScript)
    requires state.closer.Asking? && state.closer.todo != [] && AllOwned(state, state.closer.todo)
    ensures var next := AskStep(state, script);
            && next.closer == Asking(state.closer.todo[1..]) && next.retired == state.retired
            && AllOwned(next, next.closer.todo)
            && AskedAll(next, script) == AskedAll(state, script)
  {
  }

  lemma {:induction false} ReleasedAllStep(state: State, script: CloseScript)
    requires state.closer.Releasing? && state.closer.todo != [] && AllOwned(state, state.closer.todo)
    ensures var next := ReleaseStep(state, script);
            && next.closer == Releasing(state.closer.todo[1..]) && next.retired == state.retired
            && AllOwned(next, next.closer.todo)
            && ReleasedAll(next, script) == ReleasedAll(state, script)
  {
  }

  // ----- Each phase is a run -----

  /** The state is reached from the start, and both are sound. */
  ghost predicate Follows(start: State, state: State) {
    Invariant(start) && Invariant(state) && Reaches(start, state)
  }

  lemma {:induction false} FollowsStep(start: State, state: State, event: Event)
    requires Follows(start, state) && Enabled(state, event)
    ensures Follows(start, Next(state, event))
  {
    ReachesStep(start, state, event);
  }

  lemma {:induction false} DrainedFollows(start: State, state: State, drains: bool)
    requires Follows(start, state) && state.closer == Draining
    ensures Follows(start, Drained(state, drains))
    decreases state.registry.readers
  {
    if !drains {
      FollowsStep(start, state, DrainFails);
    } else if state.registry.readers == 0 {
      FollowsStep(start, state, DrainSucceeds);
    } else {
      FollowsStep(start, state, Return);
      DrainedFollows(start, Next(state, Return), drains);
    }
  }

  lemma {:induction false} AwaitedFollows(start: State, state: State, candidate: Option<Snapshot>)
    requires Follows(start, state)
    ensures Follows(start, Awaited(state, candidate))
    ensures var end := Awaited(state, candidate);
            && end.closer == state.closer && (end.pending.None? <==> state.pending.None?)
            && (end.pending.Some? ==> !end.pending.value.task.Working?)
  {
    if state.pending.Some? && state.pending.value.task.Working? {
      FollowsStep(start, state, PreparationEnds(candidate));
    }
  }

  lemma {:induction false} CleanupIsOwned(state: State)
    requires Invariant(state)
    ensures state.cleanup.Some? ==> AllOwned(state, state.cleanup.value)
  {
  }

  lemma {:induction false} CleanedFollows(start: State, state: State, script: CloseScript)
    requires Follows(start, state) && (state.cleanup.Some? ==> AllOwned(state, state.cleanup.value))
    ensures Follows(start, Cleaned(state, script))
    ensures var end := Cleaned(state, script);
            && end.closer == state.closer && end.pending == state.pending && end.mode == state.mode
            && (end.cleanup.Some? ==> end.cleanup.value == [])
            && (Clear(end, script) <==> Clear(state, script))
    decreases if state.cleanup.Some? then |state.cleanup.value| else 0
  {
    if state.cleanup.Some? && state.cleanup.value != [] {
      var runtime := state.cleanup.value[0];
      FollowsStep(start, state, CleanupStep(AnswersOf(runtime, state.owners[runtime], script.ask), runtime in script.failing));
      CleanStepIsClear(state, script);
      CleanedFollows(start, CleanStep(state, script), script);
    }
  }

  lemma {:induction false} AskedFollows(start: State, state: State, script: CloseScript)
    requires Follows(start, state) && state.closer.Asking? && AllOwned(state, state.closer.todo)
    ensures Follows(start, AskedAll(state, script))
    ensures AskedAll(state, script).closer == Noting
    ensures Clear(AskedAll(state, script), script) <==> Clear(state, script)
    decreases |state.closer.todo|
  {
    if state.closer.todo == [] {
      FollowsStep(start, state, AskEnds);
    } else {
      var runtime := state.closer.todo[0];
      FollowsStep(start, state, AskNext(AnswersOf(runtime, state.owners[runtime], script.ask)));
      AskStepIsClear(state, script);
      AskedFollows(start, AskStep(state, script), script);
    }
  }

  lemma {:induction false} ReleasedFollows(start: State, state: State, script: CloseScript)
    requires Follows(start, state) && state.closer.Releasing? && AllOwned(state, state.closer.todo)
    requires FinishedExcept(state, state.closer.todo)
    ensures Follows(start, ReleasedAll(state, script))
    ensures var end := ReleasedAll(state, script);
            && end.closer == Recording && FinishedExcept(end, [])
            && (Clear(end, script) <==> Clear(state, script))
    decreases |state.closer.todo|
  {
    if state.closer.todo == [] {
      FollowsStep(start, state, ReleaseEnds);
    } else {
      FollowsStep(start, state, ReleaseNext(state.closer.todo[0] in script.failing));
      ReleaseStepIsClear(state, script);
      ReleaseStepFinishes(state, script);
      ReleasedFollows(start, ReleaseStep(state, script), script);
    }
  }

  lemma {:induction false} RecordedFollows(start: State, state: State, stored: bool)
    requires Follows(start, state) && (state.closer.Noting? || state.closer.Recording?)
    ensures AllOwned(state, state.retired) && Follows(start, Recorded(state, stored))
    ensures stored && state.closer.Noting? ==> AllOwned(Recorded(state, stored), Recorded(state, stored).closer.todo)
  {
    FollowsStep(start, state, if state.closer.Noting? then NoteEnds(stored) else RecordEnds(stored));
  }

  lemma {:induction false} EndedFollows(start: State, state: State, leaseRaises: bool)
    requires Follows(start, state) && state.closer.Finishing?
    ensures Follows(start, Ended(state, leaseRaises))
    ensures Ended(state, leaseRaises).mode == Closed <==> state.open == {} && !leaseRaises
  {
    FollowsStep(start, state, Finish(leaseRaises));
    OpenMeansRetired(state);
  }

  lemma {:induction false} OpenMeansRetired(state: State)
    requires Invariant(state) && PastCollect(state.closer)
    ensures state.open == {} <==> AllClosed(state)
    ensures forall runtime <- state.open :: runtime in state.retired
  {
    assert forall runtime <- state.retired :: runtime < |state.made|;
  }

  lemma {:induction false} StoppedFollows(start: State, state: State, script: CloseScript)
    requires Follows(start, state) && state.closer == Stopping
    ensures var awaited := Awaited(state, script.candidate);
            && (awaited.cleanup.Some? ==> AllOwned(awaited, awaited.cleanup.value))
            && Follows(start, ExecutorStopped(Cleaned(awaited, script)))
            && (ExecutorStopped(Cleaned(awaited, script)).pending.None? <==> state.pending.None?)
            && (Clear(Cleaned(awaited, script), script) <==> Closable(state, script))
  {
    AwaitedIsClear(state, script);
    AwaitedFollows(start, state, script.candidate);
    var awaited := Awaited(state, script.candidate);
    CleanupIsOwned(awaited);
    CleanedFollows(start, awaited, script);
    StopFollows(start, Cleaned(awaited, script));
  }

  lemma {:induction false} StopFollows(start: State, state: State)
    requires Follows(start, state) && state.closer == Stopping && Settled(state)
    ensures Follows(start, ExecutorStopped(state))
  {
    FollowsStep(start, state, ExecutorStops);
  }

  lemma {:induction false} CollectedFollows(start: State, state: State, finish: Finished)
    requires Follows(start, state) && state.closer == Collecting
    ensures Follows(start, CollectOwned(state, finish))
    ensures var end := CollectOwned(state, finish);
            if state.pending.Some? && finish.FinishRaises? then end.closer == Outside && end.mode != Closed
            else end.closer.Asking? && AllOwned(end, end.closer.todo)
  {
    FollowsStep(start, state, Collect(finish));
  }

  // ----- What can be closed -----

  /** The one close of this runtime fails, or has failed. */
  predicate Doomed(owners: map<Runtime, R.Owner>, runtime: Runtime, script: CloseScript) {
    runtime in script.failing || (runtime in owners && owners[runtime].closeIssue.Some?)
  }

  predicate Clear(state: State, script: CloseScript) {
    forall runtime <- state.open :: !Doomed(state.owners, runtime, script)
  }

  /** Known before the close: no open runtime, nor the candidate of the preparation that is still at work, has a close
      that fails or has failed. */
  predicate Closable(state: State, script: CloseScript) {
    && Clear(state, script)
    && (state.pending.Some? && state.pending.value.task.Working? && script.candidate.Some? ==>
          |state.made| !in script.failing)
  }

  lemma {:induction false} AwaitedIsClear(state: State, script: CloseScript)
    requires Invariant(state)
    ensures Clear(Awaited(state, script.candidate), script) <==> Closable(state, script)
  {
    if state.pending.Some? && state.pending.value.task.Working? && script.candidate.Some? {
      assert |state.made| !in state.owners;
      assert |state.made| in Awaited(state, script.candidate).open;
    }
  }

  /** What one step of the close makes of an owner: no new failure unless the runtime is in the failing set, and no
      close unless it is outside. */
  predicate OwnerMoves(owner: R.Owner, next: R.Owner, failing: bool) {
    && (owner.closed ==> next == owner)
    && (owner.closeIssue.Some? ==> next == owner)
    && (next.closed && !owner.closed ==> !failing && next.closeIssue.None?)
    && (next.closeIssue.Some? && owner.closeIssue.None? ==> failing)
  }

  lemma {:induction false} UpdateIsClear(state: State, runtime: Runtime, next: R.Owner, script: CloseScript)
    requires Physical(state) && runtime in state.owners
    requires OwnerMoves(state.owners[runtime], next, runtime in script.failing)
    ensures Clear(Update(state, runtime, next), script) <==> Clear(state, script)
  {
    var after := Update(state, runtime, next);
    forall other ensures other in after.open && Doomed(after.owners, other, script) <==>
                         other in state.open && Doomed(state.owners, other, script)
    {
    }
  }

  lemma {:induction false} CleanStepIsClear(state: State, script: CloseScript)
    requires Physical(state) && state.cleanup.Some? && state.cleanup.value != [] && AllOwned(state, state.cleanup.value)
    ensures Clear(CleanStep(state, script), script) <==> Clear(state, script)
  {
    var runtime := state.cleanup.value[0];
    var owner := state.owners[runtime];
    UpdateIsClear(state, runtime,
      R.RetireOwner(owner, AnswersOf(runtime, owner, script.ask), runtime in script.failing), script);
  }

  lemma {:induction false} AskStepIsClear(state: State, script: CloseScript)
    requires Physical(state) && state.closer.Asking? && state.closer.todo != [] && AllOwned(state, state.closer.todo)
    ensures Clear(AskStep(state, script), script) <==> Clear(state, script)
  {
    var runtime := state.closer.todo[0];
    var owner := state.owners[runtime];
    UpdateIsClear(state, runtime, R.DeactivateOwner(owner, AnswersOf(runtime, owner, script.ask)), script);
  }

  lemma {:induction false} ReleaseStepIsClear(state: State, script: CloseScript)
    requires Physical(state) && state.closer.Releasing? && state.closer.todo != [] && AllOwned(state, state.closer.todo)
    ensures Clear(ReleaseStep(state, script), script) <==> Clear(state, script)
  {
    var runtime := state.closer.todo[0];
    UpdateIsClear(state, runtime, R.CloseOwner(state.owners[runtime], runtime in script.failing), script);
  }

  lemma {:induction false} RetireIsClear(state: State, runtime: Option<Runtime>, script: CloseScript)
    requires runtime.Some? ==> runtime.value < |state.made| && runtime.value !in state.owners
    ensures Clear(RetireOption(state, runtime), script) <==> Clear(state, script)
  {
    if runtime.Some? {
      assert forall other :: Doomed(state.owners, other, script) <==>
                             Doomed(RetireOption(state, runtime).owners, other, script);
    }
  }

  lemma {:induction false} CollectIsClear(state: State, finish: Finished, script: CloseScript)
    requires Invariant(state) && state.closer.Collecting?
    ensures Clear(CollectOwned(state, finish), script) <==> Clear(state, script)
  {
    CollectKeeps(state);
    var collected := CollectCleanup(state);
    assert collected.owners == state.owners && collected.open == state.open && Known(collected);
    if !(collected.pending.Some? && finish.FinishRaises?) {
      MoveIsClear(collected, finish, script);
    }
  }

  lemma {:induction false} MoveIsClear(state: State, finish: Finished, script: CloseScript)
    requires Known(state)
    ensures Clear(MoveOwned(state, finish), script) <==> Clear(state, script)
  {
    if state.pending.Some? {
      RetireIsClear(FinishFailed(state, finish), CandidateOf(state), script);
      RetireIsClear(RetireOption(FinishFailed(state, finish), CandidateOf(state)), state.active, script);
    } else {
      RetireIsClear(state, state.active, script);
    }
  }

  /** Everything that is not listed has been tried. */
  predicate FinishedExcept(state: State, todo: seq<Runtime>) {
    forall runtime <- state.retired :: runtime in todo || (runtime in state.owners && R.Finished(state.owners[runtime]))
  }

  lemma {:induction false} ReleaseStepFinishes(state: State, script: CloseScript)
    requires state.closer.Releasing? && state.closer.todo != [] && AllOwned(state, state.closer.todo)
    requires FinishedExcept(state, state.closer.todo)
    ensures FinishedExcept(ReleaseStep(state, script), state.closer.todo[1..])
  {
    forall runtime <- state.retired
      ensures runtime in state.closer.todo[1..]
           || (runtime in ReleaseStep(state, script).owners && R.Finished(ReleaseStep(state, script).owners[runtime]))
    {
      if runtime in state.closer.todo && runtime != state.closer.todo[0] {
        assert runtime in state.closer.todo[1..];
      }
    }
  }

  /** Once every retired runtime has been tried, those that are still open are the ones whose close failed. */
  lemma {:induction false} ClearMeansClosed(state: State, script: CloseScript)
    requires Invariant(state) && PastCollect(state.closer) && FinishedExcept(state, [])
    ensures Clear(state, script) <==> state.open == {}
  {
    OpenMeansRetired(state);
    forall runtime <- state.open ensures Doomed(state.owners, runtime, script) {
      assert runtime in state.retired;
    }
  }

  // ----- The whole close -----

  function StopState(state: State, script: CloseScript): State
    requires var awaited := Awaited(state, script.candidate);
             awaited.cleanup.Some? ==> AllOwned(awaited, awaited.cleanup.value)
  {
    ExecutorStopped(Cleaned(Awaited(state, script.candidate), script))
  }

  /** Nothing stands in the way of the close before the resources are released. */
  predicate Collects(state: State, script: CloseScript) {
    script.drains && (state.pending.None? || !script.finish.FinishRaises?)
  }

  /** The state after a close that started in `start` and was not interrupted. */
  ghost function CloseState(start: State, script: CloseScript): (end: State)
    requires Invariant(start) && start.closer == Outside
    ensures Follows(start, end) && end.closer == Outside
    ensures end.mode == Closed <==>
      || start.mode == Closed
      || (Collects(start, script) && script.noted && script.recorded && !script.leaseRaises && Closable(start, script))
  {
    ReachesSelf(start);
    if start.mode == Closed then start
    else
      BegunFollows(start);
      CloseBegun(start, Begun(start), script)
  }

  lemma {:induction false} CloseIsBegun(start: State, script: CloseScript)
    requires Invariant(start) && start.closer == Outside && start.mode != Closed && Follows(start, Begun(start))
    ensures CloseState(start, script) == CloseBegun(start, Begun(start), script)
  {
  }

  ghost function CloseBegun(start: State, begun: State, script: CloseScript): (end: State)
    requires Follows(start, begun) && begun.closer == Draining
    ensures Follows(start, end) && end.closer == Outside
    ensures end.mode == Closed <==>
      && Collects(begun, script) && script.noted && script.recorded && !script.leaseRaises && Closable(begun, script)
  {
    DrainedFollows(start, begun, script.drains);
    var drained := Drained(begun, script.drains);
    if !script.drains then drained else CloseDrained(start, drained, script)
  }

  function Begun(state: State): State {
    state.(mode := Closing, closer := Draining)
  }

  lemma {:induction false} BegunFollows(start: State)
    requires Invariant(start) && start.closer == Outside && start.mode != Closed
    ensures Follows(start, Begun(start))
  {
    ReachesSelf(start);
    FollowsStep(start, start, CloseBegins);
  }

  ghost function CloseDrained(start: State, drained: State, script: CloseScript): (end: State)
    requires Follows(start, drained) && drained.closer == Stopping
    ensures Follows(start, end) && end.closer == Outside
    ensures end.mode == Closed <==>
      && (drained.pending.None? || !script.finish.FinishRaises?)
      && script.noted && script.recorded && !script.leaseRaises && Closable(drained, script)
  {
    StoppedFollows(start, drained, script);
    CloseStopped(start, StopState(drained, script), script)
  }

  ghost function CloseStopped(start: State, ended: State, script: CloseScript): (end: State)
    requires Follows(start, ended) && ended.closer == Collecting
    ensures Follows(start, end) && end.closer == Outside
    ensures end.mode == Closed <==>
      && (ended.pending.None? || !script.finish.FinishRaises?)
      && script.noted && script.recorded && !script.leaseRaises && Clear(ended, script)
  {
    CollectedFollows(start, ended, script.finish);
    CollectIsClear(ended, script.finish, script);
    var collected := CollectOwned(ended, script.finish);
    if collected.closer.Outside? then collected else CloseCollected(start, collected, script)
  }

  ghost function CloseCollected(start: State, collected: State, script: CloseScript): (end: State)
    requires Follows(start, collected) && collected.closer.Asking? && AllOwned(collected, collected.closer.todo)
    ensures Follows(start, end) && end.closer == Outside
    ensures end.mode == Closed <==>
      script.noted && script.recorded && !script.leaseRaises && Clear(collected, script)
  {
    AskedFollows(start, collected, script);
    CloseAsked(start, AskedAll(collected, script), script)
  }

  ghost function CloseAsked(start: State, asked: State, script: CloseScript): (end: State)
    requires Follows(start, asked) && asked.closer == Noting
    ensures Follows(start, end) && end.closer == Outside
    ensures end.mode == Closed <==>
      script.noted && script.recorded && !script.leaseRaises && Clear(asked, script)
  {
    RecordedFollows(start, asked, script.noted);
    var noted := Recorded(asked, script.noted);
    if !script.noted then noted else CloseNoted(start, noted, script)
  }

  ghost function CloseNoted(start: State, noted: State, script: CloseScript): (end: State)
    requires Follows(start, noted) && noted.closer.Releasing? && AllOwned(noted, noted.closer.todo)
    requires FinishedExcept(noted, noted.closer.todo)
    ensures Follows(start, end) && end.closer == Outside
    ensures end.mode == Closed <==> script.recorded && !script.leaseRaises && Clear(noted, script)
  {
    ReleasedFollows(start, noted, script);
    CloseReleased(start, ReleasedAll(noted, script), script)
  }

  ghost function CloseReleased(start: State, released: State, script: CloseScript): (end: State)
    requires Follows(start, released) && released.closer == Recording && FinishedExcept(released, [])
    ensures Follows(start, end) && end.closer == Outside
    ensures end.mode == Closed <==> script.recorded && !script.leaseRaises && Clear(released, script)
  {
    ClearMeansClosed(released, script);
    RecordedFollows(start, released, script.recorded);
    var recorded := Recorded(released, script.recorded);
    if !script.recorded then recorded
    else
      EndedFollows(start, recorded, script.leaseRaises);
      Ended(recorded, script.leaseRaises)
  }
}
