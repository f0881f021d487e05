/** The extension runtime manager as a state machine over its critical sections, its background tasks and the
    registry (extensions/manager.py, manager_admission.py, manager_publication.py, manager_shutdown.py,
    manager_state.py, registry.py). */
module Manager {
  import opened Wrappers
  import R = Retirement

  /** A prepared runtime, numbered in the order of preparation. */
  type Runtime = nat

  datatype Snapshot = Snapshot(revision: string, activeOrder: seq<string>, packages: seq<R.Package>)

  datatype Mode = Running | Closing | Fenced | Closed

  /** The preparation task: still at work, or done with a failure or a candidate. */
  datatype Task = Working | Failed | Candidate(runtime: Runtime)

  datatype Pending = Pending(expected: nat, task: Task)

  datatype Registry = Registry(revision: nat, readers: nat, closing: bool)

  /** Where the thread inside `close` is. */
  datatype Closer =
    | Outside
    | Draining
    | Stopping
    | Collecting
    | Asking(todo: seq<Runtime>)
    | Noting
    | Releasing(todo: seq<Runtime>)
    | Recording
    | Finishing

  /** `cleanup` has the owners that the cleanup task has not retired yet; an empty list is a finished task.
      `owners` has the owner objects, which `retired`, the cleanup task and the closing thread share. `made`
      has the prepared runtimes, `open` those whose resources are not known to be closed, `tried` those whose
      close was called, and `records` the stored shutdown evidence. */
  datatype State = State(
    mode: Mode,
    pending: Option<Pending>,
    active: Option<Runtime>,
    retired: seq<Runtime>,
    cleanup: Option<seq<Runtime>>,
    revision: nat,
    owners: map<Runtime, R.Owner>,
    registry: Registry,
    stopped: bool,
    closer: Closer,
    leaseHeld: bool,
    records: seq<seq<R.Shutdown>>,
    made: seq<Snapshot>,
    open: set<Runtime>,
    tried: set<Runtime>)

  function Start(revision: nat): (state: State)
    ensures Invariant(state)
  {
    State(Running, None, None, [], None, revision, map[], Registry(revision, 0, false), false, Outside, true,
      [], [], {}, {})
  }

  datatype Commit = CommitStored | CommitRefused | CommitRaises

  /** What the store answers when the pending operation is finished as failed. */
  datatype Finished = FinishStored | FinishRefused | FinishRaises

  datatype Event =
    | ReadState
    | Submit(accepts: bool, starts: bool)
    | PreparationEnds(candidate: Option<Snapshot>)
    | PublishReady(commit: Commit, finish: Finished, starts: bool)
    | RetryCleanup(starts: bool)
    | CleanupStep(answers: seq<R.Answer>, raises: bool)
    | Borrow
    | Return
    | CloseBegins
    | DrainFails
    | DrainSucceeds
    | ExecutorStops
    | Collect(finish: Finished)
    | AskNext(answers: seq<R.Answer>)
    | AskEnds
    | NoteEnds(stored: bool)
    | ReleaseNext(raises: bool)
    | ReleaseEnds
    | RecordEnds(stored: bool)
    | Finish(leaseRaises: bool)

  // ----- The manager's own functions -----

  function StillOpen(owners: map<Runtime, R.Owner>, retired: seq<Runtime>): seq<Runtime> {
    if retired == [] then []
    else
      (if retired[0] in owners && owners[retired[0]].closed then [] else [retired[0]]) + StillOpen(owners, retired[1..])
  }

  function CollectCleanup(state: State): State {
    if state.cleanup == Some([])
    then state.(retired := StillOpen(state.owners, state.retired), cleanup := None)
    else state
  }

  function ScheduleCleanup(state: State, starts: bool): State {
    if state.retired != [] && state.cleanup.None?
    then state.(cleanup := Some(if starts then state.retired else []))
    else state
  }

  function NewOwner(snapshot: Snapshot): R.Owner {
    R.NewOwner(snapshot.revision, snapshot.activeOrder, snapshot.packages)
  }

  function Retire(state: State, runtime: Runtime): State
    requires runtime < |state.made|
  {
    state.(owners := state.owners[runtime := NewOwner(state.made[runtime])], retired := state.retired + [runtime])
  }

  function RetireOption(state: State, runtime: Option<Runtime>): State
    requires runtime.Some? ==> runtime.value < |state.made|
  {
    if runtime.Some? then Retire(state, runtime.value) else state
  }

  function FinishFailed(state: State, finish: Finished): State {
    state.(pending := None, mode := if finish.FinishRefused? then Fenced else state.mode)
  }

  function CandidateOf(state: State): Option<Runtime> {
    if state.pending.Some? && state.pending.value.task.Candidate? then Some(state.pending.value.task.runtime) else None
  }

  function SubmitState(state: State, accepts: bool, starts: bool): State {
    if state.mode != Running then state
    else
      var collected := CollectCleanup(state);
      if collected.pending.Some? || collected.retired != [] || !accepts then collected
      else collected.(pending := Some(Pending(collected.revision, if starts then Working else Failed)))
  }

  function PublishState(state: State, commit: Commit, finish: Finished, starts: bool): State
    requires Known(state)
  {
    if state.mode != Running then state
    else
      var collected := CollectCleanup(state);
      if collected.pending.None? || collected.pending.value.task.Working? then collected
      else if collected.pending.value.task.Failed? then
        if finish.FinishRaises? then collected else FinishFailed(collected, finish)
      else PublishCandidate(collected, commit, finish, starts)
  }

  /** The registry checks its own state, then the expected revision, then its readers, then stores the commit. */
  function PublishCandidate(state: State, commit: Commit, finish: Finished, starts: bool): State
    requires Known(state) && CandidateOf(state).Some?
  {
    var registry := state.registry;
    if registry.closing then state
    else if state.pending.value.expected != registry.revision then FenceCandidate(state, finish, starts)
    else if registry.readers != 0 then state
    else match commit
      case CommitRaises => state
      case CommitRefused => FenceCandidate(state, finish, starts)
      case CommitStored => ScheduleCleanup(Switched(state), starts)
  }

  /** The candidate becomes active and the runtime before it is retired. */
  function Switched(state: State): State
    requires Known(state)
  {
    RetireOption(state, state.active).(
      registry := state.registry.(revision := state.registry.revision + 1),
      active := CandidateOf(state),
      revision := state.registry.revision + 1,
      pending := None)
  }

  function FenceCandidate(state: State, finish: Finished, starts: bool): State
    requires Known(state) && CandidateOf(state).Some?
  {
    if finish.FinishRaises? then state
    else ScheduleCleanup(RetireOption(FinishFailed(state, finish), CandidateOf(state)).(mode := Fenced), starts)
  }

  /** All completed work moves to the retired owners. A store that raises leaves the pending operation. */
  function CollectOwned(state: State, finish: Finished): State
    requires Known(state)
  {
    MoveOwned(CollectCleanup(state), finish)
  }

  function MoveOwned(state: State, finish: Finished): State
    requires Known(state)
  {
    if state.pending.Some? && finish.FinishRaises? then state.(closer := Outside)
    else
      var finished := if state.pending.Some?
        then RetireOption(FinishFailed(state, finish), CandidateOf(state)) else state;
      var moved := RetireOption(finished, finished.active).(active := None);
      moved.(closer := Asking(moved.retired))
  }

  function Observations(owners: map<Runtime, R.Owner>, retired: seq<Runtime>): seq<R.Shutdown>
    requires forall runtime <- retired :: runtime in owners
  {
    if retired == [] then [] else [R.Observed(owners[retired[0]])] + Observations(owners, retired[1..])
  }

  /** The owner changes in place; a successful close frees its resources. */
  function Update(state: State, runtime: Runtime, owner: R.Owner): State {
    state.(
      owners := state.owners[runtime := owner],
      open := if owner.closed then state.open - {runtime} else state.open,
      tried := if R.Finished(owner) then state.tried + {runtime} else state.tried)
  }

  predicate AllClosed(state: State)
    requires Listed(state)
  {
    forall runtime <- state.retired :: state.owners[runtime].closed
  }

  // ----- The invariant -----

  predicate Distinct(runtimes: seq<Runtime>) {
    forall i, j :: 0 <= i < j < |runtimes| ==> runtimes[i] != runtimes[j]
  }

  /** The candidate, the active runtime and the retired owners are different runtimes. */
  predicate Known(state: State) {
    && (forall runtime <- state.owners :: runtime < |state.made|)
    && (state.active.Some? ==> state.active.value < |state.made| && state.active.value !in state.owners)
    && (CandidateOf(state).Some? ==>
          && CandidateOf(state).value < |state.made|
          && CandidateOf(state).value !in state.owners
          && CandidateOf(state) != state.active)
  }

  predicate Listed(state: State) {
    && Distinct(state.retired)
    && (forall runtime <- state.retired :: runtime in state.owners)
  }

  /** Each runtime has been retired, or is active or the candidate; a retired one is dropped only when closed. */
  ghost predicate Accounted(state: State) {
    && (forall runtime: Runtime :: runtime < |state.made| ==>
          runtime in state.owners || state.active == Some(runtime) || CandidateOf(state) == Some(runtime))
    && (forall runtime <- state.owners :: runtime in state.retired || state.owners[runtime].closed)
  }

  ghost predicate Physical(state: State) {
    && (forall runtime: Runtime :: runtime in state.open <==>
          runtime < |state.made| && !(runtime in state.owners && state.owners[runtime].closed))
    && (forall runtime: Runtime :: runtime in state.tried <==>
          runtime in state.owners && R.Finished(state.owners[runtime]))
  }

  predicate Serial(state: State) {
    && (state.mode == Running && state.pending.Some? ==> state.retired == [] && state.cleanup.None?)
    && (state.cleanup.Some? ==> state.retired != [] && forall runtime <- state.cleanup.value :: runtime in state.retired)
    && state.revision == state.registry.revision
    && (state.pending.Some? ==> state.pending.value.expected == state.revision)
  }

  predicate Settled(state: State) {
    && (state.pending.Some? ==> !state.pending.value.task.Working?)
    && (state.cleanup.Some? ==> state.cleanup.value == [])
  }

  predicate Emptied(state: State) {
    state.pending.None? && state.active.None? && state.cleanup.None?
  }

  predicate PastDrain(closer: Closer) {
    !closer.Outside? && !closer.Draining?
  }

  predicate PastStop(closer: Closer) {
    PastDrain(closer) && !closer.Stopping?
  }

  predicate PastCollect(closer: Closer) {
    PastStop(closer) && !closer.Collecting?
  }

  predicate Shut(state: State)
    requires Listed(state)
  {
    && (!state.closer.Outside? ==> state.mode == Closing || state.mode == Fenced)
    && (state.registry.closing ==> state.mode != Running)
    && (PastDrain(state.closer) ==> state.registry.closing && state.registry.readers == 0)
    && (state.stopped ==> state.registry.closing && state.registry.readers == 0 && Settled(state))
    && (PastStop(state.closer) ==> state.stopped)
    && (PastCollect(state.closer) ==> Emptied(state))
    && (state.closer.Asking? || state.closer.Releasing? ==> forall runtime <- state.closer.todo :: runtime in state.retired)
    && (state.closer.Finishing? ==>
          state.records != [] && state.records[|state.records| - 1] == Observations(state.owners, state.retired))
    && (state.leaseHeld <==> state.mode != Closed)
    && (state.mode == Closed ==> state.stopped && Emptied(state) && state.retired == [])
  }

  ghost predicate Invariant(state: State) {
    Known(state) && Listed(state) && Accounted(state) && Physical(state) && Serial(state) && Shut(state)
  }

  // ----- The steps -----

  predicate Enabled(state: State, event: Event) {
    match event
    case ReadState => true
    case Submit(_, starts) => starts ==> !state.stopped
    case PreparationEnds(_) => state.pending.Some? && state.pending.value.task.Working?
    case PublishReady(_, _, starts) => starts ==> !state.stopped
    case RetryCleanup(starts) => starts ==> !state.stopped
    case CleanupStep(answers, _) =>
      && state.cleanup.Some? && state.cleanup.value != []
      && state.cleanup.value[0] in state.owners && R.Fits(state.owners[state.cleanup.value[0]], answers)
    case Borrow => !state.registry.closing
    case Return => state.registry.readers > 0
    case CloseBegins => state.closer.Outside?
    case DrainFails => state.closer.Draining?
    case DrainSucceeds => state.closer.Draining? && state.registry.readers == 0
    case ExecutorStops => state.closer.Stopping? && Settled(state)
    case Collect(_) => state.closer.Collecting?
    case AskNext(answers) =>
      && state.closer.Asking? && state.closer.todo != []
      && state.closer.todo[0] in state.owners && R.Fits(state.owners[state.closer.todo[0]], answers)
    case AskEnds => state.closer.Asking? && state.closer.todo == []
    case NoteEnds(_) => state.closer.Noting?
    case ReleaseNext(_) => state.closer.Releasing? && state.closer.todo != [] && state.closer.todo[0] in state.owners
    case ReleaseEnds => state.closer.Releasing? && state.closer.todo == []
    case RecordEnds(_) => state.closer.Recording?
    case Finish(_) => state.closer.Finishing?
  }

  function Next(state: State, event: Event): State
    requires Enabled(state, event) && Known(state) && Listed(state)
  {
    match event
    case ReadState => CollectCleanup(state)
    case Submit(accepts, starts) => SubmitState(state, accepts, starts)
    case PreparationEnds(candidate) => PreparedState(state, candidate)
    case PublishReady(commit, finish, starts) => PublishState(state, commit, finish, starts)
    case RetryCleanup(starts) =>
      if state.mode != Running then state else ScheduleCleanup(CollectCleanup(state), starts)
    case CleanupStep(answers, raises) =>
      var runtime := state.cleanup.value[0];
      Update(state, runtime, R.RetireOwner(state.owners[runtime], answers, raises)).(
        cleanup := Some(state.cleanup.value[1..]))
    case Borrow => state.(registry := state.registry.(readers := state.registry.readers + 1))
    case Return => state.(registry := state.registry.(readers := state.registry.readers - 1))
    case CloseBegins => if state.mode == Closed then state else state.(mode := Closing, closer := Draining)
    case DrainFails => state.(registry := state.registry.(closing := true), closer := Outside)
    case DrainSucceeds => state.(registry := state.registry.(closing := true), closer := Stopping)
    case ExecutorStops => state.(stopped := true, closer := Collecting)
    case Collect(finish) => CollectOwned(state, finish)
    case AskNext(answers) =>
      var runtime := state.closer.todo[0];
      Update(state, runtime, R.DeactivateOwner(state.owners[runtime], answers)).(
        closer := Asking(state.closer.todo[1..]))
    case AskEnds => state.(closer := Noting)
    case NoteEnds(stored) =>
      if stored
      then state.(records := state.records + [Observations(state.owners, state.retired)], closer := Releasing(state.retired))
      else state.(closer := Outside)
    case ReleaseNext(raises) =>
      var runtime := state.closer.todo[0];
      Update(state, runtime, R.CloseOwner(state.owners[runtime], raises)).(closer := Releasing(state.closer.todo[1..]))
    case ReleaseEnds => state.(closer := Recording)
    case RecordEnds(stored) =>
      if stored
      then state.(records := state.records + [Observations(state.owners, state.retired)], closer := Finishing)
      else state.(closer := Outside)
    case Finish(leaseRaises) =>
      if !AllClosed(state) || leaseRaises then state.(closer := Outside)
      else state.(leaseHeld := false, retired := [], mode := Closed, closer := Outside)
  }

  /** A candidate comes with its own resources. */
  function PreparedState(state: State, candidate: Option<Snapshot>): State
    requires state.pending.Some?
  {
    match candidate
    case None => state.(pending := Some(state.pending.value.(task := Failed)))
    case Some(snapshot) =>
      state.(
        pending := Some(state.pending.value.(task := Candidate(|state.made|))),
        made := state.made + [snapshot],
        open := state.open + {|state.made|})
  }
}
