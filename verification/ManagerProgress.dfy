/** What one publication attempt answers, and what the answers say about the manager (extensions/manager_publication.py). */
module ManagerProgress {
  import opened Wrappers
  import opened Manager
  import opened ManagerLaws

  datatype Status = Idle | Preparing | Busy | Published | OperationFailed | IsFenced | IsClosing

  datatype Progress = Progress(status: Status, revision: nat, allowsProcessing: bool)

  /** The engine may process: a runtime is active, or none is on its way. */
  predicate Available(state: State) {
    state.mode == Running && (state.active.Some? || state.pending.None?)
  }

  function FenceStatus(finish: Finished): Option<Status> {
    if finish.FinishRaises? then None else Some(IsFenced)
  }

  /** The answer for a candidate; none when the attempt raises. */
  function CandidateStatus(state: State, commit: Commit, finish: Finished): Option<Status>
    requires CandidateOf(state).Some?
  {
    var registry := state.registry;
    if registry.closing then None
    else if state.pending.value.expected != registry.revision then FenceStatus(finish)
    else if registry.readers != 0 then Some(Busy)
    else match commit
      case CommitRaises => None
      case CommitRefused => FenceStatus(finish)
      case CommitStored => Some(Published)
  }

  function FailedStatus(finish: Finished): Option<Status> {
    match finish
    case FinishRaises => None
    case FinishRefused => Some(IsFenced)
    case FinishStored => Some(OperationFailed)
  }

  function StatusOf(state: State, commit: Commit, finish: Finished): Option<Status> {
    if state.mode != Running then Some(if state.mode == Fenced then IsFenced else IsClosing)
    else if state.pending.None? then Some(Idle)
    else if state.pending.value.task.Working? then Some(Preparing)
    else if state.pending.value.task.Failed? then FailedStatus(finish)
    else CandidateStatus(state, commit, finish)
  }

  function ProgressOf(state: State, commit: Commit, finish: Finished, starts: bool): Option<Progress>
    requires Known(state)
  {
    var status := StatusOf(CollectCleanup(state), commit, finish);
    var after := PublishState(state, commit, finish, starts);
    if status.None? then None else Some(Progress(status.value, after.revision, Available(after)))
  }

  // ----- What the answers mean -----

  /** The runtime is the candidate of the finished preparation. */
  predicate Waiting(state: State) {
    state.mode == Running && CandidateOf(state).Some?
  }

  /** What a status says about the manager before and after the attempt. */
  predicate Means(status: Status, state: State, after: State) {
    match status
    case Idle => after == CollectCleanup(state) && after.mode == Running && after.pending.None?
    case Preparing =>
      after == CollectCleanup(state) && after.mode == Running && after.pending.Some? && after.pending.value.task.Working?
    case Busy => after == CollectCleanup(state) && Waiting(after) && after.registry.readers > 0
    case Published =>
      && Waiting(state) && state.registry.readers == 0
      && after.mode == Running && after.active == CandidateOf(state) && after.pending.None?
      && after.revision == after.registry.revision == state.revision + 1
    case OperationFailed =>
      && state.mode == after.mode == Running && state.pending.Some? && state.pending.value.task.Failed?
      && after.pending.None? && after.active == state.active
      && after.registry == state.registry && after.revision == state.revision
    case IsFenced => after.mode == Fenced && after.registry == state.registry && after.revision == state.revision
    case IsClosing => after == state && (state.mode == Closing || state.mode == Closed)
  }

  lemma {:induction false} PendingIsCollected(state: State)
    requires Invariant(state)
    ensures var collected := CollectCleanup(state);
            && Invariant(collected) && collected.pending == state.pending && collected.mode == state.mode
            && collected.active == state.active && collected.registry == state.registry
            && collected.revision == state.revision
  {
    CollectKeeps(state);
  }

  lemma {:induction false} ScheduleIsQuiet(state: State, starts: bool)
    ensures var after := ScheduleCleanup(state, starts);
            && after.mode == state.mode && after.active == state.active && after.pending == state.pending
            && after.registry == state.registry && after.revision == state.revision
  {
  }

  lemma {:induction false} SwitchedMeans(state: State, starts: bool)
    requires Known(state) && Waiting(state) && state.registry.readers == 0 && state.revision == state.registry.revision
    ensures Means(Published, state, ScheduleCleanup(Switched(state), starts))
  {
    ScheduleIsQuiet(Switched(state), starts);
  }

  lemma {:induction false} FencedMeans(state: State, finish: Finished, starts: bool)
    requires Known(state) && CandidateOf(state).Some? && !finish.FinishRaises?
    ensures Means(IsFenced, state, FenceCandidate(state, finish, starts))
  {
    var failed := FinishFailed(state, finish);
    var retired := RetireOption(failed, CandidateOf(state));
    assert failed.registry == state.registry && retired.registry == failed.registry && retired.revision == state.revision;
    ScheduleIsQuiet(retired.(mode := Fenced), starts);
  }

  lemma {:induction false} CandidateMeans(state: State, commit: Commit, finish: Finished, starts: bool)
    requires Known(state) && Waiting(state) && CollectCleanup(state) == state && state.revision == state.registry.revision
    ensures var status := CandidateStatus(state, commit, finish);
            var after := PublishCandidate(state, commit, finish, starts);
            if status.None? then after == state else Means(status.value, state, after)
  {
    if !finish.FinishRaises? {
      FencedMeans(state, finish, starts);
    }
    if state.registry.readers == 0 {
      SwitchedMeans(state, starts);
    }
  }

  lemma {:induction false} MeansCollected(status: Status, state: State, after: State)
    requires Invariant(state) && state.mode == Running && Means(status, CollectCleanup(state), after)
    requires CollectCleanup(CollectCleanup(state)) == CollectCleanup(state)
    ensures status != IsClosing ==> Means(status, state, after)
  {
    PendingIsCollected(state);
  }

  lemma {:induction false} CollectTwice(state: State)
    ensures CollectCleanup(CollectCleanup(state)) == CollectCleanup(state)
  {
  }

  lemma {:induction false} CollectedMeans(state: State, collected: State, commit: Commit, finish: Finished, starts: bool)
    requires Invariant(state) && collected == CollectCleanup(state) && state.mode == Running
    requires Known(collected) && CandidateOf(collected).None?
    ensures var status := StatusOf(collected, commit, finish);
            var after := PublishState(state, commit, finish, starts);
            if status.None? then after == collected else Means(status.value, state, after)
  {
    PendingIsCollected(state);
    NothingPublished(state, collected, commit, finish, starts);
  }

  lemma {:induction false} WaitingMeans(state: State, collected: State, commit: Commit, finish: Finished, starts: bool)
    requires Invariant(state) && collected == CollectCleanup(state) && state.mode == Running
    requires Known(collected) && CandidateOf(collected).Some?
    ensures var status := StatusOf(collected, commit, finish);
            var after := PublishState(state, commit, finish, starts);
            if status.None? then after == collected else Means(status.value, state, after)
  {
    PendingIsCollected(state);
    CollectTwice(state);
    PublishesCandidate(state, collected, commit, finish, starts);
    CandidateMeans(collected, commit, finish, starts);
    var status := CandidateStatus(collected, commit, finish);
    if status.Some? {
      MeansCollected(status.value, state, PublishState(state, commit, finish, starts));
    }
  }

  /** Every answer is true of the manager, also when the attempt raised: then at most finished cleanup was collected. */
  lemma {:induction false} ProgressIsTrue(state: State, commit: Commit, finish: Finished, starts: bool)
    requires Invariant(state)
    ensures var progress := ProgressOf(state, commit, finish, starts);
            var after := PublishState(state, commit, finish, starts);
            if progress.None? then after == CollectCleanup(state)
            else
              && Means(progress.value.status, state, after)
              && progress.value.revision == after.registry.revision
              && (progress.value.allowsProcessing <==>
                    after.mode == Running && !(after.active.None? && after.pending.Some?))
  {
    var collected := CollectCleanup(state);
    PendingIsCollected(state);
    if state.mode == Running {
      if CandidateOf(collected).Some? {
        WaitingMeans(state, collected, commit, finish, starts);
      } else {
        CollectedMeans(state, collected, commit, finish, starts);
      }
    }
  }

  /** Which answer an attempt gives, for every state and every answer of the store; none when it raises. */
  lemma {:induction false} AnswerDecides(state: State, commit: Commit, finish: Finished, starts: bool)
    requires Invariant(state)
    ensures var progress := ProgressOf(state, commit, finish, starts);
            var status := if progress.None? then None else Some(progress.value.status);
            status ==
              if state.mode == Fenced then Some(IsFenced)
              else if state.mode != Running then Some(IsClosing)
              else match state.pending
                case None => Some(Idle)
                case Some(pending) =>
                  match pending.task
                  case Working => Some(Preparing)
                  case Failed =>
                    (match finish case FinishRaises => None case FinishRefused => Some(IsFenced) case FinishStored => Some(OperationFailed))
                  case Candidate(_) =>
                    if state.registry.readers > 0 then Some(Busy)
                    else match commit
                      case CommitStored => Some(Published)
                      case CommitRaises => None
                      case CommitRefused => if finish.FinishRaises? then None else Some(IsFenced)
  {
    PendingIsCollected(state);
  }

  // ----- Processing stays allowed -----

  lemma {:induction false} RequestKeepsActive(state: State, event: Event)
    requires Invariant(state) && Enabled(state, event) && event.PublishReady?
    requires state.active.Some? && Next(state, event).mode == Running
    ensures state.mode == Running && Next(state, event).active.Some?
  {
    ProgressIsTrue(state, event.commit, event.finish, event.starts);
    PendingIsCollected(state);
  }

  lemma {:induction false} StepKeepsActive(state: State, event: Event)
    requires Invariant(state) && Enabled(state, event) && !event.PublishReady?
    requires state.active.Some? && Next(state, event).mode == Running
    ensures state.mode == Running && Next(state, event).active.Some?
  {
    if state.mode != Running {
      StaysStopped(state, event);
    }
  }

  /** Once a runtime is active, publication attempts allow processing for as long as the manager runs: a later
      preparation never holds the engine back. */
  lemma {:induction false} ProcessingStaysAllowed(state: State, events: seq<Event>)
    requires Invariant(state) && state.active.Some? && IsRun(state, events)
    ensures After(state, events).mode == Running ==> state.mode == Running && Available(After(state, events))
    decreases |events|
  {
    if events != [] {
      var next := Next(state, events[0]);
      StepKeeps(state, events[0]);
      if next.mode == Running {
        if events[0].PublishReady? {
          RequestKeepsActive(state, events[0]);
        } else {
          StepKeepsActive(state, events[0]);
        }
        ProcessingStaysAllowed(next, events[1..]);
      } else {
        NeverRunsAgain(next, events[1..]);
      }
    }
  }

  lemma {:induction false} NeverRunsAgain(state: State, events: seq<Event>)
    requires Invariant(state) && state.mode != Running && IsRun(state, events)
    ensures After(state, events).mode != Running
    decreases |events|
  {
    if events != [] {
      StaysStopped(state, events[0]);
      StepKeeps(state, events[0]);
      NeverRunsAgain(Next(state, events[0]), events[1..]);
    }
  }

  lemma {:induction false} RefusedWhenStopped(state: State, commit: Commit, finish: Finished, starts: bool)
    requires Known(state) && state.mode != Running
    ensures PublishState(state, commit, finish, starts) == state
  {
  }

  lemma {:induction false} CollectsStopped(state: State, finish: Finished)
    requires Known(state) && state.mode != Running
    ensures MoveOwned(state, finish).mode != Running
  {
  }

  lemma {:induction false} StaysStopped(state: State, event: Event)
    requires Enabled(state, event) && Known(state) && Listed(state) && state.mode != Running
    ensures Next(state, event).mode != Running
  {
    match event
    case PublishReady(commit, finish, starts) => RefusedWhenStopped(state, commit, finish, starts);
    case Collect(finish) =>
      CollectedIsKnown(state);
      CollectsStopped(CollectCleanup(state), finish);
    case _ =>
  }
}
