/** Durable jobs under optimistic revisions: any number of executors, cancels and reconciles interleave, and the
    daemon can die at any step (extensions/job_states.py, command_execution.py, command_dispatch.py,
    observer_execution.py, observer_settlement.py, job_control.py; repository/impl/sqlite/extension_jobs.py). */
module Jobs {
  import opened Wrappers

  datatype JobKey = JobKey(owner: string, scope: string, id: string)

  datatype JobKind = COMMAND | OBSERVER

  datatype JobState = ACCEPTED | RUNNING | SUCCEEDED | FAILED | CANCELED | OUTCOME_UNKNOWN

  /** `identity` is the request key of a command, or the cause event of an observer job. */
  datatype Job = Job(
    key: JobKey,
    kind: JobKind,
    identity: string,
    state: JobState,
    revision: nat,
    binding: string,
    request: string,
    result: Option<string>,
    diagnostic: Option<string>)

  type Store = map<JobKey, Job>

  datatype Change = Change(
    key: JobKey,
    expected: nat,
    state: JobState,
    result: Option<string>,
    diagnostic: Option<string>,
    binding: Option<string>,
    request: Option<string>)

  predicate Final(state: JobState) {
    state != ACCEPTED && state != RUNNING
  }

  function Or<T>(value: Option<T>, otherwise: T): T {
    if value.Some? then value.value else otherwise
  }

  /** The update matches the key and the revision, or raises. */
  predicate Matches(store: Store, change: Change) {
    change.key in store && store[change.key].revision == change.expected
  }

  function Changed(job: Job, change: Change): Job {
    job.(
      state := change.state,
      revision := job.revision + 1,
      result := change.result,
      diagnostic := change.diagnostic,
      binding := Or(change.binding, job.binding),
      request := Or(change.request, job.request))
  }

  function UpdateStore(store: Store, change: Change): Store {
    if Matches(store, change) then store[change.key := Changed(store[change.key], change)] else store
  }

  function CurrentJob(store: Store, job: Job): Job {
    if job.key in store then store[job.key] else job
  }

  function FromJob(job: Job, state: JobState, result: Option<string>, diagnostic: Option<string>): Change {
    Change(job.key, job.revision, state, result, diagnostic, None, None)
  }

  // ----- Acceptance -----

  /** The stored job of the same request, of which there is at most one. */
  predicate SameRequest(job: Job, owner: string, scope: string, kind: JobKind, identity: string) {
    job.key.owner == owner && job.key.scope == scope && job.kind == kind && job.identity == identity
  }

  predicate IsKnown(store: Store, owner: string, scope: string, kind: JobKind, identity: string) {
    exists key <- store :: SameRequest(store[key], owner, scope, kind, identity)
  }

  /** The row that an acceptance inserts. */
  predicate IsNew(job: Job) {
    job.state == ACCEPTED && job.revision == 1 && job.result.None? && job.diagnostic.None?
  }

  /** A repeated request keeps its job; a taken key raises. */
  function AcceptStore(store: Store, job: Job): Store {
    if IsKnown(store, job.key.owner, job.key.scope, job.kind, job.identity) || job.key in store then store
    else store[job.key := job]
  }

  // ----- Threads -----

  /** A thread's local state between its reads, writes and capability calls. */
  datatype Step =
    | Holding(job: Job)
    | Claimed(job: Job)
    | Called(job: Job)
    | Deciding(job: Job)
    | Rejected(job: Job, result: Option<string>)

  datatype State = State(store: Store, steps: map<nat, Step>, calls: map<JobKey, nat>)

  datatype Event =
    | Accept(job: Job)
    | Pick(thread: nat, key: JobKey)
    | Wait(thread: nat)
    | Refuse(thread: nat, reason: string)
    | Claim(thread: nat, binding: Option<string>, request: Option<string>)
    | Call(thread: nat)
    | Settle(thread: nat, state: JobState, result: Option<string>, diagnostic: Option<string>)
    | Reject(thread: nat, result: Option<string>)
    | SettleRejected(thread: nat, reason: string)
    | Read(thread: nat, key: JobKey)
    | Restart

  /** `Pick` is the executor's read of an accepted job, `Read` the read of a cancel, a reconcile or the recovery
      after a restart. The capability is called by `Call` only. */
  predicate Enabled(state: State, event: Event) {
    match event
    case Accept(job) => IsNew(job)
    case Pick(thread, key) => thread !in state.steps && key in state.store && state.store[key].state == ACCEPTED
    case Wait(thread) => thread in state.steps && (state.steps[thread].Holding? || state.steps[thread].Deciding?)
    case Refuse(thread, _) => thread in state.steps && state.steps[thread].Holding?
    case Claim(thread, _, _) => thread in state.steps && state.steps[thread].Holding?
    case Call(thread) => thread in state.steps && state.steps[thread].Claimed?
    case Settle(thread, next, _, _) =>
      thread in state.steps && (state.steps[thread].Called? || state.steps[thread].Deciding?) && Final(next)
    case Reject(thread, _) => thread in state.steps && (state.steps[thread].Called? || state.steps[thread].Deciding?)
    case SettleRejected(thread, _) => thread in state.steps && state.steps[thread].Rejected?
    case Read(thread, key) => thread !in state.steps && key in state.store
    case Restart => true
  }

  function CallsOf(state: State, key: JobKey): nat {
    if key in state.calls then state.calls[key] else 0
  }

  function ClaimChange(job: Job, binding: Option<string>, request: Option<string>): Change {
    FromJob(job, RUNNING, None, None).(binding := binding, request := request)
  }

  function Next(state: State, event: Event): State
    requires Enabled(state, event)
  {
    match event
    case Accept(job) => state.(store := AcceptStore(state.store, job))
    case Pick(thread, key) => state.(steps := state.steps[thread := Holding(state.store[key])])
    case Wait(thread) => state.(steps := state.steps - {thread})
    case Refuse(thread, reason) =>
      state.(
        store := UpdateStore(state.store, FromJob(state.steps[thread].job, FAILED, None, Some(reason))),
        steps := state.steps - {thread})
    case Claim(thread, binding, request) =>
      var change := ClaimChange(state.steps[thread].job, binding, request);
      var store := UpdateStore(state.store, change);
      state.(
        store := store,
        steps := if Matches(state.store, change) then state.steps[thread := Claimed(store[change.key])]
                 else state.steps - {thread})
    case Call(thread) =>
      var job := state.steps[thread].job;
      state.(
        steps := state.steps[thread := Called(job)],
        calls := state.calls[job.key := CallsOf(state, job.key) + 1])
    case Settle(thread, next, result, diagnostic) =>
      state.(
        store := UpdateStore(state.store, FromJob(state.steps[thread].job, next, result, diagnostic)),
        steps := state.steps - {thread})
    case Reject(thread, result) => state.(steps := state.steps[thread := Rejected(state.steps[thread].job, result)])
    case SettleRejected(thread, reason) =>
      var step := state.steps[thread];
      state.(
        store := UpdateStore(state.store, FromJob(step.job, FAILED, step.result, Some(reason))),
        steps := state.steps - {thread})
    case Read(thread, key) => state.(steps := state.steps[thread := Deciding(state.store[key])])
    case Restart => state.(steps := map[])
  }

  const START := State(map[], map[], map[])

  // ----- The invariant -----

  /** A job is accepted exactly at its first revision, and running only at its second. */
  predicate Revised(store: Store) {
    forall key <- store ::
      && store[key].key == key
      && store[key].revision >= 1
      && (store[key].state == ACCEPTED <==> store[key].revision == 1)
      && (store[key].state == RUNNING ==> store[key].revision == 2)
  }

  predicate OnePerRequest(store: Store) {
    forall a <- store, b <- store ::
      SameRequest(store[b], store[a].key.owner, store[a].key.scope, store[a].kind, store[a].identity) ==> a == b
  }

  predicate Snapshots(state: State) {
    forall thread <- state.steps ::
      var job := state.steps[thread].job;
      && job.key in state.store
      && job.revision <= state.store[job.key].revision
      && (state.steps[thread].Holding? ==> job.revision == 1)
  }

  predicate CalledOnce(state: State) {
    && (forall key <- state.calls :: state.calls[key] <= 1)
    && (forall key <- state.calls :: state.calls[key] > 0 ==> key in state.store && state.store[key].revision >= 2)
    && (forall thread <- state.steps :: state.steps[thread].Claimed? ==>
          CallsOf(state, state.steps[thread].job.key) == 0
          && state.steps[thread].job.revision == 2 && state.steps[thread].job.state == RUNNING)
    && (forall a <- state.steps, b <- state.steps ::
          (state.steps[a].Claimed? && state.steps[b].Claimed? && state.steps[a].job.key == state.steps[b].job.key)
            ==> a == b)
  }

  predicate Sound(state: State) {
    Revised(state.store) && Snapshots(state) && CalledOnce(state)
  }

  /** The store has at least the jobs of the other one, none at an earlier revision. */
  predicate Grows(store: Store, next: Store) {
    forall key <- store :: key in next && store[key].revision <= next[key].revision
  }

  lemma {:induction false} SnapshotsStay(state: State, next: State)
    requires Snapshots(state) && Grows(state.store, next.store)
    requires forall thread <- next.steps :: thread in state.steps && next.steps[thread] == state.steps[thread]
    ensures Snapshots(next)
  {
  }

  lemma {:induction false} CallsStay(state: State, next: State)
    requires CalledOnce(state) && Grows(state.store, next.store) && next.calls == state.calls
    requires forall thread <- next.steps :: thread in state.steps && next.steps[thread] == state.steps[thread]
    ensures CalledOnce(next)
  {
  }

  /** A stored change that adds no step keeps everything. */
  lemma {:induction false} StoreKeeps(state: State, next: State)
    requires Sound(state) && Revised(next.store) && Grows(state.store, next.store) && next.calls == state.calls
    requires forall thread <- next.steps :: thread in state.steps && next.steps[thread] == state.steps[thread]
    ensures Sound(next)
  {
    SnapshotsStay(state, next);
    CallsStay(state, next);
  }

  lemma {:induction false} AcceptGrows(store: Store, job: Job)
    requires Revised(store) && IsNew(job)
    ensures Revised(AcceptStore(store, job)) && Grows(store, AcceptStore(store, job))
    ensures forall key <- store :: AcceptStore(store, job)[key] == store[key]
  {
  }

  lemma {:induction false} AcceptKeeps(state: State, job: Job)
    requires Sound(state) && IsNew(job)
    ensures Sound(state.(store := AcceptStore(state.store, job)))
  {
    AcceptGrows(state.store, job);
    StoreKeeps(state, state.(store := AcceptStore(state.store, job)));
  }

  /** What one stored change does: only its own job, from its exact revision. */
  lemma {:induction false} ChangeKeeps(store: Store, change: Change)
    requires Revised(store)
    requires change.state != ACCEPTED && (change.state == RUNNING ==> change.expected == 1)
    ensures Revised(UpdateStore(store, change))
    ensures UpdateStore(store, change).Keys == store.Keys
    ensures Grows(store, UpdateStore(store, change))
  {
  }

  /** A thread stores a final state, or fails to, and is free. */
  lemma {:induction false} StoringKeeps(state: State, thread: nat, change: Change)
    requires Sound(state) && Final(change.state)
    ensures Sound(state.(store := UpdateStore(state.store, change), steps := state.steps - {thread}))
  {
    ChangeKeeps(state.store, change);
    StoreKeeps(state, state.(store := UpdateStore(state.store, change), steps := state.steps - {thread}));
  }

  /** A claim succeeds only on the first revision, so no other claim was before it. */
  lemma {:induction false} ClaimKeeps(state: State, thread: nat, change: Change)
    requires Sound(state) && change.state == RUNNING && change.expected == 1 && Matches(state.store, change)
    ensures var store := UpdateStore(state.store, change);
            Sound(state.(store := store, steps := state.steps[thread := Claimed(store[change.key])]))
  {
    ClaimIsAlone(state, change.key);
    StoringRunningKeeps(state, change);
    var store := UpdateStore(state.store, change);
    AddClaimKeeps(state.(store := store), thread, store[change.key]);
  }

  lemma {:induction false} StoringRunningKeeps(state: State, change: Change)
    requires Sound(state) && change.state == RUNNING && change.expected == 1
    ensures Sound(state.(store := UpdateStore(state.store, change)))
  {
    ChangeKeeps(state.store, change);
    StoreKeeps(state, state.(store := UpdateStore(state.store, change)));
  }

  lemma {:induction false} AddClaimKeeps(state: State, thread: nat, job: Job)
    requires Sound(state) && job.key in state.store && state.store[job.key] == job && job.state == RUNNING
    requires CallsOf(state, job.key) == 0
    requires forall other <- state.steps :: state.steps[other].Claimed? ==> state.steps[other].job.key != job.key
    ensures Sound(state.(steps := state.steps[thread := Claimed(job)]))
  {
  }

  lemma {:induction false} ClaimIsAlone(state: State, key: JobKey)
    requires Sound(state) && key in state.store && state.store[key].revision == 1
    ensures CallsOf(state, key) == 0
    ensures forall thread <- state.steps :: state.steps[thread].Claimed? ==> state.steps[thread].job.key != key
  {
  }

  lemma {:induction false} FreeKeeps(state: State, thread: nat)
    requires Sound(state)
    ensures Sound(state.(steps := state.steps - {thread}))
  {
    StoreKeeps(state, state.(steps := state.steps - {thread}));
  }

  lemma {:induction false} ReadKeeps(state: State, thread: nat, step: Step)
    requires Sound(state) && !step.Claimed? && step.job.key in state.store
    requires step.job.revision <= state.store[step.job.key].revision && (step.Holding? ==> step.job.revision == 1)
    ensures Sound(state.(steps := state.steps[thread := step]))
  {
  }

  lemma {:induction false} CallKeeps(state: State, thread: nat)
    requires Sound(state) && Enabled(state, Call(thread))
    ensures Sound(Next(state, Call(thread)))
  {
    var next := Next(state, Call(thread));
    assert Snapshots(next);
    CallCounts(state, thread);
  }

  lemma {:induction false} CallCounts(state: State, thread: nat)
    requires Revised(state.store) && Snapshots(state) && CalledOnce(state) && Enabled(state, Call(thread))
    ensures CalledOnce(Next(state, Call(thread)))
  {
    var key := state.steps[thread].job.key;
    assert CallsOf(state, key) == 0 && state.store[key].revision >= 2;
  }

  /** What the event would store, from its thread's snapshot. */
  function Write(state: State, event: Event): Option<Change>
    requires Enabled(state, event)
  {
    match event
    case Refuse(thread, reason) => Some(FromJob(state.steps[thread].job, FAILED, None, Some(reason)))
    case Claim(thread, binding, request) => Some(ClaimChange(state.steps[thread].job, binding, request))
    case Settle(thread, next, result, diagnostic) => Some(FromJob(state.steps[thread].job, next, result, diagnostic))
    case SettleRejected(thread, reason) =>
      Some(FromJob(state.steps[thread].job, FAILED, state.steps[thread].result, Some(reason)))
    case _ => None
  }

  lemma {:induction false} WriteKeeps(state: State, event: Event)
    requires Sound(state) && Enabled(state, event) && Write(state, event).Some?
    ensures Sound(Next(state, event))
  {
    var change := Write(state, event).value;
    if !event.Claim? {
      StoringKeeps(state, event.thread, change);
    } else if Matches(state.store, change) {
      ClaimKeeps(state, event.thread, change);
    } else {
      FreeKeeps(state, event.thread);
    }
  }

  lemma {:induction false} StepKeeps(state: State, event: Event)
    requires Sound(state) && Enabled(state, event)
    ensures Sound(Next(state, event))
  {
    match event
    case Accept(job) => AcceptKeeps(state, job);
    case Pick(thread, key) => ReadKeeps(state, thread, Holding(state.store[key]));
    case Wait(thread) => FreeKeeps(state, thread);
    case Refuse(_, _) => WriteKeeps(state, event);
    case Claim(_, _, _) => WriteKeeps(state, event);
    case Call(thread) => CallKeeps(state, thread);
    case Settle(_, _, _, _) => WriteKeeps(state, event);
    case Reject(thread, result) => ReadKeeps(state, thread, Rejected(state.steps[thread].job, result));
    case SettleRejected(_, _) => WriteKeeps(state, event);
    case Read(thread, key) => ReadKeeps(state, thread, Deciding(state.store[key]));
    case Restart => StoreKeeps(state, state.(steps := map[]));
  }

  // ----- Runs -----

  predicate IsRun(state: State, events: seq<Event>)
    decreases |events|
  {
    events == [] || (Enabled(state, events[0]) && IsRun(Next(state, events[0]), events[1..]))
  }

  function After(state: State, events: seq<Event>): State
    requires IsRun(state, events)
    decreases |events|
  {
    if events == [] then state else After(Next(state, events[0]), events[1..])
  }

  lemma {:induction false} RunKeeps(state: State, events: seq<Event>)
    requires Sound(state) && IsRun(state, events)
    ensures Sound(After(state, events))
    decreases |events|
  {
    if events != [] {
      StepKeeps(state, events[0]);
      RunKeeps(Next(state, events[0]), events[1..]);
    }
  }

  /** In every run, with any number of executors, cancels, reconciles and restarts: the capability of a job was
      called at most once, and an accepted job has had no call. */
  lemma {:induction false} AtMostOneCall(events: seq<Event>, key: JobKey)
    requires IsRun(START, events)
    ensures CallsOf(After(START, events), key) <= 1
    ensures var end := After(START, events);
            key in end.store && end.store[key].state == ACCEPTED ==> CallsOf(end, key) == 0
  {
    RunKeeps(START, events);
  }

  lemma {:induction false} ChangeKeepsRequests(store: Store, change: Change)
    requires Revised(store) && OnePerRequest(store)
    ensures OnePerRequest(UpdateStore(store, change))
  {
  }

  lemma {:induction false} AcceptKeepsRequests(store: Store, job: Job)
    requires Revised(store) && OnePerRequest(store)
    ensures OnePerRequest(AcceptStore(store, job))
  {
    var next := AcceptStore(store, job);
    if next != store {
      forall a <- next, b <- next
        | SameRequest(next[b], next[a].key.owner, next[a].key.scope, next[a].kind, next[a].identity)
        ensures a == b
      {
        assert SameRequest(next[a], next[b].key.owner, next[b].key.scope, next[b].kind, next[b].identity);
      }
    }
  }

  lemma {:induction false} NextStore(state: State, event: Event)
    requires Enabled(state, event)
    ensures Next(state, event).store ==
            if event.Accept? then AcceptStore(state.store, event.job)
            else if Write(state, event).Some? then UpdateStore(state.store, Write(state, event).value)
            else state.store
  {
  }

  lemma {:induction false} WriteIsAllowed(state: State, event: Event)
    requires Sound(state) && Enabled(state, event) && Write(state, event).Some?
    ensures var change := Write(state, event).value;
            change.state != ACCEPTED && (change.state == RUNNING ==> change.expected == 1)
  {
  }

  lemma {:induction false} StepKeepsRequests(state: State, event: Event)
    requires Sound(state) && OnePerRequest(state.store) && Enabled(state, event)
    ensures OnePerRequest(Next(state, event).store)
  {
    NextStore(state, event);
    if event.Accept? {
      AcceptKeepsRequests(state.store, event.job);
    } else if Write(state, event).Some? {
      ChangeKeepsRequests(state.store, Write(state, event).value);
    }
  }

  lemma {:induction false} RunKeepsRequests(state: State, events: seq<Event>)
    requires Sound(state) && OnePerRequest(state.store) && IsRun(state, events)
    ensures OnePerRequest(After(state, events).store)
    decreases |events|
  {
    if events != [] {
      StepKeeps(state, events[0]);
      StepKeepsRequests(state, events[0]);
      RunKeepsRequests(Next(state, events[0]), events[1..]);
    }
  }

  /** Two jobs of the same request are one job, so a request is called at most once as well. */
  lemma {:induction false} AtMostOneJobPerRequest(events: seq<Event>, a: JobKey, b: JobKey)
    requires IsRun(START, events)
    requires a in After(START, events).store && b in After(START, events).store
    requires var store := After(START, events).store;
             SameRequest(store[b], store[a].key.owner, store[a].key.scope, store[a].kind, store[a].identity)
    ensures a == b
  {
    RunKeepsRequests(START, events);
  }

  /** The executor calls only what it claimed: at each call it holds the running job of the second revision,
      and the job was not called before. */
  lemma {:induction false} CallsFollowClaims(events: seq<Event>, thread: nat)
    requires IsRun(START, events) && Enabled(After(START, events), Call(thread))
    ensures var end := After(START, events);
            var key := end.steps[thread].job.key;
            && key in end.store && end.store[key].revision >= 2 && CallsOf(end, key) == 0
            && end.steps[thread].job.state == RUNNING && end.steps[thread].job.revision == 2
  {
    RunKeeps(START, events);
  }

  // ----- Stale changes -----

  /** The event stores nothing: its revision is no longer the job's. */
  lemma {:induction false} StaleChangesNothing(store: Store, change: Change)
    requires change.key in store && store[change.key].revision != change.expected
    ensures UpdateStore(store, change) == store
  {
  }

  /** The job moves on: its revision does not fall, its state does not go back, and it stays the same request. */
  predicate MovesOn(job: Job, next: Job) {
    && job.revision <= next.revision
    && (job.state != ACCEPTED ==> next.state != ACCEPTED)
    && (job.state != ACCEPTED && job.state != RUNNING ==> next.state != RUNNING)
    && next.kind == job.kind && next.identity == job.identity
  }

  lemma {:induction false} ChangeMovesOn(store: Store, change: Change, key: JobKey)
    requires Revised(store) && key in store
    requires change.state != ACCEPTED && (change.state == RUNNING ==> change.expected == 1)
    ensures key in UpdateStore(store, change) && MovesOn(store[key], UpdateStore(store, change)[key])
  {
  }

  lemma {:induction false} StepMovesOn(state: State, event: Event, key: JobKey)
    requires Sound(state) && Enabled(state, event) && key in state.store
    ensures key in Next(state, event).store && MovesOn(state.store[key], Next(state, event).store[key])
  {
    NextStore(state, event);
    if event.Accept? {
      AcceptGrows(state.store, event.job);
    } else if Write(state, event).Some? {
      WriteIsAllowed(state, event);
      ChangeMovesOn(state.store, Write(state, event).value, key);
    }
  }

  lemma {:induction false} RevisionsOnlyGrow(state: State, events: seq<Event>, key: JobKey)
    requires Sound(state) && IsRun(state, events) && key in state.store
    ensures key in After(state, events).store && MovesOn(state.store[key], After(state, events).store[key])
    decreases |events|
  {
    if events != [] {
      StepKeeps(state, events[0]);
      StepMovesOn(state, events[0], key);
      RevisionsOnlyGrow(Next(state, events[0]), events[1..], key);
    }
  }

  /** A thread that lost the revision race writes nothing, however long it waits and whatever it then tries, a claim, a
      refusal, a result or a rejected result: its job keeps what the winner stored, and a lost claim makes no call. */
  lemma {:induction false} LoserWritesNothing(state: State, events: seq<Event>, thread: nat, event: Event)
    requires Sound(state) && IsRun(state, events) && thread in state.steps
    requires var job := state.steps[thread].job; job.key in state.store && job.revision < state.store[job.key].revision
    requires thread in After(state, events).steps && After(state, events).steps[thread].job == state.steps[thread].job
    requires Enabled(After(state, events), event) && Write(After(state, events), event).Some? && event.thread == thread
    ensures var end := After(state, events);
            && Next(end, event).store == end.store && Next(end, event).calls == end.calls
            && thread !in Next(end, event).steps
  {
    var job := state.steps[thread].job;
    RevisionsOnlyGrow(state, events, job.key);
    NextStore(After(state, events), event);
    StaleChangesNothing(After(state, events).store, Write(After(state, events), event).value);
  }

  /** After a restart and recovery, the original call of a job that was running is never repeated. */
  lemma {:induction false} RunningJobIsNeverCalledAgain(state: State, events: seq<Event>, key: JobKey)
    requires Sound(state) && IsRun(state, events)
    requires key in state.store && state.store[key].state != ACCEPTED && state.steps == map[]
    ensures CallsOf(After(state, events), key) == CallsOf(state, key)
  {
    NobodyClaims(state, events, key);
  }

  predicate Unclaimed(state: State, key: JobKey) {
    && key in state.store && state.store[key].revision >= 2
    && forall thread <- state.steps :: state.steps[thread].job.key == key ==> !state.steps[thread].Claimed?
  }

  lemma {:induction false} NobodyClaims(state: State, events: seq<Event>, key: JobKey)
    requires Sound(state) && IsRun(state, events) && Unclaimed(state, key)
    ensures CallsOf(After(state, events), key) == CallsOf(state, key)
    decreases |events|
  {
    if events != [] {
      StepKeeps(state, events[0]);
      StaysUnclaimed(state, events[0], key);
      NobodyClaims(Next(state, events[0]), events[1..], key);
    }
  }

  /** A claimed step is an old one, or a claim that matched. */
  lemma {:induction false} ClaimedComesFrom(state: State, event: Event, thread: nat)
    requires Revised(state.store) && Enabled(state, event)
    requires thread in Next(state, event).steps && Next(state, event).steps[thread].Claimed?
    ensures || (thread in state.steps && state.steps[thread] == Next(state, event).steps[thread])
            || (event.Claim? && event.thread == thread && Matches(state.store, Write(state, event).value)
                && Next(state, event).steps[thread].job.key == state.steps[thread].job.key)
  {
  }

  lemma {:induction false} NoClaimOf(state: State, event: Event, key: JobKey, thread: nat)
    requires Sound(state) && Enabled(state, event) && Unclaimed(state, key)
    requires thread in Next(state, event).steps && Next(state, event).steps[thread].job.key == key
    ensures !Next(state, event).steps[thread].Claimed?
  {
    if Next(state, event).steps[thread].Claimed? {
      ClaimedComesFrom(state, event, thread);
    }
  }

  lemma {:induction false} NoCallOf(state: State, event: Event, key: JobKey)
    requires Enabled(state, event) && Unclaimed(state, key)
    ensures CallsOf(Next(state, event), key) == CallsOf(state, key)
  {
  }

  lemma {:induction false} StaysUnclaimed(state: State, event: Event, key: JobKey)
    requires Sound(state) && Enabled(state, event) && Unclaimed(state, key)
    ensures Unclaimed(Next(state, event), key) && CallsOf(Next(state, event), key) == CallsOf(state, key)
  {
    StepMovesOn(state, event, key);
    NoCallOf(state, event, key);
    forall thread | thread in Next(state, event).steps && Next(state, event).steps[thread].job.key == key
      ensures !Next(state, event).steps[thread].Claimed?
    {
      NoClaimOf(state, event, key, thread);
    }
  }
}
