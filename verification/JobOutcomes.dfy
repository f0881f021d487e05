/** What a job stores after each of its writes, in the fields of its row (extensions/job_states.py, command_dispatch.py,
    command_execution.py, observer_execution.py, observer_settlement.py, job_control.py;
    repository/impl/sqlite/extension_jobs.py). */
module JobOutcomes {
  import opened Wrappers
  import opened Jobs
  import opened JobSelection
  import opened JobStores

  /** The rows of all other jobs stay as they were. */
  ghost predicate OthersStay(store: Store, next: Store, key: JobKey) {
    next.Keys == store.Keys && forall other <- store :: other != key ==> next[other] == store[other]
  }

  /** The row keeps whose job it is and what it was asked, one revision later. */
  predicate SameAttempt(job: Job, next: Job) {
    && next.key == job.key && next.kind == job.kind && next.identity == job.identity
    && next.binding == job.binding && next.request == job.request
    && next.revision == job.revision + 1
  }

  predicate Stores(job: Job, state: JobState, result: Option<string>, diagnostic: Option<string>) {
    job.state == state && job.result == result && job.diagnostic == diagnostic
  }

  /** What the answer to a call leaves in the row: a lost one an unknown outcome and its code, a checked one its state and
      its result alone, and rejected observations a failure with the result and its code. */
  predicate StoresAnswer(job: Job, reply: Reply) {
    match reply
    case Lost => Stores(job, OUTCOME_UNKNOWN, None, Some("host.reply_lost"))
    case Replied(state, result, rejected) =>
      if rejected then Stores(job, FAILED, Some(result), Some("host.observations_rejected"))
      else Stores(job, state, Some(result), None)
  }

  lemma {:induction false} AnswerIsStored(state: State, reply: Reply)
    requires 0 in state.steps && (state.steps[0].Called? || state.steps[0].Deciding?) && Checked(reply)
    requires var job := state.steps[0].job; job.key in state.store && state.store[job.key].revision == job.revision
    requires state.store[state.steps[0].job.key].key == state.steps[0].job.key
    ensures var key := state.steps[0].job.key;
            var next := Answered(state, reply).store;
            && OthersStay(state.store, next, key)
            && StoresAnswer(next[key], reply) && SameAttempt(state.store[key], next[key])
  {
  }

  /** A final state that is stored from the current revision, as after a proven stop: exactly that state, result and
      diagnostic. From an older revision it changes nothing. */
  lemma {:induction false} SettlementIsStored(
      state: State, thread: nat, end: JobState, result: Option<string>, diagnostic: Option<string>)
    requires Enabled(state, Settle(thread, end, result, diagnostic)) && Revised(state.store)
    requires state.steps[thread].job.key in state.store
    ensures var job := state.steps[thread].job;
            var next := Next(state, Settle(thread, end, result, diagnostic)).store;
            if state.store[job.key].revision != job.revision then next == state.store
            else
              && OthersStay(state.store, next, job.key)
              && Stores(next[job.key], end, result, diagnostic) && SameAttempt(state.store[job.key], next[job.key])
  {
  }

  /** What one execution of a job at its first revision leaves in its row. A claim can name a new binding and request. */
  predicate StoresExecution(
      job: Job, next: Job, readiness: Readiness, binding: Option<string>, request: Option<string>, reply: Reply)
  {
    match readiness
    case Inactive => next == job
    case Removed =>
      && Stores(next, FAILED, None,
           Some(match job.kind case COMMAND => "host.command_removed" case OBSERVER => "host.observer_removed"))
      && SameAttempt(job, next)
    case Refused(reason) => Stores(next, FAILED, None, Some(reason)) && SameAttempt(job, next)
    case Ready =>
      && StoresAnswer(next, reply)
      && next.key == job.key && next.kind == job.kind && next.identity == job.identity
      && next.binding == (match binding case None => job.binding case Some(named) => named)
      && next.request == (match request case None => job.request case Some(named) => named)
      && next.revision == job.revision + 2
  }

  lemma {:induction false} ExecutionIsStored(
      state: State, accepted: Job, readiness: Readiness, binding: Option<string>, request: Option<string>, reply: Reply)
    requires Revised(state.store) && state.steps == map[0 := Holding(accepted)] && Checked(reply)
    requires accepted.key in state.store && state.store[accepted.key] == accepted && accepted.revision == 1
    ensures var next := Executed(state, readiness, binding, request, reply).store;
            && OthersStay(state.store, next, accepted.key)
            && StoresExecution(accepted, next[accepted.key], readiness, binding, request, reply)
  {
    if readiness.Ready? {
      ClaimIsStored(state, 0, binding, request);
      var claimed := Next(state, Claim(0, binding, request));
      AnswerIsStored(Next(claimed, Call(0)), reply);
    }
  }

  /** A claim from the current revision stores a running job with no outcome; the thread then holds that row. */
  lemma {:induction false} ClaimIsStored(state: State, thread: nat, binding: Option<string>, request: Option<string>)
    requires Enabled(state, Claim(thread, binding, request)) && Revised(state.store)
    requires var job := state.steps[thread].job; job.key in state.store && state.store[job.key] == job
    ensures var job := state.steps[thread].job;
            var next := Next(state, Claim(thread, binding, request));
            && OthersStay(state.store, next.store, job.key)
            && thread in next.steps && next.steps[thread] == Claimed(next.store[job.key])
            && Stores(next.store[job.key], RUNNING, None, None)
            && next.store[job.key].key == job.key
            && next.store[job.key].kind == job.kind && next.store[job.key].identity == job.identity
            && next.store[job.key].binding == (match binding case None => job.binding case Some(named) => named)
            && next.store[job.key].request == (match request case None => job.request case Some(named) => named)
            && next.store[job.key].revision == job.revision + 1
  {
  }

  /** A recovered job has an unknown outcome and the code of the restart. */
  lemma {:induction false} RecoveryIsStored(state: State, keys: seq<JobKey>, rank: Rank, key: JobKey)
    requires Revised(state.store) && state.steps == map[] && OldestFirst(keys, rank)
    requires key in keys && key in state.store
    ensures var next := RecoveredAll(state, keys).store;
            && key in next
            && Stores(next[key], OUTCOME_UNKNOWN, None, Some("host.job_recovered"))
            && SameAttempt(state.store[key], next[key])
  {
    RecoverySettlesThePicked(state, keys, rank, key);
  }

  /** A request is stored as it was accepted: the first revision has no outcome. A known request and a taken key leave
      the table as it was. */
  lemma {:induction false} AcceptanceIsStored(state: State, job: Job)
    requires Enabled(state, Accept(job))
    ensures var next := Next(state, Accept(job)).store;
            var taken := job.key in state.store || exists key <- state.store ::
              && state.store[key].key.owner == job.key.owner && state.store[key].key.scope == job.key.scope
              && state.store[key].kind == job.kind && state.store[key].identity == job.identity;
            && (taken ==> next == state.store)
            && (!taken ==> next.Keys == state.store.Keys + {job.key} && next[job.key] == job)
            && (forall key <- state.store :: key in next && next[key] == state.store[key])
            && job.revision == 1 && Stores(job, ACCEPTED, None, None)
  {
    assert IsKnown(state.store, job.key.owner, job.key.scope, job.kind, job.identity) <==>
      exists key <- state.store :: SameRequest(state.store[key], job.key.owner, job.key.scope, job.kind, job.identity);
  }

  // ----- What stays over runs -----

  /** What the job was asked stays; only its claim can name another binding and request. */
  predicate AskedAs(job: Job, next: Job) {
    && next.key == job.key && next.kind == job.kind && next.identity == job.identity
    && (job.revision >= 2 ==> next.binding == job.binding && next.request == job.request)
  }

  lemma {:induction false} StepAsksAs(state: State, event: Event, key: JobKey)
    requires Sound(state) && Enabled(state, event) && key in state.store
    ensures key in Next(state, event).store && AskedAs(state.store[key], Next(state, event).store[key])
  {
    NextStore(state, event);
  }

  /** Over every run with restarts, from its claim on a job keeps its binding and its request. */
  lemma {:induction false} RequestIsFixedAtTheClaim(state: State, events: seq<Event>, key: JobKey)
    requires Sound(state) && IsRun(state, events) && key in state.store
    ensures key in After(state, events).store && AskedAs(state.store[key], After(state, events).store[key])
    decreases |events|
  {
    if events != [] {
      StepKeeps(state, events[0]);
      StepAsksAs(state, events[0], key);
      StepMovesOn(state, events[0], key);
      RequestIsFixedAtTheClaim(Next(state, events[0]), events[1..], key);
    }
  }

  // ----- What a thread holds -----

  /** A thread works on the row as it was when it picked or read it; a call and a rejection go on with that row, and every
      write and every wait ends its work. No event changes what another thread holds, but a restart. */
  lemma {:induction false} ThreadsHoldTheirRows(state: State, event: Event, other: nat)
    requires Enabled(state, event)
    ensures var next := Next(state, event);
            && (event.Pick? ==> event.thread in next.steps && next.steps[event.thread] == Holding(state.store[event.key]))
            && (event.Read? ==> event.thread in next.steps && next.steps[event.thread] == Deciding(state.store[event.key]))
            && (event.Call? ==>
                  && event.thread in next.steps && next.steps[event.thread] == Called(state.steps[event.thread].job)
                  && CallsOf(next, state.steps[event.thread].job.key) == CallsOf(state, state.steps[event.thread].job.key) + 1)
            && (event.Reject? ==>
                  && event.thread in next.steps
                  && next.steps[event.thread] == Rejected(state.steps[event.thread].job, event.result))
            && (event.Wait? || event.Refuse? || event.Settle? || event.SettleRejected? ==> event.thread !in next.steps)
            && (!event.Accept? && !event.Restart? && other != event.thread ==>
                  (other in next.steps <==> other in state.steps)
                  && (other in state.steps ==> next.steps[other] == state.steps[other]))
            && (!event.Call? ==> next.calls == state.calls)
  {
  }

  // ----- Restarts -----

  /** A restart ends every thread, and keeps the table and what was called. From it on, whatever is picked, read and
      settled, no job that had left the accepted state is called again. */
  lemma {:induction false} RestartRepeatsNothing(state: State, events: seq<Event>, key: JobKey)
    requires Sound(state) && IsRun(state, [Restart] + events)
    ensures var restarted := Next(state, Restart);
            restarted.steps == map[] && restarted.store == state.store && restarted.calls == state.calls
    ensures key in state.store && state.store[key].state != ACCEPTED ==>
              CallsOf(After(state, [Restart] + events), key) == CallsOf(state, key)
  {
    assert ([Restart] + events)[1..] == events;
    if key in state.store && state.store[key].state != ACCEPTED {
      StepKeeps(state, Restart);
      RunningJobIsNeverCalledAgain(Next(state, Restart), events, key);
    }
  }
}
