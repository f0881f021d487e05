/** The job operations over one stored table, proved to be runs of the job state machine
    (extensions/job_states.py, command_dispatch.py, command_execution.py, observer_execution.py,
    observer_settlement.py, command_recovery.py, job_control.py; repository/impl/sqlite/extension_jobs.py). */
module JobStores {
  import opened Wrappers
  import opened Jobs
  import opened JobSelection

  const RECOVERY := "host.job_recovered"
  const REPLY_LOST := "host.reply_lost"
  const REJECTED := "host.observations_rejected"

  /** The active package no longer declares the capability of the job. */
  function RemovedCode(kind: JobKind): string {
    match kind
    case COMMAND => "host.command_removed"
    case OBSERVER => "host.observer_removed"
  }

  /** What the active package says about an accepted job: its package is not active, the capability was removed,
      the host refuses the call, or the call can run. */
  datatype Readiness = Inactive | Removed | Refused(reason: string) | Ready

  /** How a capability call ends. The host can reject the observations of an observer's result. */
  datatype Reply = Lost | Replied(state: JobState, result: string, rejected: bool)

  predicate Checked(reply: Reply) {
    reply.Replied? ==> Final(reply.state)
  }

  /** The state in which one thread works on the job. */
  function Alone(store: Store, step: Step, calls: map<JobKey, nat>): State {
    State(store, map[0 := step], calls)
  }

  /** The run that settles one answer. */
  function Answered(state: State, reply: Reply): State
    requires 0 in state.steps && (state.steps[0].Called? || state.steps[0].Deciding?) && Checked(reply)
  {
    match reply
    case Lost => Next(state, Settle(0, OUTCOME_UNKNOWN, None, Some(REPLY_LOST)))
    case Replied(final, result, rejected) =>
      if rejected then Next(Next(state, Reject(0, Some(result))), SettleRejected(0, REJECTED))
      else Next(state, Settle(0, final, Some(result), None))
  }

  /** The run of one accepted job from the executor's snapshot. */
  function Executed(
      state: State, readiness: Readiness, binding: Option<string>, request: Option<string>, reply: Reply): State
    requires 0 in state.steps && state.steps[0].Holding? && Checked(reply)
  {
    match readiness
    case Inactive => Next(state, Wait(0))
    case Removed => Next(state, Refuse(0, RemovedCode(state.steps[0].job.kind)))
    case Refused(reason) => Next(state, Refuse(0, reason))
    case Ready =>
      var claimed := Next(state, Claim(0, binding, request));
      if 0 in claimed.steps then Answered(Next(claimed, Call(0)), reply) else claimed
  }

  lemma {:induction false} ClaimRuns(
      store: Store, accepted: Job, calls: map<JobKey, nat>, binding: Option<string>, request: Option<string>, reply: Reply)
    requires Checked(reply)
    ensures var change := ClaimChange(accepted, binding, request);
            var claimed := UpdateStore(store, change);
            Executed(Alone(store, Holding(accepted), calls), Ready, binding, request, reply) ==
              if Matches(store, change)
              then Answered(Next(Alone(claimed, Claimed(claimed[accepted.key]), calls), Call(0)), reply)
              else State(store, map[], calls)
  {
    var start := Alone(store, Holding(accepted), calls);
    var change := ClaimChange(accepted, binding, request);
    var claimed := UpdateStore(store, change);
    if Matches(store, change) {
      assert Next(start, Claim(0, binding, request)) == Alone(claimed, Claimed(claimed[accepted.key]), calls);
    } else {
      assert start.steps - {0} == map[];
    }
  }

  class JobStore {
    var jobs: Store
    ghost var calls: map<JobKey, nat>

    constructor ()
      ensures jobs == map[] && calls == map[]
    {
      jobs, calls := map[], map[];
    }

    /** Insert one job, or return the stored job of the same request. A taken key raises. */
    method AcceptJob(job: Job) returns (stored: Option<Job>)
      requires IsNew(job)
      modifies this`jobs
      ensures jobs == AcceptStore(old(jobs), job)
      ensures stored.Some? ==>
        && stored.value.key.owner == job.key.owner && stored.value.kind == job.kind && stored.value.identity == job.identity
        && exists key <- jobs :: jobs[key] == stored.value
      ensures stored.None? <==> !IsKnown(old(jobs), job.key.owner, job.key.scope, job.kind, job.identity) && job.key in old(jobs)
    {
      var left := jobs.Keys;
      while left != {}
        invariant left <= jobs.Keys
        invariant forall key <- jobs.Keys - left ::
          !SameRequest(jobs[key], job.key.owner, job.key.scope, job.kind, job.identity)
        decreases left
      {
        var key: JobKey :| key in left;
        left := left - {key};
        if SameRequest(jobs[key], job.key.owner, job.key.scope, job.kind, job.identity) {
          return Some(jobs[key]);
        }
      }
      assert forall key <- jobs :: key in jobs.Keys - left;
      if job.key in jobs {
        return None;
      }
      jobs := jobs[job.key := job];
      assert jobs[job.key] == job;
      return Some(job);
    }

    /** Advance one job when its revision still matches; None stands for the raised error. */
    method UpdateState(change: Change) returns (stored: Option<Job>)
      modifies this`jobs
      ensures jobs == UpdateStore(old(jobs), change)
      ensures stored.Some? <==> Matches(old(jobs), change)
      ensures stored.Some? ==> change.key in jobs && stored.value == jobs[change.key]
    {
      if change.key !in jobs || jobs[change.key].revision != change.expected {
        return None;
      }
      jobs := jobs[change.key := Changed(jobs[change.key], change)];
      return Some(jobs[change.key]);
    }

    /** Read the stored job again after a lost revision race. */
    method Current(job: Job) returns (stored: Job)
      ensures stored == CurrentJob(jobs, job)
    {
      return if job.key in jobs then jobs[job.key] else job;
    }

    method SettleJob(job: Job, state: JobState, result: Option<string>, diagnostic: Option<string>) returns (stored: Job)
      requires Revised(jobs)
      modifies this`jobs
      ensures jobs == UpdateStore(old(jobs), FromJob(job, state, result, diagnostic))
      ensures stored == CurrentJob(jobs, job) && jobs.Keys == old(jobs).Keys
    {
      var change := FromJob(job, state, result, diagnostic);
      var updated := UpdateState(change);
      if updated.None? {
        stored := Current(job);
        return;
      }
      return updated.value;
    }

    /** Store an answer; rejected observations fail the job from the same revision. */
    method StoreReply(job: Job, reply: Reply, ghost state: State) returns (stored: Job)
      requires Revised(jobs) && Checked(reply)
      requires 0 in state.steps && (state.steps[0].Called? || state.steps[0].Deciding?)
      requires state.store == jobs && state.calls == calls && state.steps == map[0 := state.steps[0]] && state.steps[0].job == job
      modifies this`jobs
      ensures State(jobs, map[], calls) == Answered(state, reply)
      ensures stored == CurrentJob(jobs, job) && jobs.Keys == old(jobs).Keys
    {
      assert state.steps - {0} == map[];
      match reply {
        case Lost => stored := SettleJob(job, OUTCOME_UNKNOWN, None, Some(REPLY_LOST));
        case Replied(final, result, rejected) =>
          if rejected {
            stored := SettleJob(job, FAILED, Some(result), Some(REJECTED));
          } else {
            stored := SettleJob(job, final, Some(result), None);
          }
      }
    }

    /** Claim the accepted job, call the capability once, and store the checked result. */
    method Execute(accepted: Job, binding: Option<string>, request: Option<string>, reply: Reply) returns (stored: Job)
      requires Revised(jobs) && Checked(reply) && accepted.revision == 1
      modifies this
      ensures State(jobs, map[], calls) == Executed(Alone(old(jobs), Holding(accepted), old(calls)), Ready, binding, request, reply)
      ensures stored == CurrentJob(jobs, accepted)
    {
      ClaimRuns(jobs, accepted, calls, binding, request, reply);
      ChangeKeeps(jobs, ClaimChange(accepted, binding, request));
      var running := UpdateState(ClaimChange(accepted, binding, request));
      if running.None? {
        stored := Current(accepted);
        return;
      }
      assert running.value.key == accepted.key;
      stored := CallClaimed(running.value, reply);
    }

    /** Call the capability once and store what it answers. */
    method CallClaimed(running: Job, reply: Reply) returns (stored: Job)
      requires Revised(jobs) && Checked(reply)
      modifies this
      ensures State(jobs, map[], calls) == Answered(Next(Alone(old(jobs), Claimed(running), old(calls)), Call(0)), reply)
      ensures stored == CurrentJob(jobs, running) && jobs.Keys == old(jobs).Keys
    {
      ghost var called := Next(Alone(jobs, Claimed(running), calls), Call(0));
      calls := called.calls;
      assert called.steps == map[0 := Called(running)];
      stored := StoreReply(running, reply, called);
    }

    /** Run one job from the executor's snapshot; a job that is not accepted is returned as it is. */
    method RunJob(accepted: Job, readiness: Readiness, binding: Option<string>, request: Option<string>, reply: Reply)
      returns (stored: Job)
      requires Revised(jobs) && Checked(reply) && (accepted.state == ACCEPTED ==> accepted.revision == 1)
      modifies this
      ensures accepted.state != ACCEPTED ==> jobs == old(jobs) && calls == old(calls) && stored == accepted
      ensures accepted.state == ACCEPTED ==>
        State(jobs, map[], calls)
          == Executed(Alone(old(jobs), Holding(accepted), old(calls)), readiness, binding, request, reply)
      ensures accepted.state == ACCEPTED && !readiness.Inactive? ==> stored == CurrentJob(jobs, accepted)
    {
      if accepted.state != ACCEPTED {
        return accepted;
      }
      ghost var start := Alone(jobs, Holding(accepted), calls);
      assert start.steps - {0} == map[];
      match readiness {
        case Inactive => stored := accepted;
        case Removed => stored := SettleJob(accepted, FAILED, None, Some(RemovedCode(accepted.kind)));
        case Refused(reason) => stored := SettleJob(accepted, FAILED, None, Some(reason));
        case Ready => stored := Execute(accepted, binding, request, reply);
      }
    }

    /** Store a proven stop only; the other acknowledgments change nothing. */
    method CancelJob(job: Job, stop: JobState, proven: bool, diagnostic: Option<string>) returns (stored: Job)
      requires Revised(jobs) && (stop == CANCELED || stop == OUTCOME_UNKNOWN)
      modifies this`jobs
      ensures !proven ==> jobs == old(jobs) && stored == job
      ensures proven ==>
        && stored == CurrentJob(jobs, job)
        && State(jobs, map[], calls) == Next(Alone(old(jobs), Deciding(job), calls), Settle(0, stop, None, diagnostic))
    {
      if !proven {
        return job;
      }
      assert Alone(jobs, Deciding(job), calls).steps - {0} == map[];
      stored := SettleJob(job, stop, None, diagnostic);
    }

    /** Store the outcome that an inspection of the attempt found, without a second call. */
    method ReconcileJob(job: Job, reply: Reply) returns (stored: Job)
      requires Revised(jobs) && Checked(reply)
      modifies this`jobs
      ensures State(jobs, map[], calls) == Answered(Alone(old(jobs), Deciding(job), calls), reply)
      ensures stored == CurrentJob(jobs, job)
    {
      stored := StoreReply(job, reply, Alone(jobs, Deciding(job), calls));
    }

    /** The oldest jobs in one state, of any owner or of the given ones. */
    method JobsInState(state: JobState, limit: nat, owners: Option<set<string>>, rank: Rank) returns (found: seq<Job>)
      requires Revised(jobs) && Ranked(jobs, rank)
      ensures AreJobs(jobs, found)
      ensures AreOldest(KeysOf(found), SelectedKeys(jobs, state, owners), limit, rank)
      ensures forall job <- found :: job.state == state && (owners.None? || job.key.owner in owners.value)
      ensures |found| < limit ==> forall key <- jobs ::
        jobs[key].state == state && (owners.None? || jobs[key].key.owner in owners.value) ==> jobs[key] in found
    {
      var keys := TakeOldest(SelectedKeys(jobs, state, owners), limit, rank);
      found := [];
      for i := 0 to |keys|
        invariant KeysOf(found) == keys[..i] && AreJobs(jobs, found)
      {
        assert keys[i] in keys;
        KeysAppend(found, jobs[keys[i]]);
        assert keys[..i + 1] == keys[..i] + [keys[i]];
        found := found + [jobs[keys[i]]];
      }
      assert keys[..|keys|] == keys;
      FoundAreSelected(jobs, state, limit, owners, rank, found);
    }

    /** Mark the jobs that were running at a restart as outcome unknown; accepted jobs stay accepted. */
    method RecoverJobs(limit: nat, rank: Rank) returns (recovered: nat, ghost picked: seq<JobKey>)
      requires Revised(jobs) && Ranked(jobs, rank)
      modifies this`jobs
      ensures AreOldest(picked, SelectedKeys(old(jobs), RUNNING, None), limit, rank)
      ensures recovered == |picked|
      ensures State(jobs, map[], calls) == RecoveredAll(State(old(jobs), map[], old(calls)), picked)
    {
      var found := JobsInState(RUNNING, limit, None, rank);
      picked := KeysOf(found);
      recovered := 0;
      for i := 0 to |found|
        invariant recovered == i && Revised(jobs) && StillStored(jobs, found, i)
        invariant RecoveredAll(State(jobs, map[], calls), picked[i..]) == RecoveredAll(State(old(jobs), map[], calls), picked)
      {
        RecoverNext(jobs, calls, found, rank, i);
        var stored := UpdateState(RecoveryChange(found[i]));
        if stored.None? {
          continue;
        }
        recovered := recovered + 1;
      }
    }
  }

  function RecoveryChange(job: Job): Change {
    FromJob(job, OUTCOME_UNKNOWN, None, Some(RECOVERY))
  }

  /** The jobs that were found and not recovered yet are stored as they were found. */
  predicate StillStored(jobs: Store, found: seq<Job>, i: nat) {
    forall k :: i <= k < |found| ==> found[k].key in jobs && jobs[found[k].key] == found[k]
  }

  lemma {:induction false} FoundAreSelected(
      jobs: Store, state: JobState, limit: nat, owners: Option<set<string>>, rank: Rank, found: seq<Job>)
    requires AreJobs(jobs, found) && AreOldest(KeysOf(found), SelectedKeys(jobs, state, owners), limit, rank)
    ensures forall job <- found :: job.state == state && (owners.None? || job.key.owner in owners.value)
    ensures |found| < limit ==> forall key <- jobs ::
      jobs[key].state == state && (owners.None? || jobs[key].key.owner in owners.value) ==> jobs[key] in found
  {
    var keys := KeysOf(found);
    forall i | 0 <= i < |found|
      ensures Selected(found[i], state, owners)
    {
      assert keys[i] in keys;
    }
    forall key | key in SelectedKeys(jobs, state, owners) && |found| < limit
      ensures jobs[key] in found
    {
      var i :| 0 <= i < |keys| && keys[i] == key;
      assert found[i] == jobs[key];
    }
  }

  // ----- Jobs and their keys -----

  function KeysOf(found: seq<Job>): (keys: seq<JobKey>)
    ensures |keys| == |found|
    ensures forall i :: 0 <= i < |found| ==> keys[i] == found[i].key
  {
    seq(|found|, i requires 0 <= i < |found| => found[i].key)
  }

  predicate AreJobs(jobs: Store, found: seq<Job>) {
    forall i :: 0 <= i < |found| ==> found[i].key in jobs && jobs[found[i].key] == found[i]
  }

  lemma {:induction false} KeysAppend(found: seq<Job>, job: Job)
    ensures KeysOf(found + [job]) == KeysOf(found) + [job.key]
  {
  }

  lemma {:induction false} DistinctKeys(found: seq<Job>, rank: Rank, i: nat)
    requires OldestFirst(KeysOf(found), rank) && i < |found|
    ensures forall k :: i < k < |found| ==> found[k].key != found[i].key
  {
    var keys := KeysOf(found);
    assert forall k :: i < k < |found| ==> rank(keys[i]) < rank(keys[k]);
  }

  // ----- Recovery as a run -----

  /** The recovery of one job: the read after the restart, and the settlement from that snapshot. */
  function RecoveredOne(state: State, key: JobKey): State
    requires 0 !in state.steps
  {
    if key in state.store
    then Next(Next(state, Read(0, key)), Settle(0, OUTCOME_UNKNOWN, None, Some(RECOVERY)))
    else state
  }

  function RecoveredAll(state: State, keys: seq<JobKey>): State
    requires 0 !in state.steps
    decreases |keys|
  {
    if keys == [] then state else RecoveredAll(RecoveredOne(state, keys[0]), keys[1..])
  }

  lemma {:induction false} ReadAndSettle(jobs: Store, calls: map<JobKey, nat>, keys: seq<JobKey>, i: nat)
    requires Revised(jobs) && i < |keys| && keys[i] in jobs
    ensures RecoveredAll(State(jobs, map[], calls), keys[i..])
         == RecoveredAll(State(UpdateStore(jobs, RecoveryChange(jobs[keys[i]])), map[], calls), keys[i + 1..])
  {
    assert keys[i..][1..] == keys[i + 1..];
    var steps: map<nat, Step> := map[];
    assert steps[0 := Deciding(jobs[keys[i]])] - {0} == map[];
  }

  lemma {:induction false} RecoverNext(jobs: Store, calls: map<JobKey, nat>, found: seq<Job>, rank: Rank, i: nat)
    requires Revised(jobs) && i < |found| && StillStored(jobs, found, i) && OldestFirst(KeysOf(found), rank)
    ensures var next := UpdateStore(jobs, RecoveryChange(found[i]));
            && Matches(jobs, RecoveryChange(found[i]))
            && Revised(next) && StillStored(next, found, i + 1)
            && RecoveredAll(State(jobs, map[], calls), KeysOf(found)[i..])
               == RecoveredAll(State(next, map[], calls), KeysOf(found)[i + 1..])
  {
    DistinctKeys(found, rank, i);
    ReadAndSettle(jobs, calls, KeysOf(found), i);
    ChangeKeeps(jobs, RecoveryChange(found[i]));
  }

  function Recovered(job: Job): Job {
    Changed(job, RecoveryChange(job))
  }

  lemma {:induction false} RecoveredOneIs(state: State, key: JobKey)
    requires 0 !in state.steps && Revised(state.store)
    ensures RecoveredOne(state, key)
            == if key in state.store then state.(store := state.store[key := Recovered(state.store[key])]) else state
  {
    if key in state.store {
      assert state.steps[0 := Deciding(state.store[key])] - {0} == state.steps;
    }
  }

  lemma {:induction false} RecoveredOneKeeps(state: State, key: JobKey)
    requires state.steps == map[] && Sound(state) && key in state.store
    ensures var next := RecoveredOne(state, key);
            Sound(next) && next.calls == state.calls && next.steps == map[] && next.store.Keys == state.store.Keys
  {
    RecoveredOneIs(state, key);
    var read := Read(0, key);
    StepKeeps(state, read);
    StepKeeps(Next(state, read), Settle(0, OUTCOME_UNKNOWN, None, Some(RECOVERY)));
  }

  /** The recovery of running jobs calls no capability and keeps what every run keeps. */
  lemma {:induction false} RecoveryKeeps(state: State, keys: seq<JobKey>)
    requires state.steps == map[] && Sound(state) && (forall key <- keys :: key in state.store)
    ensures var end := RecoveredAll(state, keys);
            Sound(end) && end.calls == state.calls && end.steps == map[] && end.store.Keys == state.store.Keys
    decreases |keys|
  {
    if keys != [] {
      RecoveredOneKeeps(state, keys[0]);
      RecoveryKeeps(RecoveredOne(state, keys[0]), keys[1..]);
    }
  }

  lemma {:induction false} OtherJobsStay(state: State, keys: seq<JobKey>, key: JobKey)
    requires state.steps == map[] && Revised(state.store) && key in state.store && key !in keys
    ensures key in RecoveredAll(state, keys).store && RecoveredAll(state, keys).store[key] == state.store[key]
    decreases |keys|
  {
    if keys != [] {
      RecoveredOneIs(state, keys[0]);
      assert keys[0] in keys;
      OtherJobsStay(RecoveredOne(state, keys[0]), keys[1..], key);
    }
  }

  /** The recovery changes exactly the picked jobs, each once: to outcome unknown, from its running revision. */
  lemma {:induction false} RecoverySettlesThePicked(state: State, keys: seq<JobKey>, rank: Rank, key: JobKey)
    requires state.steps == map[] && Revised(state.store) && OldestFirst(keys, rank) && key in state.store
    ensures key in RecoveredAll(state, keys).store
    ensures RecoveredAll(state, keys).store[key] == if key in keys then Recovered(state.store[key]) else state.store[key]
    decreases |keys|
  {
    if key !in keys {
      OtherJobsStay(state, keys, key);
    } else {
      RecoveredOneIs(state, keys[0]);
      OldestFirstRest(keys, rank);
      if key == keys[0] {
        OtherJobsStay(RecoveredOne(state, keys[0]), keys[1..], key);
      } else {
        RecoverySettlesThePicked(RecoveredOne(state, keys[0]), keys[1..], rank, key);
      }
    }
  }

  /** A recovery that picked fewer jobs than its limit leaves no running job. */
  lemma {:induction false} FullRecoveryLeavesNoneRunning(state: State, keys: seq<JobKey>, limit: nat, rank: Rank, key: JobKey)
    requires state.steps == map[] && Revised(state.store) && |keys| < limit
    requires AreOldest(keys, SelectedKeys(state.store, RUNNING, None), limit, rank)
    requires key in state.store
    ensures key in RecoveredAll(state, keys).store && RecoveredAll(state, keys).store[key].state != RUNNING
  {
    RecoverySettlesThePicked(state, keys, rank, key);
    if key !in keys && state.store[key].state == RUNNING {
      OthersHoldNothingBack(state.store, RUNNING, None, limit, rank, keys, key);
    }
  }

  lemma {:induction false} OldestFirstRest(keys: seq<JobKey>, rank: Rank)
    requires keys != [] && OldestFirst(keys, rank)
    ensures OldestFirst(keys[1..], rank) && keys[0] !in keys[1..]
    ensures forall key :: key in keys <==> key == keys[0] || key in keys[1..]
  {
    assert forall i :: 0 <= i < |keys| - 1 ==> keys[1..][i] == keys[i + 1];
  }

  // ----- The runs keep what the state machine keeps -----

  lemma {:induction false} AnsweredKeeps(state: State, reply: Reply)
    requires Sound(state) && 0 in state.steps && (state.steps[0].Called? || state.steps[0].Deciding?) && Checked(reply)
    ensures Sound(Answered(state, reply)) && Answered(state, reply).calls == state.calls
  {
    match reply
    case Lost => StepKeeps(state, Settle(0, OUTCOME_UNKNOWN, None, Some(REPLY_LOST)));
    case Replied(final, result, rejected) =>
      if rejected {
        StepKeeps(state, Reject(0, Some(result)));
        StepKeeps(Next(state, Reject(0, Some(result))), SettleRejected(0, REJECTED));
      } else {
        StepKeeps(state, Settle(0, final, Some(result), None));
      }
  }

  /** A whole execution keeps what every run keeps. */
  lemma {:induction false} ExecutionKeeps(
      state: State, readiness: Readiness, binding: Option<string>, request: Option<string>, reply: Reply)
    requires Sound(state) && 0 in state.steps && state.steps[0].Holding? && Checked(reply)
    ensures Sound(Executed(state, readiness, binding, request, reply))
  {
    match readiness
    case Inactive => StepKeeps(state, Wait(0));
    case Removed => StepKeeps(state, Refuse(0, RemovedCode(state.steps[0].job.kind)));
    case Refused(reason) => StepKeeps(state, Refuse(0, reason));
    case Ready =>
      StepKeeps(state, Claim(0, binding, request));
      var claimed := Next(state, Claim(0, binding, request));
      if 0 in claimed.steps {
        StepKeeps(claimed, Call(0));
        AnsweredKeeps(Next(claimed, Call(0)), reply);
      }
  }

  /** An answer from the current revision makes the job final; a stale answer changes nothing. */
  lemma {:induction false} AnswerSettlesIffCurrent(state: State, reply: Reply)
    requires 0 in state.steps && (state.steps[0].Called? || state.steps[0].Deciding?) && Checked(reply)
    requires state.steps[0].job.key in state.store
    ensures var job := state.steps[0].job;
            var end := Answered(state, reply);
            if state.store[job.key].revision == job.revision
            then job.key in end.store && Final(end.store[job.key].state) && end.store[job.key].revision == job.revision + 1
            else end.store == state.store
  {
  }

  lemma {:induction false} AnswerCallsNothing(state: State, reply: Reply)
    requires 0 in state.steps && (state.steps[0].Called? || state.steps[0].Deciding?) && Checked(reply)
    ensures Answered(state, reply).calls == state.calls
  {
  }

  /** One execution calls the capability exactly when the job was still at its first revision and the package was
      ready. */
  lemma {:induction false} ExecutionCallsIffClaimed(
      state: State, accepted: Job, readiness: Readiness, binding: Option<string>, request: Option<string>, reply: Reply)
    requires Revised(state.store) && accepted.revision == 1 && accepted.key in state.store
    requires state.steps == map[0 := Holding(accepted)] && Checked(reply)
    ensures var calls := if readiness.Ready? && state.store[accepted.key].revision == 1 then 1 else 0;
            CallsOf(Executed(state, readiness, binding, request, reply), accepted.key) == CallsOf(state, accepted.key) + calls
  {
    if readiness.Ready? && state.store[accepted.key].revision == 1 {
      var claimed := Next(state, Claim(0, binding, request));
      assert claimed.steps[0].job.key == accepted.key;
      AnswerCallsNothing(Next(claimed, Call(0)), reply);
    }
  }

  /** A job that any other writer changed first is left alone; the job that was still at its first revision ends
      in a final state, unless its package is not active: then it stays accepted. */
  lemma {:induction false} ExecutionSettlesIffFirst(
      state: State, accepted: Job, readiness: Readiness, binding: Option<string>, request: Option<string>, reply: Reply)
    requires Revised(state.store) && accepted.revision == 1 && accepted.key in state.store
    requires state.steps == map[0 := Holding(accepted)] && Checked(reply)
    ensures var end := Executed(state, readiness, binding, request, reply);
            if readiness.Inactive? || state.store[accepted.key].revision != 1 then end.store == state.store
            else accepted.key in end.store && Final(end.store[accepted.key].state)
  {
    if readiness.Ready? && state.store[accepted.key].revision == 1 {
      var claimed := Next(state, Claim(0, binding, request));
      ClaimedAnswer(Next(claimed, Call(0)), accepted.key, reply);
    }
  }

  lemma {:induction false} ClaimedAnswer(state: State, key: JobKey, reply: Reply)
    requires 0 in state.steps && state.steps[0].Called? && Checked(reply) && state.steps[0].job.key == key
    requires key in state.store && state.store[key].revision == state.steps[0].job.revision
    ensures key in Answered(state, reply).store && Final(Answered(state, reply).store[key].state)
  {
    AnswerSettlesIffCurrent(state, reply);
  }
}
