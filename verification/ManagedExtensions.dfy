/** The manager's methods over its own fields and owner objects, proved against the state machine
    (extensions/manager.py and the modules it calls). */
module ManagedExtension {
  import opened Wrappers
  import opened Manager
  import opened ManagerClose
  import opened ManagerLaws
  import opened ManagerProgress
  import R = Retirement

  lemma {:induction false} ObservationsStep(
      before: seq<R.Shutdown>, owners: map<Runtime, R.Owner>, retired: seq<Runtime>, i: nat)
    requires i < |retired| && forall runtime <- retired :: runtime in owners
    ensures before + Observations(owners, retired[i..])
         == before + [R.Observed(owners[retired[i]])] + Observations(owners, retired[i + 1..])
  {
    assert retired[i..][1..] == retired[i + 1..];
  }

  class ManagedExtensions {
    var mode: Mode
    var pending: Option<Pending>
    var active: Option<Runtime>
    var retired: seq<Runtime>
    var cleanup: Option<seq<Runtime>>
    var revision: nat
    var owners: map<Runtime, R.RetirementOwner>
    var registry: Registry
    var stopped: bool
    var leaseHeld: bool
    var records: seq<seq<R.Shutdown>>
    var made: seq<Snapshot>
    ghost var open: set<Runtime>
    ghost var tried: set<Runtime>
    ghost var closer: Closer

    /** Each retired runtime has its own owner object. */
    ghost predicate Valid()
      reads this
    {
      forall a <- owners, b <- owners :: owners[a] == owners[b] ==> a == b
    }

    function Owners(): map<Runtime, R.Owner>
      reads this`owners, owners.Values
    {
      map runtime | runtime in owners :: owners[runtime].View()
    }

    ghost function View(): State
      reads this, owners.Values
    {
      State(mode, pending, active, retired, cleanup, revision, Owners(), registry, stopped, closer, leaseHeld,
        records, made, open, tried)
    }

    constructor (revision: nat)
      ensures Valid() && View() == Start(revision)
    {
      mode, pending, active, retired, cleanup := Running, None, None, [], None;
      this.revision := revision;
      owners, registry, stopped, leaseHeld := map[], Registry(revision, 0, false), false, true;
      records, made, open, tried, closer := [], [], {}, {}, Outside;
    }

    // ----- Requests -----

    /** The retired owners whose resources are not closed. */
    method StillOwned() returns (kept: seq<Runtime>)
      requires forall runtime <- retired :: runtime in owners
      ensures kept == StillOpen(Owners(), retired)
    {
      kept := [];
      for i := 0 to |retired|
        invariant kept + StillOpen(Owners(), retired[i..]) == StillOpen(Owners(), retired)
      {
        assert retired[i..][1..] == retired[i + 1..];
        if !owners[retired[i]].closed {
          kept := kept + [retired[i]];
        }
      }
    }

    method CollectDone()
      requires Valid() && Listed(View())
      modifies this`retired, this`cleanup
      ensures Valid() && View() == CollectCleanup(old(View()))
    {
      if cleanup == Some([]) {
        retired := StillOwned();
        cleanup := None;
      }
    }

    method StartCleanup(starts: bool)
      modifies this`cleanup
      ensures View() == ScheduleCleanup(old(View()), starts)
    {
      if retired != [] && cleanup.None? {
        cleanup := Some(if starts then retired else []);
      }
    }

    /** Capture the removal order of a runtime in a new owner. */
    method AddOwner(runtime: Runtime)
      requires Valid() && runtime < |made|
      modifies this`owners, this`retired
      ensures Valid() && View() == Retire(old(View()), runtime)
      ensures fresh(owners.Values - old(owners.Values))
    {
      var snapshot := made[runtime];
      var owner := new R.RetirementOwner(snapshot.revision, snapshot.activeOrder, snapshot.packages);
      owners := owners[runtime := owner];
      retired := retired + [runtime];
    }

    method SubmitOperation(accepts: bool, starts: bool)
      requires Valid() && Invariant(View()) && (starts ==> !stopped)
      modifies this
      ensures Valid() && View() == Next(old(View()), Submit(accepts, starts))
    {
      if mode != Running {
        return;
      }
      CollectDone();
      if pending.Some? || retired != [] || !accepts {
        return;
      }
      pending := Some(Pending(revision, if starts then Working else Failed));
    }

    method RetryRetired(starts: bool)
      requires Valid() && Invariant(View()) && (starts ==> !stopped)
      modifies this
      ensures Valid() && View() == Next(old(View()), RetryCleanup(starts))
    {
      if mode != Running {
        return;
      }
      CollectDone();
      StartCleanup(starts);
    }

    /** Try one switch at the engine's boundary. The answer is missing when the attempt raises. */
    method Publish(commit: Commit, finish: Finished, starts: bool) returns (progress: Option<Progress>)
      requires Valid() && Invariant(View()) && (starts ==> !stopped)
      modifies this
      ensures Valid() && View() == Next(old(View()), PublishReady(commit, finish, starts))
      ensures progress == ProgressOf(old(View()), commit, finish, starts)
      ensures fresh(owners.Values - old(owners.Values))
    {
      var status := PublishStatus(commit, finish, starts);
      progress := ProgressFor(status);
    }

    method ProgressFor(status: Option<Status>) returns (progress: Option<Progress>)
      ensures progress
              == if status.None? then None else Some(Progress(status.value, revision, Available(View())))
    {
      if status.Some? {
        var allowed := mode == Running && (active.Some? || pending.None?);
        return Some(Progress(status.value, revision, allowed));
      }
      return None;
    }

    method PublishStatus(commit: Commit, finish: Finished, starts: bool) returns (status: Option<Status>)
      requires Valid() && Invariant(View()) && (starts ==> !stopped)
      modifies this
      ensures Valid() && View() == PublishState(old(View()), commit, finish, starts)
      ensures status == StatusOf(CollectCleanup(old(View())), commit, finish)
      ensures fresh(owners.Values - old(owners.Values))
    {
      ghost var before := View();
      if mode != Running {
        return Some(if mode == Fenced then IsFenced else IsClosing);
      }
      CollectDone();
      CollectKeeps(before);
      status := PublishCollected(commit, finish, starts, before);
    }

    method PublishCollected(commit: Commit, finish: Finished, starts: bool, ghost before: State)
      returns (status: Option<Status>)
      requires Valid() && mode == Running && Known(View()) && Known(before) && before.mode == Running
      requires View() == CollectCleanup(before)
      modifies this
      ensures Valid() && View() == PublishState(before, commit, finish, starts)
      ensures status == StatusOf(old(View()), commit, finish)
      ensures fresh(owners.Values - old(owners.Values))
    {
      if pending.None? {
        return Some(Idle);
      }
      if pending.value.task.Working? {
        return Some(Preparing);
      }
      if pending.value.task.Failed? {
        status := FinishUnprepared(finish);
        return;
      }
      PublishesCandidate(before, View(), commit, finish, starts);
      status := PublishPrepared(commit, finish, starts);
    }

    method FinishUnprepared(finish: Finished) returns (status: Option<Status>)
      requires pending.Some? && mode == Running
      modifies this`mode, this`pending
      ensures View() == if finish.FinishRaises? then old(View()) else FinishFailed(old(View()), finish)
      ensures status == FailedStatus(finish)
    {
      var stored := FinishPending(finish);
      if !stored {
        return None;
      }
      return Some(if mode == Running then OperationFailed else IsFenced);
    }

    /** The store may refuse: then another manager owns the stored state. */
    method FinishPending(finish: Finished) returns (stored: bool)
      requires pending.Some?
      modifies this`mode, this`pending
      ensures stored == !finish.FinishRaises?
      ensures View() == if stored then FinishFailed(old(View()), finish) else old(View())
    {
      if finish.FinishRaises? {
        return false;
      }
      if finish.FinishRefused? {
        mode := Fenced;
      }
      pending := None;
      return true;
    }

    method PublishPrepared(commit: Commit, finish: Finished, starts: bool) returns (status: Option<Status>)
      requires Valid() && Known(View()) && CandidateOf(View()).Some?
      modifies this
      ensures Valid() && View() == PublishCandidate(old(View()), commit, finish, starts)
      ensures status == CandidateStatus(old(View()), commit, finish)
      ensures fresh(owners.Values - old(owners.Values))
    {
      if registry.closing {
        return None;
      }
      if pending.value.expected != registry.revision {
        status := FencePrepared(finish, starts);
        return;
      }
      if registry.readers != 0 {
        return Some(Busy);
      }
      if commit.CommitRaises? {
        return None;
      }
      if commit.CommitRefused? {
        status := FencePrepared(finish, starts);
        return;
      }
      PublishStored(starts);
      return Some(Published);
    }

    method PublishStored(starts: bool)
      requires Valid() && Known(View()) && CandidateOf(View()).Some?
      modifies this
      ensures Valid() && View() == ScheduleCleanup(Switched(old(View())), starts)
      ensures fresh(owners.Values - old(owners.Values))
    {
      Switch(pending.value.task.runtime);
      StartCleanup(starts);
    }

    method RetireActive()
      requires Valid() && (active.Some? ==> active.value < |made|)
      modifies this`owners, this`retired, this`active
      ensures Valid() && View() == RetireOption(old(View()), old(active)).(active := None)
      ensures fresh(owners.Values - old(owners.Values))
    {
      if active.Some? {
        AddOwner(active.value);
        active := None;
      }
    }

    /** The candidate becomes active and the runtime before it is retired. */
    method Switch(candidate: Runtime)
      requires Valid() && (active.Some? ==> active.value < |made|)
      modifies this`owners, this`retired, this`active, this`registry, this`revision, this`pending
      ensures Valid() && fresh(owners.Values - old(owners.Values))
      ensures View() == RetireOption(old(View()), old(active)).(
        registry := old(registry).(revision := old(registry.revision) + 1),
        active := Some(candidate),
        revision := old(registry.revision) + 1,
        pending := None)
    {
      RetireActive();
      Activate(candidate);
    }

    method Activate(candidate: Runtime)
      modifies this`active, this`registry, this`revision, this`pending
      ensures View() == old(View()).(
        registry := old(registry).(revision := old(registry.revision) + 1),
        active := Some(candidate),
        revision := old(registry.revision) + 1,
        pending := None)
    {
      registry := registry.(revision := registry.revision + 1);
      active := Some(candidate);
      revision := registry.revision;
      pending := None;
    }

    method FencePrepared(finish: Finished, starts: bool) returns (status: Option<Status>)
      requires Valid() && Known(View()) && CandidateOf(View()).Some?
      modifies this
      ensures Valid() && View() == FenceCandidate(old(View()), finish, starts)
      ensures status == FenceStatus(finish)
      ensures fresh(owners.Values - old(owners.Values))
    {
      var candidate := pending.value.task.runtime;
      var stored := FinishPending(finish);
      if !stored {
        return None;
      }
      FenceStored(candidate, starts);
      return Some(IsFenced);
    }

    method FenceStored(candidate: Runtime, starts: bool)
      requires Valid() && candidate < |made|
      modifies this`owners, this`retired, this`mode, this`cleanup
      ensures Valid() && fresh(owners.Values - old(owners.Values))
      ensures View() == ScheduleCleanup(Retire(old(View()), candidate).(mode := Fenced), starts)
    {
      AddOwner(candidate);
      mode := Fenced;
      StartCleanup(starts);
    }

    // ----- Owners -----

    twostate lemma {:induction false} OneOwnerMoved(runtime: Runtime)
      requires runtime in owners && unchanged(this)
      requires forall other <- owners :: other != runtime ==> unchanged(owners[other])
      ensures View() == old(View()).(owners := old(Owners())[runtime := owners[runtime].View()])
    {
    }

    method DeactivateOwned(runtime: Runtime, answers: seq<R.Answer>)
      requires Valid() && runtime in owners && R.Fits(owners[runtime].View(), answers)
      modifies owners[runtime], this`open, this`tried
      ensures Valid()
      ensures View() == Update(old(View()), runtime, R.DeactivateOwner(old(owners[runtime].View()), answers))
    {
      owners[runtime].Deactivate(answers);
      OneOwnerMoved(runtime);
      Noticed(runtime);
    }

    method CloseOwned(runtime: Runtime, raises: bool)
      requires Valid() && runtime in owners
      modifies owners[runtime], this`open, this`tried
      ensures Valid()
      ensures View() == Update(old(View()), runtime, R.CloseOwner(old(owners[runtime].View()), raises))
    {
      owners[runtime].CloseResources(raises);
      OneOwnerMoved(runtime);
      Noticed(runtime);
    }

    method RetireOwned(runtime: Runtime, answers: seq<R.Answer>, raises: bool)
      requires Valid() && runtime in owners && R.Fits(owners[runtime].View(), answers)
      modifies owners[runtime], this`open, this`tried
      ensures Valid()
      ensures View() == Update(old(View()), runtime, R.RetireOwner(old(owners[runtime].View()), answers, raises))
    {
      var _ := owners[runtime].Retire(answers, raises);
      OneOwnerMoved(runtime);
      Noticed(runtime);
    }

    /** Note the physical state of a changed owner. */
    ghost method Noticed(runtime: Runtime)
      requires Valid() && runtime in owners
      modifies this`open, this`tried
      ensures Valid() && View() == Update(old(View()), runtime, owners[runtime].View())
    {
      assert Owners() == Owners()[runtime := owners[runtime].View()];
      if owners[runtime].closed {
        open := open - {runtime};
      }
      if R.Finished(owners[runtime].View()) {
        tried := tried + {runtime};
      }
    }

    // ----- Close -----

    /** Refuse new reads and wait for the borrowed ones; a timeout leaves everything owned. */
    method DrainRegistry(drains: bool)
      modifies this`registry, this`closer
      ensures View() == Drained(old(View()), drains)
    {
      registry := registry.(closing := true);
      if !drains {
        closer := Outside;
        return;
      }
      while registry.readers > 0
        invariant registry == old(registry).(closing := true, readers := registry.readers)
      {
        registry := registry.(readers := registry.readers - 1);
      }
      closer := Stopping;
    }

    /** Wait until the serial executor has finished its preparation or cleanup task. */
    method StopExecutor(script: CloseScript)
      requires Valid()
      requires var awaited := Awaited(View(), script.candidate);
               awaited.cleanup.Some? ==> AllOwned(awaited, awaited.cleanup.value)
      modifies this, owners.Values
      ensures Valid() && owners == old(owners) && View() == StopState(old(View()), script)
    {
      AwaitPreparation(script.candidate);
      RunCleanup(script);
      stopped := true;
      closer := Collecting;
    }

    method AwaitPreparation(candidate: Option<Snapshot>)
      modifies this`pending, this`open, this`made
      ensures View() == Awaited(old(View()), candidate)
    {
      if pending.Some? && pending.value.task.Working? {
        match candidate {
          case None => pending := Some(pending.value.(task := Failed));
          case Some(snapshot) =>
            pending := Some(pending.value.(task := Candidate(|made|)));
            open := open + {|made|};
            made := made + [snapshot];
        }
      }
    }

    method RunCleanup(script: CloseScript)
      requires Valid() && (cleanup.Some? ==> AllOwned(View(), cleanup.value))
      modifies this`cleanup, this`open, this`tried, owners.Values
      ensures Valid() && View() == Cleaned(old(View()), script)
    {
      while cleanup.Some? && cleanup.value != []
        invariant Valid() && (cleanup.Some? ==> AllOwned(View(), cleanup.value))
        invariant Cleaned(View(), script) == Cleaned(old(View()), script)
        decreases if cleanup.Some? then |cleanup.value| else 0
      {
        CleanupOnce(script);
      }
    }

    method CleanupOnce(script: CloseScript)
      requires Valid() && cleanup.Some? && cleanup.value != [] && AllOwned(View(), cleanup.value)
      modifies this`cleanup, this`open, this`tried, owners.Values
      ensures Valid() && View() == CleanStep(old(View()), script)
    {
      var runtime := cleanup.value[0];
      RetireOwned(runtime, AnswersOf(runtime, owners[runtime].View(), script.ask), runtime in script.failing);
      cleanup := Some(cleanup.value[1..]);
    }

    method CollectOwnedWork(finish: Finished) returns (collected: bool)
      requires Valid() && Known(View()) && Listed(View()) && closer == Collecting
      modifies this
      ensures Valid() && View() == CollectOwned(old(View()), finish)
      ensures closer == if collected then Asking(retired) else Outside
      ensures fresh(owners.Values - old(owners.Values))
    {
      CollectDone();
      collected := MoveOwnedWork(finish);
    }

    method MoveOwnedWork(finish: Finished) returns (moved: bool)
      requires Valid() && Known(View())
      modifies this`mode, this`pending, this`owners, this`retired, this`active, this`closer
      ensures Valid() && View() == MoveOwned(old(View()), finish)
      ensures closer == if moved then Asking(retired) else Outside
      ensures fresh(owners.Values - old(owners.Values))
    {
      moved := RetirePending(finish);
      if !moved {
        closer := Outside;
        return;
      }
      MoveActive();
    }

    method MoveActive()
      requires Valid() && (active.Some? ==> active.value < |made|)
      modifies this`owners, this`retired, this`active, this`closer
      ensures Valid() && closer == Asking(retired)
      ensures View() == RetireOption(old(View()), old(active)).(active := None, closer := Asking(retired))
      ensures fresh(owners.Values - old(owners.Values))
    {
      RetireActive();
      closer := Asking(retired);
    }

    /** Finish a pending operation as interrupted, and retire its candidate. */
    method RetirePending(finish: Finished) returns (finished: bool)
      requires Valid() && (CandidateOf(View()).Some? ==> CandidateOf(View()).value < |made|)
      modifies this`mode, this`pending, this`owners, this`retired
      ensures Valid() && fresh(owners.Values - old(owners.Values))
      ensures finished == !(old(pending).Some? && finish.FinishRaises?)
      ensures View() == if old(pending).Some? && finished
        then RetireOption(FinishFailed(old(View()), finish), CandidateOf(old(View()))) else old(View())
    {
      finished := true;
      if pending.Some? {
        var task := pending.value.task;
        finished := FinishPending(finish);
        if finished && task.Candidate? {
          AddOwner(task.runtime);
        }
      }
    }

    method AskAll(script: CloseScript)
      requires Valid() && closer == Asking(retired) && AllOwned(View(), retired)
      modifies this`closer, this`open, this`tried, owners.Values
      ensures Valid() && View() == AskedAll(old(View()), script)
    {
      AskEach(script);
      ghost var asked := Owners();
      closer := Noting;
      assert Owners() == asked;
    }

    method AskEach(script: CloseScript)
      requires Valid() && closer == Asking(retired) && AllOwned(View(), retired)
      modifies this`closer, this`open, this`tried, owners.Values
      ensures Valid() && closer == Asking([]) && AskedAll(View(), script) == AskedAll(old(View()), script)
    {
      for i := 0 to |retired|
        invariant Valid() && closer == Asking(retired[i..]) && AllOwned(View(), retired[i..])
        invariant AskedAll(View(), script) == AskedAll(old(View()), script)
      {
        assert retired[i..][1..] == retired[i + 1..];
        AskedAllStep(View(), script);
        AskOnce(script, retired[i]);
      }
    }

    method AskOnce(script: CloseScript, runtime: Runtime)
      requires Valid() && closer.Asking? && closer.todo != [] && closer.todo[0] == runtime
      requires AllOwned(View(), closer.todo)
      modifies this`closer, this`open, this`tried, owners.Values
      ensures Valid() && View() == AskStep(old(View()), script)
    {
      assert runtime in View().owners;
      DeactivateOwned(runtime, AnswersOf(runtime, owners[runtime].View(), script.ask));
      closer := Asking(closer.todo[1..]);
    }

    /** Close each retired runtime once, whatever happens to the others. */
    method ReleaseAll(script: CloseScript)
      requires Valid() && closer == Releasing(retired) && AllOwned(View(), retired)
      modifies this`closer, this`open, this`tried, owners.Values
      ensures Valid() && View() == ReleasedAll(old(View()), script)
    {
      ReleaseEach(script);
      ghost var released := Owners();
      closer := Recording;
      assert Owners() == released;
    }

    method ReleaseEach(script: CloseScript)
      requires Valid() && closer == Releasing(retired) && AllOwned(View(), retired)
      modifies this`closer, this`open, this`tried, owners.Values
      ensures Valid() && closer == Releasing([]) && ReleasedAll(View(), script) == ReleasedAll(old(View()), script)
    {
      for i := 0 to |retired|
        invariant Valid() && closer == Releasing(retired[i..]) && AllOwned(View(), retired[i..])
        invariant ReleasedAll(View(), script) == ReleasedAll(old(View()), script)
      {
        assert retired[i..][1..] == retired[i + 1..];
        ReleasedAllStep(View(), script);
        ReleaseOnce(script, retired[i]);
      }
    }

    method ReleaseOnce(script: CloseScript, runtime: Runtime)
      requires Valid() && closer.Releasing? && closer.todo != [] && closer.todo[0] == runtime
      requires AllOwned(View(), closer.todo)
      modifies this`closer, this`open, this`tried, owners.Values
      ensures Valid() && View() == ReleaseStep(old(View()), script)
    {
      assert runtime in View().owners;
      CloseOwned(runtime, runtime in script.failing);
      closer := Releasing(closer.todo[1..]);
    }

    /** Store what is known of each retired runtime. */
    method Record(stored: bool)
      requires AllOwned(View(), retired)
      modifies this`closer, this`records
      ensures View() == Recorded(old(View()), stored)
    {
      if stored {
        var observed := ObserveAll();
        records := records + [observed];
        closer := if closer.Noting? then Releasing(retired) else Finishing;
      } else {
        closer := Outside;
      }
    }

    method ObserveAll() returns (observed: seq<R.Shutdown>)
      requires forall runtime <- retired :: runtime in owners
      ensures observed == Observations(Owners(), retired)
    {
      observed := [];
      for i := 0 to |retired|
        invariant observed + Observations(Owners(), retired[i..]) == Observations(Owners(), retired)
      {
        ObservationsStep(observed, Owners(), retired, i);
        var one := owners[retired[i]].Observation();
        observed := observed + [one];
      }
    }

    /** Release the lease unless a retired runtime may still execute work. */
    method FinishClose(leaseRaises: bool)
      requires Listed(View())
      modifies this`mode, this`retired, this`leaseHeld, this`closer
      ensures View() == Ended(old(View()), leaseRaises)
    {
      var clear := true;
      for i := 0 to |retired|
        invariant clear <==> forall k :: 0 <= k < i ==> Owners()[retired[k]].closed
      {
        clear := clear && owners[retired[i]].closed;
      }
      closer := Outside;
      if clear && !leaseRaises {
        leaseHeld := false;
        retired := [];
        mode := Closed;
      }
    }

    /** Close from any state of the manager. It returns normally exactly when nothing stood in its way, and
        then the manager is closed and the lease released; otherwise the lease stays held. */
    method Close(script: CloseScript) returns (done: bool)
      requires Valid() && Invariant(View()) && closer == Outside
      modifies this, owners.Values
      ensures Valid() && View() == CloseState(old(View()), script)
      ensures done <==> mode == Closed
    {
      if mode == Closed {
        return true;
      }
      ghost var start := View();
      BegunFollows(start);
      CloseIsBegun(start, script);
      BeginClose();
      FinishBegun(script, start);
      done := mode == Closed;
    }

    method BeginClose()
      modifies this`mode, this`closer
      ensures View() == Begun(old(View()))
    {
      mode, closer := Closing, Draining;
    }

    method FinishBegun(script: CloseScript, ghost start: State)
      requires Valid() && Follows(start, View()) && closer == Draining
      modifies this, owners.Values
      ensures Valid() && View() == CloseBegun(start, old(View()), script)
    {
      DrainedFollows(start, View(), script.drains);
      DrainRegistry(script.drains);
      if script.drains {
        FinishDrained(script, start);
      }
    }

    method FinishDrained(script: CloseScript, ghost start: State)
      requires Valid() && Follows(start, View()) && closer == Stopping
      modifies this, owners.Values
      ensures Valid() && View() == CloseDrained(start, old(View()), script)
    {
      StoppedFollows(start, View(), script);
      StopExecutor(script);
      FinishStopped(script, start);
    }

    method FinishStopped(script: CloseScript, ghost start: State)
      requires Valid() && Follows(start, View()) && closer == Collecting
      modifies this, owners.Values
      ensures Valid() && View() == CloseStopped(start, old(View()), script)
    {
      CollectedFollows(start, View(), script.finish);
      var moved := CollectOwnedWork(script.finish);
      if moved {
        FinishCollected(script, start);
      }
    }

    method FinishCollected(script: CloseScript, ghost start: State)
      requires Valid() && Follows(start, View()) && closer == Asking(retired) && AllOwned(View(), retired)
      modifies this, owners.Values
      ensures Valid() && View() == CloseCollected(start, old(View()), script)
    {
      AskedFollows(start, View(), script);
      AskAll(script);
      FinishAsked(script, start);
    }

    method FinishAsked(script: CloseScript, ghost start: State)
      requires Valid() && Follows(start, View()) && closer == Noting
      modifies this, owners.Values
      ensures Valid() && View() == CloseAsked(start, old(View()), script)
    {
      RecordedFollows(start, View(), script.noted);
      Record(script.noted);
      if script.noted {
        FinishNoted(script, start);
      }
    }

    method FinishNoted(script: CloseScript, ghost start: State)
      requires Valid() && Follows(start, View()) && closer == Releasing(retired) && AllOwned(View(), retired)
      modifies this, owners.Values
      ensures Valid() && View() == CloseNoted(start, old(View()), script)
    {
      ghost var noted := View();
      ReleasedFollows(start, noted, script);
      ReleaseAll(script);
      FinishReleased(script, start);
    }

    method FinishReleased(script: CloseScript, ghost start: State)
      requires Valid() && Follows(start, View()) && closer == Recording && FinishedExcept(View(), [])
      modifies this`closer, this`records, this`mode, this`retired, this`leaseHeld
      ensures Valid() && View() == CloseReleased(start, old(View()), script)
    {
      ghost var released := View();
      RecordedFollows(start, released, script.recorded);
      Record(script.recorded);
      if script.recorded {
        ghost var recorded := View();
        EndedFollows(start, recorded, script.leaseRaises);
        FinishClose(script.leaseRaises);
      }
    }
  }
}
