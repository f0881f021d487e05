/** Scheduling of accepted jobs on one background pool, from any number of submitting threads
    (extensions/job_executor.py). */
module JobExecutors {
  import opened Wrappers
  import opened Jobs
  import opened JobSelection
  import S = JobStores

  /** `submitting` has the threads between the queued set and the pool; `tasks` waits in the pool for its one
      worker; a closed pool takes no more tasks and finishes those that it has. */
  datatype Schedule = Schedule(
    queued: set<JobKey>,
    submitting: map<nat, JobKey>,
    tasks: seq<JobKey>,
    running: Option<JobKey>,
    closed: bool)

  datatype Move =
    | Submit(thread: nat, key: JobKey)
    | PoolTakes(thread: nat)
    | PoolRefuses(thread: nat)
    | Begin
    | End
    | Close

  predicate CanMove(schedule: Schedule, move: Move) {
    match move
    case Submit(thread, _) => thread !in schedule.submitting
    case PoolTakes(thread) => thread in schedule.submitting && !schedule.closed
    case PoolRefuses(thread) => thread in schedule.submitting && schedule.closed
    case Begin => schedule.running.None? && schedule.tasks != []
    case End => schedule.running.Some?
    case Close => true
  }

  function Moved(schedule: Schedule, move: Move): Schedule
    requires CanMove(schedule, move)
  {
    match move
    case Submit(thread, key) =>
      if key in schedule.queued then schedule
      else schedule.(queued := schedule.queued + {key}, submitting := schedule.submitting[thread := key])
    case PoolTakes(thread) =>
      schedule.(
        tasks := schedule.tasks + [schedule.submitting[thread]],
        submitting := schedule.submitting - {thread})
    case PoolRefuses(thread) => schedule.(submitting := schedule.submitting - {thread})
    case Begin => schedule.(running := Some(schedule.tasks[0]), tasks := schedule.tasks[1..])
    case End => schedule.(running := None, queued := schedule.queued - {schedule.running.value})
    case Close => schedule.(closed := true)
  }

  /** The key has a task: on its way to the pool, waiting in it, or at work. */
  predicate InFlight(schedule: Schedule, key: JobKey) {
    || (exists thread <- schedule.submitting :: schedule.submitting[thread] == key)
    || key in schedule.tasks
    || schedule.running == Some(key)
  }

  /** No key has two tasks, and each task's key is queued. */
  ghost predicate OneTaskEach(schedule: Schedule) {
    && (forall i, j :: 0 <= i < j < |schedule.tasks| ==> schedule.tasks[i] != schedule.tasks[j])
    && (schedule.running.Some? ==> schedule.running.value !in schedule.tasks)
    && (forall a <- schedule.submitting ::
          && schedule.submitting[a] !in schedule.tasks
          && schedule.running != Some(schedule.submitting[a]))
    && (forall a <- schedule.submitting, b <- schedule.submitting :: a != b ==> schedule.submitting[a] != schedule.submitting[b])
    && (forall key :: InFlight(schedule, key) ==> key in schedule.queued)
  }

  lemma {:induction false} SubmitKeeps(schedule: Schedule, thread: nat, key: JobKey)
    requires OneTaskEach(schedule) && CanMove(schedule, Submit(thread, key))
    ensures OneTaskEach(Moved(schedule, Submit(thread, key)))
  {
    var next := Moved(schedule, Submit(thread, key));
    assert InFlight(schedule, key) ==> key in schedule.queued;
    assert key !in schedule.queued ==> forall a <- schedule.submitting :: schedule.submitting[a] != key;
    forall other | InFlight(next, other) ensures other in next.queued {
      if other != key {
        assert InFlight(schedule, other);
      }
    }
  }

  lemma {:induction false} PoolKeeps(schedule: Schedule, move: Move)
    requires OneTaskEach(schedule) && CanMove(schedule, move) && (move.PoolTakes? || move.PoolRefuses?)
    ensures OneTaskEach(Moved(schedule, move))
  {
    var next := Moved(schedule, move);
    forall other | InFlight(next, other) ensures other in next.queued {
      assert InFlight(schedule, other);
    }
  }

  lemma {:induction false} WorkKeeps(schedule: Schedule, move: Move)
    requires OneTaskEach(schedule) && CanMove(schedule, move) && (move.Begin? || move.End? || move.Close?)
    ensures OneTaskEach(Moved(schedule, move))
  {
    var next := Moved(schedule, move);
    forall other | InFlight(next, other) ensures other in next.queued {
      assert InFlight(schedule, other);
    }
  }

  lemma {:induction false} MoveKeeps(schedule: Schedule, move: Move)
    requires OneTaskEach(schedule) && CanMove(schedule, move)
    ensures OneTaskEach(Moved(schedule, move))
  {
    match move
    case Submit(thread, key) => SubmitKeeps(schedule, thread, key);
    case PoolTakes(_) => PoolKeeps(schedule, move);
    case PoolRefuses(_) => PoolKeeps(schedule, move);
    case Begin => WorkKeeps(schedule, move);
    case End => WorkKeeps(schedule, move);
    case Close => WorkKeeps(schedule, move);
  }

  predicate AreMoves(schedule: Schedule, moves: seq<Move>)
    decreases |moves|
  {
    moves == [] || (CanMove(schedule, moves[0]) && AreMoves(Moved(schedule, moves[0]), moves[1..]))
  }

  function MovedAll(schedule: Schedule, moves: seq<Move>): Schedule
    requires AreMoves(schedule, moves)
    decreases |moves|
  {
    if moves == [] then schedule else MovedAll(Moved(schedule, moves[0]), moves[1..])
  }

  const NOTHING_QUEUED := Schedule({}, map[], [], None, false)

  lemma {:induction false} MovesKeep(schedule: Schedule, moves: seq<Move>)
    requires OneTaskEach(schedule) && AreMoves(schedule, moves)
    ensures OneTaskEach(MovedAll(schedule, moves))
    decreases |moves|
  {
    if moves != [] {
      MoveKeeps(schedule, moves[0]);
      MovesKeep(Moved(schedule, moves[0]), moves[1..]);
    }
  }

  /** How many tasks the key has in the pool. */
  function TasksOf(schedule: Schedule, key: JobKey): nat {
    multiset(schedule.tasks)[key] + if schedule.running == Some(key) then 1 else 0
  }

  lemma {:induction false} CountDistinct(keys: seq<JobKey>, key: JobKey)
    requires forall i, j :: 0 <= i < j < |keys| ==> keys[i] != keys[j]
    ensures multiset(keys)[key] <= 1
  {
    if keys != [] {
      assert keys == [keys[0]] + keys[1..];
      CountDistinct(keys[1..], key);
      assert keys[0] !in keys[1..];
    }
  }

  /** In every interleaving of submitting threads and the pool, no job has two tasks. */
  lemma {:induction false} NoJobHasTwoTasks(moves: seq<Move>, key: JobKey)
    requires AreMoves(NOTHING_QUEUED, moves)
    ensures TasksOf(MovedAll(NOTHING_QUEUED, moves), key) <= 1
  {
    MovesKeep(NOTHING_QUEUED, moves);
    CountDistinct(MovedAll(NOTHING_QUEUED, moves).tasks, key);
  }

  // ----- Refused keys -----

  /** The pool refuses the task of this key. */
  predicate Refuses(schedule: Schedule, move: Move, key: JobKey)
    requires CanMove(schedule, move)
  {
    move.PoolRefuses? && schedule.submitting[move.thread] == key
  }

  /** Some move refuses the pool submission of this key. */
  predicate RefusedIn(schedule: Schedule, moves: seq<Move>, key: JobKey)
    requires AreMoves(schedule, moves)
    decreases |moves|
  {
    moves != [] && (Refuses(schedule, moves[0], key) || RefusedIn(Moved(schedule, moves[0]), moves[1..], key))
  }

  /** Queued without a task: no submission schedules the key. */
  predicate Stuck(schedule: Schedule, key: JobKey) {
    key in schedule.queued && !InFlight(schedule, key)
  }

  lemma {:induction false} FlightGoesOn(schedule: Schedule, move: Move, key: JobKey)
    requires CanMove(schedule, move) && InFlight(schedule, key) && !Refuses(schedule, move, key)
    ensures InFlight(Moved(schedule, move), key) || (move.End? && schedule.running == Some(key))
  {
    var next := Moved(schedule, move);
    if thread :| thread in schedule.submitting && schedule.submitting[thread] == key {
      if move.PoolTakes? && move.thread == thread {
        assert next.tasks[|next.tasks| - 1] == key;
      } else {
        assert next.submitting[thread] == key;
      }
    } else if key in schedule.tasks {
      if move.Begin? {
        assert schedule.tasks == [schedule.tasks[0]] + schedule.tasks[1..];
      } else {
        assert key in next.tasks;
      }
    }
  }

  lemma {:induction false} RefusalEndsTheFlight(schedule: Schedule, move: Move, key: JobKey)
    requires OneTaskEach(schedule) && CanMove(schedule, move) && Refuses(schedule, move, key)
    ensures Stuck(Moved(schedule, move), key)
  {
    assert InFlight(schedule, key);
  }

  lemma {:induction false} StuckStays(schedule: Schedule, move: Move, key: JobKey)
    requires CanMove(schedule, move) && Stuck(schedule, key)
    ensures Stuck(Moved(schedule, move), key)
  {
    var next := Moved(schedule, move);
    if InFlight(next, key) {
      assert forall thread <- next.submitting :: next.submitting[thread] == key ==> thread in schedule.submitting;
      assert InFlight(schedule, key);
    }
  }

  lemma {:induction false} OthersAreNotStuck(schedule: Schedule, move: Move, key: JobKey)
    requires OneTaskEach(schedule) && CanMove(schedule, move) && !Refuses(schedule, move, key) && !Stuck(schedule, key)
    ensures !Stuck(Moved(schedule, move), key)
  {
    if InFlight(schedule, key) {
      FlightGoesOn(schedule, move, key);
    } else if key in Moved(schedule, move).queued {
      assert Moved(schedule, move).submitting[move.thread] == key;
    }
  }

  lemma {:induction false} StuckIffRefusedSince(schedule: Schedule, moves: seq<Move>, key: JobKey)
    requires OneTaskEach(schedule) && AreMoves(schedule, moves)
    ensures Stuck(MovedAll(schedule, moves), key) <==> Stuck(schedule, key) || RefusedIn(schedule, moves, key)
    decreases |moves|
  {
    if moves != [] {
      MoveKeeps(schedule, moves[0]);
      StuckIffRefusedSince(Moved(schedule, moves[0]), moves[1..], key);
      if Refuses(schedule, moves[0], key) {
        RefusalEndsTheFlight(schedule, moves[0], key);
      } else if Stuck(schedule, key) {
        StuckStays(schedule, moves[0], key);
      } else {
        OthersAreNotStuck(schedule, moves[0], key);
      }
    }
  }

  /** In every interleaving, a key is queued without a task exactly when the pool refused it in some move; otherwise the
      queued keys are exactly the keys in flight, so a finished job can be scheduled again. */
  lemma {:induction false} StuckIffRefused(moves: seq<Move>, key: JobKey)
    requires AreMoves(NOTHING_QUEUED, moves)
    ensures var end := MovedAll(NOTHING_QUEUED, moves);
            && (key in end.queued && !InFlight(end, key) <==> RefusedIn(NOTHING_QUEUED, moves, key))
            && (key in end.queued <==> InFlight(end, key) || RefusedIn(NOTHING_QUEUED, moves, key))
  {
    StuckIffRefusedSince(NOTHING_QUEUED, moves, key);
    MovesKeep(NOTHING_QUEUED, moves);
    assert InFlight(MovedAll(NOTHING_QUEUED, moves), key) ==> key in MovedAll(NOTHING_QUEUED, moves).queued;
  }

  lemma {:induction false} ClosedStays(schedule: Schedule, moves: seq<Move>)
    requires AreMoves(schedule, moves) && schedule.closed
    ensures MovedAll(schedule, moves).closed
    decreases |moves|
  {
    if moves != [] {
      ClosedStays(Moved(schedule, moves[0]), moves[1..]);
    }
  }

  /** Until the pool is closed nothing is refused: the queued keys are the keys in flight. */
  lemma {:induction false} OpenPoolRefusesNothing(schedule: Schedule, moves: seq<Move>, key: JobKey)
    requires AreMoves(schedule, moves) && RefusedIn(schedule, moves, key)
    ensures MovedAll(schedule, moves).closed
    decreases |moves|
  {
    var next := Moved(schedule, moves[0]);
    if next.closed {
      ClosedStays(next, moves[1..]);
    } else {
      OpenPoolRefusesNothing(next, moves[1..], key);
    }
  }

  /** The refusal happens: a submission that comes between its two steps to a pool that closes. */
  lemma {:induction false} CloseCanRefuse(thread: nat, key: JobKey)
    ensures var moves := [Submit(thread, key), Close, PoolRefuses(thread)];
            && AreMoves(NOTHING_QUEUED, moves) && RefusedIn(NOTHING_QUEUED, moves, key)
            && Stuck(MovedAll(NOTHING_QUEUED, moves), key)
  {
    var moves := [Submit(thread, key), Close, PoolRefuses(thread)];
    var one := Moved(NOTHING_QUEUED, moves[0]);
    assert moves[1..] == [Close, PoolRefuses(thread)] && moves[1..][1..] == [PoolRefuses(thread)];
    assert moves[1..][1..][1..] == [];
    var two := Moved(one, Close);
    assert CanMove(two, PoolRefuses(thread)) && Refuses(two, PoolRefuses(thread), key);
    assert AreMoves(two, [PoolRefuses(thread)]) && RefusedIn(two, [PoolRefuses(thread)], key);
    assert AreMoves(one, moves[1..]) && RefusedIn(one, moves[1..], key);
    StuckIffRefused(moves, key);
  }

  // ----- The executor's methods -----

  // ----- The order of the tasks -----

  /** The tasks that the pool took in the moves, and those that it began. */
  function TakenKeys(schedule: Schedule, moves: seq<Move>): seq<JobKey>
    requires AreMoves(schedule, moves)
    decreases |moves|
  {
    if moves == [] then []
    else
      (if moves[0].PoolTakes? then [schedule.submitting[moves[0].thread]] else [])
      + TakenKeys(Moved(schedule, moves[0]), moves[1..])
  }

  function BegunKeys(schedule: Schedule, moves: seq<Move>): seq<JobKey>
    requires AreMoves(schedule, moves)
    decreases |moves|
  {
    if moves == [] then []
    else
      (if moves[0].Begin? then [schedule.tasks[0]] else []) + BegunKeys(Moved(schedule, moves[0]), moves[1..])
  }

  /** Over every interleaving the pool begins its tasks in the order in which it took them, and loses none. */
  lemma {:induction false} TasksBeginInOrder(schedule: Schedule, moves: seq<Move>)
    requires AreMoves(schedule, moves)
    ensures schedule.tasks + TakenKeys(schedule, moves) == BegunKeys(schedule, moves) + MovedAll(schedule, moves).tasks
    decreases |moves|
  {
    if moves == [] {
      assert schedule.tasks + [] == [] + schedule.tasks;
    } else {
      var next := Moved(schedule, moves[0]);
      TasksBeginInOrder(next, moves[1..]);
      var taken, begun := TakenKeys(next, moves[1..]), BegunKeys(next, moves[1..]);
      if moves[0].PoolTakes? {
        Regroup(schedule.tasks, [schedule.submitting[moves[0].thread]], taken);
      } else if moves[0].Begin? {
        assert schedule.tasks == [schedule.tasks[0]] + schedule.tasks[1..];
        Regroup([schedule.tasks[0]], schedule.tasks[1..], taken);
        Regroup([schedule.tasks[0]], begun, MovedAll(schedule, moves).tasks);
      } else {
        assert [] + taken == taken && [] + begun == begun;
      }
    }
  }

  lemma {:induction false} Regroup(a: seq<JobKey>, b: seq<JobKey>, c: seq<JobKey>)
    ensures (a + b) + c == a + (b + c)
  {
  }

  /** A key is queued from its submission until its own task ends, and no other move changes that. */
  lemma {:induction false} QueuedUntilTheEnd(schedule: Schedule, move: Move, key: JobKey)
    requires CanMove(schedule, move)
    ensures key in Moved(schedule, move).queued <==>
            (key in schedule.queued || (move.Submit? && move.key == key)) && !(move.End? && schedule.running == Some(key))
    ensures move.End? ==> Moved(schedule, move).running.None?
    ensures move.Begin? ==> Moved(schedule, move).running == Some(schedule.tasks[0])
  {
  }

  class JobExecutor {
    var queued: set<JobKey>
    var tasks: seq<JobKey>
    var running: Option<JobKey>
    var closed: bool

    function View(): Schedule
      reads this
    {
      Schedule(queued, map[], tasks, running, closed)
    }

    constructor ()
      ensures View() == NOTHING_QUEUED
    {
      queued, tasks, running, closed := {}, [], None, false;
    }

    /** Schedule one accepted job unless it is already queued; a closed pool raises. */
    method SubmitJob(key: JobKey) returns (raised: bool)
      modifies this`queued, this`tasks
      ensures View() == Submitted(old(View()), key)
      ensures raised == SubmitRaises(old(View()), key)
    {
      if key in queued {
        return false;
      }
      queued := queued + {key};
      if closed {
        return true;
      }
      tasks := tasks + [key];
      return false;
    }

    /** Schedule the oldest accepted jobs of the active packages, unless a switch is pending. The answer is the number
        of jobs read, or missing when the pool raised. */
    method SubmitAccepted(store: S.JobStore, switchPending: bool, active: set<string>, limit: nat, rank: Rank)
      returns (read: Option<nat>, ghost keys: seq<JobKey>)
      requires Revised(store.jobs) && Ranked(store.jobs, rank)
      modifies this`queued, this`tasks
      ensures if switchPending then keys == []
              else AreOldest(keys, SelectedKeys(store.jobs, ACCEPTED, Some(active)), limit, rank)
      ensures View() == SubmittedAll(old(View()), keys)
      ensures read == if AllRaises(old(View()), keys) then None else Some(|keys|)
    {
      keys := [];
      if switchPending {
        return Some(0), [];
      }
      var found := store.JobsInState(ACCEPTED, limit, Some(active), rank);
      keys := S.KeysOf(found);
      for i := 0 to |found|
        invariant SubmittedAll(View(), keys[i..]) == SubmittedAll(old(View()), keys)
        invariant AllRaises(View(), keys[i..]) == AllRaises(old(View()), keys)
      {
        assert keys[i..][1..] == keys[i + 1..];
        var raised := SubmitJob(found[i].key);
        if raised {
          return None, keys;
        }
      }
      return Some(|found|), keys;
    }

    /** Run the next task to its end, also when it fails. */
    method RunNext() returns (key: JobKey)
      requires running.None? && tasks != []
      modifies this
      ensures key == old(tasks[0])
      ensures View() == Moved(Moved(old(View()), Begin), End)
    {
      key := tasks[0];
      running, tasks := Some(key), tasks[1..];
      queued := queued - {key};
      running := None;
    }

    /** Stop accepting work and let the pool finish what it has. */
    method CloseExecutor()
      requires running.None?
      modifies this
      ensures View() == RunAll(Moved(old(View()), Close))
    {
      closed := true;
      while tasks != []
        invariant running.None? && RunAll(View()) == RunAll(Moved(old(View()), Close))
        decreases |tasks|
      {
        var _ := RunNext();
      }
    }
  }

  function Submitted(schedule: Schedule, key: JobKey): Schedule {
    if key in schedule.queued then schedule
    else
      schedule.(queued := schedule.queued + {key},
                tasks := if schedule.closed then schedule.tasks else schedule.tasks + [key])
  }

  predicate SubmitRaises(schedule: Schedule, key: JobKey) {
    key !in schedule.queued && schedule.closed
  }

  /** The submissions in order; the first that raises is the last. */
  function SubmittedAll(schedule: Schedule, keys: seq<JobKey>): Schedule
    decreases |keys|
  {
    if keys == [] then schedule
    else if SubmitRaises(schedule, keys[0]) then Submitted(schedule, keys[0])
    else SubmittedAll(Submitted(schedule, keys[0]), keys[1..])
  }

  predicate AllRaises(schedule: Schedule, keys: seq<JobKey>)
    decreases |keys|
  {
    keys != [] && (SubmitRaises(schedule, keys[0]) || AllRaises(Submitted(schedule, keys[0]), keys[1..]))
  }

  function RunAll(schedule: Schedule): Schedule
    requires schedule.running.None?
    decreases |schedule.tasks|
  {
    if schedule.tasks == [] then schedule else RunAll(Moved(Moved(schedule, Begin), End))
  }

  // ----- Each method is a run of the moves -----

  lemma {:induction false} MovesAppend(schedule: Schedule, a: seq<Move>, b: seq<Move>)
    requires AreMoves(schedule, a) && AreMoves(MovedAll(schedule, a), b)
    ensures AreMoves(schedule, a + b) && MovedAll(schedule, a + b) == MovedAll(MovedAll(schedule, a), b)
    decreases |a|
  {
    if a == [] {
      assert a + b == b;
    } else {
      assert (a + b)[1..] == a[1..] + b;
      MovesAppend(Moved(schedule, a[0]), a[1..], b);
    }
  }

  lemma {:induction false} OneMove(schedule: Schedule, move: Move, key: JobKey)
    requires CanMove(schedule, move)
    ensures AreMoves(schedule, [move]) && MovedAll(schedule, [move]) == Moved(schedule, move)
    ensures RefusedIn(schedule, [move], key) <==> Refuses(schedule, move, key)
  {
    var none: seq<Move> := [];
    assert [move][1..] == none;
    assert MovedAll(Moved(schedule, move), none) == Moved(schedule, move);
    assert !RefusedIn(Moved(schedule, move), none, key);
  }

  lemma {:induction false} TwoMoves(schedule: Schedule, first: Move, second: Move, key: JobKey)
    requires CanMove(schedule, first) && CanMove(Moved(schedule, first), second) && !first.PoolRefuses?
    ensures AreMoves(schedule, [first, second])
    ensures MovedAll(schedule, [first, second]) == Moved(Moved(schedule, first), second)
    ensures RefusedIn(schedule, [first, second], key) <==> Refuses(Moved(schedule, first), second, key)
  {
    assert [first, second][1..] == [second];
    OneMove(Moved(schedule, first), second, key);
  }

  lemma {:induction false} SubmissionIsTwoMoves(schedule: Schedule, thread: nat, key: JobKey, second: Move)
    requires thread !in schedule.submitting && key !in schedule.queued
    requires second == if schedule.closed then PoolRefuses(thread) else PoolTakes(thread)
    ensures CanMove(Moved(schedule, Submit(thread, key)), second)
    ensures Moved(Moved(schedule, Submit(thread, key)), second) == Submitted(schedule, key)
    ensures Refuses(Moved(schedule, Submit(thread, key)), second, key) <==> schedule.closed
  {
    assert schedule.submitting[thread := key] - {thread} == schedule.submitting;
  }

  /** One uninterrupted submission: nothing for a queued key, else the two moves of the submitting thread. */
  lemma {:induction false} SubmissionIsARun(schedule: Schedule, thread: nat, key: JobKey) returns (moves: seq<Move>)
    requires thread !in schedule.submitting
    ensures AreMoves(schedule, moves) && MovedAll(schedule, moves) == Submitted(schedule, key)
    ensures SubmitRaises(schedule, key) <==> RefusedIn(schedule, moves, key)
  {
    if key in schedule.queued {
      moves := [];
    } else {
      var first, second := Submit(thread, key), if schedule.closed then PoolRefuses(thread) else PoolTakes(thread);
      SubmissionIsTwoMoves(schedule, thread, key, second);
      TwoMoves(schedule, first, second, key);
      moves := [first, second];
    }
  }

  /** The submissions of all accepted jobs are a run. */
  lemma {:induction false} SubmissionsAreARun(schedule: Schedule, thread: nat, keys: seq<JobKey>) returns (moves: seq<Move>)
    requires thread !in schedule.submitting
    ensures AreMoves(schedule, moves) && MovedAll(schedule, moves) == SubmittedAll(schedule, keys)
    decreases |keys|
  {
    if keys == [] {
      moves := [];
    } else {
      moves := SubmissionIsARun(schedule, thread, keys[0]);
      if !SubmitRaises(schedule, keys[0]) {
        var later := SubmissionsAreARun(Submitted(schedule, keys[0]), thread, keys[1..]);
        MovesAppend(schedule, moves, later);
        moves := moves + later;
      }
    }
  }

  /** An open pool takes every accepted job that is not queued, and nothing raises. */
  lemma {:induction false} OpenPoolTakesAll(schedule: Schedule, keys: seq<JobKey>, key: JobKey)
    requires !schedule.closed
    ensures !AllRaises(schedule, keys)
    ensures key in SubmittedAll(schedule, keys).queued <==> key in schedule.queued || key in keys
    ensures key in SubmittedAll(schedule, keys).tasks <==> key in schedule.tasks || (key in keys && key !in schedule.queued)
    decreases |keys|
  {
    if keys != [] {
      OpenPoolTakesAll(Submitted(schedule, keys[0]), keys[1..], key);
      assert key in keys <==> key == keys[0] || key in keys[1..];
    }
  }
}
