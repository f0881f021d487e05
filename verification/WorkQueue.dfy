/** Pending stages and timed wakes of the engine worker (core/work_queue.py). */
module WorkQueues {
  import opened Wrappers

  datatype WorkKind = EXTENSIONS | SOURCES | EXTENSION_SOURCES | RAW | CANONICAL

  /** A deadline belongs to a stage and to the producer that set it. */
  datatype Identity = Identity(kind: WorkKind, key: string)

  datatype Queue = Queue(pending: set<WorkKind>, deadlines: map<Identity, real>, closed: bool)

  function MaxZero(delay: real): real {
    if delay > 0.0 then delay else 0.0
  }

  /** What another thread, or a stage, does to the queue; `now` is the clock at that moment. */
  datatype QueueOp =
    | Put(kind: WorkKind)
    | Schedule(kind: WorkKind, delay: real, key: string, now: real)
    | SetDeadline(kind: WorkKind, wait: Option<real>, key: string, now: real)

  function PutQueue(queue: Queue, kind: WorkKind): Queue {
    queue.(pending := queue.pending + {kind})
  }

  function ScheduleQueue(queue: Queue, kind: WorkKind, delay: real, key: string, now: real): Queue {
    var deadline := now + MaxZero(delay);
    var id := Identity(kind, key);
    var earliest := if id in queue.deadlines && queue.deadlines[id] < deadline then queue.deadlines[id] else deadline;
    queue.(deadlines := queue.deadlines[id := earliest])
  }

  function SetDeadlineQueue(queue: Queue, kind: WorkKind, wait: Option<real>, key: string, now: real): Queue {
    var id := Identity(kind, key);
    match wait
    case None => queue.(deadlines := queue.deadlines - {id})
    case Some(delay) => queue.(deadlines := queue.deadlines[id := now + MaxZero(delay)])
  }

  function OpQueue(queue: Queue, op: QueueOp): Queue {
    match op
    case Put(kind) => PutQueue(queue, kind)
    case Schedule(kind, delay, key, now) => ScheduleQueue(queue, kind, delay, key, now)
    case SetDeadline(kind, wait, key, now) => SetDeadlineQueue(queue, kind, wait, key, now)
  }

  function DueKinds(queue: Queue, now: real): set<WorkKind> {
    set id | id in queue.deadlines && queue.deadlines[id] <= now :: id.kind
  }

  /** Move each due deadline to the pending set. */
  function ReadyQueue(queue: Queue, now: real): Queue {
    queue.(
      pending := queue.pending + DueKinds(queue, now),
      deadlines := map id | id in queue.deadlines && queue.deadlines[id] > now :: queue.deadlines[id])
  }

  /** What one pass of the waiting loop finds while it holds the condition. */
  datatype Taken = Closed | Ready(kinds: set<WorkKind>) | Wait(wake: Option<real>)

  function TakeQueue(queue: Queue, now: real): Queue {
    if queue.closed then queue else ReadyQueue(queue, now).(pending := {})
  }

  class WorkQueue {
    var pending: set<WorkKind>
    var deadlines: map<Identity, real>
    var closed: bool

    function View(): Queue
      reads this
    {
      Queue(pending, deadlines, closed)
    }

    constructor ()
      ensures View() == Queue({}, map[], false)
    {
      pending, deadlines, closed := {}, map[], false;
    }

    method PutWork(kind: WorkKind)
      modifies this
      ensures View() == PutQueue(old(View()), kind)
    {
      pending := pending + {kind};
    }

    method ScheduleWork(kind: WorkKind, delay: real, key: string, now: real)
      modifies this
      ensures View() == ScheduleQueue(old(View()), kind, delay, key, now)
    {
      var deadline := now + MaxZero(delay);
      var id := Identity(kind, key);
      var known := if id in deadlines then deadlines[id] else deadline;
      deadlines := deadlines[id := if known < deadline then known else deadline];
    }

    method SetOwnedDeadline(kind: WorkKind, wait: Option<real>, key: string, now: real)
      modifies this
      ensures View() == SetDeadlineQueue(old(View()), kind, wait, key, now)
    {
      var id := Identity(kind, key);
      match wait {
        case None => deadlines := deadlines - {id};
        case Some(delay) => deadlines := deadlines[id := now + MaxZero(delay)];
      }
    }

    method Close()
      modifies this
      ensures View() == old(View()).(closed := true)
    {
      closed := true;
    }

    /** Walk a snapshot of the deadlines and make the due stages ready. */
    method MakeReady(now: real)
      modifies this
      ensures View() == ReadyQueue(old(View()), now)
    {
      ghost var start := deadlines;
      var left := deadlines.Keys;
      while left != {}
        invariant left <= start.Keys
        invariant closed == old(closed)
        invariant pending == old(pending) + set id | id in start.Keys - left && start[id] <= now :: id.kind
        invariant deadlines == map id | id in start && (id in left || start[id] > now) :: start[id]
        decreases left
      {
        var id: Identity :| id in left;
        assert start.Keys - (left - {id}) == (start.Keys - left) + {id};
        left := left - {id};
        if deadlines[id] <= now {
          pending := pending + {id.kind};
          deadlines := deadlines - {id};
        }
      }
      assert start.Keys - {} == start.Keys;
    }

    /** One pass of `take` under the condition. A pass that waits releases the condition and passes again. */
    method TakePass(now: real) returns (taken: Taken)
      modifies this
      ensures View() == TakeQueue(old(View()), now)
      ensures taken.Closed? <==> old(closed)
      ensures taken.Ready? ==> taken.kinds == ReadyQueue(old(View()), now).pending != {}
      ensures taken.Wait? ==> ReadyQueue(old(View()), now).pending == {}
      ensures taken.Wait? ==> (taken.wake.None? <==> deadlines == map[])
      ensures taken.Wait? && taken.wake.Some? ==>
        && taken.wake.value > 0.0
        && (exists id :: id in deadlines && deadlines[id] == now + taken.wake.value)
        && forall id :: id in deadlines ==> now + taken.wake.value <= deadlines[id]
    {
      if closed {
        return Closed;
      }
      MakeReady(now);
      if pending != {} {
        taken := Ready(pending);
        pending := {};
        return;
      }
      if deadlines == map[] {
        return Wait(None);
      }
      var earliest := EarliestDeadline();
      assert earliest.Some?;
      taken := Wait(Some(earliest.value - now));
    }

    method EarliestDeadline() returns (earliest: Option<real>)
      ensures earliest.None? <==> deadlines == map[]
      ensures earliest.Some? ==> exists id :: id in deadlines && deadlines[id] == earliest.value
      ensures earliest.Some? ==> forall id :: id in deadlines ==> earliest.value <= deadlines[id]
    {
      earliest := None;
      var left := deadlines.Keys;
      while left != {}
        invariant left <= deadlines.Keys
        invariant earliest.None? ==> left == deadlines.Keys
        invariant earliest.Some? ==> exists id :: id in deadlines && deadlines[id] == earliest.value
        invariant earliest.Some? ==> forall id :: id in deadlines.Keys - left ==> earliest.value <= deadlines[id]
        decreases left
      {
        var id: Identity :| id in left;
        left := left - {id};
        if earliest.None? || deadlines[id] < earliest.value {
          earliest := Some(deadlines[id]);
        }
      }
      assert deadlines.Keys - {} == deadlines.Keys;
      if earliest.None? {
        assert forall id :: id in deadlines ==> id in deadlines.Keys;
      }
    }
  }

  // ----- What the queue promises -----

  /** A scheduled wake never moves later, except when its own producer replaces or clears it. */
  lemma {:induction false} DeadlinesNeverMoveLater(queue: Queue, op: QueueOp, id: Identity)
    requires id in queue.deadlines
    requires op.SetDeadline? ==> Identity(op.kind, op.key) != id
    ensures id in OpQueue(queue, op).deadlines && OpQueue(queue, op).deadlines[id] <= queue.deadlines[id]
  {
  }

  /** A take at or after a deadline hands out its stage and takes the deadline away; before it, the deadline stays. A take
      leaves nothing pending. */
  lemma {:induction false} TakeHandsOutDueStages(queue: Queue, now: real, id: Identity)
    requires id in queue.deadlines && !queue.closed
    ensures TakeQueue(queue, now).pending == {}
    ensures queue.deadlines[id] <= now ==>
              id.kind in ReadyQueue(queue, now).pending && id !in TakeQueue(queue, now).deadlines
    ensures queue.deadlines[id] > now ==>
              id in TakeQueue(queue, now).deadlines && TakeQueue(queue, now).deadlines[id] == queue.deadlines[id]
  {
    if queue.deadlines[id] <= now {
      assert id.kind in DueKinds(queue, now);
    }
  }

  /** Scheduling makes a stage due from the clock's time plus the delay on, a past delay at once, and takes no earlier
      wake away; other stages are due when they were. */
  lemma {:induction false} ScheduledStageIsDue(queue: Queue, kind: WorkKind, delay: real, key: string, now: real, at: real)
    ensures var next := OpQueue(queue, Schedule(kind, delay, key, now));
            forall other :: other in ReadyQueue(next, at).pending <==>
              other in ReadyQueue(queue, at).pending
              || (other == kind && at >= if delay < 0.0 then now else now + delay)
  {
    var next := OpQueue(queue, Schedule(kind, delay, key, now));
    var id := Identity(kind, key);
    forall other | other in ReadyQueue(queue, at).pending
      ensures other in ReadyQueue(next, at).pending
    {
      if other !in queue.pending {
        var due :| due in queue.deadlines && queue.deadlines[due] <= at && due.kind == other;
        assert next.deadlines[due] <= at;
      }
    }
    assert next.deadlines[id] <= at <==>
      (id in queue.deadlines && queue.deadlines[id] <= at) || at >= if delay < 0.0 then now else now + delay;
  }

  /** Replacing or clearing an owned deadline: its stage is due for the wakes of other producers, and from the new time
      on; every other deadline stays. */
  lemma {:induction false} OwnedDeadlineIsDue(
      queue: Queue, kind: WorkKind, wait: Option<real>, key: string, now: real, at: real)
    ensures var next := OpQueue(queue, SetDeadline(kind, wait, key, now));
            && (kind in ReadyQueue(next, at).pending <==>
                  || kind in queue.pending
                  || (exists id <- queue.deadlines :: id.kind == kind && id.key != key && queue.deadlines[id] <= at)
                  || (wait.Some? && at >= if wait.value < 0.0 then now else now + wait.value))
            && forall id: Identity :: id.kind != kind || id.key != key ==>
                 (id in next.deadlines <==> id in queue.deadlines)
                 && (id in queue.deadlines ==> next.deadlines[id] == queue.deadlines[id])
  {
    var next := OpQueue(queue, SetDeadline(kind, wait, key, now));
    var own := Identity(kind, key);
    forall id | id in queue.deadlines && id.kind == kind && id.key != key && queue.deadlines[id] <= at
      ensures kind in ReadyQueue(next, at).pending
    {
      assert id in next.deadlines && next.deadlines[id] <= at;
    }
    if wait.Some? && at >= if wait.value < 0.0 then now else now + wait.value {
      assert own in next.deadlines && next.deadlines[own] <= at;
    }
  }

  ghost predicate OwnDeadlinesOnly(ops: seq<QueueOp>, id: Identity) {
    forall op <- ops :: op.SetDeadline? ==> Identity(op.kind, op.key) != id
  }

  function OpsQueue(queue: Queue, ops: seq<QueueOp>): Queue
    decreases |ops|
  {
    if ops == [] then queue else OpsQueue(OpQueue(queue, ops[0]), ops[1..])
  }

  /** After a failed stage is scheduled again, any operations of other producers leave it due at the promised
      time at the latest: the next take at or after that time returns it. */
  lemma {:induction false} ScheduledWorkComesBack(queue: Queue, id: Identity, deadline: real, ops: seq<QueueOp>, now: real)
    requires id in queue.deadlines && queue.deadlines[id] <= deadline <= now
    requires OwnDeadlinesOnly(ops, id) && !queue.closed
    ensures id.kind in ReadyQueue(OpsQueue(queue, ops), now).pending
    decreases |ops|
  {
    if ops == [] {
      TakeHandsOutDueStages(queue, now, id);
    } else {
      assert ops[0] in ops;
      DeadlinesNeverMoveLater(queue, ops[0], id);
      ScheduledWorkComesBack(OpQueue(queue, ops[0]), id, deadline, ops[1..], now);
    }
  }
}
