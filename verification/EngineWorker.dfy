/** The worker's own steps in code form: one batch and one pass of the worker loop, proved to be runs of the
    engine state machine (engine/work_batch.py, engine/worker.py). */
module EngineWorkers {
  import opened Wrappers
  import opened WorkQueues
  import opened Engine

  /** What happens during one stage call: operations of other threads and of the stage, and how it ends. */
  datatype StageScript = StageScript(ops: seq<QueueOp>, raised: bool, now: real)

  /** What happens around the runtime capture of one batch. */
  datatype CaptureScript =
    | Refused(now: real)
    | Captured(stages: map<WorkKind, StageScript>, left: Option<real>)

  ghost predicate OwnOps(ops: seq<QueueOp>) {
    forall op <- ops :: OwnKeys(op)
  }

  ghost predicate Covered(pending: set<WorkKind>, stages: map<WorkKind, StageScript>) {
    forall kind <- pending :: kind in stages && OwnOps(stages[kind].ops)
  }

  function StageQueue(queue: Queue, kind: WorkKind, script: StageScript): Queue {
    var after := OpsQueue(queue, script.ops);
    if script.raised then RetryQueue(after, {kind}, script.now) else after
  }

  function BatchQueue(queue: Queue, todo: seq<WorkKind>, stages: map<WorkKind, StageScript>): Queue
    requires forall kind <- todo :: kind in stages
    decreases |todo|
  {
    if todo == [] then queue else BatchQueue(StageQueue(queue, todo[0], stages[todo[0]]), todo[1..], stages)
  }

  class EngineWorkBatch {
    const queue: WorkQueue

    constructor (queue: WorkQueue)
      ensures this.queue == queue
    {
      this.queue := queue;
    }

    /** Other threads and the stage itself reach the queue while the stage runs. */
    method Perform(ops: seq<QueueOp>)
      modifies queue
      ensures queue.View() == OpsQueue(old(queue.View()), ops)
    {
      for i := 0 to |ops|
        invariant OpsQueue(queue.View(), ops[i..]) == OpsQueue(old(queue.View()), ops)
      {
        assert ops[i..][1..] == ops[i + 1..];
        match ops[i] {
          case Put(kind) => queue.PutWork(kind);
          case Schedule(kind, delay, key, now) => queue.ScheduleWork(kind, delay, key, now);
          case SetDeadline(kind, wait, key, now) => queue.SetOwnedDeadline(kind, wait, key, now);
        }
      }
    }

    /** Call each pending stage in the fixed order; a failed stage is scheduled again and the rest go on. */
    method Run(pending: set<WorkKind>, stages: map<WorkKind, StageScript>)
      requires Covered(pending, stages)
      modifies queue
      ensures queue.View() == BatchQueue(old(queue.View()), InOrder(pending, ORDER), stages)
    {
      for i := 0 to |ORDER|
        invariant BatchQueue(queue.View(), InOrder(pending, ORDER[i..]), stages)
               == BatchQueue(old(queue.View()), InOrder(pending, ORDER), stages)
      {
        OrderStep(pending, i);
        BatchStep(queue.View(), pending, i, stages);
        if ORDER[i] in pending {
          var script := stages[ORDER[i]];
          Perform(script.ops);
          if script.raised {
            Retry({ORDER[i]}, script.now);
          }
        }
      }
    }

    /** Schedule all affected stages again. */
    method Retry(pending: set<WorkKind>, now: real)
      modifies queue
      ensures queue.View() == RetryQueue(old(queue.View()), pending, now)
    {
      ghost var start := queue.View();
      var left := pending;
      while left != {}
        invariant left <= pending
        invariant queue.View() == RetryQueue(start, pending - left, now)
        decreases left
      {
        var kind: WorkKind :| kind in left;
        RetryGrows(start, pending - left, kind, now);
        assert pending - (left - {kind}) == (pending - left) + {kind};
        queue.ScheduleWork(kind, STAGE_RETRY_SECONDS, STAGE_RETRY_KEY, now);
        left := left - {kind};
      }
      assert pending - {} == pending;
    }
  }

  lemma {:induction false} OrderStep(pending: set<WorkKind>, i: nat)
    requires i < |ORDER|
    ensures InOrder(pending, ORDER[i..]) ==
            (if ORDER[i] in pending then [ORDER[i]] else []) + InOrder(pending, ORDER[i + 1..])
  {
    assert ORDER[i..][1..] == ORDER[i + 1..];
  }

  lemma {:induction false} BatchStep(queue: Queue, pending: set<WorkKind>, i: nat, stages: map<WorkKind, StageScript>)
    requires i < |ORDER| && forall kind <- pending :: kind in stages
    ensures BatchQueue(queue, InOrder(pending, ORDER[i..]), stages) ==
            BatchQueue(
              if ORDER[i] in pending then StageQueue(queue, ORDER[i], stages[ORDER[i]]) else queue,
              InOrder(pending, ORDER[i + 1..]), stages)
  {
    OrderStep(pending, i);
    var rest := InOrder(pending, ORDER[i + 1..]);
    assert ([ORDER[i]] + rest)[1..] == rest;
    assert [] + rest == rest;
  }

  lemma {:induction false} RetryGrows(queue: Queue, kinds: set<WorkKind>, kind: WorkKind, now: real)
    requires kind !in kinds
    ensures RetryQueue(queue, kinds + {kind}, now) ==
            ScheduleQueue(RetryQueue(queue, kinds, now), kind, STAGE_RETRY_SECONDS, STAGE_RETRY_KEY, now)
  {
    var one := RetryQueue(queue, kinds + {kind}, now);
    var two := ScheduleQueue(RetryQueue(queue, kinds, now), kind, STAGE_RETRY_SECONDS, STAGE_RETRY_KEY, now);
    assert one.deadlines.Keys == two.deadlines.Keys;
    assert forall id <- one.deadlines.Keys :: one.deadlines[id] == two.deadlines[id];
    assert one.deadlines == two.deadlines;
  }

  // ----- The worker's pass is a run -----

  function Notices(ops: seq<QueueOp>): seq<Event>
    decreases |ops|
  {
    if ops == [] then [] else [Notice(ops[0])] + Notices(ops[1..])
  }

  function BatchEvents(todo: seq<WorkKind>, stages: map<WorkKind, StageScript>): seq<Event>
    requires forall kind <- todo :: kind in stages
    decreases |todo|
  {
    if todo == [] then []
    else
      var script := stages[todo[0]];
      Notices(script.ops) + ([if script.raised then StageRaises(script.now) else StageReturns] + BatchEvents(todo[1..], stages))
  }

  function CaptureEvents(batch: set<WorkKind>, capture: CaptureScript): seq<Event>
    requires capture.Captured? ==> forall kind <- batch :: kind in capture.stages
  {
    match capture
    case Refused(now) => [CaptureRaises(now)]
    case Captured(stages, left) =>
      [CaptureEnters] + (BatchEvents(InOrder(batch, ORDER), stages)
        + [if left.Some? then CaptureLeavingRaises(left.value) else CaptureLeaves])
  }

  lemma {:induction false} NoticesRun(state: State, ops: seq<QueueOp>)
    requires OwnOps(ops)
    ensures IsRun(state, Notices(ops))
    ensures After(state, Notices(ops)) == state.(queue := OpsQueue(state.queue, ops))
    decreases |ops|
  {
    if ops != [] {
      assert ops[0] in ops;
      NoticesRun(Next(state, Notice(ops[0])), ops[1..]);
    }
  }

  lemma {:induction false} RunsAppend(state: State, first: seq<Event>, second: seq<Event>)
    requires IsRun(state, first) && IsRun(After(state, first), second)
    ensures IsRun(state, first + second)
    ensures After(state, first + second) == After(After(state, first), second)
    decreases |first|
  {
    if first == [] {
      assert first + second == second;
    } else {
      assert (first + second)[1..] == first[1..] + second;
      RunsAppend(Next(state, first[0]), first[1..], second);
    }
  }

  lemma {:induction false} BatchRuns(state: State, stages: map<WorkKind, StageScript>)
    requires state.phase.Running?
    requires forall kind <- state.phase.todo :: kind in stages && OwnOps(stages[kind].ops)
    ensures IsRun(state, BatchEvents(state.phase.todo, stages))
    ensures After(state, BatchEvents(state.phase.todo, stages))
         == state.(queue := BatchQueue(state.queue, state.phase.todo, stages), phase := state.phase.(todo := []))
    decreases |state.phase.todo|
  {
    var todo := state.phase.todo;
    if todo != [] {
      assert todo[0] in todo;
      var script := stages[todo[0]];
      NoticesRun(state, script.ops);
      var during := After(state, Notices(script.ops));
      var ends := if script.raised then StageRaises(script.now) else StageReturns;
      BatchRuns(Next(during, ends), stages);
      var rest := [ends] + BatchEvents(todo[1..], stages);
      assert rest[1..] == BatchEvents(todo[1..], stages);
      RunsAppend(state, Notices(script.ops), rest);
    }
  }

  function CaptureQueue(queue: Queue, batch: set<WorkKind>, capture: CaptureScript): Queue
    requires capture.Captured? ==> forall kind <- batch :: kind in capture.stages
  {
    match capture
    case Refused(now) => RetryQueue(queue, batch, now)
    case Captured(stages, left) =>
      var after := BatchQueue(queue, InOrder(batch, ORDER), stages);
      if left.Some? then RetryQueue(after, batch, left.value) else after
  }

  lemma {:induction false} CaptureRuns(state: State, capture: CaptureScript)
    requires state.phase.Capturing?
    requires capture.Captured? ==> Covered(state.phase.batch, capture.stages)
    ensures IsRun(state, CaptureEvents(state.phase.batch, capture))
    ensures After(state, CaptureEvents(state.phase.batch, capture))
         == state.(queue := CaptureQueue(state.queue, state.phase.batch, capture), phase := Idle)
  {
    match capture
    case Refused(now) =>
    case Captured(stages, left) =>
      var batch := state.phase.batch;
      var entered := Next(state, CaptureEnters);
      BatchRuns(entered, stages);
      var events := BatchEvents(InOrder(batch, ORDER), stages);
      var leaves := [if left.Some? then CaptureLeavingRaises(left.value) else CaptureLeaves];
      RunsAppend(entered, events, leaves);
      assert ([CaptureEnters] + (events + leaves))[1..] == events + leaves;
  }

  class EngineWorker {
    const queue: WorkQueue
    const boundary: EngineExtensionBoundary
    const batch: EngineWorkBatch

    ghost predicate Valid()
      reads this
    {
      boundary.queue == queue && batch.queue == queue
    }

    constructor (runtime: bool, queue: WorkQueue)
      ensures Valid() && this.queue == queue && fresh(boundary) && boundary.View() == Boundary(runtime, !runtime, {})
    {
      this.queue := queue;
      boundary := new EngineExtensionBoundary(runtime, queue);
      batch := new EngineWorkBatch(queue);
    }

    /** At startup every stage is pending. */
    method PutAll()
      requires Valid()
      modifies queue
      ensures queue.View() == old(queue.View()).(pending := old(queue.pending) + set kind | kind in ORDER)
      ensures forall kind: WorkKind :: kind in queue.pending
    {
      OrderHasAll();
      for i := 0 to |ORDER|
        invariant queue.View() == old(queue.View()).(pending := old(queue.pending) + set kind | kind in ORDER[..i])
      {
        assert ORDER[..i + 1] == ORDER[..i] + [ORDER[i]];
        queue.PutWork(ORDER[i]);
      }
      assert ORDER[..|ORDER|] == ORDER;
    }

    /** One pass after a take is the run of its events from the taken kinds. */
    method Process(kinds: set<WorkKind>, outcome: Publication, now: real, capture: CaptureScript)
      requires Valid()
      requires capture.Captured? ==> forall kind: WorkKind :: kind in capture.stages && OwnOps(capture.stages[kind].ops)
      modifies queue, boundary
      ensures var start := State(old(queue.View()), old(boundary.View()), Preparing(kinds));
              var prepared := Next(start, Prepare(outcome, now));
              if prepared.phase.Idle?
              then State(queue.View(), boundary.View(), Idle) == prepared
              else && IsRun(prepared, CaptureEvents(prepared.phase.batch, capture))
                   && State(queue.View(), boundary.View(), Idle) == After(prepared, CaptureEvents(prepared.phase.batch, capture))
    {
      ghost var start := State(queue.View(), boundary.View(), Preparing(kinds));
      var ready := boundary.Prepare(kinds, outcome, now);
      var pending := ReadyStages(ready);
      ghost var prepared := Next(start, Prepare(outcome, now));
      if pending == {} {
        return;
      }
      assert prepared.phase == Capturing(pending);
      CaptureRuns(prepared, capture);
      match capture {
        case Refused(at) => batch.Retry(pending, at);
        case Captured(stages, left) =>
          batch.Run(pending, stages);
          if left.Some? {
            batch.Retry(pending, left.value);
          }
      }
    }
  }
}
