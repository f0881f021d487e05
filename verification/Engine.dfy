/** The engine's work as a state machine over atomic steps: the queue, the extension boundary that can hold
    work back, and the running batch (engine/extensions_boundary.py, work_batch.py, worker.py). */
module Engine {
  import opened Wrappers
  import opened WorkQueues

  const RETRY_SECONDS: real := 0.1
  const RETRY_KEY := "extension publication"
  const STAGE_RETRY_SECONDS: real := 1.0
  const STAGE_RETRY_KEY := "retry"

  // ----- The boundary -----

  datatype PublishStatus = Published | Busy | Idling | Preparation | Failed | Fenced | Closing

  /** What one publication attempt answers; the runtime manager is modelled on its own. */
  datatype Publication = Raised | Progress(status: PublishStatus, allowProcessing: bool)

  datatype Boundary = Boundary(present: bool, ready: bool, pending: set<WorkKind>)

  /** The runtime is asked only after a lifecycle notice, or while it is not ready. */
  predicate Asks(boundary: Boundary, kinds: set<WorkKind>) {
    EXTENSIONS in kinds || !boundary.ready
  }

  function AdvanceBoundary(boundary: Boundary, outcome: Publication): Boundary {
    if !boundary.present || outcome.Raised? then boundary
    else
      boundary.(
        ready := outcome.allowProcessing,
        pending := if outcome.status == Published then boundary.pending + {SOURCES} else boundary.pending)
  }

  function AdvanceQueue(boundary: Boundary, queue: Queue, outcome: Publication, now: real): Queue {
    if boundary.present && (outcome.Raised? || outcome.status == Busy)
    then ScheduleQueue(queue, EXTENSIONS, RETRY_SECONDS, RETRY_KEY, now)
    else queue
  }

  datatype Prepared = Prepared(boundary: Boundary, queue: Queue, ready: set<WorkKind>)

  function PrepareWork(boundary: Boundary, queue: Queue, kinds: set<WorkKind>, outcome: Publication, now: real): Prepared {
    var filled := boundary.(pending := boundary.pending + kinds);
    var asks := Asks(boundary, kinds);
    var asked := if asks then AdvanceBoundary(filled, outcome) else filled;
    var nextQueue := if asks then AdvanceQueue(boundary, queue, outcome, now) else queue;
    var left := asked.pending - {EXTENSIONS};
    if !asked.ready then Prepared(asked.(pending := left), nextQueue, {})
    else Prepared(asked.(pending := {}), nextQueue, left)
  }

  class EngineExtensionBoundary {
    const present: bool
    const queue: WorkQueue
    var ready: bool
    var pending: set<WorkKind>

    function View(): Boundary
      reads this
    {
      Boundary(present, ready, pending)
    }

    constructor (present: bool, queue: WorkQueue)
      ensures View() == Boundary(present, !present, {}) && this.queue == queue
    {
      this.present, this.queue := present, queue;
      ready, pending := !present, {};
    }

    /** Publish before processing, or retain the work. `outcome` is what a publication attempt would answer. */
    method Prepare(kinds: set<WorkKind>, outcome: Publication, now: real) returns (work: set<WorkKind>)
      modifies this, queue
      ensures Prepared(View(), queue.View(), work) == PrepareWork(old(View()), old(queue.View()), kinds, outcome, now)
    {
      pending := pending + kinds;
      if EXTENSIONS in kinds || !ready {
        Advance(outcome, now);
      }
      pending := pending - {EXTENSIONS};
      if !ready {
        return {};
      }
      work := pending;
      pending := {};
    }

    method Advance(outcome: Publication, now: real)
      modifies this, queue
      ensures View() == AdvanceBoundary(old(View()), outcome)
      ensures queue.View() == AdvanceQueue(old(View()), old(queue.View()), outcome, now)
    {
      if !present {
        return;
      }
      match outcome {
        case Raised =>
          queue.ScheduleWork(EXTENSIONS, RETRY_SECONDS, RETRY_KEY, now);
        case Progress(status, allowProcessing) =>
          ready := allowProcessing;
          if status == Published {
            pending := pending + {SOURCES};
          }
          if status == Busy {
            queue.ScheduleWork(EXTENSIONS, RETRY_SECONDS, RETRY_KEY, now);
          }
      }
    }
  }

  // ----- The batch -----

  /** Add the stages that depend on the pending ones; a full source scan includes the extension sources. */
  method ReadyStages(pending: set<WorkKind>) returns (stages: set<WorkKind>)
    ensures stages == Stages(pending)
  {
    stages := pending;
    if SOURCES in stages {
      stages := stages - {EXTENSION_SOURCES};
      stages := stages + {RAW};
    }
    if EXTENSION_SOURCES in stages {
      stages := stages + {RAW};
    }
    if RAW in stages {
      stages := stages + {CANONICAL};
    }
  }

  /** The least set that keeps each pending stage, or the stage that includes it, and is closed under what
      follows each stage. */
  function Stages(pending: set<WorkKind>): (stages: set<WorkKind>)
    ensures stages == {} <==> pending == {}
    ensures forall kind <- pending :: Kept(stages, kind)
    ensures SOURCES in stages || EXTENSION_SOURCES in stages ==> RAW in stages
    ensures RAW in stages ==> CANONICAL in stages
    ensures !(SOURCES in stages && EXTENSION_SOURCES in stages)
  {
    var read := if SOURCES in pending then pending - {EXTENSION_SOURCES} else pending;
    var raw := if SOURCES in read || EXTENSION_SOURCES in read then {RAW} else {};
    read + raw + if RAW in read + raw then {CANONICAL} else {}
  }

  /** A pending stage leads to itself and to what follows it: a scan to the raw events, those to the canonical ones. */
  predicate LeadsTo(pending: WorkKind, kind: WorkKind) {
    || kind == pending
    || ((pending == SOURCES || pending == EXTENSION_SOURCES) && (kind == RAW || kind == CANONICAL))
    || (pending == RAW && kind == CANONICAL)
  }

  /** A stage runs exactly when a pending one leads to it; only the extension scan is left out beside a full scan. */
  lemma {:induction false} RunsExactlyTheNeeded(pending: set<WorkKind>, kind: WorkKind)
    ensures kind in Stages(pending) <==>
            (exists first <- pending :: LeadsTo(first, kind)) && !(kind == EXTENSION_SOURCES && SOURCES in pending)
  {
    var witnesses := [SOURCES, EXTENSION_SOURCES, RAW, kind];
    assert forall first :: first in witnesses && first in pending && LeadsTo(first, kind) ==>
      exists other <- pending :: LeadsTo(other, kind);
    assert witnesses[0] in witnesses && witnesses[1] in witnesses && witnesses[2] in witnesses && witnesses[3] in witnesses;
  }

  /** A stage `doer` does the work of `kind`. */
  predicate Covers(doer: WorkKind, kind: WorkKind) {
    doer == kind || (doer == SOURCES && kind == EXTENSION_SOURCES)
  }

  predicate Kept(kinds: set<WorkKind>, kind: WorkKind) {
    kind in kinds || (kind == EXTENSION_SOURCES && SOURCES in kinds)
  }

  const ORDER: seq<WorkKind> := [EXTENSIONS, SOURCES, EXTENSION_SOURCES, RAW, CANONICAL]

  function InOrder(kinds: set<WorkKind>, order: seq<WorkKind>): (todo: seq<WorkKind>)
    ensures forall kind :: kind in todo <==> kind in order && kind in kinds
  {
    if order == [] then [] else (if order[0] in kinds then [order[0]] else []) + InOrder(kinds, order[1..])
  }

  lemma {:induction false} OrderHasAll()
    ensures forall kind: WorkKind :: kind in ORDER
  {
    assert ORDER[0] == EXTENSIONS && ORDER[1] == SOURCES && ORDER[2] == EXTENSION_SOURCES
        && ORDER[3] == RAW && ORDER[4] == CANONICAL;
    forall kind: WorkKind ensures kind in ORDER {
      match kind case EXTENSIONS => case SOURCES => case EXTENSION_SOURCES => case RAW => case CANONICAL =>
    }
  }

  /** No stage comes twice or after one that follows from it, and the runtime's changes come first. */
  predicate RunsInOrder(todo: seq<WorkKind>) {
    forall i, j :: 0 <= i < j < |todo| ==> !LeadsTo(todo[j], todo[i]) && todo[j] != EXTENSIONS
  }

  predicate Before(todo: seq<WorkKind>, first: WorkKind, second: WorkKind) {
    forall i, j :: 0 <= i < |todo| && 0 <= j < |todo| && todo[i] == first && todo[j] == second ==> i < j
  }

  lemma {:induction false} RestInOrder(todo: seq<WorkKind>)
    requires todo != [] && RunsInOrder(todo)
    ensures RunsInOrder(todo[1..]) && forall kind <- todo[1..] :: kind in todo
  {
    var rest := todo[1..];
    forall i, j | 0 <= i < j < |rest|
      ensures !LeadsTo(rest[j], rest[i]) && rest[j] != EXTENSIONS
    {
      assert rest[i] == todo[i + 1] && rest[j] == todo[j + 1];
    }
  }

  lemma {:induction false} FirstInOrder(first: WorkKind, rest: seq<WorkKind>, todo: seq<WorkKind>)
    requires RunsInOrder(rest) && todo == [first] + rest
    requires forall later <- rest :: !LeadsTo(later, first) && later != EXTENSIONS
    ensures RunsInOrder(todo)
  {
    forall i, j | 0 <= i < j < |todo|
      ensures !LeadsTo(todo[j], todo[i]) && todo[j] != EXTENSIONS
    {
      assert todo[j] == rest[j - 1] && rest[j - 1] in rest;
      assert i > 0 ==> todo[i] == rest[i - 1];
    }
  }

  lemma {:induction false} NoneLeadsToFirst(order: seq<WorkKind>, later: WorkKind)
    requires order != [] && RunsInOrder(order) && later in order[1..]
    ensures !LeadsTo(later, order[0]) && later != EXTENSIONS
  {
    var k :| 0 <= k < |order| - 1 && order[1..][k] == later;
    assert order[k + 1] == later;
  }

  lemma {:induction false} InOrderKeepsOrder(kinds: set<WorkKind>, order: seq<WorkKind>)
    requires RunsInOrder(order)
    ensures RunsInOrder(InOrder(kinds, order))
  {
    if order != [] {
      var rest := InOrder(kinds, order[1..]);
      RestInOrder(order);
      InOrderKeepsOrder(kinds, order[1..]);
      if order[0] in kinds {
        forall later | later in rest
          ensures !LeadsTo(later, order[0]) && later != EXTENSIONS
        {
          NoneLeadsToFirst(order, later);
        }
        FirstInOrder(order[0], rest, [order[0]] + rest);
      } else {
        assert [] + rest == rest;
      }
    }
  }

  lemma {:induction false} OrderIsBefore(todo: seq<WorkKind>, first: WorkKind, second: WorkKind)
    requires RunsInOrder(todo) && LeadsTo(first, second) && first != second
    ensures Before(todo, first, second)
  {
    forall i, j | 0 <= i < |todo| && 0 <= j < |todo| && todo[i] == first && todo[j] == second
      ensures i < j
    {
      OrderAt(todo, i, j);
    }
  }

  lemma {:induction false} OrderAt(todo: seq<WorkKind>, i: nat, j: nat)
    requires RunsInOrder(todo) && i < |todo| && j < |todo|
    ensures j < i ==> !LeadsTo(todo[i], todo[j])
  {
  }

  predicate NoneTwice(todo: seq<WorkKind>) {
    forall i, j :: 0 <= i < j < |todo| ==> todo[i] != todo[j]
  }

  lemma {:induction false} OrderHasNoneTwice(todo: seq<WorkKind>)
    requires RunsInOrder(todo)
    ensures NoneTwice(todo) && forall i :: 0 < i < |todo| ==> todo[i] != EXTENSIONS
  {
    forall i, j | 0 <= i < j < |todo|
      ensures todo[i] != todo[j]
    {
      assert !LeadsTo(todo[j], todo[i]);
    }
    assert forall j :: 0 < j < |todo| ==> !LeadsTo(todo[j], todo[0]) && todo[j] != EXTENSIONS;
  }

  /** For all pending stages, what a batch runs: exactly the needed stages, each once, the runtime's changes first, each
      scan before the raw events and these before the canonical ones. */
  lemma {:induction false} StagesRunInOrder(pending: set<WorkKind>)
    ensures var todo := InOrder(Stages(pending), ORDER);
            && (forall kind :: kind in todo <==> kind in Stages(pending))
            && NoneTwice(todo)
            && (forall i :: 0 < i < |todo| ==> todo[i] != EXTENSIONS)
            && Before(todo, SOURCES, RAW) && Before(todo, EXTENSION_SOURCES, RAW) && Before(todo, RAW, CANONICAL)
            && Before(todo, SOURCES, CANONICAL) && Before(todo, EXTENSION_SOURCES, CANONICAL)
  {
    var todo := InOrder(Stages(pending), ORDER);
    OrderHasAll();
    OrderIsRight();
    InOrderKeepsOrder(Stages(pending), ORDER);
    OrderHasNoneTwice(todo);
    OrderIsBefore(todo, SOURCES, RAW);
    OrderIsBefore(todo, EXTENSION_SOURCES, RAW);
    OrderIsBefore(todo, RAW, CANONICAL);
    OrderIsBefore(todo, SOURCES, CANONICAL);
    OrderIsBefore(todo, EXTENSION_SOURCES, CANONICAL);
  }

  lemma {:induction false} OrderIsRight()
    ensures RunsInOrder(ORDER)
  {
  }

  /** Schedule each kind again. */
  function RetryQueue(queue: Queue, kinds: set<WorkKind>, now: real): Queue {
    var ids := set kind | kind in kinds :: Identity(kind, STAGE_RETRY_KEY);
    queue.(deadlines := map id | id in queue.deadlines.Keys + ids ::
      if id in ids then ScheduleQueue(queue, id.kind, STAGE_RETRY_SECONDS, id.key, now).deadlines[id] else queue.deadlines[id])
  }

  // ----- The whole engine -----

  /** Where the work of the worker thread is. */
  datatype Phase =
    | Idle
    | Preparing(kinds: set<WorkKind>)
    | Capturing(batch: set<WorkKind>)
    | Running(batch: set<WorkKind>, todo: seq<WorkKind>)

  datatype State = State(queue: Queue, boundary: Boundary, phase: Phase)

  datatype Event =
    | Notice(op: QueueOp)
    | Take(now: real)
    | Prepare(outcome: Publication, now: real)
    | CaptureRaises(now: real)
    | CaptureEnters
    | StageReturns
    | StageRaises(now: real)
    | CaptureLeaves
    | CaptureLeavingRaises(now: real)

  /** The producers of owned deadlines use their own keys; the two retry keys are only ever scheduled. */
  predicate OwnKeys(op: QueueOp) {
    op.SetDeadline? ==> op.key != RETRY_KEY && op.key != STAGE_RETRY_KEY
  }

  predicate Enabled(state: State, event: Event) {
    match event
    case Notice(op) => OwnKeys(op)
    case Take(now) => state.phase.Idle? && !state.queue.closed && ReadyQueue(state.queue, now).pending != {}
    case Prepare(_, _) => state.phase.Preparing?
    case CaptureRaises(_) => state.phase.Capturing?
    case CaptureEnters => state.phase.Capturing?
    case StageReturns => state.phase.Running? && state.phase.todo != []
    case StageRaises(_) => state.phase.Running? && state.phase.todo != []
    case CaptureLeaves => state.phase.Running? && state.phase.todo == []
    case CaptureLeavingRaises(_) => state.phase.Running? && state.phase.todo == []
  }

  function Next(state: State, event: Event): State
    requires Enabled(state, event)
  {
    match event
    case Notice(op) => state.(queue := OpQueue(state.queue, op))
    case Take(now) => state.(queue := TakeQueue(state.queue, now), phase := Preparing(ReadyQueue(state.queue, now).pending))
    case Prepare(outcome, now) =>
      var prepared := PrepareWork(state.boundary, state.queue, state.phase.kinds, outcome, now);
      var batch := Stages(prepared.ready);
      State(prepared.queue, prepared.boundary, if batch == {} then Idle else Capturing(batch))
    case CaptureRaises(now) => state.(queue := RetryQueue(state.queue, state.phase.batch, now), phase := Idle)
    case CaptureEnters => state.(phase := Running(state.phase.batch, InOrder(state.phase.batch, ORDER)))
    case StageReturns => state.(phase := state.phase.(todo := state.phase.todo[1..]))
    case StageRaises(now) =>
      state.(queue := RetryQueue(state.queue, {state.phase.todo[0]}, now), phase := state.phase.(todo := state.phase.todo[1..]))
    case CaptureLeaves => state.(phase := Idle)
    case CaptureLeavingRaises(now) => state.(queue := RetryQueue(state.queue, state.phase.batch, now), phase := Idle)
  }

  /** The runtime is there, was asked and answered. */
  predicate HasAnswered(state: State, outcome: Publication)
    requires state.phase.Preparing?
  {
    state.boundary.present && (EXTENSIONS in state.phase.kinds || !state.boundary.ready) && outcome.Progress?
  }

  /** The work that a preparation finds: what was taken, what the boundary kept, and the scan after a switch. */
  predicate HasWork(state: State, outcome: Publication, kind: WorkKind)
    requires state.phase.Preparing?
  {
    || kind in state.phase.kinds
    || kind in state.boundary.pending
    || (kind == SOURCES && HasAnswered(state, outcome) && outcome.status == Published)
  }

  /** What one preparation does, for every boundary, batch of notices and answer: an asked runtime decides whether the
      engine may work. A ready boundary lets all work through, and the batch is what it needs; another one keeps it. */
  lemma {:induction false} PreparationDecides(state: State, outcome: Publication, now: real, kind: WorkKind)
    requires state.phase.Preparing?
    ensures var next := Next(state, Prepare(outcome, now));
            && (next.boundary.ready <==> if HasAnswered(state, outcome) then outcome.allowProcessing else state.boundary.ready)
            && next.boundary.present == state.boundary.present
            && (next.boundary.ready ==> next.boundary.pending == {})
            && (next.boundary.ready ==>
                  ((next.phase.Capturing? && kind in next.phase.batch) <==>
                    (exists first :: HasWork(state, outcome, first) && first != EXTENSIONS && LeadsTo(first, kind))
                    && !(kind == EXTENSION_SOURCES && HasWork(state, outcome, SOURCES))))
            && (!next.boundary.ready ==> next.phase == Idle)
            && (!next.boundary.ready ==>
                  (kind in next.boundary.pending <==> HasWork(state, outcome, kind) && kind != EXTENSIONS))
  {
    var prepared := PrepareWork(state.boundary, state.queue, state.phase.kinds, outcome, now);
    RunsExactlyTheNeeded(prepared.ready, kind);
    assert forall first :: first in prepared.ready <==>
      prepared.boundary.ready && HasWork(state, outcome, first) && first != EXTENSIONS;
  }

  /** A switch that failed or found a reader is tried again a tenth of a second later; nothing else asks the queue. */
  lemma {:induction false} BusySwitchIsTriedAgain(state: State, outcome: Publication, now: real, at: real)
    requires state.phase.Preparing?
    ensures var next := Next(state, Prepare(outcome, now));
            var again := state.boundary.present && (EXTENSIONS in state.phase.kinds || !state.boundary.ready)
                         && (outcome.Raised? || outcome.status == Busy);
            && (!again ==> next.queue == state.queue)
            && (again ==> Identity(EXTENSIONS, "extension publication") in next.queue.deadlines)
            && (forall kind :: kind in ReadyQueue(next.queue, at).pending <==>
                  kind in ReadyQueue(state.queue, at).pending || (again && kind == EXTENSIONS && at >= now + 0.1))
  {
    ScheduledStageIsDue(state.queue, EXTENSIONS, RETRY_SECONDS, RETRY_KEY, now, at);
  }

  lemma {:induction false} RetriedAreDue(queue: Queue, kinds: set<WorkKind>, now: real, at: real, kind: WorkKind)
    ensures kind in ReadyQueue(RetryQueue(queue, kinds, now), at).pending <==>
            kind in ReadyQueue(queue, at).pending || (kind in kinds && at >= now + 1.0)
  {
    var next := RetryQueue(queue, kinds, now);
    assert forall id <- queue.deadlines :: id in next.deadlines && next.deadlines[id] <= queue.deadlines[id];
    if kind in ReadyQueue(queue, at).pending && kind !in queue.pending {
      var due :| due in queue.deadlines && queue.deadlines[due] <= at && due.kind == kind;
      assert next.deadlines[due] <= at;
    }
    if kind in kinds && at >= now + 1.0 {
      assert next.deadlines[Identity(kind, STAGE_RETRY_KEY)] <= at;
    }
  }

  /** A failed stage is due again from one second later on, and no other stage; a failed capture does that to its whole
      batch. */
  lemma {:induction false} FailedWorkIsDueAgain(state: State, event: Event, at: real, kind: WorkKind)
    requires Enabled(state, event) && (event.StageRaises? || event.CaptureRaises? || event.CaptureLeavingRaises?)
    ensures var failed := if event.StageRaises? then {state.phase.todo[0]} else state.phase.batch;
            kind in ReadyQueue(Next(state, event).queue, at).pending <==>
              kind in ReadyQueue(state.queue, at).pending || (kind in failed && at >= event.now + 1.0)
    ensures var failed := if event.StageRaises? then {state.phase.todo[0]} else state.phase.batch;
            kind in failed ==> Identity(kind, "retry") in Next(state, event).queue.deadlines
  {
    RetriedAreDue(state.queue, if event.StageRaises? then {state.phase.todo[0]} else state.phase.batch, event.now, at, kind);
  }

  // ----- No work is lost -----

  predicate HeldAs(state: State, kind: WorkKind) {
    || kind in state.queue.pending
    || Identity(kind, STAGE_RETRY_KEY) in state.queue.deadlines
    || Identity(kind, RETRY_KEY) in state.queue.deadlines
    || kind in state.boundary.pending
    || match state.phase
       case Idle => false
       case Preparing(kinds) => kind in kinds
       case Capturing(batch) => kind in batch
       case Running(_, todo) => kind in todo
  }

  /** Some holder has the kind, or the stage that includes it. */
  predicate Held(state: State, kind: WorkKind) {
    HeldAs(state, kind) || (kind == EXTENSION_SOURCES && HeldAs(state, SOURCES))
  }

  /** The event does the work: a stage that covers the kind returns, or the runtime answers a lifecycle notice. */
  predicate Discharges(state: State, event: Event, kind: WorkKind) {
    || (event.StageReturns? && state.phase.Running? && state.phase.todo != [] && Covers(state.phase.todo[0], kind))
    || (kind == EXTENSIONS && event.Prepare? && state.phase.Preparing?
        && Asks(state.boundary, state.phase.kinds)
        && (!state.boundary.present || (event.outcome.Progress? && event.outcome.status != Busy)))
  }

  lemma {:induction false} RetryHolds(queue: Queue, kinds: set<WorkKind>, now: real)
    ensures forall kind <- kinds :: Identity(kind, STAGE_RETRY_KEY) in RetryQueue(queue, kinds, now).deadlines
    ensures queue.deadlines.Keys <= RetryQueue(queue, kinds, now).deadlines.Keys
  {
  }

  lemma {:induction false} TakeHolds(state: State, now: real, kind: WorkKind)
    requires Enabled(state, Take(now)) && HeldAs(state, kind)
    ensures HeldAs(Next(state, Take(now)), kind)
  {
    forall key: string | Identity(kind, key) in state.queue.deadlines
      ensures kind in DueKinds(state.queue, now) || Identity(kind, key) in TakeQueue(state.queue, now).deadlines
    {
      var id := Identity(kind, key);
      if state.queue.deadlines[id] <= now {
        assert id.kind in DueKinds(state.queue, now);
      }
    }
  }

  /** The boundary keeps no lifecycle notice, and a ready boundary holds nothing back. */
  predicate RestingBoundary(state: State) {
    && EXTENSIONS !in state.boundary.pending
    && (state.boundary.ready ==> state.boundary.pending == {})
  }

  lemma {:induction false} PrepareHolds(state: State, outcome: Publication, now: real, kind: WorkKind)
    requires Enabled(state, Prepare(outcome, now)) && Held(state, kind) && RestingBoundary(state)
    requires !Discharges(state, Prepare(outcome, now), kind)
    ensures Held(Next(state, Prepare(outcome, now)), kind)
  {
    var kinds := state.phase.kinds;
    PreparedQueue(state.boundary, state.queue, kinds, outcome, now);
    PreparedWork(state.boundary, state.queue, kinds, outcome, now, kind);
    PreparedWork(state.boundary, state.queue, kinds, outcome, now, SOURCES);
    if kind == EXTENSIONS {
      PreparedNotice(state, outcome, now);
    } else {
      BatchHolds(state, outcome, now, kind);
      BatchHolds(state, outcome, now, SOURCES);
    }
  }

  /** The preparation takes nothing from the queue. */
  lemma {:induction false} PreparedQueue(
      boundary: Boundary, queue: Queue, kinds: set<WorkKind>, outcome: Publication, now: real)
    ensures var prepared := PrepareWork(boundary, queue, kinds, outcome, now);
            prepared.queue.pending == queue.pending && forall id <- queue.deadlines :: id in prepared.queue.deadlines
  {
  }

  /** Work goes to the batch, or stays in the boundary. */
  lemma {:induction false} PreparedWork(
      boundary: Boundary, queue: Queue, kinds: set<WorkKind>, outcome: Publication, now: real, kind: WorkKind)
    ensures var prepared := PrepareWork(boundary, queue, kinds, outcome, now);
            kind in boundary.pending + kinds && kind != EXTENSIONS ==>
              kind in prepared.boundary.pending || kind in prepared.ready
  {
  }

  lemma {:induction false} PreparedNotice(state: State, outcome: Publication, now: real)
    requires Enabled(state, Prepare(outcome, now)) && Held(state, EXTENSIONS) && EXTENSIONS !in state.boundary.pending
    requires !Discharges(state, Prepare(outcome, now), EXTENSIONS)
    ensures Held(Next(state, Prepare(outcome, now)), EXTENSIONS)
  {
  }

  /** What is in the batch, the boundary or the queue after the preparation is held. */
  lemma {:induction false} BatchHolds(state: State, outcome: Publication, now: real, kind: WorkKind)
    requires Enabled(state, Prepare(outcome, now))
    ensures var prepared := PrepareWork(state.boundary, state.queue, state.phase.kinds, outcome, now);
            kind in prepared.ready ==> Held(Next(state, Prepare(outcome, now)), kind)
  {
    var prepared := PrepareWork(state.boundary, state.queue, state.phase.kinds, outcome, now);
    if kind in prepared.ready {
      assert Kept(Stages(prepared.ready), kind);
    }
  }

  /** Each step keeps every held kind held, unless the step does its work. */
  lemma {:induction false} StepHolds(state: State, event: Event, kind: WorkKind)
    requires Enabled(state, event) && RestingBoundary(state)
    requires Held(state, kind) && !Discharges(state, event, kind)
    ensures RestingBoundary(Next(state, event))
    ensures Held(Next(state, event), kind)
  {
    match event
    case Notice(op) =>
    case Take(now) =>
      if HeldAs(state, kind) {
        TakeHolds(state, now, kind);
      } else {
        TakeHolds(state, now, SOURCES);
      }
    case Prepare(outcome, now) => PrepareHolds(state, outcome, now, kind);
    case CaptureRaises(now) => RetryHolds(state.queue, state.phase.batch, now);
    case CaptureEnters => OrderHasAll();
    case StageReturns =>
    case StageRaises(now) => RetryHolds(state.queue, {state.phase.todo[0]}, now);
    case CaptureLeaves =>
    case CaptureLeavingRaises(now) => RetryHolds(state.queue, state.phase.batch, now);
  }

  // ----- Runs -----

  predicate IsRun(state: State, events: seq<Event>)
    decreases |events|
  {
    events == [] || (Enabled(state, events[0]) && IsRun(Next(state, events[0]), events[1..]))
  }

  function After(state: State, events: seq<Event>): State
    requires IsRun(state, events)
    decreases |events|
  {
    if events == [] then state else After(Next(state, events[0]), events[1..])
  }

  ghost predicate NeverDischarged(state: State, events: seq<Event>, kind: WorkKind)
    requires IsRun(state, events)
    decreases |events|
  {
    events != [] ==>
      && !Discharges(state, events[0], kind)
      && NeverDischarged(Next(state, events[0]), events[1..], kind)
  }

  /** The event makes the kind owed: a notice, a deadline that comes due, or a published runtime. */
  predicate Owes(state: State, event: Event, kind: WorkKind) {
    match event
    case Notice(op) => op == Put(kind)
    case Take(now) => kind in ReadyQueue(state.queue, now).pending
    case Prepare(outcome, _) =>
      && kind == SOURCES && state.phase.Preparing? && state.boundary.present
      && Asks(state.boundary, state.phase.kinds)
      && outcome.Progress? && outcome.status == Published
    case _ => false
  }

  lemma {:induction false} OwedIsHeld(state: State, event: Event, kind: WorkKind)
    requires Enabled(state, event) && Owes(state, event, kind)
    ensures Held(Next(state, event), kind)
  {
    if event.Prepare? {
      var prepared := PrepareWork(state.boundary, state.queue, state.phase.kinds, event.outcome, event.now);
      assert forall waiting <- prepared.ready :: Kept(Stages(prepared.ready), waiting);
    }
  }

  lemma {:induction false} HeldOverRun(state: State, events: seq<Event>, kind: WorkKind)
    requires IsRun(state, events) && RestingBoundary(state)
    requires Held(state, kind) && NeverDischarged(state, events, kind)
    ensures Held(After(state, events), kind)
    decreases |events|
  {
    if events != [] {
      StepHolds(state, events[0], kind);
      HeldOverRun(Next(state, events[0]), events[1..], kind);
    }
  }

  function Start(present: bool): State {
    State(Queue({}, map[], false), Boundary(present, !present, {}), Idle)
  }

  /** The runtime let the engine work in one of the events. */
  ghost predicate AllowedIn(events: seq<Event>) {
    exists i :: 0 <= i < |events| && Allows(events[i])
  }

  predicate Allows(event: Event) {
    event.Prepare? && event.outcome.Progress? && event.outcome.allowProcessing
  }

  predicate HeldBack(state: State) {
    state.boundary.present && !state.boundary.ready && (state.phase.Idle? || state.phase.Preparing?)
  }

  lemma {:induction false} HeldBackUntilAllowed(state: State, events: seq<Event>)
    requires HeldBack(state) && IsRun(state, events)
    ensures AllowedIn(events) || HeldBack(After(state, events))
    decreases |events|
  {
    if events != [] {
      if Allows(events[0]) {
        assert Allows(events[0]);
      } else {
        HeldBackUntilAllowed(Next(state, events[0]), events[1..]);
        if AllowedIn(events[1..]) {
          var i :| 0 <= i < |events| - 1 && Allows(events[1..][i]);
          assert Allows(events[i + 1]);
        }
      }
    }
  }

  /** Over every run of an engine with extensions, no stage runs before the runtime allowed it; without extensions the
      boundary is always ready. */
  lemma {:induction false} NothingRunsBeforeItIsAllowed(events: seq<Event>)
    ensures IsRun(Start(true), events) ==>
              AllowedIn(events) || !(After(Start(true), events).phase.Capturing? || After(Start(true), events).phase.Running?)
    ensures IsRun(Start(false), events) ==> After(Start(false), events).boundary.ready
  {
    if IsRun(Start(true), events) {
      HeldBackUntilAllowed(Start(true), events);
    }
    if IsRun(Start(false), events) {
      ReadyWithoutRuntime(Start(false), events);
    }
  }

  lemma {:induction false} ReadyWithoutRuntime(state: State, events: seq<Event>)
    requires !state.boundary.present && state.boundary.ready && IsRun(state, events)
    ensures After(state, events).boundary.ready
    decreases |events|
  {
    if events != [] {
      ReadyWithoutRuntime(Next(state, events[0]), events[1..]);
    }
  }

  predicate InOrderNow(state: State) {
    state.phase.Running? ==> RunsInOrder(state.phase.todo) && forall kind <- state.phase.todo :: kind in state.phase.batch
  }

  lemma {:induction false} StepKeepsOrder(state: State, event: Event)
    requires Enabled(state, event) && InOrderNow(state)
    ensures InOrderNow(Next(state, event))
  {
    if event.CaptureEnters? {
      InOrderKeepsOrder(state.phase.batch, ORDER);
      OrderIsRight();
    } else if event.StageReturns? || event.StageRaises? {
      RestInOrder(state.phase.todo);
    }
  }

  lemma {:induction false} OrderOverRuns(state: State, events: seq<Event>)
    requires InOrderNow(state) && IsRun(state, events)
    ensures InOrderNow(After(state, events))
    decreases |events|
  {
    if events != [] {
      StepKeepsOrder(state, events[0]);
      OrderOverRuns(Next(state, events[0]), events[1..]);
    }
  }

  /** Over every run, whatever fails: when a stage is next, no stage that leads to it is still to come. */
  lemma {:induction false} NoStageRunsTooEarly(present: bool, events: seq<Event>, earlier: WorkKind)
    requires IsRun(Start(present), events)
    ensures var phase := After(Start(present), events).phase;
            phase.Running? && phase.todo != [] && earlier in phase.todo[1..] ==>
              !LeadsTo(earlier, phase.todo[0]) && earlier != EXTENSIONS
  {
    OrderOverRuns(Start(present), events);
  }

  lemma {:induction false} BoundaryRests(state: State, events: seq<Event>)
    requires RestingBoundary(state) && IsRun(state, events)
    ensures RestingBoundary(After(state, events))
    decreases |events|
  {
    if events != [] {
      BoundaryRests(Next(state, events[0]), events[1..]);
    }
  }

  /** In every run, whatever stages, captures and publications fail: from the moment that work is owed until
      a stage that covers it returns, some holder has it. */
  lemma {:induction false} NoWorkIsLost(present: bool, earlier: seq<Event>, event: Event, later: seq<Event>, kind: WorkKind)
    requires IsRun(Start(present), earlier)
    requires Enabled(After(Start(present), earlier), event) && Owes(After(Start(present), earlier), event, kind)
    requires IsRun(Next(After(Start(present), earlier), event), later)
    requires NeverDischarged(Next(After(Start(present), earlier), event), later, kind)
    ensures Held(After(Next(After(Start(present), earlier), event), later), kind)
  {
    BoundaryRests(Start(present), earlier);
    var state := After(Start(present), earlier);
    OwedIsHeld(state, event, kind);
    BoundaryRests(state, [event]);
    HeldOverRun(Next(state, event), later, kind);
  }

  /** A notice of raw events whose capture raises, in an engine without extensions. */
  function FailedCapture(now: real): seq<Event> {
    [Notice(Put(RAW)), Take(now), Prepare(Raised, now), CaptureRaises(now)]
  }

  lemma {:induction false} FirstEvent(state: State, event: Event, later: seq<Event>)
    requires Enabled(state, event) && IsRun(Next(state, event), later)
    ensures IsRun(state, [event] + later)
    ensures After(state, [event] + later) == After(Next(state, event), later)
  {
    assert ([event] + later)[1..] == later;
  }

  lemma {:induction false} FailedCaptureRuns(now: real)
    ensures IsRun(Start(false), FailedCapture(now))
    ensures After(Start(false), FailedCapture(now))
         == State(RetryQueue(Queue({}, map[], false), {RAW, CANONICAL}, now), Boundary(false, true, {}), Idle)
  {
    var put := Next(Start(false), Notice(Put(RAW)));
    assert put.queue == Queue({RAW}, map[], false);
    EmptyDeadlines(put.queue, now);
    var taken := Next(put, Take(now));
    assert taken == State(Queue({}, map[], false), Boundary(false, true, {}), Preparing({RAW}));
    var prepared := Next(taken, Prepare(Raised, now));
    assert prepared.phase == Capturing({RAW, CANONICAL});
    FirstEvent(prepared, CaptureRaises(now), []);
    FirstEvent(taken, Prepare(Raised, now), [CaptureRaises(now)] + []);
    FirstEvent(put, Take(now), [Prepare(Raised, now)] + ([CaptureRaises(now)] + []));
    FirstEvent(Start(false), Notice(Put(RAW)), [Take(now)] + ([Prepare(Raised, now)] + ([CaptureRaises(now)] + [])));
    assert FailedCapture(now)
        == [Notice(Put(RAW))] + ([Take(now)] + ([Prepare(Raised, now)] + ([CaptureRaises(now)] + [])));
  }

  lemma {:induction false} EmptyDeadlines(queue: Queue, now: real)
    requires queue.deadlines == map[] && !queue.closed
    ensures ReadyQueue(queue, now) == queue
    ensures TakeQueue(queue, now) == queue.(pending := {})
  {
    assert DueKinds(queue, now) == {};
  }

  /** The retry keys must stay with the retries. In this run of an engine the failed raw stage waits for its retry; a
      producer that cleared that deadline would lose it. */
  lemma {:induction false} ClearedRetryLosesWork(now: real)
    ensures IsRun(Start(false), FailedCapture(now))
    ensures var failed := After(Start(false), FailedCapture(now));
            && Held(failed, RAW)
            && !Held(failed.(queue := OpQueue(failed.queue, SetDeadline(RAW, None, STAGE_RETRY_KEY, now))), RAW)
  {
    FailedCaptureRuns(now);
    RetryHolds(Queue({}, map[], false), {RAW, CANONICAL}, now);
    var queue := RetryQueue(Queue({}, map[], false), {RAW, CANONICAL}, now);
    assert queue.deadlines.Keys == {Identity(RAW, STAGE_RETRY_KEY), Identity(CANONICAL, STAGE_RETRY_KEY)};
  }

  /** Between batches, work that a ready boundary lets through waits in the queue, where a take hands it out. */
  lemma {:induction false} IdleWorkWaitsInTheQueue(present: bool, events: seq<Event>, kind: WorkKind)
    requires IsRun(Start(present), events)
    ensures var end := After(Start(present), events);
            end.phase.Idle? && end.boundary.ready && Held(end, kind) ==>
              exists doer :: Covers(doer, kind) &&
                (doer in end.queue.pending
                 || Identity(doer, STAGE_RETRY_KEY) in end.queue.deadlines || Identity(doer, RETRY_KEY) in end.queue.deadlines)
  {
    BoundaryRests(Start(present), events);
    var end := After(Start(present), events);
    if end.phase.Idle? && end.boundary.ready && Held(end, kind) {
      assert Covers(if HeldAs(end, kind) then kind else SOURCES, kind);
    }
  }
}
