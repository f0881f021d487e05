/** Change notices to connected readers, with nested write batches (core/change_signal.py). The state machine
    interleaves the critical sections of any number of threads; the class runs them one thread at a time. */
module ChangeSignals {

  /** A worker thread waits on its own event; a connection waits on an event of its loop. */
  datatype Reader = ThreadReader(id: nat) | LoopReader(id: nat)

  /** `ready` has the events that are set, `calls` the loops that were asked to set one, `ended` the closed loops. */
  datatype Signal = Signal(
    batches: int,
    pending: bool,
    readers: set<Reader>,
    ready: set<Reader>,
    calls: set<Reader>,
    ended: set<Reader>)

  const EMPTY := Signal(0, false, {}, {}, {}, {})

  function ExitSignal(signal: Signal): Signal {
    var left := signal.batches - 1;
    signal.(batches := left, pending := signal.pending && left != 0)
  }

  /** The last batch to end takes the pending notice with it. */
  predicate ExitPublishes(signal: Signal) {
    signal.batches == 1 && signal.pending
  }

  function PublishSignal(signal: Signal): Signal {
    if signal.batches != 0 then signal.(pending := true) else signal
  }

  /** Set one reader's event; a connection whose loop has closed is skipped. */
  function DeliverSignal(signal: Signal, reader: Reader): Signal {
    match reader
    case ThreadReader(_) => signal.(ready := signal.ready + {reader})
    case LoopReader(_) => if reader in signal.ended then signal else signal.(calls := signal.calls + {reader})
  }

  // ----- Threads -----

  /** Where a thread is between critical sections: it left the last batch and has not published yet, or it has
      a snapshot of the readers and still has to set some of them. */
  datatype Step = Leaving | Delivering(todo: set<Reader>)

  datatype State = State(signal: Signal, steps: map<nat, Step>)

  datatype Event =
    | Enter(thread: nat)
    | Exit(thread: nat)
    | Publish(thread: nat)
    | Deliver(thread: nat, reader: Reader)
    | LoopRuns(reader: Reader)
    | LoopEnds(reader: Reader)
    | Subscribe(reader: Reader)
    | Unsubscribe(reader: Reader)
    | Clear(reader: Reader)

  predicate Enabled(state: State, event: Event) {
    match event
    case Enter(thread) => thread !in state.steps
    case Exit(thread) => thread !in state.steps && state.signal.batches > 0
    case Publish(thread) => thread !in state.steps || state.steps[thread].Leaving?
    case Deliver(thread, reader) =>
      thread in state.steps && state.steps[thread].Delivering? && reader in state.steps[thread].todo
    case LoopRuns(reader) => reader in state.signal.calls
    case LoopEnds(reader) => reader.LoopReader?
    case Subscribe(reader) => reader !in state.signal.readers
    case Unsubscribe(reader) => reader in state.signal.readers
    case Clear(reader) => reader in state.signal.ready
  }

  /** A thread that has set its last reader is free again. */
  function Continue(steps: map<nat, Step>, thread: nat, todo: set<Reader>): map<nat, Step> {
    if todo == {} then steps - {thread} else steps[thread := Delivering(todo)]
  }

  function Next(state: State, event: Event): State
    requires Enabled(state, event)
  {
    var signal := state.signal;
    match event
    case Enter(_) => state.(signal := signal.(batches := signal.batches + 1))
    case Exit(thread) =>
      State(ExitSignal(signal), if ExitPublishes(signal) then state.steps[thread := Leaving] else state.steps)
    case Publish(thread) =>
      State(PublishSignal(signal), Continue(state.steps, thread, if signal.batches != 0 then {} else signal.readers))
    case Deliver(thread, reader) =>
      State(DeliverSignal(signal, reader), Continue(state.steps, thread, state.steps[thread].todo - {reader}))
    case LoopRuns(reader) =>
      state.(signal := signal.(calls := signal.calls - {reader}, ready := signal.ready + {reader}))
    case LoopEnds(reader) =>
      state.(signal := signal.(calls := signal.calls - {reader}, ended := signal.ended + {reader}))
    case Subscribe(reader) => state.(signal := signal.(readers := signal.readers + {reader}))
    case Unsubscribe(reader) => state.(signal := signal.(readers := signal.readers - {reader}))
    case Clear(reader) => state.(signal := signal.(ready := signal.ready - {reader}))
  }

  predicate IsRun(state: State, events: seq<Event>)
    decreases |events|
  {
    events == [] || (Enabled(state, events[0]) && IsRun(Next(state, events[0]), events[1..]))
  }

  function After(state: State, events: seq<Event>): State
    requires IsRun(state, events)
    decreases |events|
  {
    if events == [] then state else After(Next(state, events[0]), events[1..])
  }

  // ----- No notice is lost -----

  /** A notice is kept back only while a batch is open. */
  predicate KeptBack(state: State) {
    state.signal.batches >= 0 && (state.signal.pending ==> state.signal.batches > 0)
  }

  /** No batch is open, and no thread is between the end of its batch and its last delivery. */
  predicate QuietMoment(state: State) {
    state.signal.batches == 0 && state.steps == map[]
  }

  /** A notice for the reader is on its way. */
  ghost predicate Promised(state: State, reader: Reader) {
    || state.signal.pending
    || exists thread :: thread in state.steps && Carries(state.steps[thread], reader)
  }

  predicate Carries(step: Step, reader: Reader) {
    step.Leaving? || reader in step.todo
  }

  lemma {:induction false} KeptBackOverRuns(state: State, events: seq<Event>)
    requires KeptBack(state) && IsRun(state, events)
    ensures KeptBack(After(state, events))
    decreases |events|
  {
    if events != [] {
      KeptBackOverRuns(Next(state, events[0]), events[1..]);
    }
  }

  /** Publishing promises a notice to every reader of that moment. */
  lemma {:induction false} PublishPromises(state: State, thread: nat, reader: Reader)
    requires Enabled(state, Publish(thread)) && reader in state.signal.readers
    ensures Promised(Next(state, Publish(thread)), reader)
  {
    var next := Next(state, Publish(thread));
    if state.signal.batches == 0 {
      assert Carries(next.steps[thread], reader);
    }
  }

  /** Only the delivery to the reader keeps the promise; nothing else takes it away. */
  lemma {:induction false} PromiseStays(state: State, event: Event, reader: Reader)
    requires Enabled(state, event) && Promised(state, reader) && reader in state.signal.readers
    requires !(event.Deliver? && event.reader == reader) && event != Unsubscribe(reader)
    ensures Promised(Next(state, event), reader) && reader in Next(state, event).signal.readers
  {
    var next := Next(state, event);
    if state.signal.pending {
      if event.Exit? && ExitPublishes(state.signal) {
        assert Carries(next.steps[event.thread], reader);
      }
    } else {
      var thread :| thread in state.steps && Carries(state.steps[thread], reader);
      if event.Publish? && event.thread == thread {
        PublishPromises(state, thread, reader);
      } else {
        assert Carries(next.steps[thread], reader);
      }
    }
  }

  ghost predicate DeliveredIn(events: seq<Event>, reader: Reader) {
    exists k :: 0 <= k < |events| && events[k].Deliver? && events[k].reader == reader
  }

  lemma {:induction false} PromiseIsKept(state: State, events: seq<Event>, reader: Reader)
    requires IsRun(state, events) && KeptBack(state)
    requires Promised(state, reader) && reader in state.signal.readers
    requires Unsubscribe(reader) !in events && QuietMoment(After(state, events))
    ensures DeliveredIn(events, reader)
    decreases |events|
  {
    if events == [] {
    } else if events[0].Deliver? && events[0].reader == reader {
    } else {
      PromiseStays(state, events[0], reader);
      PromiseIsKept(Next(state, events[0]), events[1..], reader);
      var k :| 0 <= k < |events[1..]| && events[1..][k].Deliver? && events[1..][k].reader == reader;
      assert events[k + 1] == events[1..][k];
    }
  }

  /** In every interleaving: at a quiet moment nothing is pending, and each reader that subscribed before a
      publication, and is still subscribed, was notified after it. */
  lemma {:induction false} NoNoticeIsLost(earlier: seq<Event>, thread: nat, later: seq<Event>, reader: Reader)
    requires IsRun(State(EMPTY, map[]), earlier)
    requires var at := After(State(EMPTY, map[]), earlier);
             && Enabled(at, Publish(thread)) && reader in at.signal.readers
             && IsRun(Next(at, Publish(thread)), later)
             && QuietMoment(After(Next(at, Publish(thread)), later))
    requires Unsubscribe(reader) !in later
    ensures DeliveredIn(later, reader)
    ensures !After(Next(After(State(EMPTY, map[]), earlier), Publish(thread)), later).signal.pending
  {
    KeptBackOverRuns(State(EMPTY, map[]), earlier);
    var at := After(State(EMPTY, map[]), earlier);
    PublishPromises(at, thread, reader);
    KeptBackOverRuns(at, [Publish(thread)]);
    PromiseIsKept(Next(at, Publish(thread)), later, reader);
    KeptBackOverRuns(Next(at, Publish(thread)), later);
  }

  /** A delivered notice waits for its reader: the event is set, or the reader's loop will set it or has closed. */
  predicate Told(state: State, reader: Reader) {
    reader in state.signal.ready + state.signal.calls + state.signal.ended
  }

  lemma {:induction false} ToldUntilCleared(state: State, events: seq<Event>, reader: Reader)
    requires IsRun(state, events) && Clear(reader) !in events
    requires Told(state, reader) || DeliveredIn(events, reader)
    ensures Told(After(state, events), reader)
    decreases |events|
  {
    if events != [] {
      var next := Next(state, events[0]);
      if !Told(state, reader) && !(events[0].Deliver? && events[0].reader == reader) {
        var k :| 0 <= k < |events| && events[k].Deliver? && events[k].reader == reader;
        assert events[1..][k - 1] == events[k];
      }
      ToldUntilCleared(next, events[1..], reader);
    }
  }

  predicate OnTheWay(state: State) {
    forall thread <- state.steps :: state.steps[thread].Delivering? ==> state.steps[thread].todo != {}
  }

  lemma {:induction false} OnTheWayOverRuns(state: State, events: seq<Event>)
    requires OnTheWay(state) && IsRun(state, events)
    ensures OnTheWay(After(state, events))
    decreases |events|
  {
    if events != [] {
      OnTheWayOverRuns(Next(state, events[0]), events[1..]);
    }
  }

  /** In every run no thread is stuck: a free one can publish, open a batch, or end an open one; one that left the last
      batch can publish; and one that has to tell some readers can tell each of them. */
  lemma {:induction false} EveryThreadGoesOn(events: seq<Event>, thread: nat)
    requires IsRun(State(EMPTY, map[]), events)
    ensures var end := After(State(EMPTY, map[]), events);
            if thread !in end.steps then
              && Enabled(end, Publish(thread)) && Enabled(end, Enter(thread))
              && (end.signal.batches > 0 ==> Enabled(end, Exit(thread)))
            else match end.steps[thread]
              case Leaving => Enabled(end, Publish(thread))
              case Delivering(todo) => todo != {} && forall reader <- todo :: Enabled(end, Deliver(thread, reader))
  {
    OnTheWayOverRuns(State(EMPTY, map[]), events);
  }

  /** How many events of the run open a batch, less those that end one. */
  function OpenedLessEnded(events: seq<Event>): int {
    if events == [] then 0
    else (if events[0].Enter? then 1 else if events[0].Exit? then -1 else 0) + OpenedLessEnded(events[1..])
  }

  /** Over every run the open batches are those that were opened and not ended. */
  lemma {:induction false} BatchesAreCounted(state: State, events: seq<Event>)
    requires IsRun(state, events)
    ensures After(state, events).signal.batches == state.signal.batches + OpenedLessEnded(events)
    decreases |events|
  {
    if events != [] {
      BatchesAreCounted(Next(state, events[0]), events[1..]);
    }
  }

  /** A notice waits exactly while a batch is open in which something was published: a publication in an open batch leaves
      it, and the end of the last batch takes it and makes its thread publish. */
  lemma {:induction false} NoticeWaitsForTheBatch(state: State, event: Event)
    requires Enabled(state, event) && KeptBack(state)
    ensures var next := Next(state, event);
            && (event.Publish? ==> next.signal.pending == (state.signal.pending || state.signal.batches > 0))
            && (event.Exit? ==> next.signal.pending == (state.signal.pending && state.signal.batches > 1))
            && (event.Exit? && state.signal.pending && state.signal.batches == 1 ==>
                  event.thread in next.steps && next.steps[event.thread] == Leaving)
            && (!event.Publish? && !event.Exit? ==> next.signal.pending == state.signal.pending)
  {
  }

  /** Outside a batch a publication takes a snapshot of the subscribed readers and reaches each of them: it sets a worker's
      event, and asks the loop of a connection unless that loop has closed; the loop then sets the event, or has closed. */
  lemma {:induction false} PublicationReachesReaders(state: State, event: Event, reader: Reader)
    requires Enabled(state, event)
    ensures var next := Next(state, event);
            && (event.Publish? && state.signal.batches == 0 && reader in state.signal.readers ==>
                  event.thread in next.steps && next.steps[event.thread].Delivering? && reader in next.steps[event.thread].todo)
            && (event == Subscribe(reader) ==> reader in next.signal.readers)
            && (event == Unsubscribe(reader) ==> reader !in next.signal.readers)
            && (event.Deliver? && event.reader == reader ==>
                  if reader.ThreadReader? then reader in next.signal.ready
                  else reader in next.signal.ended || reader in next.signal.calls)
            && (event == LoopRuns(reader) ==> reader in next.signal.ready && reader !in next.signal.calls)
            && (event == LoopEnds(reader) ==> reader in next.signal.ended && reader !in next.signal.calls)
            && (event == Clear(reader) ==> reader !in next.signal.ready)
            && (!event.Deliver? && !event.LoopRuns? && !event.LoopEnds? && !event.Clear? ==>
                  next.signal.ready == state.signal.ready && next.signal.calls == state.signal.calls)
  {
  }

  /** While a batch stays open, any number of publications sends nothing that was not already being sent. */
  lemma {:induction false} BatchSendsNothing(state: State, events: seq<Event>, reader: Reader)
    requires IsRun(state, events) && OpenThroughout(state, events)
    requires forall thread <- state.steps :: state.steps[thread].Delivering? ==> reader !in state.steps[thread].todo
    ensures !DeliveredIn(events, reader)
    decreases |events|
  {
    if events != [] {
      BatchSendsNothing(Next(state, events[0]), events[1..], reader);
      assert forall k :: 1 <= k < |events| ==> events[k] == events[1..][k - 1];
    }
  }

  predicate OpenThroughout(state: State, events: seq<Event>)
    requires IsRun(state, events)
    decreases |events|
  {
    state.signal.batches > 0 && (events == [] || OpenThroughout(Next(state, events[0]), events[1..]))
  }

  // ----- One thread at a time -----

  function DeliverAll(signal: Signal, readers: set<Reader>): Signal {
    signal.(
      ready := signal.ready + (set reader | reader in readers && reader.ThreadReader?),
      calls := signal.calls + (set reader | reader in readers && reader.LoopReader? && reader !in signal.ended))
  }

  class ChangeSignal {
    var batches: int
    var pending: bool
    var readers: set<Reader>
    var ready: set<Reader>
    var calls: set<Reader>
    var ended: set<Reader>

    function View(): Signal
      reads this
    {
      Signal(batches, pending, readers, ready, calls, ended)
    }

    constructor ()
      ensures View() == EMPTY
    {
      batches, pending, readers, ready, calls, ended := 0, false, {}, {}, {}, {};
    }

    method EnterBatch()
      modifies this
      ensures View() == old(View()).(batches := old(batches) + 1)
    {
      batches := batches + 1;
    }

    /** The critical section at the end of a batch; the caller publishes when it returns true. */
    method LeaveBatch() returns (publish: bool)
      modifies this
      ensures View() == ExitSignal(old(View()))
      ensures publish == ExitPublishes(old(View()))
    {
      batches := batches - 1;
      publish := batches == 0 && pending;
      if publish {
        pending := false;
      }
    }

    /** The end of a batch without interruption: the last one notifies the readers if anything was published. */
    method ExitBatch()
      requires KeptBack(State(View(), map[])) && batches > 0
      modifies this
      ensures View() ==
        if ExitPublishes(old(View())) then DeliverAll(old(View()).(batches := 0, pending := false), old(readers))
        else old(View()).(batches := old(batches) - 1)
    {
      var publish := LeaveBatch();
      if publish {
        Notify();
      }
    }

    method Add(reader: Reader)
      modifies this
      ensures View() == old(View()).(readers := old(readers) + {reader})
    {
      readers := readers + {reader};
    }

    method Remove(reader: Reader)
      requires reader in readers
      modifies this
      ensures View() == old(View()).(readers := old(readers) - {reader})
    {
      readers := readers - {reader};
    }

    /** Publish without interruption: wait for the open batches, or set every reader. */
    method Notify()
      modifies this
      ensures View() == if old(batches) != 0 then old(View()).(pending := true) else DeliverAll(old(View()), old(readers))
    {
      if batches != 0 {
        pending := true;
        return;
      }
      var todo := readers;
      while todo != {}
        invariant todo <= old(readers)
        invariant View() == DeliverAll(old(View()), old(readers) - todo)
        decreases todo
      {
        var reader: Reader :| reader in todo;
        DeliverOneMore(old(View()), old(readers) - todo, reader);
        assert old(readers) - (todo - {reader}) == (old(readers) - todo) + {reader};
        match reader {
          case ThreadReader(_) => ready := ready + {reader};
          case LoopReader(_) =>
            if reader !in ended {
              calls := calls + {reader};
            }
        }
        todo := todo - {reader};
      }
      assert old(readers) - {} == old(readers);
    }
  }

  lemma {:induction false} DeliverOneMore(signal: Signal, done: set<Reader>, reader: Reader)
    ensures DeliverAll(signal, done + {reader}) == DeliverSignal(DeliverAll(signal, done), reader)
  {
    var one := DeliverAll(signal, done + {reader});
    var two := DeliverSignal(DeliverAll(signal, done), reader);
    assert one.ready == two.ready;
    assert one.calls == two.calls;
  }

  function Deliveries(thread: nat, todo: seq<Reader>): seq<Event> {
    if todo == [] then [] else [Deliver(thread, todo[0])] + Deliveries(thread, todo[1..])
  }

  predicate Distinct(readers: seq<Reader>) {
    forall i, j :: 0 <= i < j < |readers| ==> readers[i] != readers[j]
  }

  function Members(readers: seq<Reader>): set<Reader> {
    set reader | reader in readers
  }

  lemma {:induction false} MembersStep(readers: seq<Reader>)
    requires readers != [] && Distinct(readers)
    ensures Members(readers) - {readers[0]} == Members(readers[1..])
    ensures Members(readers) == {readers[0]} + Members(readers[1..])
    ensures |readers| == 1 <==> Members(readers[1..]) == {}
  {
    if |readers| > 1 {
      assert readers[1] in Members(readers[1..]);
    }
  }

  lemma {:induction false} DeliverTwice(signal: Signal, reader: Reader, rest: set<Reader>)
    ensures DeliverAll(DeliverSignal(signal, reader), rest) == DeliverAll(signal, {reader} + rest)
  {
    var one := DeliverAll(DeliverSignal(signal, reader), rest);
    var two := DeliverAll(signal, {reader} + rest);
    assert one.ready == two.ready;
    assert one.calls == two.calls;
  }

  /** The uninterrupted publication is one run of the state machine, whatever the order of the snapshot. */
  lemma {:induction false} DeliveriesRun(state: State, thread: nat, todo: seq<Reader>)
    requires todo != [] && Distinct(todo)
    requires thread in state.steps && state.steps[thread] == Delivering(Members(todo))
    ensures IsRun(state, Deliveries(thread, todo))
    ensures After(state, Deliveries(thread, todo))
         == State(DeliverAll(state.signal, Members(todo)), state.steps - {thread})
    decreases |todo|
  {
    MembersStep(todo);
    DeliverTwice(state.signal, todo[0], Members(todo[1..]));
    var next := Next(state, Deliver(thread, todo[0]));
    var rest := Deliveries(thread, todo[1..]);
    assert ([Deliver(thread, todo[0])] + rest)[1..] == rest;
    if |todo| == 1 {
      DeliverNone(next.signal);
    } else {
      DeliveriesRun(next, thread, todo[1..]);
      assert next.steps - {thread} == state.steps - {thread};
    }
  }

  lemma {:induction false} DeliverNone(signal: Signal)
    ensures DeliverAll(signal, {}) == signal
  {
    assert DeliverAll(signal, {}).ready == signal.ready;
    assert DeliverAll(signal, {}).calls == signal.calls;
  }
}
