/** The questions and plans of a feed that still wait for an answer (domain/entries.py, `pending_attention`). */
module Attention {
  import opened Wrappers

  datatype TurnState = FINISHED | ABORTED

  datatype Body =
    | QuestionAsked(attention: string)
    | QuestionAnswered(attention: string)
    | PlanProposed(attention: string)
    | PlanResolved(attention: string)
    | TurnFinished(state: TurnState)
    | OtherBody

  datatype Entry = Entry(actor: string, body: Body)

  predicate Opens(entry: Entry) {
    entry.body.QuestionAsked? || entry.body.PlanProposed?
  }

  predicate Resolves(entry: Entry) {
    entry.body.QuestionAnswered? || entry.body.PlanResolved?
  }

  /** A question ends with its actor's turn, a plan only with an aborted one. */
  predicate OpenAfterTurn(asked: Entry, turnEnd: Entry)
    requires turnEnd.body.TurnFinished?
  {
    asked.actor != turnEnd.actor || (turnEnd.body.state == FINISHED && asked.body.PlanProposed?)
  }

  // ----- The fold -----

  /** One item of the ordered dictionary: the entry at `index` is open, and the key was inserted at `start`. */
  datatype Slot = Slot(id: string, index: nat, start: nat)

  function Find(slots: seq<Slot>, id: string): (at: Option<nat>)
    ensures at.Some? ==> at.value < |slots| && slots[at.value].id == id
    ensures at.None? ==> forall slot <- slots :: slot.id != id
  {
    if slots == [] then None
    else if slots[0].id == id then Some(0)
    else
      var rest := Find(slots[1..], id);
      if rest.None? then None else Some(rest.value + 1)
  }

  /** Set a key of an ordered dictionary: a known key keeps its place. */
  function Put(slots: seq<Slot>, id: string, index: nat): seq<Slot> {
    var at := Find(slots, id);
    if at.None? then slots + [Slot(id, index, index)]
    else slots[at.value := slots[at.value].(index := index)]
  }

  function Pop(slots: seq<Slot>, id: string): seq<Slot> {
    var at := Find(slots, id);
    if at.None? then slots else slots[..at.value] + slots[at.value + 1..]
  }

  predicate Indexed(slots: seq<Slot>, entries: seq<Entry>) {
    forall slot <- slots :: slot.index < |entries|
  }

  function AfterTurn(slots: seq<Slot>, entries: seq<Entry>, turnEnd: Entry): seq<Slot>
    requires turnEnd.body.TurnFinished? && Indexed(slots, entries)
  {
    if slots == [] then []
    else
      (if OpenAfterTurn(entries[slots[0].index], turnEnd) then [slots[0]] else [])
      + AfterTurn(slots[1..], entries, turnEnd)
  }

  function Step(slots: seq<Slot>, entries: seq<Entry>, i: nat): seq<Slot>
    requires i < |entries| && Before(slots, i)
  {
    var entry := entries[i];
    if Opens(entry) then Put(slots, entry.body.attention, i)
    else if Resolves(entry) then Pop(slots, entry.body.attention)
    else if entry.body.TurnFinished? then AfterTurn(slots, entries, entry)
    else slots
  }

  // ----- What the fold keeps -----

  /** Each key is there once, and the keys stand in the order in which they were inserted. */
  predicate Ordered(slots: seq<Slot>) {
    forall i, j :: 0 <= i < j < |slots| ==> slots[i].id != slots[j].id && slots[i].start < slots[j].start
  }

  predicate Before(slots: seq<Slot>, count: nat) {
    forall slot <- slots :: slot.start <= slot.index < count
  }

  lemma {:induction false} AfterTurnMembers(slots: seq<Slot>, entries: seq<Entry>, turnEnd: Entry)
    requires turnEnd.body.TurnFinished? && Indexed(slots, entries)
    ensures forall slot :: slot in AfterTurn(slots, entries, turnEnd) <==>
              slot in slots && OpenAfterTurn(entries[slot.index], turnEnd)
  {
    if slots != [] {
      AfterTurnMembers(slots[1..], entries, turnEnd);
      assert forall slot :: slot in slots <==> slot == slots[0] || slot in slots[1..];
    }
  }

  lemma {:induction false} AfterTurnOrdered(slots: seq<Slot>, entries: seq<Entry>, turnEnd: Entry)
    requires turnEnd.body.TurnFinished? && Indexed(slots, entries) && Ordered(slots)
    ensures Ordered(AfterTurn(slots, entries, turnEnd))
  {
    if slots != [] {
      AfterTurnOrdered(slots[1..], entries, turnEnd);
      AfterTurnMembers(slots[1..], entries, turnEnd);
      var rest := AfterTurn(slots[1..], entries, turnEnd);
      assert forall slot <- slots[1..] :: slot.id != slots[0].id && slots[0].start < slot.start;
    }
  }

  lemma {:induction false} PutOrdered(slots: seq<Slot>, id: string, i: nat)
    requires Ordered(slots) && Before(slots, i)
    ensures Ordered(Put(slots, id, i)) && Before(Put(slots, id, i), i + 1)
  {
    var at := Find(slots, id);
    if at.None? {
      assert forall k :: 0 <= k < |slots| ==> slots[k].id != id && slots[k].start < i by {
        assert forall k :: 0 <= k < |slots| ==> slots[k] in slots;
      }
    } else {
      assert slots[at.value] in slots;
      ReplaceOrdered(slots, at.value, i);
    }
  }

  lemma {:induction false} ReplaceOrdered(slots: seq<Slot>, at: nat, i: nat)
    requires at < |slots| && Ordered(slots) && Before(slots, i)
    ensures var next := slots[at := slots[at].(index := i)]; Ordered(next) && Before(next, i + 1)
  {
    assert slots[at] in slots;
  }

  lemma {:induction false} PopOrdered(slots: seq<Slot>, id: string, i: nat)
    requires Ordered(slots) && Before(slots, i)
    ensures Ordered(Pop(slots, id)) && Before(Pop(slots, id), i + 1)
  {
    var at := Find(slots, id);
    if at.Some? {
      RemoveOrdered(slots, at.value, i);
    }
  }

  lemma {:induction false} RemoveOrdered(slots: seq<Slot>, at: nat, i: nat)
    requires at < |slots| && Ordered(slots) && Before(slots, i)
    ensures var next := slots[..at] + slots[at + 1..]; Ordered(next) && Before(next, i + 1)
  {
    var next := slots[..at] + slots[at + 1..];
    assert forall k :: 0 <= k < |next| ==> next[k] == slots[if k < at then k else k + 1];
    forall slot <- next ensures slot.start <= slot.index < i + 1 {
      assert slot in slots;
    }
  }

  lemma {:induction false} StepOrdered(slots: seq<Slot>, entries: seq<Entry>, i: nat)
    requires i < |entries| && Ordered(slots) && Before(slots, i)
    ensures Ordered(Step(slots, entries, i)) && Before(Step(slots, entries, i), i + 1)
  {
    if Opens(entries[i]) {
      PutOrdered(slots, entries[i].body.attention, i);
    } else if Resolves(entries[i]) {
      PopOrdered(slots, entries[i].body.attention, i);
    } else if entries[i].body.TurnFinished? {
      AfterTurnOrdered(slots, entries, entries[i]);
      AfterTurnMembers(slots, entries, entries[i]);
    }
  }

  function OrderedStep(slots: seq<Slot>, entries: seq<Entry>, i: nat): (next: seq<Slot>)
    requires i < |entries| && Ordered(slots) && Before(slots, i)
    ensures Ordered(next) && Before(next, i + 1)
  {
    StepOrdered(slots, entries, i);
    Step(slots, entries, i)
  }

  function Fold(entries: seq<Entry>, count: nat): (slots: seq<Slot>)
    requires count <= |entries|
    ensures Ordered(slots) && Before(slots, count)
  {
    if count == 0 then [] else OrderedStep(Fold(entries, count - 1), entries, count - 1)
  }

  /** The attentions that still wait, in the order of the dictionary. */
  function Pending(entries: seq<Entry>): (pending: seq<Entry>)
    ensures |pending| == |Fold(entries, |entries|)|
  {
    var slots := Fold(entries, |entries|);
    seq(|slots|, i requires 0 <= i < |slots| => entries[slots[i].index])
  }

  lemma {:induction false} AfterTurnNext(
      left: seq<Slot>, slots: seq<Slot>, entries: seq<Entry>, turnEnd: Entry, k: nat)
    requires turnEnd.body.TurnFinished? && Indexed(slots, entries) && k < |slots|
    ensures left + AfterTurn(slots[k..], entries, turnEnd)
         == (if OpenAfterTurn(entries[slots[k].index], turnEnd) then left + [slots[k]] else left)
            + AfterTurn(slots[k + 1..], entries, turnEnd)
  {
    assert slots[k..][1..] == slots[k + 1..];
  }

  /** The dictionary without the attentions that the turn end closes. */
  method KeepAfterTurn(slots: seq<Slot>, entries: seq<Entry>, turnEnd: Entry) returns (left: seq<Slot>)
    requires turnEnd.body.TurnFinished? && Indexed(slots, entries)
    ensures left == AfterTurn(slots, entries, turnEnd)
  {
    left := [];
    for k := 0 to |slots|
      invariant left + AfterTurn(slots[k..], entries, turnEnd) == AfterTurn(slots, entries, turnEnd)
    {
      AfterTurnNext(left, slots, entries, turnEnd, k);
      if OpenAfterTurn(entries[slots[k].index], turnEnd) {
        left := left + [slots[k]];
      }
    }
  }

  method FindPending(entries: seq<Entry>) returns (pending: seq<Entry>)
    ensures pending == Pending(entries)
  {
    var slots: seq<Slot> := [];
    for i := 0 to |entries|
      invariant slots == Fold(entries, i)
    {
      var entry := entries[i];
      if Opens(entry) {
        slots := Put(slots, entry.body.attention, i);
      } else if Resolves(entry) {
        slots := Pop(slots, entry.body.attention);
      } else if entry.body.TurnFinished? {
        slots := KeepAfterTurn(slots, entries, entry);
      }
    }
    pending := seq(|slots|, i requires 0 <= i < |slots| => entries[slots[i].index]);
  }

  // ----- What it means -----

  /** A later entry asks or answers the same attention, or ends the turn that would answer it. */
  predicate Closes(asked: Entry, later: Entry)
    requires Opens(asked)
  {
    if later.body.TurnFinished? then !OpenAfterTurn(asked, later)
    else (Opens(later) || Resolves(later)) && later.body.attention == asked.body.attention
  }

  predicate Waits(entries: seq<Entry>, k: nat, count: nat)
    requires count <= |entries|
  {
    k < count && Opens(entries[k]) && forall j :: k < j < count ==> !Closes(entries[k], entries[j])
  }

  /** The slots are exactly the entries that still wait, each under its own attention. */
  ghost predicate Exact(slots: seq<Slot>, entries: seq<Entry>, count: nat)
    requires count <= |entries|
  {
    && (forall slot <- slots :: Waits(entries, slot.index, count) && entries[slot.index].body.attention == slot.id)
    && (forall k :: Waits(entries, k, count) ==> exists slot <- slots :: slot.index == k)
  }

  lemma {:induction false} WaitsStep(entries: seq<Entry>, k: nat, i: nat)
    requires i < |entries|
    ensures Waits(entries, k, i + 1) <==>
            if k == i then Opens(entries[i]) else Waits(entries, k, i) && !Closes(entries[k], entries[i])
  {
  }

  lemma {:induction false} StepExact(slots: seq<Slot>, entries: seq<Entry>, i: nat)
    requires i < |entries| && Ordered(slots) && Before(slots, i) && Exact(slots, entries, i)
    ensures Exact(Step(slots, entries, i), entries, i + 1)
  {
    var next := Step(slots, entries, i);
    forall slot | slot in next
      ensures Waits(entries, slot.index, i + 1) && entries[slot.index].body.attention == slot.id
    {
      WaitsStep(entries, slot.index, i);
      StepFrom(slots, entries, i, slot);
    }
    var count := i + 1;
    forall k | Waits(entries, k, count) ensures exists slot <- next :: slot.index == k {
      StepHas(slots, entries, i, k);
    }
  }

  lemma {:induction false} StepHas(slots: seq<Slot>, entries: seq<Entry>, i: nat, k: nat)
    requires i < |entries| && Before(slots, i) && Exact(slots, entries, i) && Waits(entries, k, i + 1)
    ensures exists slot <- Step(slots, entries, i) :: slot.index == k
  {
    WaitsStep(entries, k, i);
    if k == i {
      PutHas(slots, entries[i].body.attention, i);
    } else {
      var slot :| slot in slots && slot.index == k;
      StepKeepsSlot(slots, entries, i, slot);
    }
  }

  lemma {:induction false} PutFrom(slots: seq<Slot>, id: string, i: nat, slot: Slot)
    requires Ordered(slots) && slot in Put(slots, id, i)
    ensures (slot.index == i && slot.id == id) || (slot in slots && slot.id != id)
  {
    var next := Put(slots, id, i);
    var k :| 0 <= k < |next| && next[k] == slot;
    var at := Find(slots, id);
    if at.Some? && k != at.value {
      assert slots[k] == slot;
    }
  }

  lemma {:induction false} PopFrom(slots: seq<Slot>, id: string, slot: Slot)
    requires Ordered(slots) && slot in Pop(slots, id)
    ensures slot in slots && slot.id != id
  {
    var at := Find(slots, id);
    if at.Some? {
      assert forall k :: 0 <= k < |slots| && k != at.value ==> slots[k].id != id;
    }
  }

  /** Where a slot comes from: the new entry, or an old slot that the new entry does not close. */
  lemma {:induction false} StepFrom(slots: seq<Slot>, entries: seq<Entry>, i: nat, slot: Slot)
    requires i < |entries| && Ordered(slots) && Before(slots, i) && slot in Step(slots, entries, i)
    requires forall slot <- slots :: Opens(entries[slot.index]) && entries[slot.index].body.attention == slot.id
    ensures || (slot.index == i && Opens(entries[i]) && entries[i].body.attention == slot.id)
            || (slot in slots && !Closes(entries[slot.index], entries[i]))
  {
    if Opens(entries[i]) {
      PutFrom(slots, entries[i].body.attention, i, slot);
    } else if Resolves(entries[i]) {
      PopFrom(slots, entries[i].body.attention, slot);
    } else if entries[i].body.TurnFinished? {
      AfterTurnMembers(slots, entries, entries[i]);
    }
  }

  lemma {:induction false} PutHas(slots: seq<Slot>, id: string, i: nat)
    ensures exists slot <- Put(slots, id, i) :: slot.index == i
  {
    var next := Put(slots, id, i);
    var at := Find(slots, id);
    assert next[if at.None? then |slots| else at.value].index == i;
  }

  lemma {:induction false} StepKeepsSlot(slots: seq<Slot>, entries: seq<Entry>, i: nat, slot: Slot)
    requires i < |entries| && Before(slots, i) && slot in slots
    requires Opens(entries[slot.index]) && entries[slot.index].body.attention == slot.id
    requires !Closes(entries[slot.index], entries[i])
    ensures slot in Step(slots, entries, i)
  {
    var k :| 0 <= k < |slots| && slots[k] == slot;
    var next := Step(slots, entries, i);
    if Opens(entries[i]) {
      assert next[k] == slot;
    } else if Resolves(entries[i]) {
      var at := Find(slots, entries[i].body.attention);
      if at.Some? {
        assert next[if k < at.value then k else k - 1] == slot;
      }
    } else if entries[i].body.TurnFinished? {
      AfterTurnMembers(slots, entries, entries[i]);
    }
  }

  /** An opening entry is in the result exactly when no later entry asks or answers it, and no later end of its
      actor's turn closes it: any end for a question, only an aborted one for a plan. */
  lemma {:induction false} PendingIffWaiting(entries: seq<Entry>, count: nat)
    requires count <= |entries|
    ensures Exact(Fold(entries, count), entries, count)
  {
    if count > 0 {
      PendingIffWaiting(entries, count - 1);
      ExactNext(entries, count - 1, count);
    }
  }

  lemma {:induction false} ExactNext(entries: seq<Entry>, i: nat, count: nat)
    requires i < |entries| && count == i + 1 && Exact(Fold(entries, i), entries, i)
    ensures Exact(Fold(entries, count), entries, count)
  {
    StepExact(Fold(entries, i), entries, i);
    FoldStep(entries, i, count);
  }

  lemma {:induction false} FoldStep(entries: seq<Entry>, i: nat, count: nat)
    requires i < |entries| && count == i + 1
    ensures Fold(entries, count) == Step(Fold(entries, i), entries, i)
  {
  }

  /** The entry asks a question or proposes a plan, and nothing behind it asks, answers or resolves the same one, or ends
      it with the actor's turn: any turn end for a question, an aborted one for a plan. */
  predicate StillAsked(entries: seq<Entry>, k: nat)
    requires k < |entries|
  {
    var asked := entries[k].body;
    && (asked.QuestionAsked? || asked.PlanProposed?)
    && forall j :: k < j < |entries| ==>
         var later := entries[j].body;
         && (later.QuestionAsked? ==> later.attention != asked.attention)
         && (later.QuestionAnswered? ==> later.attention != asked.attention)
         && (later.PlanProposed? ==> later.attention != asked.attention)
         && (later.PlanResolved? ==> later.attention != asked.attention)
         && (later.TurnFinished? && entries[j].actor == entries[k].actor ==>
               asked.PlanProposed? && later.state == FINISHED)
  }

  /** For every feed: the result has exactly the questions and plans that are still asked. */
  lemma {:induction false} PendingIffStillAsked(entries: seq<Entry>, k: nat)
    requires k < |entries|
    ensures (exists slot <- Fold(entries, |entries|) :: slot.index == k) <==> StillAsked(entries, k)
    ensures forall i :: 0 <= i < |Pending(entries)| ==> Pending(entries)[i] == entries[Fold(entries, |entries|)[i].index]
  {
    PendingIffWaiting(entries, |entries|);
    if StillAsked(entries, k) {
      assert Waits(entries, k, |entries|);
    }
    if Waits(entries, k, |entries|) {
      forall j | k < j < |entries|
        ensures !Closes(entries[k], entries[j])
      {
      }
    }
  }

  // ----- The order -----

  /** Some entry of this attention waits among the first `count` entries. */
  ghost predicate IsOpen(entries: seq<Entry>, id: string, count: nat)
    requires count <= |entries|
  {
    exists k: nat :: Waits(entries, k, count) && entries[k].body.attention == id
  }

  /** The entry at `start` opened the attention while it was not open, and it is open after every entry since. */
  ghost predicate OpenedAt(entries: seq<Entry>, id: string, start: nat, count: nat)
    requires count <= |entries|
  {
    && start < count
    && !IsOpen(entries, id, start)
    && forall c :: start < c <= count ==> IsOpen(entries, id, c)
  }

  predicate HasSlot(entries: seq<Entry>, id: string, count: nat)
    requires count <= |entries|
  {
    Find(Fold(entries, count), id).Some?
  }

  lemma {:induction false} FoundIsOpen(slots: seq<Slot>, entries: seq<Entry>, id: string, count: nat)
    requires count <= |entries| && Exact(slots, entries, count) && Find(slots, id).Some?
    ensures IsOpen(entries, id, count)
  {
    var slot := slots[Find(slots, id).value];
    assert slot in slots;
    assert Waits(entries, slot.index, count);
  }

  lemma {:induction false} OpenIsFound(slots: seq<Slot>, entries: seq<Entry>, id: string, count: nat)
    requires count <= |entries| && Exact(slots, entries, count) && IsOpen(entries, id, count)
    ensures Find(slots, id).Some?
  {
    var k: nat :| Waits(entries, k, count) && entries[k].body.attention == id;
    var slot :| slot in slots && slot.index == k;
    assert slot.id == id;
  }

  lemma {:induction false} HasSlotIffOpen(entries: seq<Entry>, id: string, count: nat)
    requires count <= |entries|
    ensures HasSlot(entries, id, count) <==> IsOpen(entries, id, count)
  {
    PendingIffWaiting(entries, count);
    if HasSlot(entries, id, count) {
      FoundIsOpen(Fold(entries, count), entries, id, count);
    } else if IsOpen(entries, id, count) {
      OpenIsFound(Fold(entries, count), entries, id, count);
    }
  }

  lemma {:induction false} OpenedGoesOn(entries: seq<Entry>, id: string, start: nat, i: nat, count: nat)
    requires count == i + 1 <= |entries| && IsOpen(entries, id, count)
    requires if IsOpen(entries, id, i) then OpenedAt(entries, id, start, i) else start == i
    ensures OpenedAt(entries, id, start, count)
  {
    forall c | start < c <= count ensures IsOpen(entries, id, c) {
      if c < count {
        assert c <= i;
      }
    }
  }

  /** The result is in the order in which each attention was last opened while it was not open: slots stand in the
      order of their starts. */
  lemma {:induction false} SlotsAreOpenSinceTheirStart(entries: seq<Entry>, count: nat, slot: Slot)
    requires count <= |entries| && slot in Fold(entries, count)
    ensures OpenedAt(entries, slot.id, slot.start, count)
  {
    var i := count - 1;
    SlotBefore(entries, i, count, slot);
    FoldHas(entries, count, slot);
    HasSlotIffOpen(entries, slot.id, count);
    HasSlotIffOpen(entries, slot.id, i);
    if HasSlot(entries, slot.id, i) {
      SlotsAreOpenSinceTheirStart(entries, i, SlotOf(entries, slot.id, i));
    }
    OpenedGoesOn(entries, slot.id, slot.start, i, count);
  }

  lemma {:induction false} OpenedOnce(entries: seq<Entry>, id: string, s: nat, t: nat, count: nat)
    requires count <= |entries| && OpenedAt(entries, id, s, count) && OpenedAt(entries, id, t, count)
    ensures s == t
  {
  }

  function SlotOf(entries: seq<Entry>, id: string, count: nat): (slot: Slot)
    requires count <= |entries| && HasSlot(entries, id, count)
    ensures slot in Fold(entries, count) && slot.id == id
  {
    Fold(entries, count)[Find(Fold(entries, count), id).value]
  }

  lemma {:induction false} SlotBefore(entries: seq<Entry>, i: nat, count: nat, slot: Slot)
    requires count == i + 1 <= |entries| && slot in Fold(entries, count)
    ensures if HasSlot(entries, slot.id, i) then SlotOf(entries, slot.id, i).start == slot.start
            else slot.start == i && Opens(entries[i]) && entries[i].body.attention == slot.id
  {
    FoldStep(entries, i, count);
    StartComesFrom(Fold(entries, i), entries, i, slot);
  }

  lemma {:induction false} FoldHas(entries: seq<Entry>, count: nat, slot: Slot)
    requires count <= |entries| && slot in Fold(entries, count)
    ensures HasSlot(entries, slot.id, count)
  {
  }

  lemma {:induction false} FindsItself(slots: seq<Slot>, slot: Slot)
    requires Ordered(slots) && slot in slots
    ensures Find(slots, slot.id).Some? && slots[Find(slots, slot.id).value] == slot
  {
  }

  /** A slot keeps its start from the step before, unless its key was not there. */
  lemma {:induction false} StartComesFrom(slots: seq<Slot>, entries: seq<Entry>, i: nat, slot: Slot)
    requires i < |entries| && Ordered(slots) && Before(slots, i) && slot in Step(slots, entries, i)
    ensures var at := Find(slots, slot.id);
            if at.Some? then slots[at.value].start == slot.start
            else slot.start == i && Opens(entries[i]) && entries[i].body.attention == slot.id
  {
    if slot in slots {
      FindsItself(slots, slot);
    } else if entries[i].body.TurnFinished? {
      AfterTurnMembers(slots, entries, entries[i]);
    } else if Resolves(entries[i]) {
      PopFrom(slots, entries[i].body.attention, slot);
    }
  }

  /** Positions in the result, from the oldest entry to the newest. */
  predicate OldestFirst(slots: seq<Slot>) {
    forall i, j :: 0 <= i < j < |slots| ==> slots[i].index < slots[j].index
  }

  /** Two attentions that wait, of which the one that was opened first, at `s`, was asked again after the other. */
  ghost predicate AskedAgain(entries: seq<Entry>, again: nat, other: nat, s: nat, t: nat) {
    && Waits(entries, again, |entries|)
    && Waits(entries, other, |entries|)
    && other < again
    && s < t
    && OpenedAt(entries, entries[again].body.attention, s, |entries|)
    && OpenedAt(entries, entries[other].body.attention, t, |entries|)
  }

  lemma {:induction false} SlotOfWaiting(entries: seq<Entry>, k: nat, start: nat) returns (slot: Slot)
    requires Waits(entries, k, |entries|) && OpenedAt(entries, entries[k].body.attention, start, |entries|)
    ensures slot in Fold(entries, |entries|) && slot.index == k && slot.start == start
  {
    PendingIffWaiting(entries, |entries|);
    slot :| slot in Fold(entries, |entries|) && slot.index == k;
    SlotsAreOpenSinceTheirStart(entries, |entries|, slot);
    OpenedOnce(entries, slot.id, slot.start, start, |entries|);
  }

  lemma {:induction false} InversionIsNotOldestFirst(slots: seq<Slot>, first: Slot, second: Slot)
    requires Ordered(slots) && first in slots && second in slots
    requires first.start < second.start && second.index < first.index
    ensures !OldestFirst(slots)
  {
    var i :| 0 <= i < |slots| && slots[i] == first;
    var j :| 0 <= j < |slots| && slots[j] == second;
    assert i < j;
  }

  lemma {:induction false} AskedAgainIsNotOldestFirst(entries: seq<Entry>, again: nat, other: nat, s: nat, t: nat)
    requires AskedAgain(entries, again, other, s, t)
    ensures !OldestFirst(Fold(entries, |entries|))
  {
    var first := SlotOfWaiting(entries, again, s);
    var second := SlotOfWaiting(entries, other, t);
    InversionIsNotOldestFirst(Fold(entries, |entries|), first, second);
  }

  lemma {:induction false} InversionWasAskedAgain(entries: seq<Entry>, i: nat, j: nat)
    requires i < j < |Fold(entries, |entries|)|
    requires var slots := Fold(entries, |entries|); slots[j].index < slots[i].index
    ensures var slots := Fold(entries, |entries|);
            AskedAgain(entries, slots[i].index, slots[j].index, slots[i].start, slots[j].start)
  {
    var slots := Fold(entries, |entries|);
    PendingIffWaiting(entries, |entries|);
    SlotsAreOpenSinceTheirStart(entries, |entries|, slots[i]);
    SlotsAreOpenSinceTheirStart(entries, |entries|, slots[j]);
  }

  /** The result is from the oldest to the newest exactly when no attention that still waits was asked again after a
      newer one that still waits. */
  lemma {:induction false} OldestFirstIff(entries: seq<Entry>)
    ensures OldestFirst(Fold(entries, |entries|)) <==>
            !exists again, other, s, t :: AskedAgain(entries, again, other, s, t)
  {
    var slots := Fold(entries, |entries|);
    if again, other, s, t :| AskedAgain(entries, again, other, s, t) {
      AskedAgainIsNotOldestFirst(entries, again, other, s, t);
    }
    if !OldestFirst(slots) {
      PendingIffWaiting(entries, |entries|);
      IndicesAreDistinct(slots, entries, |entries|);
      var i, j :| 0 <= i < j < |slots| && slots[i].index >= slots[j].index;
      InversionWasAskedAgain(entries, i, j);
    }
  }

  predicate DistinctIndices(slots: seq<Slot>) {
    forall i, j :: 0 <= i < j < |slots| ==> slots[i].index != slots[j].index
  }

  lemma {:induction false} IndicesAreDistinct(slots: seq<Slot>, entries: seq<Entry>, count: nat)
    requires count <= |entries| && Ordered(slots) && Exact(slots, entries, count)
    ensures DistinctIndices(slots)
  {
    forall i, j | 0 <= i < j < |slots| ensures slots[i].index != slots[j].index {
      assert slots[i] in slots && slots[j] in slots;
    }
  }

  /** An attention that is asked again keeps its old place, before a newer one. */
  lemma {:induction false} AskedAgainStaysFirst()
    ensures var question := Entry("main", QuestionAsked("a"));
            var plan := Entry("main", PlanProposed("b"));
            Pending([question, plan, question.(actor := "other")]) == [question.(actor := "other"), plan]
  {
    var question := Entry("main", QuestionAsked("a"));
    var entries := [question, Entry("main", PlanProposed("b")), question.(actor := "other")];
    assert Fold(entries, 1) == [Slot("a", 0, 0)];
    assert Fold(entries, 2) == [Slot("a", 0, 0), Slot("b", 1, 1)];
    assert Fold(entries, 3) == [Slot("a", 2, 0), Slot("b", 1, 1)];
  }
}
