/** Replaying entries and the order of their arrival. */
module SessionLaws {
  import opened ShellFolds
  import opened Session

  ghost function Run(model: Model, entries: seq<Entry>): (end: Model)
    requires FeedInvariant(model)
    ensures FeedInvariant(end)
    decreases |entries|
  {
    if entries == [] then model
    else
      ApplyEntryKeeps(model, entries[0]);
      Run(ApplyEntry(model, entries[0]), entries[1..])
  }

  lemma {:induction false} RunAppend(model: Model, a: seq<Entry>, b: seq<Entry>)
    requires FeedInvariant(model)
    ensures Run(model, a + b) == Run(Run(model, a), b)
    decreases |a|
  {
    if a == [] {
      assert a + b == b;
    } else {
      ApplyEntryKeeps(model, a[0]);
      assert (a + b)[1..] == a[1..] + b;
      RunAppend(ApplyEntry(model, a[0]), a[1..], b);
    }
  }

  lemma {:induction false} RunOne(model: Model, entry: Entry)
    requires FeedInvariant(model)
    ensures Run(model, [entry]) == ApplyEntry(model, entry)
  {
    ApplyEntryKeeps(model, entry);
    assert [entry][1..] == [];
  }

  lemma {:induction false} TakeNext(entries: seq<Entry>, k: nat)
    requires k < |entries|
    ensures entries[..k + 1] == entries[..k] + [entries[k]]
  {
  }

  lemma {:induction false} RunNext(model: Model, entries: seq<Entry>, k: nat)
    requires FeedInvariant(model) && k < |entries|
    ensures Run(model, entries[..k + 1]) == ApplyEntry(Run(model, entries[..k]), entries[k])
  {
    assert entries[..k + 1] == entries[..k] + [entries[k]];
    RunAppend(model, entries[..k], [entries[k]]);
    RunOne(Run(model, entries[..k]), entries[k]);
  }

  // ----- Absorbed entries -----

  predicate InFold(model: Model, entry: Entry) {
    && IsShellEntry(entry)
    && entry.body.shellId in model.shells
    && entry.entryId in model.shells[entry.body.shellId].entryIds
  }

  /** The model already has the entry, or has dropped it. */
  predicate Absorbed(model: Model, entry: Entry) {
    Known(model, entry) || (InFold(model, entry) && model.entryCursor >= entry.cursor)
  }

  lemma {:induction false} AbsorbedChangesNothing(model: Model, entry: Entry)
    requires Placed(model) && Absorbed(model, entry)
    ensures ApplyEntry(model, entry) == model
  {
    if !Known(model, entry) {
      var fold := model.shells[entry.body.shellId];
      assert FoldEntry(fold, entry) == fold;
      assert model.shells[entry.body.shellId := fold] == model.shells;
    }
  }

  lemma {:induction false} FoldKeepsIds(fold: Fold, entry: Entry)
    ensures FoldEntry(fold, entry).entryIds == fold.entryIds + {entry.entryId}
  {
  }

  lemma {:induction false} StaysAbsorbed(model: Model, entry: Entry, next: Entry)
    requires Placed(model) && Absorbed(model, entry)
    ensures Absorbed(ApplyEntry(model, next), entry)
  {
    if IsShellEntry(next) && next.body.shellId in model.shells {
      FoldKeepsIds(model.shells[next.body.shellId], next);
    }
  }

  lemma {:induction false} StaysAbsorbedOverRuns(model: Model, entry: Entry, entries: seq<Entry>)
    requires FeedInvariant(model) && Absorbed(model, entry)
    ensures Absorbed(Run(model, entries), entry)
    decreases |entries|
  {
    if entries != [] {
      ApplyEntryKeeps(model, entries[0]);
      StaysAbsorbed(model, entry, entries[0]);
      StaysAbsorbedOverRuns(ApplyEntry(model, entries[0]), entry, entries[1..]);
    }
  }

  lemma {:induction false} ApplyingAbsorbs(model: Model, entry: Entry)
    requires Placed(model)
    requires IsShellEntry(entry) && entry.kind != ShellStarted ==> entry.body.shellId in model.shells
    ensures Absorbed(ApplyEntry(model, entry), entry)
  {
    if !Known(model, entry) && IsShellEntry(entry) && entry.body.shellId in model.shells {
      FoldKeepsIds(model.shells[entry.body.shellId], entry);
    }
  }

  // ----- What a run leaves behind -----

  /** An entry id names one entry. */
  ghost predicate OneEntryEachId(entries: seq<Entry>) {
    forall i, j :: 0 <= i < |entries| && 0 <= j < |entries| && entries[i].entryId == entries[j].entryId ==>
      entries[i] == entries[j]
  }

  predicate Starts(entries: seq<Entry>, j: nat, shellId: string) {
    j < |entries| && entries[j].kind == ShellStarted && entries[j].body.shellId == shellId
  }

  ghost predicate Started(entries: seq<Entry>, shellId: string) {
    exists j: nat :: Starts(entries, j, shellId)
  }

  /** The entry stands at `i`, not before a start of its shell at `j`. */
  predicate AfterStart(entries: seq<Entry>, j: nat, i: nat, entry: Entry) {
    Starts(entries, j, entry.body.shellId) && j <= i < |entries| && entries[i] == entry
  }

  ghost predicate PlainAt(entries: seq<Entry>, id: string) {
    exists i :: 0 <= i < |entries| && entries[i].entryId == id && !IsShellEntry(entries[i])
  }

  ghost predicate FoldedAt(entries: seq<Entry>, shellId: string, id: string) {
    exists j: nat, i: nat :: i < |entries| && AfterStart(entries, j, i, entries[i])
      && IsShellEntry(entries[i]) && entries[i].body.shellId == shellId && entries[i].entryId == id
  }

  ghost predicate History(model: Model, entries: seq<Entry>) {
    Recorded(model, entries) && FoldsRecorded(model, entries)
  }

  ghost predicate Recorded(model: Model, entries: seq<Entry>) {
    && (forall id :: id in model.entries || id in model.dropped ==> PlainAt(entries, id))
    && (forall shellId :: shellId in model.shells <==> Started(entries, shellId))
    && (forall i :: 0 <= i < |entries| && IsShellEntry(entries[i]) ==> model.entryCursor >= entries[i].cursor)
  }

  ghost predicate FoldsRecorded(model: Model, entries: seq<Entry>) {
    forall shellId, id :: shellId in model.shells && id in model.shells[shellId].entryIds ==> FoldedAt(entries, shellId, id)
  }

  lemma {:induction false} FactsGrow(entries: seq<Entry>, next: Entry)
    ensures forall id :: PlainAt(entries, id) ==> PlainAt(entries + [next], id)
    ensures forall shellId :: Started(entries + [next], shellId) <==>
              Started(entries, shellId) || (next.kind == ShellStarted && next.body.shellId == shellId)
    ensures forall shellId, id :: FoldedAt(entries, shellId, id) ==> FoldedAt(entries + [next], shellId, id)
  {
    var more := entries + [next];
    forall id | PlainAt(entries, id)
      ensures PlainAt(more, id)
    {
      var i :| 0 <= i < |entries| && entries[i].entryId == id && !IsShellEntry(entries[i]);
      assert more[i] == entries[i];
    }
    forall shellId
      ensures Started(more, shellId) <==> Started(entries, shellId) || (next.kind == ShellStarted && next.body.shellId == shellId)
    {
      if Started(entries, shellId) {
        var j: nat :| Starts(entries, j, shellId);
        assert Starts(more, j, shellId);
      }
      if next.kind == ShellStarted && next.body.shellId == shellId {
        assert Starts(more, |entries|, shellId);
      }
      if Started(more, shellId) {
        var j: nat :| Starts(more, j, shellId);
        assert j < |entries| ==> Starts(entries, j, shellId);
      }
    }
    forall shellId, id | FoldedAt(entries, shellId, id)
      ensures FoldedAt(more, shellId, id)
    {
      var j: nat, i: nat :| i < |entries| && AfterStart(entries, j, i, entries[i])
        && IsShellEntry(entries[i]) && entries[i].body.shellId == shellId && entries[i].entryId == id;
      assert more[i] == entries[i] && AfterStart(more, j, i, more[i]);
    }
  }

  lemma {:induction false} ShellEntryIsNew(model: Model, entries: seq<Entry>, entry: Entry)
    requires IsShellEntry(entry) && OneEntryEachId(entries + [entry])
    requires forall id :: id in model.entries || id in model.dropped ==> PlainAt(entries, id)
    ensures !Known(model, entry)
  {
    var more := entries + [entry];
    assert more[|entries|] == entry;
    FactsGrow(entries, entry);
    SameIdSameKind(more, |entries|);
  }

  lemma {:induction false} SameIdSameKind(entries: seq<Entry>, k: nat)
    requires OneEntryEachId(entries) && k < |entries|
    ensures PlainAt(entries, entries[k].entryId) <==> !IsShellEntry(entries[k])
    ensures IsShellEntry(entries[k]) && FoldedAt(entries, entries[k].body.shellId, entries[k].entryId) ==>
              IsAfterStart(entries, entries[k])
  {
  }

  lemma {:induction false} ShellHistoryNext(model: Model, entries: seq<Entry>, next: Entry)
    requires Placed(model) && History(model, entries) && IsShellEntry(next) && OneEntryEachId(entries + [next])
    ensures History(ApplyEntry(model, next), entries + [next])
  {
    FactsGrow(entries, next);
    ShellEntryIsNew(model, entries, next);
    assert Recorded(ApplyEntry(model, next), entries + [next]);
    FoldsNext(model, entries, next);
  }

  lemma {:induction false} FoldsNext(model: Model, entries: seq<Entry>, next: Entry)
    requires FoldsRecorded(model, entries) && IsShellEntry(next) && !Known(model, next) && Placed(model)
    requires Recorded(ApplyEntry(model, next), entries + [next])
    ensures FoldsRecorded(ApplyEntry(model, next), entries + [next])
  {
    FactsGrow(entries, next);
    var more, end, shellId := entries + [next], ApplyEntry(model, next), next.body.shellId;
    if shellId in end.shells {
      var j: nat :| Starts(more, j, shellId);
      assert more[|entries|] == next && AfterStart(more, j, |entries|, next);
      assert FoldedAt(more, shellId, next.entryId);
    }
    if shellId in model.shells {
      FoldKeepsIds(model.shells[shellId], next);
    }
  }

  lemma {:induction false} PlainHistoryNext(model: Model, entries: seq<Entry>, next: Entry)
    requires Placed(model) && History(model, entries) && !IsShellEntry(next)
    ensures History(ApplyEntry(model, next), entries + [next])
  {
    FactsGrow(entries, next);
    var more := entries + [next];
    assert more[|entries|] == next;
    assert PlainAt(more, next.entryId);
  }

  lemma {:induction false} HistoryOfRun(entries: seq<Entry>, k: nat)
    requires OneEntryEachId(entries) && k <= |entries|
    ensures FeedInvariant(START)
    ensures History(Run(START, entries[..k]), entries[..k])
  {
    if k > 0 {
      HistoryOfRun(entries, k - 1);
      RunNext(START, entries, k - 1);
      var model, next := Run(START, entries[..k - 1]), entries[k - 1];
      assert entries[..k] == entries[..k - 1] + [next];
      if IsShellEntry(next) {
        ShellHistoryNext(model, entries[..k - 1], next);
      } else {
        PlainHistoryNext(model, entries[..k - 1], next);
      }
    }
  }

  // ----- Replay -----

  /** Each shell part whose shell starts in the run stands at least once after a start of its shell. */
  ghost predicate NoPartOnlyBeforeItsStart(entries: seq<Entry>) {
    forall entry <- entries :: IsShellEntry(entry) && Started(entries, entry.body.shellId) ==> IsAfterStart(entries, entry)
  }

  ghost predicate IsAfterStart(entries: seq<Entry>, entry: Entry) {
    exists j: nat, i: nat :: AfterStart(entries, j, i, entry)
  }

  lemma {:induction false} TakeAndRest(entries: seq<Entry>, k: nat)
    requires k <= |entries|
    ensures entries[..k] + entries[k..] == entries
  {
  }

  lemma {:induction false} AbsorbedAt(entries: seq<Entry>, i: nat)
    requires OneEntryEachId(entries) && i < |entries|
    requires IsShellEntry(entries[i]) ==> exists j: nat :: AfterStart(entries, j, i, entries[i])
    ensures FeedInvariant(START) && Absorbed(Run(START, entries), entries[i])
  {
    HistoryOfRun(entries, i);
    var entry, before := entries[i], Run(START, entries[..i]);
    if IsShellEntry(entry) && entry.kind != ShellStarted {
      var j: nat :| AfterStart(entries, j, i, entry);
      assert Starts(entries[..i], j, entry.body.shellId);
    }
    ApplyingAbsorbs(before, entry);
    RunNext(START, entries, i);
    StaysAbsorbedOverRuns(Run(START, entries[..i + 1]), entry, entries[i + 1..]);
    RunAppend(START, entries[..i + 1], entries[i + 1..]);
    TakeAndRest(entries, i + 1);
  }

  lemma {:induction false} NeverStartedIsIgnored(entries: seq<Entry>, entry: Entry)
    requires OneEntryEachId(entries) && entry in entries
    requires IsShellEntry(entry) && !Started(entries, entry.body.shellId)
    ensures FeedInvariant(START) && ApplyEntry(Run(START, entries), entry) == Run(START, entries)
  {
    HistoryOfRun(entries, |entries|);
    assert entries[..|entries|] == entries;
    var i :| 0 <= i < |entries| && entries[i] == entry;
    assert entry.kind == ShellStarted ==> Starts(entries, i, entry.body.shellId);
  }

  /** An entry that only came before its shell's start was ignored, so a replay adds it. */
  lemma {:induction false} LatePartChangesTheModel(entries: seq<Entry>, entry: Entry)
    requires OneEntryEachId(entries) && entry in entries
    requires IsShellEntry(entry) && Started(entries, entry.body.shellId) && !IsAfterStart(entries, entry)
    ensures FeedInvariant(START) && ApplyEntry(Run(START, entries), entry) != Run(START, entries)
  {
    HistoryOfRun(entries, |entries|);
    assert entries[..|entries|] == entries;
    var model, shellId := Run(START, entries), entry.body.shellId;
    var k :| 0 <= k < |entries| && entries[k] == entry;
    SameIdSameKind(entries, k);
    assert entry.entryId !in model.shells[shellId].entryIds;
    FoldKeepsIds(model.shells[shellId], entry);
    assert entry.entryId in ApplyEntry(model, entry).shells[shellId].entryIds;
  }

  /** Applying each entry of a run again changes nothing exactly when no shell part came only before its start. */
  lemma {:induction false} ReplayChangesNothingIff(entries: seq<Entry>)
    requires OneEntryEachId(entries)
    ensures FeedInvariant(START)
    ensures (forall entry <- entries :: ApplyEntry(Run(START, entries), entry) == Run(START, entries))
            <==> NoPartOnlyBeforeItsStart(entries)
  {
    assert FeedInvariant(START);
    var model := Run(START, entries);
    forall entry | entry in entries
      ensures ApplyEntry(model, entry) == model <==>
              (IsShellEntry(entry) && Started(entries, entry.body.shellId) ==> IsAfterStart(entries, entry))
    {
      if IsShellEntry(entry) && !Started(entries, entry.body.shellId) {
        NeverStartedIsIgnored(entries, entry);
      } else if IsShellEntry(entry) && !IsAfterStart(entries, entry) {
        LatePartChangesTheModel(entries, entry);
      } else {
        var i: nat :| i < |entries| && entries[i] == entry &&
          (IsShellEntry(entry) ==> exists j: nat :: AfterStart(entries, j, i, entry));
        AbsorbedAt(entries, i);
        AbsorbedChangesNothing(model, entry);
      }
    }
  }

  /** Any later replay of applied entries, in any order and any number of times, leaves the model unchanged. */
  lemma {:induction false} ReplayHasNoEffect(entries: seq<Entry>, again: seq<Entry>)
    requires OneEntryEachId(entries) && NoPartOnlyBeforeItsStart(entries)
    requires forall entry <- again :: entry in entries
    ensures FeedInvariant(START) && Run(START, entries + again) == Run(START, entries)
    decreases |again|
  {
    ReplayChangesNothingIff(entries);
    var model := Run(START, entries);
    if again == [] {
      assert entries + again == entries;
    } else {
      ReplayHasNoEffect(entries, again[1..]);
      RunAppend(START, entries, again);
      RunAppend(START, entries, again[1..]);
      assert ApplyEntry(model, again[0]) == model;
    }
  }

  // ----- Arrival order -----

  /** Entries that are no shell part and replace no prompt. */
  ghost predicate Plain(entries: seq<Entry>) {
    forall entry <- entries :: !IsShellEntry(entry) && !Supersedes(entry)
  }

  ghost predicate DistinctPlaces(entries: seq<Entry>) {
    forall a, b :: a in entries && b in entries && PlaceOf(a) == PlaceOf(b) ==> a == b
  }

  /** The model of plain entries: exactly those entries, and the highest row. */
  ghost predicate HoldsExactly(model: Model, entries: seq<Entry>) {
    HoldsEntries(model, entries) && CursorIsHighest(model.entryCursor, entries)
  }

  ghost predicate HoldsEntries(model: Model, entries: seq<Entry>) {
    && model.shells == map[] && model.dropped == {}
    && (forall id :: id in model.entries ==> model.entries[id] in entries)
    && (forall entry <- entries :: entry.entryId in model.entries)
  }

  ghost predicate CursorIsHighest(cursor: int, entries: seq<Entry>) {
    && (cursor == 0 || exists entry <- entries :: entry.cursor == cursor)
    && cursor >= 0
    && (forall entry <- entries :: entry.cursor <= cursor)
  }

  lemma {:induction false} PlainRun(entries: seq<Entry>, k: nat)
    requires Plain(entries) && OneEntryEachId(entries) && k <= |entries|
    ensures FeedInvariant(START) && HoldsExactly(Run(START, entries[..k]), entries[..k])
  {
    if k > 0 {
      var i := k - 1;
      PlainRun(entries, i);
      RunNext(START, entries, i);
      PlainNext(Run(START, entries[..i]), entries, i);
    }
  }

  lemma {:induction false} PlainNext(model: Model, entries: seq<Entry>, k: nat)
    requires Plain(entries) && OneEntryEachId(entries) && k < |entries|
    requires Placed(model) && EntriesPlaced(model) && HoldsExactly(model, entries[..k])
    ensures HoldsExactly(ApplyEntry(model, entries[k]), entries[..k + 1])
  {
    TakeNext(entries, k);
    PlainStep(model, entries[..k], entries[k]);
  }

  lemma {:induction false} PlainStep(model: Model, entries: seq<Entry>, next: Entry)
    requires Placed(model) && EntriesPlaced(model) && HoldsExactly(model, entries)
    requires !IsShellEntry(next) && !Supersedes(next) && OneEntryEachId(entries + [next])
    ensures HoldsExactly(ApplyEntry(model, next), entries + [next])
  {
    var more := entries + [next];
    MoreEntries(entries, next);
    if next.entryId in model.entries {
      assert EntryPlaced(model, next.entryId);
      KnownIsOld(entries, next, model.entries[next.entryId]);
      assert ApplyEntry(model, next) == model;
    } else {
      PlainApply(model, next);
      HigherCursor(model.entryCursor, entries, next);
    }
  }

  lemma {:induction false} MoreEntries(entries: seq<Entry>, next: Entry)
    ensures forall entry :: entry in entries + [next] <==> entry in entries || entry == next
  {
  }

  lemma {:induction false} KnownIsOld(entries: seq<Entry>, next: Entry, held: Entry)
    requires OneEntryEachId(entries + [next]) && held in entries && held.entryId == next.entryId
    ensures held == next
  {
    MoreEntries(entries, next);
    OneEntry(entries + [next], held, next);
  }

  lemma {:induction false} HigherCursor(cursor: int, entries: seq<Entry>, next: Entry)
    requires CursorIsHighest(cursor, entries)
    ensures CursorIsHighest(Max(cursor, next.cursor), entries + [next])
  {
    MoreEntries(entries, next);
  }

  lemma {:induction false} PlainApply(model: Model, next: Entry)
    requires Placed(model) && !Known(model, next) && !IsShellEntry(next) && !Supersedes(next)
    ensures var end := ApplyEntry(model, next);
            && end.entries == model.entries[next.entryId := next]
            && end.shells == model.shells && end.dropped == model.dropped
            && end.entryCursor == Max(model.entryCursor, next.cursor)
  {
    var moved := model.(entryCursor := Max(model.entryCursor, next.cursor));
    DropNothing(PlaceItem(moved.(entries := model.entries[next.entryId := next]), EntryKey(next.entryId), next));
  }

  lemma {:induction false} FirstComesFirst(order: seq<FeedKey>, places: map<FeedKey, Place>, key: FeedKey)
    requires order != [] && key in order && (forall other <- order :: other in places) && Sorted(order, places)
    ensures NotAfter(places[order[0]], places[key])
  {
    var i :| 0 <= i < |order| && order[i] == key;
  }

  lemma {:induction false} SortedIsUnique(a: seq<FeedKey>, b: seq<FeedKey>, places: map<FeedKey, Place>)
    requires forall key :: key in a <==> key in b
    requires forall key <- a :: key in places
    requires NoDuplicates(a) && NoDuplicates(b) && Sorted(a, places) && Sorted(b, places)
    requires forall x, y :: x in a && y in a && places[x] == places[y] ==> x == y
    ensures a == b
    decreases |a|
  {
    assert b != [] ==> b[0] in b;
    if a != [] {
      assert a[0] in b && b[0] in a;
      FirstComesFirst(a, places, b[0]);
      FirstComesFirst(b, places, a[0]);
      assert a[0] == b[0];
      TailKeys(a);
      TailKeys(b);
      SortedIsUnique(a[1..], b[1..], places);
    }
  }

  lemma {:induction false} TailKeys(order: seq<FeedKey>)
    requires order != [] && NoDuplicates(order)
    ensures forall key :: key in order[1..] <==> key in order && key != order[0]
  {
    forall key | key in order && key != order[0]
      ensures key in order[1..]
    {
      var k :| 0 <= k < |order| && order[k] == key;
      assert order[1..][k - 1] == key;
    }
  }

  lemma {:induction false} SameItemsSameOrder(a: Model, b: Model, entries: seq<Entry>)
    requires FeedInvariant(a) && FeedInvariant(b) && a.entries == b.entries && a.shells == b.shells == map[]
    requires DistinctPlaces(entries) && forall id :: id in a.entries ==> a.entries[id] in entries
    ensures a.places == b.places && a.order == b.order
  {
    forall key
      ensures key in a.places <==> key in b.places
      ensures key in a.places ==> key.EntryKey? && a.places[key] == b.places[key] == PlaceOf(a.entries[key.id])
    {
      assert Holds(a, key) <==> Holds(b, key);
      if key in a.places {
        assert EntryPlaced(a, key.id) && EntryPlaced(b, key.id);
      }
    }
    forall x, y | x in a.order && y in a.order && a.places[x] == a.places[y]
      ensures x == y
    {
      assert EntryPlaced(a, x.id) && EntryPlaced(a, y.id);
    }
    SortedIsUnique(a.order, b.order, a.places);
  }

  /** Plain entries with distinct places build the same model in every order of arrival, with repeats. */
  lemma {:induction false} PlainRunsBuildTheSameModel(a: seq<Entry>, b: seq<Entry>)
    requires Plain(a) && OneEntryEachId(a) && DistinctPlaces(a)
    requires forall entry :: entry in a <==> entry in b
    ensures FeedInvariant(START) && Run(START, a) == Run(START, b)
  {
    assert OneEntryEachId(b) by {
      forall i, j | 0 <= i < |b| && 0 <= j < |b| && b[i].entryId == b[j].entryId
        ensures b[i] == b[j]
      {
        assert b[i] in a && b[j] in a;
      }
    }
    PlainRun(a, |a|);
    PlainRun(b, |b|);
    assert a[..|a|] == a && b[..|b|] == b;
    var x, y := Run(START, a), Run(START, b);
    SameEntries(x, y, a, b);
    SameItemsSameOrder(x, y, a);
  }

  lemma {:induction false} OneEntry(entries: seq<Entry>, a: Entry, b: Entry)
    requires OneEntryEachId(entries) && a in entries && b in entries && a.entryId == b.entryId
    ensures a == b
  {
    var i :| 0 <= i < |entries| && entries[i] == a;
    var j :| 0 <= j < |entries| && entries[j] == b;
  }

  lemma {:induction false} HeldByBoth(x: Model, y: Model, a: seq<Entry>, b: seq<Entry>, id: string)
    requires EntriesPlaced(x) && EntriesPlaced(y) && HoldsEntries(x, a) && HoldsEntries(y, b)
    requires OneEntryEachId(a) && (forall entry :: entry in a <==> entry in b) && id in x.entries
    ensures id in y.entries && x.entries[id] == y.entries[id]
  {
    assert EntryPlaced(x, id);
    assert x.entries[id] in b;
    assert EntryPlaced(y, id);
    OneEntry(a, x.entries[id], y.entries[id]);
  }

  lemma {:induction false} SameEntries(x: Model, y: Model, a: seq<Entry>, b: seq<Entry>)
    requires EntriesPlaced(x) && EntriesPlaced(y) && HoldsExactly(x, a) && HoldsExactly(y, b)
    requires OneEntryEachId(a) && OneEntryEachId(b) && forall entry :: entry in a <==> entry in b
    ensures x.entries == y.entries && x.entryCursor == y.entryCursor
  {
    forall id
      ensures id in x.entries <==> id in y.entries
      ensures id in x.entries ==> x.entries[id] == y.entries[id]
    {
      if id in x.entries {
        HeldByBoth(x, y, a, b, id);
      } else if id in y.entries {
        HeldByBoth(y, x, b, a, id);
      }
    }
  }
}
