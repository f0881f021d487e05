/** The pane's read model: the feed order, its entries and its shell folds (client/_model_session.py,
    _model_session_state.py, _model_session_feed.py). */
module Session {
  import opened Wrappers
  import opened ShellFolds

  /** A feed item is an entry or a shell; the program writes these keys as prefixed strings. */
  datatype FeedKey = EntryKey(id: string) | ShellKey(id: string)

  /** Where an item stands: the fact that it belongs to, then its row. */
  datatype Place = Place(commit: int, row: int)

  predicate NotAfter(a: Place, b: Place) {
    a.commit < b.commit || (a.commit == b.commit && a.row <= b.row)
  }

  function PlaceOf(entry: Entry): Place {
    Place(entry.commitCursor, entry.cursor)
  }

  datatype Model = Model(
    order: seq<FeedKey>, places: map<FeedKey, Place>, entries: map<string, Entry>, shells: map<string, Fold>,
    dropped: set<string>, entryCursor: int)

  const START := Model([], map[], map[], map[], {}, 0)

  function Max(a: int, b: int): int {
    if a < b then b else a
  }

  // ----- One step, as functions on values -----

  /** `bisect_right` on the places of a sorted order. */
  function PlaceIndex(order: seq<FeedKey>, places: map<FeedKey, Place>, place: Place): (i: nat)
    requires forall key <- order :: key in places
    ensures i <= |order|
    ensures forall k :: 0 <= k < i ==> NotAfter(places[order[k]], place)
    ensures i < |order| ==> !NotAfter(places[order[i]], place)
  {
    if order == [] || !NotAfter(places[order[0]], place) then 0 else 1 + PlaceIndex(order[1..], places, place)
  }

  /** `insort`: put the key after the items that do not come later. */
  function Insort(order: seq<FeedKey>, places: map<FeedKey, Place>, key: FeedKey, place: Place): seq<FeedKey>
    requires forall other <- order :: other in places
  {
    var i := PlaceIndex(order, places, place);
    order[..i] + [key] + order[i..]
  }

  predicate Placed(model: Model) {
    forall key <- model.order :: key in model.places
  }

  function PlaceItem(model: Model, key: FeedKey, entry: Entry): Model
    requires Placed(model)
  {
    model.(order := Insort(model.order, model.places, key, PlaceOf(entry)), places := model.places[key := PlaceOf(entry)])
  }

  predicate IsPrompt(entry: Entry) {
    entry.kind == Message && entry.body.role == Some("user")
  }

  /** The prompt that an entry replaces; none when the field is absent or empty. */
  predicate Replaced(entry: Entry, prompt: string) {
    IsPrompt(entry) && prompt != "" && entry.body.replyTo == Some(prompt)
  }

  predicate Supersedes(entry: Entry) {
    IsPrompt(entry) && entry.body.replyTo.Some? && entry.body.replyTo.value != ""
  }

  function SupersededBy(model: Model, entry: Entry): set<string> {
    if !Supersedes(entry) then {}
    else set id | id in model.entries
           && model.entries[id].entryId != entry.entryId
           && Replaced(model.entries[id], entry.body.replyTo.value)
  }

  function Without(order: seq<FeedKey>, ids: set<string>): (kept: seq<FeedKey>)
    ensures forall key :: key in kept <==> key in order && !(key.EntryKey? && key.id in ids)
  {
    if order == [] then []
    else (if order[0].EntryKey? && order[0].id in ids then [] else [order[0]]) + Without(order[1..], ids)
  }

  function DropEntries(model: Model, ids: set<string>): Model {
    model.(
      order := Without(model.order, ids),
      places := map key | key in model.places && !(key.EntryKey? && key.id in ids) :: model.places[key],
      entries := map id | id in model.entries && id !in ids :: model.entries[id],
      dropped := model.dropped + ids)
  }

  function FoldShell(model: Model, entry: Entry): Model
    requires Placed(model)
  {
    var shellId := entry.body.shellId;
    if shellId in model.shells then model.(shells := model.shells[shellId := FoldEntry(model.shells[shellId], entry)])
    else if entry.kind != ShellStarted then model
    else PlaceItem(model.(shells := model.shells[shellId := StartFold(entry)]), ShellKey(shellId), entry)
  }

  function AddEntry(model: Model, entry: Entry): Model
    requires Placed(model)
  {
    var added := PlaceItem(model.(entries := model.entries[entry.entryId := entry]), EntryKey(entry.entryId), entry);
    DropEntries(added, SupersededBy(added, entry))
  }

  predicate Known(model: Model, entry: Entry) {
    entry.entryId in model.entries || entry.entryId in model.dropped
  }

  function ApplyEntry(model: Model, entry: Entry): (next: Model)
    requires Placed(model)
  {
    if Known(model, entry) then model
    else
      var moved := model.(entryCursor := Max(model.entryCursor, entry.cursor));
      if IsShellEntry(entry) then FoldShell(moved, entry) else AddEntry(moved, entry)
  }

  /** Forget every feed item but the newest `count`. */
  function KeepNewest(model: Model, count: nat): Model {
    if |model.order| <= count then model
    else WithoutOldest(model, |model.order| - count)
  }

  function WithoutOldest(model: Model, n: nat): Model
    requires n <= |model.order|
  {
    Forgotten(model, model.order[..n], model.order[n..])
  }

  function Forgotten(model: Model, forgotten: seq<FeedKey>, kept: seq<FeedKey>): Model {
    model.(
      order := kept,
      places := map key | key in model.places && key !in forgotten :: model.places[key],
      entries := map id | id in model.entries && EntryKey(id) !in forgotten :: model.entries[id],
      shells := map id | id in model.shells && ShellKey(id) !in forgotten :: model.shells[id])
  }

  // ----- The invariant -----

  ghost predicate NoDuplicates(order: seq<FeedKey>) {
    forall i, j :: 0 <= i < j < |order| ==> order[i] != order[j]
  }

  ghost predicate Sorted(order: seq<FeedKey>, places: map<FeedKey, Place>)
    requires forall key <- order :: key in places
  {
    forall i, j :: 0 <= i < j < |order| ==> NotAfter(places[order[i]], places[order[j]])
  }

  /** The order has each placed key once, and it is sorted by place. */
  ghost predicate Orderly(order: seq<FeedKey>, places: map<FeedKey, Place>) {
    (forall key :: key in order <==> key in places) && NoDuplicates(order) && Sorted(order, places)
  }

  predicate Holds(model: Model, key: FeedKey) {
    match key
    case EntryKey(id) => id in model.entries
    case ShellKey(id) => id in model.shells
  }

  ghost predicate PlacesHeld(model: Model) {
    forall key :: key in model.places <==> Holds(model, key)
  }

  ghost predicate EntryPlaced(model: Model, id: string)
    requires id in model.entries
  {
    var entry := model.entries[id];
    && entry.entryId == id && !IsShellEntry(entry) && id !in model.dropped
    && EntryKey(id) in model.places && model.places[EntryKey(id)] == PlaceOf(entry)
  }

  ghost predicate EntriesPlaced(model: Model) {
    forall id :: id in model.entries ==> EntryPlaced(model, id)
  }

  ghost predicate OnePromptEach(entries: map<string, Entry>) {
    forall a, b, prompt {:trigger Replaced(entries[a], prompt), Replaced(entries[b], prompt)} ::
      a in entries && b in entries && Replaced(entries[a], prompt) && Replaced(entries[b], prompt) ==> a == b
  }

  /** The order list is sorted, has each held item once and no other, and never a dropped entry; each entry
      stands at its own place; at most one user prompt is left for each replaced prompt. */
  ghost predicate FeedInvariant(model: Model) {
    && Orderly(model.order, model.places)
    && PlacesHeld(model)
    && EntriesPlaced(model)
    && OnePromptEach(model.entries)
  }

  lemma {:induction false} WithoutKeepsOrder(order: seq<FeedKey>, ids: set<string>, places: map<FeedKey, Place>)
    requires forall key <- order :: key in places
    requires NoDuplicates(order) && Sorted(order, places)
    ensures NoDuplicates(Without(order, ids))
    ensures Sorted(Without(order, ids), places)
  {
    if order != [] {
      WithoutKeepsOrder(order[1..], ids, places);
      var rest := Without(order[1..], ids);
      forall key <- rest
        ensures order[0] != key && NotAfter(places[order[0]], places[key])
      {
        var k :| 0 <= k < |order| - 1 && order[1..][k] == key;
        assert order[k + 1] == key;
      }
    }
  }

  lemma {:induction false} WithoutNothing(order: seq<FeedKey>)
    ensures Without(order, {}) == order
  {
    if order != [] {
      WithoutNothing(order[1..]);
    }
  }

  lemma {:induction false} DropNothing(model: Model)
    ensures DropEntries(model, {}) == model
  {
    WithoutNothing(model.order);
  }

  lemma {:induction false} NotAfterTotal(a: Place, b: Place, c: Place)
    ensures NotAfter(a, b) || NotAfter(b, a)
    ensures NotAfter(a, b) && NotAfter(b, c) ==> NotAfter(a, c)
  {
  }

  lemma {:induction false} InsertedKeys(order: seq<FeedKey>, i: nat, key: FeedKey)
    requires i <= |order|
    ensures var next := order[..i] + [key] + order[i..];
            && (forall other :: other in next <==> other == key || other in order)
            && (NoDuplicates(order) && key !in order ==> NoDuplicates(next))
  {
    var next := order[..i] + [key] + order[i..];
    forall k | 0 <= k < |next|
      ensures next[k] == if k < i then order[k] else if k == i then key else order[k - 1]
    {
    }
    forall other | other in order
      ensures other in next
    {
      var k :| 0 <= k < |order| && order[k] == other;
      assert next[if k < i then k else k + 1] == other;
    }
    assert next[i] == key;
  }

  lemma {:induction false} InsertedSorted(order: seq<FeedKey>, places: map<FeedKey, Place>, key: FeedKey, place: Place)
    requires forall other <- order :: other in places
    requires Sorted(order, places) && key !in places
    ensures var next := Insort(order, places, key, place);
            (forall other <- next :: other in places[key := place]) && Sorted(next, places[key := place])
  {
    var i := PlaceIndex(order, places, place);
    var next := Insort(order, places, key, place);
    var placed := places[key := place];
    InsertedKeys(order, i, key);
    forall k | i <= k < |order|
      ensures NotAfter(place, places[order[k]])
    {
      NotAfterTotal(place, places[order[i]], places[order[k]]);
    }
    forall p, q | 0 <= p < q < |next|
      ensures NotAfter(placed[next[p]], placed[next[q]])
    {
      var x, y := if p <= i then p else p - 1, if q <= i then q else q - 1;
      assert p != i ==> next[p] == order[x] && order[x] in order;
      assert q != i ==> next[q] == order[y] && order[y] in order;
    }
  }

  lemma {:induction false} PlacingKeepsOrder(model: Model, key: FeedKey, entry: Entry)
    requires Orderly(model.order, model.places) && key !in model.places
    ensures var next := PlaceItem(model, key, entry);
            Orderly(next.order, next.places)
  {
    InsertedKeys(model.order, PlaceIndex(model.order, model.places, PlaceOf(entry)), key);
    InsertedSorted(model.order, model.places, key, PlaceOf(entry));
  }

  lemma {:induction false} DroppingKeepsOrder(model: Model, ids: set<string>)
    requires Orderly(model.order, model.places)
    ensures var next := DropEntries(model, ids);
            Orderly(next.order, next.places)
  {
    WithoutKeepsOrder(model.order, ids, model.places);
    var next := DropEntries(model, ids);
    assert forall key :: key in next.order ==> key in next.places && next.places[key] == model.places[key];
    assert forall i :: 0 <= i < |next.order| ==> next.order[i] in next.order;
  }

  lemma {:induction false} AddingKeepsOnePrompt(model: Model, entry: Entry)
    requires OnePromptEach(model.entries) && EntriesPlaced(model) && Placed(model)
    ensures OnePromptEach(AddEntry(model, entry).entries)
  {
    var added := model.(entries := model.entries[entry.entryId := entry]);
    var next := AddEntry(model, entry).entries;
    forall a, b, prompt | a in next && b in next && Replaced(next[a], prompt) && Replaced(next[b], prompt)
      ensures a == b
    {
      if a != entry.entryId && b != entry.entryId {
        assert Replaced(model.entries[a], prompt) && Replaced(model.entries[b], prompt);
      }
    }
  }

  lemma {:induction false} AddEntryKeeps(model: Model, entry: Entry)
    requires FeedInvariant(model) && !Known(model, entry) && !IsShellEntry(entry)
    ensures FeedInvariant(AddEntry(model, entry))
  {
    var held := model.(entries := model.entries[entry.entryId := entry]);
    var added := PlaceItem(held, EntryKey(entry.entryId), entry);
    PlacingKeepsOrder(held, EntryKey(entry.entryId), entry);
    DroppingKeepsOrder(added, SupersededBy(added, entry));
    AddingKeepsOnePrompt(model, entry);
    AddedEntriesPlaced(model, entry);
    DroppingKeepsEntries(added, SupersededBy(added, entry));
  }

  lemma {:induction false} AddedEntriesPlaced(model: Model, entry: Entry)
    requires PlacesHeld(model) && EntriesPlaced(model) && Placed(model)
    requires !Known(model, entry) && !IsShellEntry(entry)
    ensures var added := PlaceItem(model.(entries := model.entries[entry.entryId := entry]), EntryKey(entry.entryId), entry);
            PlacesHeld(added) && EntriesPlaced(added)
  {
    forall id | id in model.entries
      ensures EntryPlaced(model, id)
    {
    }
  }

  lemma {:induction false} DroppingKeepsEntries(model: Model, ids: set<string>)
    requires PlacesHeld(model) && EntriesPlaced(model)
    ensures PlacesHeld(DropEntries(model, ids)) && EntriesPlaced(DropEntries(model, ids))
  {
    forall id | id in model.entries
      ensures EntryPlaced(model, id)
    {
    }
  }

  lemma {:induction false} StartShellKeeps(model: Model, entry: Entry)
    requires FeedInvariant(model) && entry.kind == ShellStarted && entry.body.shellId !in model.shells
    ensures FeedInvariant(FoldShell(model, entry))
  {
    var shellId := entry.body.shellId;
    PlacingKeepsOrder(model.(shells := model.shells[shellId := StartFold(entry)]), ShellKey(shellId), entry);
  }

  /** One entry keeps the invariant of the feed. */
  lemma {:induction false} ApplyEntryKeeps(model: Model, entry: Entry)
    requires FeedInvariant(model)
    ensures FeedInvariant(ApplyEntry(model, entry))
  {
    var moved := model.(entryCursor := Max(model.entryCursor, entry.cursor));
    if Known(model, entry) {
    } else if IsShellEntry(entry) {
      if entry.body.shellId !in model.shells && entry.kind == ShellStarted {
        StartShellKeeps(moved, entry);
      }
    } else {
      AddEntryKeeps(moved, entry);
    }
  }

  lemma {:induction false} ForgettingKeepsOrder(model: Model, n: nat)
    requires Orderly(model.order, model.places) && n <= |model.order|
    ensures var left := map key | key in model.places && key !in model.order[..n] :: model.places[key];
            Orderly(model.order[n..], left)
  {
    var order, left := model.order, map key | key in model.places && key !in model.order[..n] :: model.places[key];
    assert order == order[..n] + order[n..];
    forall key
      ensures key in order[n..] <==> key in left
    {
      if key in order[n..] {
        var k :| 0 <= k < |order| - n && order[n..][k] == key;
        assert order[n + k] == key && key in order;
      }
    }
    assert forall i :: 0 <= i < |order| - n ==> order[n..][i] == order[n + i] && order[n + i] in order[n..];
  }

  lemma {:induction false} ForgettingKeeps(model: Model, n: nat, left: Model)
    requires FeedInvariant(model) && n <= |model.order| && left == WithoutOldest(model, n)
    ensures FeedInvariant(left) && left.order == model.order[n..]
  {
    ForgettingKeepsOrder(model, n);
    assert Orderly(left.order, left.places);
    ForgettingKeepsItems(model, model.order[..n], model.order[n..]);
  }

  lemma {:induction false} ForgettingNothingKeeps(model: Model, count: nat)
    requires |model.order| <= count && FeedInvariant(model)
    ensures FeedInvariant(KeepNewest(model, count))
  {
  }

  lemma {:induction false} KeepNewestForgets(model: Model, count: nat, n: nat)
    requires n == |model.order| - count > 0
    ensures KeepNewest(model, count) == WithoutOldest(model, n)
  {
  }

  lemma {:induction false} ForgettingSomeKeeps(model: Model, count: nat, n: nat, left: Model)
    requires n == |model.order| - count > 0 && FeedInvariant(model) && left == KeepNewest(model, count)
    ensures FeedInvariant(left) && left.order == model.order[n..]
  {
    KeepNewestForgets(model, count, n);
    ForgettingKeeps(model, n, left);
  }

  /** Forgetting keeps the invariant and the newest items in their order. */
  lemma {:induction false} KeepNewestKeeps(model: Model, count: nat)
    requires FeedInvariant(model)
    ensures FeedInvariant(KeepNewest(model, count))
    ensures |model.order| > count ==> KeepNewest(model, count).order == model.order[|model.order| - count..]
  {
    if |model.order| <= count {
      ForgettingNothingKeeps(model, count);
    } else {
      ForgettingSomeKeeps(model, count, |model.order| - count, KeepNewest(model, count));
    }
  }

  lemma {:induction false} ForgettingKeepsItems(model: Model, forgotten: seq<FeedKey>, kept: seq<FeedKey>)
    requires PlacesHeld(model) && EntriesPlaced(model) && OnePromptEach(model.entries)
    ensures PlacesHeld(Forgotten(model, forgotten, kept)) && EntriesPlaced(Forgotten(model, forgotten, kept))
    ensures OnePromptEach(Forgotten(model, forgotten, kept).entries)
  {
  }

  // ----- Runs -----

  datatype Step = Apply(entry: Entry) | Forget(count: nat)

  function StepModel(model: Model, step: Step): Model
    requires FeedInvariant(model)
  {
    match step
    case Apply(entry) => ApplyEntry(model, entry)
    case Forget(count) => KeepNewest(model, count)
  }

  ghost function RunSteps(model: Model, steps: seq<Step>): (end: Model)
    requires FeedInvariant(model)
    ensures FeedInvariant(end)
    decreases |steps|
  {
    if steps == [] then model
    else
      StepKeeps(model, steps[0]);
      RunSteps(StepModel(model, steps[0]), steps[1..])
  }

  lemma {:induction false} StepKeeps(model: Model, step: Step)
    requires FeedInvariant(model)
    ensures FeedInvariant(StepModel(model, step))
  {
    match step
    case Apply(entry) => ApplyEntryKeeps(model, entry);
    case Forget(count) => KeepNewestKeeps(model, count);
  }

  /** Over every run of pages, frames and forgetting from the empty model, the feed keeps its invariant. */
  lemma {:induction false} FeedInvariantOverRuns(steps: seq<Step>)
    ensures FeedInvariant(START)
    ensures FeedInvariant(RunSteps(START, steps))
  {
  }
}
