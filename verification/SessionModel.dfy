/** The read model object of a pane, with its fold objects (client/_model_session.py). */
module SessionModels {
  import opened ShellFolds
  import opened Session

  function RemoveFirst(order: seq<FeedKey>, key: FeedKey): seq<FeedKey> {
    if order == [] then [] else if order[0] == key then order[1..] else [order[0]] + RemoveFirst(order[1..], key)
  }

  lemma {:induction false} RemoveAfterPrefix(kept: seq<FeedKey>, key: FeedKey, later: seq<FeedKey>)
    requires key !in kept
    ensures RemoveFirst(kept + [key] + later, key) == kept + later
  {
    var order := kept + [key] + later;
    if kept == [] {
      assert order[1..] == later && kept + later == later;
    } else {
      assert order[1..] == kept[1..] + [key] + later;
      RemoveAfterPrefix(kept[1..], key, later);
      assert [kept[0]] + (kept[1..] + later) == kept + later;
    }
  }

  // ----- Dropping one by one -----

  function DropOne(model: Model, id: string): Model {
    model.(
      order := RemoveFirst(model.order, EntryKey(id)),
      places := map other | other in model.places && other != EntryKey(id) :: model.places[other],
      entries := map other | other in model.entries && other != id :: model.entries[other],
      dropped := model.dropped + {id})
  }

  function DropRun(model: Model, keys: seq<FeedKey>, ids: set<string>): Model
    decreases |keys|
  {
    if keys == [] then model
    else DropRun(if keys[0].EntryKey? && keys[0].id in ids then DropOne(model, keys[0].id) else model, keys[1..], ids)
  }

  lemma {:induction false} KeysHaveEntries(model: Model)
    requires Orderly(model.order, model.places) && PlacesHeld(model) && EntriesPlaced(model)
    ensures forall key <- model.order :: key.EntryKey? ==> key.id in model.entries && model.entries[key.id].entryId == key.id
  {
    forall key | key in model.order && key.EntryKey?
      ensures key.id in model.entries && model.entries[key.id].entryId == key.id
    {
      assert Holds(model, key);
      assert EntryPlaced(model, key.id);
    }
  }

  lemma {:induction false} FirstKey(done: seq<FeedKey>, keys: seq<FeedKey>)
    requires keys != []
    ensures done + keys == done + [keys[0]] + keys[1..]
  {
  }

  lemma {:induction false} RegroupKeys(done: seq<FeedKey>, key: FeedKey, later: seq<FeedKey>)
    ensures done + [key] + later == done + ([key] + later)
  {
  }

  lemma {:induction false} DistinctAround(done: seq<FeedKey>, key: FeedKey, later: seq<FeedKey>)
    requires NoDuplicates(done + [key] + later)
    ensures key !in done && NoDuplicates(done + later)
  {
    var order, left := done + [key] + later, done + later;
    assert order[|done|] == key;
    assert forall i :: 0 <= i < |done| ==> done[i] == order[i];
    assert forall i :: 0 <= i < |left| ==> left[i] == order[if i < |done| then i else i + 1];
  }

  lemma {:induction false} DropFirst(model: Model, done: seq<FeedKey>, key: FeedKey, later: seq<FeedKey>)
    requires model.order == done + [key] + later && NoDuplicates(model.order) && key.EntryKey?
    ensures DropOne(model, key.id).order == done + later && NoDuplicates(done + later)
  {
    DistinctAround(done, key, later);
    RemoveAfterPrefix(done, key, later);
  }

  lemma {:induction false} DropRunStep(model: Model, keys: seq<FeedKey>, ids: set<string>)
    requires keys != []
    ensures var drops := keys[0].EntryKey? && keys[0].id in ids;
            && DropRun(model, keys, ids) == DropRun(if drops then DropOne(model, keys[0].id) else model, keys[1..], ids)
            && Without(keys, ids) == (if drops then [] else [keys[0]]) + Without(keys[1..], ids)
  {
  }

  lemma {:induction false} DropRunOrder(model: Model, done: seq<FeedKey>, keys: seq<FeedKey>, ids: set<string>)
    requires model.order == done + keys && NoDuplicates(model.order)
    ensures DropRun(model, keys, ids).order == done + Without(keys, ids)
    decreases |keys|
  {
    if keys != [] {
      var key, later := keys[0], keys[1..];
      FirstKey(done, keys);
      DropRunStep(model, keys, ids);
      if key.EntryKey? && key.id in ids {
        DropFirst(model, done, key, later);
        DropRunOrder(DropOne(model, key.id), done, later, ids);
      } else {
        DropRunOrder(model, done + [key], later, ids);
        RegroupKeys(done, key, Without(later, ids));
      }
    }
  }

  lemma {:induction false} DropRunMaps(model: Model, keys: seq<FeedKey>, ids: set<string>)
    ensures var end := DropRun(model, keys, ids);
            && end.shells == model.shells && end.entryCursor == model.entryCursor
            && end.places == (map key | key in model.places && !(key in keys && key.EntryKey? && key.id in ids) :: model.places[key])
            && end.entries == (map id | id in model.entries && !(EntryKey(id) in keys && id in ids) :: model.entries[id])
            && end.dropped == model.dropped + set id | id in ids && EntryKey(id) in keys
    decreases |keys|
  {
    if keys != [] {
      var key := keys[0];
      assert forall other :: other in keys <==> other == key || other in keys[1..];
      DropRunMaps(if key.EntryKey? && key.id in ids then DropOne(model, key.id) else model, keys[1..], ids);
    }
  }

  /** Dropping the superseded entries one by one over the order drops them all. */
  lemma {:induction false} DropRunDropsAll(model: Model, ids: set<string>)
    requires NoDuplicates(model.order)
    requires forall key :: key in model.places ==> key in model.order
    requires forall id :: id in ids ==> EntryKey(id) in model.order
    ensures DropRun(model, model.order, ids) == DropEntries(model, ids)
  {
    DropRunOrder(model, [], model.order, ids);
    DropRunMaps(model, model.order, ids);
    assert [] + model.order == model.order && [] + Without(model.order, ids) == Without(model.order, ids);
    var run, all := DropRun(model, model.order, ids), DropEntries(model, ids);
    assert run.order == all.order;
    assert run.places == all.places;
    assert run.entries == all.entries;
    assert run.dropped == all.dropped;
  }

  // ----- Forgetting one by one -----

  function ForgetOne(model: Model, key: FeedKey): Model {
    var left := model.(places := map other | other in model.places && other != key :: model.places[other]);
    match key
    case ShellKey(id) => left.(shells := map other | other in model.shells && other != id :: model.shells[other])
    case EntryKey(id) => left.(entries := map other | other in model.entries && other != id :: model.entries[other])
  }

  function ForgetRun(model: Model, keys: seq<FeedKey>): Model
    decreases |keys|
  {
    if keys == [] then model else ForgetRun(ForgetOne(model, keys[0]), keys[1..])
  }

  lemma {:induction false} HeadOrRest(keys: seq<FeedKey>)
    requires keys != []
    ensures forall other :: other in keys <==> other == keys[0] || other in keys[1..]
  {
  }

  lemma {:induction false} ForgetRunMaps(model: Model, keys: seq<FeedKey>)
    ensures var end := ForgetRun(model, keys);
            && end.order == model.order && end.dropped == model.dropped && end.entryCursor == model.entryCursor
            && end.places == (map key | key in model.places && key !in keys :: model.places[key])
            && end.entries == (map id | id in model.entries && EntryKey(id) !in keys :: model.entries[id])
            && end.shells == (map id | id in model.shells && ShellKey(id) !in keys :: model.shells[id])
    decreases |keys|
  {
    if keys != [] {
      HeadOrRest(keys);
      ForgetRunMaps(ForgetOne(model, keys[0]), keys[1..]);
    }
  }

  /** Forgetting the oldest items one by one leaves the newest ones. */
  lemma {:induction false} ForgetRunKeepsNewest(model: Model, count: nat)
    requires |model.order| > count
    ensures var n := |model.order| - count;
            ForgetRun(model, model.order[..n]).(order := model.order[n..]) == KeepNewest(model, count)
  {
    ForgetRunMaps(model, model.order[..|model.order| - count]);
  }

  /** What the drop loop needs: each entry key of the order once, with its entry. */
  ghost predicate DropsInOrder(model: Model) {
    && NoDuplicates(model.order)
    && (forall key :: key in model.places ==> key in model.order)
    && (forall id :: id in model.entries ==> EntryKey(id) in model.order)
    && (forall key <- model.order :: key.EntryKey? ==> key.id in model.entries && model.entries[key.id].entryId == key.id)
  }

  lemma {:induction false} OrderlyDrops(model: Model)
    requires Orderly(model.order, model.places) && PlacesHeld(model) && EntriesPlaced(model)
    ensures DropsInOrder(model)
  {
    KeysHaveEntries(model);
    forall id | id in model.entries
      ensures EntryKey(id) in model.order
    {
      assert EntryPlaced(model, id);
    }
  }

  /** What adding a new entry needs of the order. */
  ghost predicate Insertable(model: Model, entry: Entry) {
    var held := model.(entries := model.entries[entry.entryId := entry]);
    Placed(held) && DropsInOrder(PlaceItem(held, EntryKey(entry.entryId), entry))
  }

  lemma {:induction false} AddedIsOrderly(model: Model, entry: Entry)
    requires FeedInvariant(model) && !Known(model, entry) && !IsShellEntry(entry)
    ensures Insertable(model, entry)
  {
    var held := model.(entries := model.entries[entry.entryId := entry]);
    PlacingKeepsOrder(held, EntryKey(entry.entryId), entry);
    AddedEntriesPlaced(model, entry);
    OrderlyDrops(PlaceItem(held, EntryKey(entry.entryId), entry));
  }

  lemma {:induction false} PlacedWhenValid(model: Model)
    requires FeedInvariant(model)
    ensures Placed(model)
  {
  }

  lemma {:induction false} MovedCursorKeeps(model: Model, cursor: int)
    requires FeedInvariant(model)
    ensures FeedInvariant(model.(entryCursor := cursor))
  {
  }

  lemma {:induction false} ReadyForEntry(model: Model, entry: Entry)
    requires FeedInvariant(model) && !Known(model, entry)
    ensures var moved := model.(entryCursor := Max(model.entryCursor, entry.cursor));
            Placed(moved) && (!IsShellEntry(entry) ==> Insertable(moved, entry))
  {
    var moved := model.(entryCursor := Max(model.entryCursor, entry.cursor));
    PlacedWhenValid(model);
    MovedCursorKeeps(model, moved.entryCursor);
    if !IsShellEntry(entry) {
      AddedIsOrderly(moved, entry);
    }
  }

  lemma {:induction false} PlainDropsNothing(model: Model, entry: Entry)
    requires entry.kind != Message
    ensures DropEntries(model, SupersededBy(model, entry)) == model
  {
    DropNothing(model);
  }

  class SessionModel {
    var order: seq<FeedKey>
    var places: map<FeedKey, Place>
    var entries: map<string, Entry>
    var shells: map<string, ShellFold>
    var dropped: set<string>
    var entryCursor: int

    ghost function Folds(): map<string, Fold>
      reads this`shells, shells.Values
    {
      map id | id in shells :: shells[id].View()
    }

    ghost function View(): Model
      reads this, shells.Values
    {
      Model(order, places, entries, Folds(), dropped, entryCursor)
    }

    /** No two shells share a fold object. */
    ghost predicate ShellsApart()
      reads this
    {
      forall a, b :: a in shells && b in shells && shells[a] == shells[b] ==> a == b
    }

    ghost predicate Valid()
      reads this, shells.Values
    {
      FeedInvariant(View()) && ShellsApart()
    }

    constructor ()
      ensures View() == START && Valid() && shells == map[]
    {
      order, places, entries, shells, dropped, entryCursor := [], map[], map[], map[], {}, 0;
      new;
      assert View() == START;
    }

    /** A page or a frame applies its entries in order. */
    method ApplyEntries(page: seq<Entry>)
      requires Valid()
      modifies this, shells.Values
      ensures Valid() && View() == RunSteps(old(View()), seq(|page|, i requires 0 <= i < |page| => Apply(page[i])))
      ensures fresh(shells.Values - old(shells.Values))
    {
      ghost var steps := seq(|page|, i requires 0 <= i < |page| => Step.Apply(page[i]));
      for k := 0 to |page|
        invariant Valid() && fresh(shells.Values - old(shells.Values))
        invariant RunSteps(View(), steps[k..]) == RunSteps(old(View()), steps)
      {
        ghost var before := View();
        assert steps[k..][0] == Step.Apply(page[k]) && steps[k..][1..] == steps[k + 1..];
        ApplyOne(page[k]);
        assert View() == StepModel(before, steps[k..][0]);
      }
    }

    /** `_apply_entry`: take an entry that is new to the model. */
    method ApplyOne(entry: Entry)
      requires Valid()
      modifies this, shells.Values
      ensures Valid() && View() == ApplyEntry(old(View()), entry)
      ensures fresh(shells.Values - old(shells.Values))
    {
      ApplyEntryKeeps(View(), entry);
      if !(entry.entryId in entries || entry.entryId in dropped) {
        TakeNew(entry);
      }
    }

    method TakeNew(entry: Entry)
      requires Valid() && !Known(View(), entry)
      modifies this, shells.Values
      ensures View() == ApplyEntry(old(View()), entry) && ShellsApart()
      ensures fresh(shells.Values - old(shells.Values))
    {
      ReadyForEntry(View(), entry);
      entryCursor := Max(entryCursor, entry.cursor);
      if IsShellEntry(entry) {
        FoldShellEntry(entry);
      } else {
        AddPlainEntry(entry);
      }
    }

    method AddPlainEntry(entry: Entry)
      requires Insertable(View(), entry)
      modifies this`order, this`places, this`entries, this`dropped
      ensures View() == AddEntry(old(View()), entry)
    {
      entries := entries[entry.entryId := entry];
      PlaceKey(EntryKey(entry.entryId), entry);
      if entry.kind == Message {
        DropSuperseded(entry);
      } else {
        PlainDropsNothing(View(), entry);
      }
    }

    /** `_place`: note the place and insert the key in the order. */
    method PlaceKey(key: FeedKey, entry: Entry)
      requires Placed(View())
      modifies this`order, this`places
      ensures View() == PlaceItem(old(View()), key, entry)
    {
      order := Insort(order, places, key, PlaceOf(entry));
      places := places[key := PlaceOf(entry)];
    }

    method FoldShellEntry(entry: Entry)
      requires Placed(View()) && ShellsApart()
      modifies this`shells, this`order, this`places, shells.Values
      ensures View() == FoldShell(old(View()), entry) && ShellsApart()
      ensures fresh(shells.Values - old(shells.Values))
    {
      var shellId := entry.body.shellId;
      if shellId !in shells {
        if entry.kind != ShellStarted {
          return;
        }
        OpenFold(entry);
        PlaceKey(ShellKey(shellId), entry);
        return;
      }
      FoldPart(entry);
    }

    method OpenFold(entry: Entry)
      requires ShellsApart() && entry.body.shellId !in shells
      modifies this`shells
      ensures View() == old(View()).(shells := old(Folds())[entry.body.shellId := StartFold(entry)]) && ShellsApart()
      ensures fresh(shells.Values - old(shells.Values))
    {
      var fold := new ShellFold.FromEntry(entry);
      shells := shells[entry.body.shellId := fold];
      assert Folds() == old(Folds())[entry.body.shellId := StartFold(entry)];
    }

    method FoldPart(entry: Entry)
      requires ShellsApart() && entry.body.shellId in shells
      modifies shells.Values
      ensures View() == old(View()).(
        shells := old(Folds())[entry.body.shellId := FoldEntry(old(Folds())[entry.body.shellId], entry)])
    {
      shells[entry.body.shellId].Apply(entry);
      assert Folds() == old(Folds())[entry.body.shellId := FoldEntry(old(Folds())[entry.body.shellId], entry)];
    }

    /** `_drop_superseded`: drop each other user prompt that answers the same prompt. */
    method DropSuperseded(entry: Entry)
      requires DropsInOrder(View())
      modifies this`order, this`places, this`entries, this`dropped
      ensures View() == DropEntries(old(View()), SupersededBy(old(View()), entry))
    {
      if Supersedes(entry) {
        DropRunDropsAll(View(), SupersededBy(View(), entry));
        DropOthers(entry, entry.body.replyTo.value);
      } else {
        DropNothing(View());
      }
    }

    method DropOthers(entry: Entry, replaced: string)
      requires Supersedes(entry) && replaced == entry.body.replyTo.value
      requires DropsInOrder(View())
      modifies this`order, this`places, this`entries, this`dropped
      ensures View() == DropRun(old(View()), old(order), SupersededBy(old(View()), entry))
    {
      ghost var start, ids := View(), SupersededBy(View(), entry);
      var keys := order;
      for k := 0 to |keys|
        invariant DropRun(View(), keys[k..], ids) == DropRun(start, keys, ids)
        invariant forall j :: k <= j < |keys| && keys[j].EntryKey? ==>
          keys[j].id in entries && entries[keys[j].id] == start.entries[keys[j].id]
      {
        var key := keys[k];
        assert keys[k..][0] == key && keys[k..][1..] == keys[k + 1..];
        if key.EntryKey? {
          var other := entries[key.id];
          if other.entryId != entry.entryId && Replaced(other, replaced) {
            DropEntry(key, other);
          }
        }
      }
    }

    method DropEntry(key: FeedKey, entry: Entry)
      requires key == EntryKey(entry.entryId)
      modifies this`order, this`places, this`entries, this`dropped
      ensures View() == DropOne(old(View()), entry.entryId)
    {
      order := RemoveFirst(order, key);
      places := map other | other in places && other != key :: places[other];
      entries := map id | id in entries && id != entry.entryId :: entries[id];
      dropped := dropped + {entry.entryId};
    }

    /** `keep_newest`: forget every feed item but the newest ones. */
    method Forget(count: nat)
      requires Valid()
      modifies this`order, this`places, this`entries, this`shells
      ensures Valid() && View() == KeepNewest(old(View()), count)
    {
      KeepNewestKeeps(View(), count);
      ForgetItems(count);
    }

    method ForgetItems(count: nat)
      requires ShellsApart()
      modifies this`order, this`places, this`entries, this`shells
      ensures View() == KeepNewest(old(View()), count) && ShellsApart()
    {
      if |order| > count {
        ForgetRunKeepsNewest(View(), count);
        ForgetOldest(|order| - count);
        order := order[|order| - count..];
      }
    }

    method ForgetOldest(forgotten: nat)
      requires forgotten <= |order| && ShellsApart()
      modifies this`places, this`entries, this`shells
      ensures View() == ForgetRun(old(View()), order[..forgotten]) && ShellsApart()
    {
      ghost var start := View();
      var keys := order[..forgotten];
      for k := 0 to |keys|
        invariant ForgetRun(View(), keys[k..]) == ForgetRun(start, keys) && ShellsApart()
      {
        assert keys[k..][0] == keys[k] && keys[k..][1..] == keys[k + 1..];
        ForgetKey(keys[k]);
      }
    }

    method ForgetKey(key: FeedKey)
      requires ShellsApart()
      modifies this`places, this`entries, this`shells
      ensures View() == ForgetOne(old(View()), key) && ShellsApart()
    {
      places := map other | other in places && other != key :: places[other];
      match key {
        case ShellKey(id) => ForgetShell(id);
        case EntryKey(id) => entries := map other | other in entries && other != id :: entries[other];
      }
    }

    method ForgetShell(id: string)
      requires ShellsApart()
      modifies this`shells
      ensures Folds() == (map other | other in old(Folds()) && other != id :: old(Folds())[other]) && ShellsApart()
    {
      shells := map other | other in shells && other != id :: shells[other];
    }
  }
}
