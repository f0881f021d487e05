/** The plain entries of a feed stand in the same order, however the entries of the session arrive
    (client/_model_session_state.py). */
module ArrivalOrder {
  import opened ShellFolds
  import opened Session
  import opened SessionLaws

  /** No shell part, and no prompt that replaces another. */
  predicate IsPlain(entry: Entry) {
    !IsShellEntry(entry) && !Supersedes(entry)
  }

  // ----- What every run holds -----

  ghost predicate EntriesCame(model: Model, entries: seq<Entry>) {
    forall id :: id in model.entries ==> model.entries[id] in entries && model.entries[id].entryId == id
  }

  ghost predicate DroppedSupersede(model: Model, entries: seq<Entry>) {
    forall id :: id in model.dropped ==> exists entry <- entries :: entry.entryId == id && Supersedes(entry)
  }

  ghost predicate PlainHeld(model: Model, entries: seq<Entry>) {
    forall entry <- entries :: IsPlain(entry) ==> entry.entryId in model.entries
  }

  ghost predicate Faithful(model: Model, entries: seq<Entry>) {
    EntriesCame(model, entries) && DroppedSupersede(model, entries) && PlainHeld(model, entries)
  }

  lemma {:induction false} StillFaithful(model: Model, entries: seq<Entry>, next: Entry, end: Model)
    requires Faithful(model, entries)
    requires end.entries == model.entries && end.dropped == model.dropped
    requires IsPlain(next) ==> next.entryId in model.entries
    ensures Faithful(end, entries + [next])
  {
    forall id | id in end.dropped ensures exists entry <- entries + [next] :: entry.entryId == id && Supersedes(entry) {
      var entry :| entry in entries && entry.entryId == id && Supersedes(entry);
      assert entry in entries + [next];
    }
  }

  lemma {:induction false} KnownFaithful(model: Model, entries: seq<Entry>, next: Entry)
    requires Faithful(model, entries) && OneEntryEachId(entries + [next]) && Known(model, next)
    ensures Faithful(model, entries + [next])
  {
    if next.entryId !in model.entries {
      var entry :| entry in entries && entry.entryId == next.entryId && Supersedes(entry);
      assert entry in entries + [next] && next in entries + [next];
      OneEntry(entries + [next], entry, next);
    }
    StillFaithful(model, entries, next, model);
  }

  lemma {:induction false} ShellFaithful(model: Model, entries: seq<Entry>, next: Entry)
    requires Placed(model) && Faithful(model, entries) && !Known(model, next) && IsShellEntry(next)
    ensures Faithful(ApplyEntry(model, next), entries + [next])
  {
    StillFaithful(model, entries, next, ApplyEntry(model, next));
  }

  lemma {:induction false} AddedEntries(model: Model, next: Entry)
    requires Placed(model) && !Known(model, next) && !IsShellEntry(next)
    ensures var end := ApplyEntry(model, next);
            && next.entryId in end.entries && end.entries[next.entryId] == next
            && (forall id :: id in end.entries && id != next.entryId ==> id in model.entries && end.entries[id] == model.entries[id])
            && (forall id :: id in model.entries && IsPlain(model.entries[id]) ==> id in end.entries)
            && (forall id :: id in end.dropped ==>
                  id in model.dropped || (id in model.entries && Supersedes(model.entries[id])))
  {
    var held := model.entries[next.entryId := next];
    forall id, prompt | id in held && Replaced(held[id], prompt) ensures Supersedes(held[id]) {
    }
  }

  lemma {:induction false} AddedFaithful(model: Model, entries: seq<Entry>, next: Entry)
    requires Placed(model) && Faithful(model, entries) && OneEntryEachId(entries + [next])
    requires !Known(model, next) && !IsShellEntry(next)
    ensures Faithful(ApplyEntry(model, next), entries + [next])
  {
    AddedEntries(model, next);
    var end, more := ApplyEntry(model, next), entries + [next];
    forall id | id in end.dropped ensures exists entry <- more :: entry.entryId == id && Supersedes(entry) {
      if id in model.dropped {
        var entry :| entry in entries && entry.entryId == id && Supersedes(entry);
        assert entry in more;
      } else {
        assert model.entries[id] in more;
      }
    }
    forall entry | entry in more && IsPlain(entry) ensures entry.entryId in end.entries {
      if entry.entryId != next.entryId {
        assert entry in entries;
        var held := model.entries[entry.entryId];
        assert held in more;
        OneEntry(more, held, entry);
      }
    }
  }

  lemma {:induction false} NextFaithful(model: Model, entries: seq<Entry>, next: Entry)
    requires Placed(model) && Faithful(model, entries) && OneEntryEachId(entries + [next])
    ensures Faithful(ApplyEntry(model, next), entries + [next])
  {
    if Known(model, next) {
      KnownFaithful(model, entries, next);
    } else if IsShellEntry(next) {
      ShellFaithful(model, entries, next);
    } else {
      AddedFaithful(model, entries, next);
    }
  }

  lemma {:induction false} PrefixHasOneEntry(entries: seq<Entry>, k: nat)
    requires OneEntryEachId(entries) && k <= |entries|
    ensures OneEntryEachId(entries[..k])
  {
  }

  lemma {:induction false} RunIsFaithful(entries: seq<Entry>, k: nat)
    requires OneEntryEachId(entries) && k <= |entries|
    ensures FeedInvariant(START) && Faithful(Run(START, entries[..k]), entries[..k])
  {
    if k > 0 {
      var i := k - 1;
      RunIsFaithful(entries, i);
      RunNext(START, entries, i);
      TakeNext(entries, i);
      PrefixHasOneEntry(entries, k);
      NextFaithful(Run(START, entries[..i]), entries[..i], entries[i]);
    }
  }

  // ----- The order of the plain entries -----

  predicate IsPlainKey(key: FeedKey, entries: map<string, Entry>) {
    key.EntryKey? && key.id in entries && IsPlain(entries[key.id])
  }

  /** The plain keys of an order. */
  function PlainOrder(order: seq<FeedKey>, entries: map<string, Entry>): (plain: seq<FeedKey>)
    ensures forall key :: key in plain <==> key in order && IsPlainKey(key, entries)
  {
    if order == [] then []
    else (if IsPlainKey(order[0], entries) then [order[0]] else []) + PlainOrder(order[1..], entries)
  }

  function PlainFeed(model: Model): seq<FeedKey> {
    PlainOrder(model.order, model.entries)
  }

  lemma {:induction false} PlainKeepsOrder(order: seq<FeedKey>, entries: map<string, Entry>, places: map<FeedKey, Place>)
    requires forall key <- order :: key in places
    requires NoDuplicates(order) && Sorted(order, places)
    ensures NoDuplicates(PlainOrder(order, entries)) && Sorted(PlainOrder(order, entries), places)
  {
    if order != [] {
      PlainKeepsOrder(order[1..], entries, places);
      var rest := PlainOrder(order[1..], entries);
      forall key <- rest
        ensures order[0] != key && NotAfter(places[order[0]], places[key])
      {
        var k :| 0 <= k < |order| - 1 && order[1..][k] == key;
        assert order[k + 1] == key;
      }
    }
  }

  ghost predicate DistinctPlainPlaces(entries: seq<Entry>) {
    forall a, b :: a in entries && b in entries && IsPlain(a) && IsPlain(b) && PlaceOf(a) == PlaceOf(b) ==> a == b
  }

  /** After a run the plain keys are those of its plain entries, each held as it came, at its place. */
  ghost predicate PlainKeysOf(model: Model, entries: seq<Entry>) {
    && (forall entry <- entries :: IsPlain(entry) ==> EntryKey(entry.entryId) in PlainFeed(model))
    && (forall key <- PlainFeed(model) ::
          && key.id in model.entries && model.entries[key.id] in entries && model.entries[key.id].entryId == key.id
          && key in model.places && model.places[key] == PlaceOf(model.entries[key.id]))
  }

  lemma {:induction false} HeldAsItCame(model: Model, entries: seq<Entry>, entry: Entry)
    requires EntriesCame(model, entries) && PlainHeld(model, entries) && OneEntryEachId(entries)
    requires entry in entries && IsPlain(entry)
    ensures entry.entryId in model.entries && model.entries[entry.entryId] == entry
  {
    OneEntry(entries, model.entries[entry.entryId], entry);
  }

  lemma {:induction false} PlainKeysAfter(model: Model, entries: seq<Entry>)
    requires FeedInvariant(model) && Faithful(model, entries) && OneEntryEachId(entries)
    ensures PlainKeysOf(model, entries)
    ensures NoDuplicates(PlainFeed(model)) && Sorted(PlainFeed(model), model.places)
  {
    PlainKeepsOrder(model.order, model.entries, model.places);
    forall entry | entry in entries && IsPlain(entry) ensures EntryKey(entry.entryId) in PlainFeed(model) {
      HeldAsItCame(model, entries, entry);
      assert EntryPlaced(model, entry.entryId);
    }
    forall key | key in PlainFeed(model)
      ensures key in model.places && model.places[key] == PlaceOf(model.entries[key.id])
    {
      assert EntryPlaced(model, key.id);
    }
  }

  lemma {:induction false} SameEntry(x: Model, y: Model, a: seq<Entry>, b: seq<Entry>, key: FeedKey)
    requires PlainKeysOf(x, a) && PlainKeysOf(y, b) && OneEntryEachId(a) && (forall entry :: entry in a <==> entry in b)
    requires key in PlainFeed(x)
    ensures key in PlainFeed(y) && y.entries[key.id] == x.entries[key.id] && y.places[key] == x.places[key]
  {
    assert x.entries[key.id] in b;
    assert EntryKey(x.entries[key.id].entryId) in PlainFeed(y);
    OneEntry(a, x.entries[key.id], y.entries[key.id]);
  }

  lemma {:induction false} SamePlainFeed(x: Model, y: Model, a: seq<Entry>, b: seq<Entry>)
    requires PlainKeysOf(x, a) && PlainKeysOf(y, b)
    requires NoDuplicates(PlainFeed(x)) && Sorted(PlainFeed(x), x.places)
    requires NoDuplicates(PlainFeed(y)) && Sorted(PlainFeed(y), y.places)
    requires OneEntryEachId(a) && OneEntryEachId(b) && (forall entry :: entry in a <==> entry in b)
    requires DistinctPlainPlaces(a)
    ensures PlainFeed(x) == PlainFeed(y)
  {
    forall key ensures key in PlainFeed(x) <==> key in PlainFeed(y)
               ensures key in PlainFeed(x) ==> y.places[key] == x.places[key] {
      if key in PlainFeed(x) {
        SameEntry(x, y, a, b, key);
      }
      if key in PlainFeed(y) {
        SameEntry(y, x, b, a, key);
      }
    }
    SortedIsUnique(PlainFeed(x), PlainFeed(y), x.places);
  }

  lemma {:induction false} SameIdsInBoth(a: seq<Entry>, b: seq<Entry>)
    requires OneEntryEachId(a) && forall entry :: entry in a <==> entry in b
    ensures OneEntryEachId(b)
  {
    forall i, j | 0 <= i < |b| && 0 <= j < |b| && b[i].entryId == b[j].entryId
      ensures b[i] == b[j]
    {
      assert b[i] in a && b[j] in a;
    }
  }

  /** However the entries of a session arrive and repeat, its plain entries are all held and never dropped, and when
      they have distinct places they stand in the same order; shell parts and replacing prompts may be among them. */
  lemma {:induction false} ArrivalOrderDoesNotMatter(a: seq<Entry>, b: seq<Entry>)
    requires OneEntryEachId(a) && DistinctPlainPlaces(a)
    requires forall entry :: entry in a <==> entry in b
    ensures FeedInvariant(START) && PlainFeed(Run(START, a)) == PlainFeed(Run(START, b))
    ensures forall entry <- a :: IsPlain(entry) ==>
              EntryKey(entry.entryId) in PlainFeed(Run(START, a)) && entry.entryId !in Run(START, a).dropped
  {
    SameIdsInBoth(a, b);
    RunIsFaithful(a, |a|);
    RunIsFaithful(b, |b|);
    assert a[..|a|] == a && b[..|b|] == b;
    var x, y := Run(START, a), Run(START, b);
    PlainKeysAfter(x, a);
    PlainKeysAfter(y, b);
    SamePlainFeed(x, y, a, b);
    forall entry | entry in a && IsPlain(entry) ensures entry.entryId !in x.dropped {
      assert EntryPlaced(x, entry.entryId);
    }
  }
}
