/** By what the feed is ordered, and what one entry does to it, in the fields of the entries
    (client/_model_session_state.py). */
module FeedOrder {
  import opened Wrappers
  import opened ShellFolds
  import opened Session
  import opened SessionLaws
  import opened ShellOutput

  // ----- The order of the items -----

  /** The fact of the first entry comes before that of the second, or it is the same and so is the order of the rows. */
  predicate InCursorOrder(a: Entry, b: Entry) {
    a.commitCursor < b.commitCursor || (a.commitCursor == b.commitCursor && a.cursor <= b.cursor)
  }

  /** The entry that opened the shell that the model holds after the step. */
  function OpenedNext(model: Model, step: Step, shellId: string, opener: Option<Entry>): Option<Entry> {
    if shellId in model.shells || step.Forget? then opener else Some(step.entry)
  }

  ghost function OpenedBy(model: Model, steps: seq<Step>, shellId: string, opener: Option<Entry>): Option<Entry>
    requires FeedInvariant(model)
    decreases |steps|
  {
    if steps == [] then opener
    else
      StepKeeps(model, steps[0]);
      OpenedBy(StepModel(model, steps[0]), steps[1..], shellId, OpenedNext(model, steps[0], shellId, opener))
  }

  /** A held shell stands where the entry that opened it belongs. */
  predicate StandsAt(model: Model, shellId: string, opener: Option<Entry>) {
    shellId in model.shells ==>
      opener.Some? && IsStart(opener.value, shellId) && PlaceIn(model, shellId) == Some(PlaceOf(opener.value))
  }

  lemma {:induction false} ApplyingStands(model: Model, entry: Entry, shellId: string, opener: Option<Entry>)
    requires FeedInvariant(model) && StandsAt(model, shellId, opener)
    ensures StandsAt(ApplyEntry(model, entry), shellId, OpenedNext(model, Apply(entry), shellId, opener))
  {
    assert shellId in model.shells <==> Holds(model, ShellKey(shellId));
    if Known(model, entry) {
    } else if IsStart(entry, shellId) && shellId !in model.shells {
      StartIsPlaced(model, entry, shellId);
    } else {
      OtherPlacesStay(model, entry, shellId);
      NoShellOpens(model, entry, shellId);
    }
  }

  lemma {:induction false} NoShellOpens(model: Model, entry: Entry, shellId: string)
    requires Placed(model) && !(IsStart(entry, shellId) && shellId !in model.shells)
    ensures shellId in ApplyEntry(model, entry).shells <==> shellId in model.shells
  {
  }

  lemma {:induction false} ForgettingStands(model: Model, count: nat, shellId: string, opener: Option<Entry>)
    requires FeedInvariant(model) && StandsAt(model, shellId, opener)
    ensures StandsAt(KeepNewest(model, count), shellId, opener)
  {
  }

  lemma {:induction false} ShellsStandOverRuns(model: Model, steps: seq<Step>, shellId: string, opener: Option<Entry>)
    requires FeedInvariant(model) && StandsAt(model, shellId, opener)
    ensures StandsAt(RunSteps(model, steps), shellId, OpenedBy(model, steps, shellId, opener))
    decreases |steps|
  {
    if steps != [] {
      StepKeeps(model, steps[0]);
      match steps[0] {
        case Apply(entry) => ApplyingStands(model, entry, shellId, opener);
        case Forget(count) => ForgettingStands(model, count, shellId, opener);
      }
      ShellsStandOverRuns(
        StepModel(model, steps[0]), steps[1..], shellId, OpenedNext(model, steps[0], shellId, opener));
    }
  }

  /** The entry by which an item is placed: the item itself, or the start of the shell. */
  ghost function PlacingEntry(steps: seq<Step>, key: FeedKey): Option<Entry> {
    FeedInvariantOverRuns(steps);
    match key
    case EntryKey(id) =>
      var entries := RunSteps(START, steps).entries;
      if id in entries then Some(entries[id]) else None
    case ShellKey(id) => OpenedBy(START, steps, id, None)
  }

  lemma {:induction false} ItemStandsAt(steps: seq<Step>, key: FeedKey)
    requires FeedInvariant(START) && key in RunSteps(START, steps).order
    ensures PlacingEntry(steps, key).Some?
    ensures key in RunSteps(START, steps).places
    ensures RunSteps(START, steps).places[key] == PlaceOf(PlacingEntry(steps, key).value)
    ensures key.ShellKey? ==> IsStart(PlacingEntry(steps, key).value, key.id)
  {
    var end := RunSteps(START, steps);
    assert Holds(end, key);
    match key {
      case EntryKey(id) => assert EntryPlaced(end, id);
      case ShellKey(id) => ShellsStandOverRuns(START, steps, id, None);
    }
  }

  /** Over every run of pages, frames and forgetting: of two items the earlier one belongs to an earlier fact, or to the
      same fact and to no later row. A shell belongs where the entry that opened it does. */
  lemma {:induction false} FeedIsInCursorOrder(steps: seq<Step>, i: nat, j: nat)
    requires FeedInvariant(START) && i < j < |RunSteps(START, steps).order|
    ensures var order := RunSteps(START, steps).order;
            var first, second := PlacingEntry(steps, order[i]), PlacingEntry(steps, order[j]);
            && first.Some? && second.Some?
            && InCursorOrder(first.value, second.value)
            && (order[i].ShellKey? ==> IsStart(first.value, order[i].id))
            && (order[j].ShellKey? ==> IsStart(second.value, order[j].id))
  {
    var end := RunSteps(START, steps);
    ItemStandsAt(steps, end.order[i]);
    ItemStandsAt(steps, end.order[j]);
    assert NotAfter(end.places[end.order[i]], end.places[end.order[j]]);
  }

  /** Without forgetting, a shell belongs where its first start does. */
  lemma {:induction false} ShellsAreInStartOrder(entries: seq<Entry>, i: nat, j: nat, first: nat, second: nat)
    requires FeedInvariant(START) && OneEntryEachId(entries) && i < j < |Run(START, entries).order|
    requires var order := Run(START, entries).order;
             && order[i].ShellKey? && FirstStart(entries, order[i].id) == Some(first)
             && order[j].ShellKey? && FirstStart(entries, order[j].id) == Some(second)
    ensures InCursorOrder(entries[first], entries[second])
  {
    var end := Run(START, entries);
    assert entries[..|entries|] == entries;
    ShellsStandAtTheirStart(entries, |entries|, end.order[i].id);
    ShellsStandAtTheirStart(entries, |entries|, end.order[j].id);
    assert NotAfter(end.places[end.order[i]], end.places[end.order[j]]);
  }

  // ----- Where a new item goes -----

  predicate MayReplace(entry: Entry) {
    entry.kind == Message && entry.body.role == Some("user") && entry.body.replyTo.Some?
  }

  lemma {:induction false} PlainIsInserted(model: Model, entry: Entry)
    requires Placed(model) && !Known(model, entry) && !IsShellEntry(entry) && !MayReplace(entry)
    ensures ApplyEntry(model, entry).order
            == Insort(model.order, model.places, EntryKey(entry.entryId), PlaceOf(entry))
  {
    var moved := model.(entryCursor := Max(model.entryCursor, entry.cursor));
    var added := PlaceItem(moved.(entries := moved.entries[entry.entryId := entry]), EntryKey(entry.entryId), entry);
    assert SupersededBy(added, entry) == {};
    DropNothing(added);
  }

  /** The place is not behind the entry, by fact and row. */
  predicate NotBehind(place: Place, entry: Entry) {
    place.commit < entry.commitCursor || (place.commit == entry.commitCursor && place.row <= entry.cursor)
  }

  lemma {:induction false} InsertionPoint(model: Model, entry: Entry, i: nat)
    requires FeedInvariant(model) && i == PlaceIndex(model.order, model.places, PlaceOf(entry))
    ensures i <= |model.order|
    ensures forall k :: 0 <= k < |model.order| ==> (NotBehind(model.places[model.order[k]], entry) <==> k < i)
  {
    forall k | 0 <= k < |model.order|
      ensures NotBehind(model.places[model.order[k]], entry) <==> k < i
    {
      if i <= k {
        LaterStaysLater(model, entry, i, k);
      }
    }
  }

  lemma {:induction false} LaterStaysLater(model: Model, entry: Entry, i: nat, k: nat)
    requires FeedInvariant(model) && i == PlaceIndex(model.order, model.places, PlaceOf(entry)) <= k < |model.order|
    ensures !NotAfter(model.places[model.order[k]], PlaceOf(entry))
  {
    NotAfterTotal(model.places[model.order[i]], model.places[model.order[k]], PlaceOf(entry));
  }

  /** A new item goes behind all items that are not later and before all later ones: of equal places, the later arrival
      stands behind. */
  lemma {:induction false} NewItemGoesBehindEquals(model: Model, entry: Entry) returns (i: nat)
    requires FeedInvariant(model) && !Known(model, entry) && !IsShellEntry(entry) && !MayReplace(entry)
    ensures i <= |model.order|
    ensures ApplyEntry(model, entry).order == model.order[..i] + [EntryKey(entry.entryId)] + model.order[i..]
    ensures forall k :: 0 <= k < |model.order| ==> (NotBehind(model.places[model.order[k]], entry) <==> k < i)
  {
    i := PlaceIndex(model.order, model.places, PlaceOf(entry));
    PlainIsInserted(model, entry);
    InsertionPoint(model, entry, i);
  }

  // ----- Replaced prompts -----

  /** The entry is a user prompt in the place of `prompt`. */
  predicate PromptFor(entry: Entry, prompt: string) {
    entry.kind == Message && entry.body.role == Some("user") && entry.body.replyTo == Some(prompt) && prompt != ""
  }

  /** A new entry is held, and it takes away exactly the other user prompts in the place of the same prompt; these are
      remembered as dropped. All other entries, and all shells, stay. */
  lemma {:induction false} NewPromptTakesThePlace(model: Model, entry: Entry, other: string)
    requires FeedInvariant(model) && !Known(model, entry) && !IsShellEntry(entry) && other != entry.entryId
    ensures var next := ApplyEntry(model, entry);
            var replaced := exists prompt :: other in model.entries && PromptFor(model.entries[other], prompt) && PromptFor(entry, prompt);
            && entry.entryId in next.entries && next.entries[entry.entryId] == entry && entry.entryId !in next.dropped
            && (other in next.entries <==> other in model.entries && !replaced)
            && (other in next.entries ==> next.entries[other] == model.entries[other])
            && (other in next.dropped <==> other in model.dropped || replaced)
            && next.shells == model.shells
  {
    if other in model.entries {
      assert EntryPlaced(model, other);
      forall prompt | PromptFor(model.entries[other], prompt) && PromptFor(entry, prompt)
        ensures Replaced(model.entries[other], entry.body.replyTo.value)
      {
      }
      if Supersedes(entry) && Replaced(model.entries[other], entry.body.replyTo.value) {
        assert PromptFor(model.entries[other], entry.body.replyTo.value) && PromptFor(entry, entry.body.replyTo.value);
      }
    }
  }

  // ----- The highest row -----

  lemma {:induction false} CursorNext(cursor: int, before: seq<Entry>, next: Entry)
    requires CursorIsHighest(cursor, before)
    ensures CursorIsHighest(Max(cursor, next.cursor), before + [next])
    ensures next in before ==> CursorIsHighest(cursor, before + [next])
  {
    var all := before + [next];
    assert all[|before|] == next;
    assert forall entry <- before :: entry in all;
  }

  lemma {:induction false} AppliedCursor(model: Model, next: Entry)
    requires Placed(model)
    ensures ApplyEntry(model, next).entryCursor
            == if Known(model, next) then model.entryCursor else Max(model.entryCursor, next.cursor)
  {
  }

  lemma {:induction false} RowNext(model: Model, before: seq<Entry>, next: Entry)
    requires Placed(model) && CursorIsHighest(model.entryCursor, before) && (Known(model, next) ==> next in before)
    ensures CursorIsHighest(ApplyEntry(model, next).entryCursor, before + [next])
  {
    AppliedCursor(model, next);
    CursorNext(model.entryCursor, before, next);
  }

  /** After every run the row that the stream continues from is the highest one of all entries. */
  lemma {:induction false} RowIsTheHighest(entries: seq<Entry>, k: nat)
    requires OneEntryEachId(entries) && k <= |entries|
    ensures FeedInvariant(START) && CursorIsHighest(Run(START, entries[..k]).entryCursor, entries[..k])
  {
    if k > 0 {
      var i := k - 1;
      var before, next := entries[..i], entries[i];
      RowIsTheHighest(entries, i);
      HistoryOfRun(entries, i);
      RunNext(START, entries, i);
      TakeNext(entries, i);
      var model := Run(START, before);
      if Known(model, next) {
        KnownIsBefore(entries, i, model);
      }
      RowNext(model, before, next);
    }
  }

  lemma {:induction false} KnownIsBefore(entries: seq<Entry>, k: nat, model: Model)
    requires OneEntryEachId(entries) && k < |entries| && Known(model, entries[k]) && Recorded(model, entries[..k])
    ensures entries[k] in entries[..k]
  {
    assert PlainAt(entries[..k], entries[k].entryId);
    var i :| 0 <= i < k && entries[..k][i].entryId == entries[k].entryId;
    assert entries[i] == entries[k] && entries[..k][i] == entries[i];
  }

  // ----- Parts of shells and other entries -----

  predicate IsShellPart(entry: Entry) {
    || entry.kind == ShellStarted || entry.kind == ShellOutput
    || entry.kind == ShellBackgrounded || entry.kind == ShellFinished
  }

  /** Nothing but the shells and the row of the model has changed. */
  predicate OnlyShells(model: Model, next: Model) {
    && next.entries == model.entries && next.dropped == model.dropped
    && next.order == model.order && next.places == model.places
  }

  lemma {:induction false} OpenShellIsPlaced(model: Model, entry: Entry)
    requires Placed(model) && !Known(model, entry) && entry.kind == ShellStarted && entry.body.shellId !in model.shells
    ensures var next, shellId := ApplyEntry(model, entry), entry.body.shellId;
            && next.shells == model.shells[shellId := StartFold(entry)]
            && next.entries == model.entries && next.dropped == model.dropped
            && multiset(next.order) == multiset(model.order) + multiset{ShellKey(shellId)}
  {
    var i := PlaceIndex(model.order, model.places, PlaceOf(entry));
    assert model.order == model.order[..i] + model.order[i..];
  }

  lemma {:induction false} HeldShellIsFolded(model: Model, entry: Entry)
    requires Placed(model) && !Known(model, entry) && IsShellPart(entry)
    requires entry.kind == ShellStarted ==> entry.body.shellId in model.shells
    ensures var next, shellId := ApplyEntry(model, entry), entry.body.shellId;
            && OnlyShells(model, next)
            && next.shells == if shellId in model.shells
                              then model.shells[shellId := FoldEntry(model.shells[shellId], entry)] else model.shells
  {
  }

  lemma {:induction false} PlainIsHeld(model: Model, entry: Entry)
    requires Placed(model) && !Known(model, entry) && !IsShellPart(entry)
    ensures var next := ApplyEntry(model, entry);
            next.shells == model.shells && entry.entryId in next.entries && next.entries[entry.entryId] == entry
  {
  }

  /** A new start, chunk, background notice or end of a shell is folded into its shell; a start opens a shell that is not
      held, and any other part of such a shell is ignored. Every other new entry is held itself. */
  lemma {:induction false} PartsAreFolded(model: Model, entry: Entry)
    requires Placed(model) && !Known(model, entry)
    ensures var next, shellId := ApplyEntry(model, entry), entry.body.shellId;
            if !IsShellPart(entry) then
              next.shells == model.shells && entry.entryId in next.entries && next.entries[entry.entryId] == entry
            else if shellId in model.shells then
              OnlyShells(model, next) && next.shells == model.shells[shellId := FoldEntry(model.shells[shellId], entry)]
            else if entry.kind == ShellStarted then
              && next.shells == model.shells[shellId := StartFold(entry)]
              && next.entries == model.entries && next.dropped == model.dropped
              && multiset(next.order) == multiset(model.order) + multiset{ShellKey(shellId)}
            else OnlyShells(model, next) && next.shells == model.shells
  {
    if !IsShellPart(entry) {
      PlainIsHeld(model, entry);
    } else if entry.kind == ShellStarted && entry.body.shellId !in model.shells {
      OpenShellIsPlaced(model, entry);
    } else {
      HeldShellIsFolded(model, entry);
    }
  }

  // ----- What a part of a shell does -----

  function TextIn(content: Option<string>): string {
    match content case None => "" case Some(text) => text
  }

  /** A new part of a shell: a chunk goes to its stream, behind it or in its place; the end brings the state, the exit
      code, the time and, when it has one, the whole output. */
  lemma {:induction false} PartChangesTheShell(fold: Fold, entry: Entry)
    requires entry.entryId !in fold.entryIds
    ensures var next, body := FoldEntry(fold, entry), entry.body;
            var text := TextIn(body.content);
            && next.entryIds == fold.entryIds + {entry.entryId}
            && next.shellId == fold.shellId && next.command == fold.command
            && next.execution == fold.execution && next.startedAt == fold.startedAt
            && (next.backgrounded <==> fold.backgrounded || entry.kind == ShellBackgrounded)
            && next.status == (if entry.kind != ShellOutput || body.stream != Some("status") then fold.status
                               else if body.mode == Some("replace") then text else fold.status + text)
            && (entry.kind == ShellOutput ==>
                  next.output == if body.stream == Some("status") then fold.output
                                 else if body.mode == Some("replace") then text else fold.output + text)
            && (entry.kind == ShellFinished ==>
                  && next.output == (if TextIn(body.result) == "" then fold.output else TextIn(body.result))
                  && next.state == body.state && next.exitCode == body.exitCode && next.finishedAt == Some(entry.occurredAt))
            && (entry.kind != ShellOutput && entry.kind != ShellFinished ==> next.output == fold.output)
            && (entry.kind != ShellFinished ==>
                  next.state == fold.state && next.exitCode == fold.exitCode && next.finishedAt == fold.finishedAt)
  {
  }

  /** A shell starts with its command and nothing shown; it runs in the foreground unless its start says otherwise. */
  lemma {:induction false} StartShowsNothing(entry: Entry)
    ensures var fold, body := StartFold(entry), entry.body;
            && fold.shellId == body.shellId && fold.command == TextIn(body.command) && fold.startedAt == entry.occurredAt
            && fold.execution == (if TextIn(body.execution) == "" then "foreground" else body.execution.value)
            && fold.output == "" && fold.status == "" && !fold.backgrounded
            && fold.state.None? && fold.exitCode.None? && fold.finishedAt.None?
            && fold.entryIds == {entry.entryId}
  {
  }
}
