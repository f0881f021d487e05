/** What a shell of the session shows, after any run with repeated entries (client/_model_shell.py,
    client/_model_session_state.py). */
module ShellOutput {
  import opened Wrappers
  import opened ShellFolds
  import opened Session
  import opened SessionLaws

  // ----- Repeated parts -----

  /** The first occurrences of the parts whose ids are not held yet. */
  function FirstOccurrences(held: set<string>, parts: seq<Entry>): seq<Entry>
    decreases |parts|
  {
    if parts == [] then []
    else if parts[0].entryId in held then FirstOccurrences(held, parts[1..])
    else [parts[0]] + FirstOccurrences(held + {parts[0].entryId}, parts[1..])
  }

  lemma {:induction false} OccurrencesAreNew(held: set<string>, parts: seq<Entry>)
    ensures forall part <- FirstOccurrences(held, parts) :: part.entryId !in held && part in parts
    decreases |parts|
  {
    if parts != [] {
      var next := if parts[0].entryId in held then held else held + {parts[0].entryId};
      OccurrencesAreNew(next, parts[1..]);
      assert forall part <- parts[1..] :: part in parts;
    }
  }

  ghost predicate AllDiffer(parts: seq<Entry>) {
    forall i, j :: 0 <= i < j < |parts| ==> parts[i].entryId != parts[j].entryId
  }

  lemma {:induction false} OneMoreDiffers(first: Entry, later: seq<Entry>)
    requires AllDiffer(later) && forall part <- later :: part.entryId != first.entryId
    ensures AllDiffer([first] + later)
  {
    var kept := [first] + later;
    assert forall j :: 0 < j < |kept| ==> kept[j] == later[j - 1] && later[j - 1] in later;
  }

  lemma {:induction false} OccurrencesDiffer(held: set<string>, parts: seq<Entry>)
    ensures AllDiffer(FirstOccurrences(held, parts))
    decreases |parts|
  {
    if parts != [] {
      var first, rest := parts[0], parts[1..];
      if first.entryId in held {
        OccurrencesDiffer(held, rest);
      } else {
        OccurrencesDiffer(held + {first.entryId}, rest);
        OccurrencesAreNew(held + {first.entryId}, rest);
        OneMoreDiffers(first, FirstOccurrences(held + {first.entryId}, rest));
      }
    }
  }

  /** A part that is not held occurs among the kept ones, under its id. */
  lemma {:induction false} EachOccurs(held: set<string>, parts: seq<Entry>, part: Entry)
    requires part in parts && part.entryId !in held
    ensures exists kept <- FirstOccurrences(held, parts) :: kept.entryId == part.entryId
    decreases |parts|
  {
    var first := parts[0];
    if first.entryId in held {
      EachOccurs(held, parts[1..], part);
    } else if first.entryId == part.entryId {
      assert first in FirstOccurrences(held, parts);
    } else {
      EachOccurs(held + {first.entryId}, parts[1..], part);
      var kept :| kept in FirstOccurrences(held + {first.entryId}, parts[1..]) && kept.entryId == part.entryId;
      assert kept in FirstOccurrences(held, parts);
    }
  }

  /** The kept parts are parts, new to `held` and to each other, and none is missing. */
  lemma {:induction false} OccurrencesAreExact(held: set<string>, parts: seq<Entry>)
    ensures var kept := FirstOccurrences(held, parts);
            && (forall part <- kept :: part.entryId !in held && part in parts)
            && AllDiffer(kept)
            && (forall part <- parts :: part.entryId in held || exists other <- kept :: other.entryId == part.entryId)
  {
    OccurrencesAreNew(held, parts);
    OccurrencesDiffer(held, parts);
    forall part | part in parts && part.entryId !in held
      ensures exists other <- FirstOccurrences(held, parts) :: other.entryId == part.entryId
    {
      EachOccurs(held, parts, part);
    }
  }

  /** A fold takes each entry once: repeats change nothing. */
  lemma {:induction false} RepeatsChangeNothing(fold: Fold, parts: seq<Entry>)
    ensures FoldAll(fold, parts) == FoldAll(fold, FirstOccurrences(fold.entryIds, parts))
    decreases |parts|
  {
    if parts != [] {
      var first := parts[0];
      RepeatsChangeNothing(FoldEntry(fold, first), parts[1..]);
      FoldKeepsIds(fold, first);
      if first.entryId !in fold.entryIds {
        FoldAllFirst(fold, first, FirstOccurrences(fold.entryIds + {first.entryId}, parts[1..]));
      }
    }
  }

  lemma {:induction false} FoldAllFirst(fold: Fold, first: Entry, rest: seq<Entry>)
    ensures FoldAll(fold, [first] + rest) == FoldAll(FoldEntry(fold, first), rest)
  {
    assert ([first] + rest)[1..] == rest;
  }

  // ----- A shell in the model -----

  predicate IsPart(entry: Entry, shellId: string) {
    IsShellEntry(entry) && entry.body.shellId == shellId
  }

  predicate IsStart(entry: Entry, shellId: string) {
    entry.kind == ShellStarted && entry.body.shellId == shellId
  }

  function PartsOf(entries: seq<Entry>, shellId: string): seq<Entry> {
    if entries == [] then []
    else
      var last := entries[|entries| - 1];
      PartsOf(entries[..|entries| - 1], shellId) + if IsPart(last, shellId) then [last] else []
  }

  function FirstStart(entries: seq<Entry>, shellId: string): (start: Option<nat>)
    ensures start.Some? ==> start.value < |entries|
  {
    if entries == [] then None
    else if IsStart(entries[0], shellId) then Some(0)
    else
      var later := FirstStart(entries[1..], shellId);
      if later.None? then None else Some(later.value + 1)
  }

  lemma {:induction false} FirstStartIsFirst(entries: seq<Entry>, shellId: string)
    ensures var start := FirstStart(entries, shellId);
            && (start.None? ==> forall entry <- entries :: !IsStart(entry, shellId))
            && (start.Some? ==>
                  && IsStart(entries[start.value], shellId)
                  && forall i :: 0 <= i < start.value ==> !IsStart(entries[i], shellId))
  {
    if entries != [] && !IsStart(entries[0], shellId) {
      FirstStartIsFirst(entries[1..], shellId);
    }
  }

  lemma {:induction false} FirstStartNext(before: seq<Entry>, next: Entry, shellId: string)
    ensures FirstStart(before + [next], shellId)
            == if FirstStart(before, shellId).Some? then FirstStart(before, shellId)
               else if IsStart(next, shellId) then Some(|before|) else None
  {
    if before == [] {
      assert before + [next] == [next] && [next][1..] == [];
    } else {
      assert (before + [next])[1..] == before[1..] + [next];
      FirstStartNext(before[1..], next, shellId);
    }
  }

  /** What the entries say about a shell: the fold of its first start and of every part after it. */
  function FoldOf(entries: seq<Entry>, shellId: string): Option<Fold> {
    var start := FirstStart(entries, shellId);
    if start.None? then None
    else Some(FoldAll(StartFold(entries[start.value]), PartsOf(entries[start.value + 1..], shellId)))
  }

  lemma {:induction false} PartsNext(before: seq<Entry>, next: Entry, shellId: string)
    ensures PartsOf(before + [next], shellId)
            == if IsPart(next, shellId) then PartsOf(before, shellId) + [next] else PartsOf(before, shellId)
  {
    assert (before + [next])[..|before|] == before;
  }

  lemma {:induction false} FoldOfNext(before: seq<Entry>, next: Entry, shellId: string)
    ensures FoldOf(before + [next], shellId)
            == if FoldOf(before, shellId).Some? then
                 Some(if IsPart(next, shellId) then FoldEntry(FoldOf(before, shellId).value, next)
                      else FoldOf(before, shellId).value)
               else if IsStart(next, shellId) then Some(StartFold(next)) else None
  {
    FirstStartNext(before, next, shellId);
    var start := FirstStart(before, shellId);
    if start.Some? {
      var after := before[start.value + 1..];
      assert (before + [next])[start.value + 1..] == after + [next];
      PartsNext(after, next, shellId);
      FoldAllAppend(StartFold(before[start.value]), PartsOf(after, shellId), next);
    } else if IsStart(next, shellId) {
      assert (before + [next])[|before| + 1..] == [];
    }
  }

  function ShellIn(model: Model, shellId: string): Option<Fold> {
    if shellId in model.shells then Some(model.shells[shellId]) else None
  }

  lemma {:induction false} OtherShellsStay(model: Model, next: Entry, shellId: string)
    requires Placed(model) && !IsPart(next, shellId)
    ensures ShellIn(ApplyEntry(model, next), shellId) == ShellIn(model, shellId)
  {
  }

  lemma {:induction false} PartIsFolded(model: Model, next: Entry, shellId: string)
    requires Placed(model) && IsPart(next, shellId) && !Known(model, next)
    ensures ShellIn(ApplyEntry(model, next), shellId)
            == if ShellIn(model, shellId).Some? then Some(FoldEntry(ShellIn(model, shellId).value, next))
               else if IsStart(next, shellId) then Some(StartFold(next)) else None
  {
  }

  /** After every run the model has exactly the started shells, each as its first start and the parts after it. */
  lemma {:induction false} ShellsAreTheirParts(entries: seq<Entry>, k: nat, shellId: string)
    requires OneEntryEachId(entries) && k <= |entries|
    ensures FeedInvariant(START) && ShellIn(Run(START, entries[..k]), shellId) == FoldOf(entries[..k], shellId)
  {
    if k > 0 {
      var i := k - 1;
      var before, next := entries[..i], entries[i];
      ShellsAreTheirParts(entries, i, shellId);
      HistoryOfRun(entries, i);
      RunNext(START, entries, i);
      TakeNext(entries, i);
      FoldOfNext(before, next, shellId);
      var model := Run(START, before);
      if IsPart(next, shellId) {
        PrefixOneEntry(entries, k);
        ShellEntryIsNew(model, before, next);
        PartIsFolded(model, next, shellId);
      } else {
        OtherShellsStay(model, next, shellId);
      }
    }
  }

  lemma {:induction false} PrefixOneEntry(entries: seq<Entry>, k: nat)
    requires OneEntryEachId(entries) && k <= |entries|
    ensures OneEntryEachId(entries[..k])
  {
  }

  // ----- Where a shell stands -----

  function PlaceIn(model: Model, shellId: string): Option<Place> {
    if ShellKey(shellId) in model.places then Some(model.places[ShellKey(shellId)]) else None
  }

  /** The place of the entry that started the shell first. */
  function StartPlace(entries: seq<Entry>, shellId: string): Option<Place> {
    var start := FirstStart(entries, shellId);
    if start.None? then None else Some(PlaceOf(entries[start.value]))
  }

  lemma {:induction false} DroppingKeepsShells(model: Model, ids: set<string>, shellId: string)
    ensures PlaceIn(DropEntries(model, ids), shellId) == PlaceIn(model, shellId)
  {
  }

  lemma {:induction false} OtherPlacesStay(model: Model, next: Entry, shellId: string)
    requires Placed(model) && (IsStart(next, shellId) ==> shellId in model.shells)
    ensures PlaceIn(ApplyEntry(model, next), shellId) == PlaceIn(model, shellId)
  {
    if !Known(model, next) && !IsShellEntry(next) {
      var moved := model.(entryCursor := Max(model.entryCursor, next.cursor));
      var added := PlaceItem(moved.(entries := moved.entries[next.entryId := next]), EntryKey(next.entryId), next);
      DroppingKeepsShells(added, SupersededBy(added, next), shellId);
    }
  }

  lemma {:induction false} StartIsPlaced(model: Model, next: Entry, shellId: string)
    requires Placed(model) && IsStart(next, shellId) && shellId !in model.shells && !Known(model, next)
    ensures PlaceIn(ApplyEntry(model, next), shellId) == Some(PlaceOf(next))
  {
  }

  lemma {:induction false} StartPlaceNext(before: seq<Entry>, next: Entry, shellId: string)
    ensures StartPlace(before + [next], shellId)
            == if StartPlace(before, shellId).Some? then StartPlace(before, shellId)
               else if IsStart(next, shellId) then Some(PlaceOf(next)) else None
  {
    FirstStartNext(before, next, shellId);
  }

  lemma {:induction false} StartPlaceStep(model: Model, before: seq<Entry>, next: Entry, shellId: string)
    requires Placed(model) && PlacesHeld(model) && PlaceIn(model, shellId) == StartPlace(before, shellId)
    requires IsShellEntry(next) ==> !Known(model, next)
    ensures PlaceIn(ApplyEntry(model, next), shellId) == StartPlace(before + [next], shellId)
  {
    StartPlaceNext(before, next, shellId);
    assert shellId in model.shells <==> Holds(model, ShellKey(shellId));
    if IsStart(next, shellId) && shellId !in model.shells {
      StartIsPlaced(model, next, shellId);
    } else {
      OtherPlacesStay(model, next, shellId);
    }
  }

  /** After every run a shell stands where its first start was, whatever parts and repeated starts came later, and a
      shell without a start has no place. */
  lemma {:induction false} ShellsStandAtTheirStart(entries: seq<Entry>, k: nat, shellId: string)
    requires OneEntryEachId(entries) && k <= |entries|
    ensures FeedInvariant(START) && PlaceIn(Run(START, entries[..k]), shellId) == StartPlace(entries[..k], shellId)
  {
    if k > 0 {
      var i := k - 1;
      var before, next := entries[..i], entries[i];
      ShellsStandAtTheirStart(entries, i, shellId);
      HistoryOfRun(entries, i);
      RunNext(START, entries, i);
      TakeNext(entries, i);
      var model := Run(START, before);
      if IsShellEntry(next) {
        PrefixOneEntry(entries, k);
        ShellEntryIsNew(model, before, next);
      }
      StartPlaceStep(model, before, next, shellId);
    }
  }

  // ----- What it shows -----

  /** The last part that replaces the text. */
  function LastReplacing(parts: seq<Entry>, change: Entry -> Change): (last: Option<nat>)
    ensures last.None? ==> forall i :: 0 <= i < |parts| ==> change(parts[i]).Appends?
    ensures last.Some? ==>
      && last.value < |parts| && change(parts[last.value]).Replaces?
      && forall i :: last.value < i < |parts| ==> change(parts[i]).Appends?
  {
    if parts == [] then None
    else if change(parts[|parts| - 1]).Replaces? then Some(|parts| - 1)
    else LastReplacing(parts[..|parts| - 1], change)
  }

  /** The last replacing text and the text appended after it, or all appended text. */
  function Shown(parts: seq<Entry>, change: Entry -> Change): string {
    var last := LastReplacing(parts, change);
    if last.None? then AppendedText(parts, change)
    else change(parts[last.value]).text + AppendedText(parts[last.value + 1..], change)
  }

  lemma {:induction false} OutputShown(fold: Fold, parts: seq<Entry>)
    requires NewParts(fold, parts) && fold.output == ""
    ensures FoldAll(fold, parts).output == Shown(parts, OutputChange)
  {
    var last := LastReplacing(parts, OutputChange);
    if last.None? {
      AppendsOnly(fold, parts);
    } else {
      LastReplacementWins(fold, parts, last.value);
    }
  }

  lemma {:induction false} StatusShown(fold: Fold, parts: seq<Entry>)
    requires NewParts(fold, parts) && fold.status == ""
    ensures FoldAll(fold, parts).status == Shown(parts, StatusChange)
  {
    var last := LastReplacing(parts, StatusChange);
    if last.None? {
      AppendsOnly(fold, parts);
    } else {
      LastReplacementWins(fold, parts, last.value);
    }
  }

  lemma {:induction false} PartsShow(start: Entry, parts: seq<Entry>)
    ensures var kept, fold := FirstOccurrences({start.entryId}, parts), FoldAll(StartFold(start), parts);
            fold.output == Shown(kept, OutputChange) && fold.status == Shown(kept, StatusChange)
  {
    var fold := StartFold(start);
    var kept := FirstOccurrences(fold.entryIds, parts);
    RepeatsChangeNothing(fold, parts);
    OccurrencesAreExact(fold.entryIds, parts);
    assert NewParts(fold, kept);
    OutputShown(fold, kept);
    StatusShown(fold, kept);
  }

  /** The parts that a shell shows: those after its first start, each once. */
  function ShownParts(entries: seq<Entry>, start: nat): seq<Entry>
    requires start < |entries|
  {
    FirstOccurrences({entries[start].entryId}, PartsOf(entries[start + 1..], entries[start].body.shellId))
  }

  lemma {:induction false} StartIsOfItsShell(entries: seq<Entry>, shellId: string, start: nat)
    requires FirstStart(entries, shellId) == Some(start)
    ensures entries[start].body.shellId == shellId
  {
    FirstStartIsFirst(entries, shellId);
  }

  lemma {:induction false} FoldShows(entries: seq<Entry>, shellId: string, start: nat, fold: Fold)
    requires FirstStart(entries, shellId) == Some(start) && FoldOf(entries, shellId) == Some(fold)
    ensures fold.output == Shown(ShownParts(entries, start), OutputChange)
    ensures fold.status == Shown(ShownParts(entries, start), StatusChange)
  {
    StartIsOfItsShell(entries, shellId, start);
    var parts := PartsOf(entries[start + 1..], shellId);
    assert fold == FoldAll(StartFold(entries[start]), parts);
    PartsShow(entries[start], parts);
  }

  /** In every run, with parts of several shells, repeats and parts before their start: a shell's output is its last
      replacing text followed by what was appended later, or all that was appended, and each part counts once; the same
      holds for its status. */
  lemma {:induction false} OutputInEveryRun(entries: seq<Entry>, shellId: string, start: nat)
    requires OneEntryEachId(entries) && FirstStart(entries, shellId) == Some(start)
    ensures FeedInvariant(START) && shellId in Run(START, entries).shells
    ensures Run(START, entries).shells[shellId].output == Shown(ShownParts(entries, start), OutputChange)
    ensures Run(START, entries).shells[shellId].status == Shown(ShownParts(entries, start), StatusChange)
  {
    ShellsAreTheirParts(entries, |entries|, shellId);
    assert entries[..|entries|] == entries;
    FoldShows(entries, shellId, start, FoldOf(entries, shellId).value);
  }
}
