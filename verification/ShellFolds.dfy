/** One command of the feed: its start, each chunk that it wrote, and how it ended (client/_model_shell.py). */
module ShellFolds {
  import opened Wrappers

  /** The entry types that the pane treats differently; `Other` stands for the rest of the vocabulary. */
  datatype EntryType = Message | ShellStarted | ShellOutput | ShellBackgrounded | ShellFinished | Other(name: string)

  datatype Body = Body(
    shellId: string, command: Option<string>, execution: Option<string>, content: Option<string>,
    stream: Option<string>, mode: Option<string>, state: Option<string>, exitCode: Option<int>,
    result: Option<string>, role: Option<string>, replyTo: Option<string>)

  datatype Entry = Entry(entryId: string, kind: EntryType, cursor: int, commitCursor: int, occurredAt: real, body: Body)

  const STATUS_STREAM := "status"
  const REPLACE := "replace"
  const FOREGROUND := "foreground"

  function TextOf(content: Option<string>): string {
    if content.None? then "" else content.value
  }

  predicate IsShellEntry(entry: Entry) {
    entry.kind in {ShellStarted, ShellOutput, ShellBackgrounded, ShellFinished}
  }

  datatype Fold = Fold(
    shellId: string, command: string, execution: string, startedAt: real, output: string, status: string,
    state: Option<string>, exitCode: Option<int>, backgrounded: bool, finishedAt: Option<real>, entryIds: set<string>)

  function StartFold(entry: Entry): Fold {
    var body := entry.body;
    var execution := if body.execution.None? || body.execution.value == "" then FOREGROUND else body.execution.value;
    Fold(body.shellId, TextOf(body.command), execution, entry.occurredAt, "", "", None, None, false, None, {entry.entryId})
  }

  predicate IsStatus(body: Body) {
    body.stream == Some(STATUS_STREAM)
  }

  function OutputFolded(fold: Fold, body: Body): Fold {
    var text := TextOf(body.content);
    var replacing := body.mode == Some(REPLACE);
    if IsStatus(body) then fold.(status := if replacing then text else fold.status + text)
    else fold.(output := if replacing then text else fold.output + text)
  }

  function FoldEntry(fold: Fold, entry: Entry): Fold {
    if entry.entryId in fold.entryIds then fold
    else
      var held := fold.(entryIds := fold.entryIds + {entry.entryId});
      var body := entry.body;
      match entry.kind
      case ShellOutput => OutputFolded(held, body)
      case ShellBackgrounded => held.(backgrounded := true)
      case ShellFinished =>
        var ended := held.(state := body.state, exitCode := body.exitCode, finishedAt := Some(entry.occurredAt));
        if TextOf(body.result) == "" then ended else ended.(output := TextOf(body.result))
      case _ => held
  }

  /** The fold object of the pane, changed in place by each entry. */
  class ShellFold {
    const shellId: string
    const command: string
    const execution: string
    const startedAt: real
    var output: string
    var status: string
    var state: Option<string>
    var exitCode: Option<int>
    var backgrounded: bool
    var finishedAt: Option<real>
    var entryIds: set<string>

    function View(): Fold
      reads this
    {
      Fold(shellId, command, execution, startedAt, output, status, state, exitCode, backgrounded, finishedAt, entryIds)
    }

    constructor FromEntry(entry: Entry)
      ensures View() == StartFold(entry)
    {
      var body := entry.body;
      shellId, command, startedAt := body.shellId, TextOf(body.command), entry.occurredAt;
      execution := if body.execution.None? || body.execution.value == "" then FOREGROUND else body.execution.value;
      output, status, backgrounded := "", "", false;
      state, exitCode, finishedAt := None, None, None;
      entryIds := {entry.entryId};
    }

    /** `fold`: take each entry once. */
    method Apply(entry: Entry)
      modifies this
      ensures View() == FoldEntry(old(View()), entry)
    {
      if entry.entryId in entryIds {
        return;
      }
      entryIds := entryIds + {entry.entryId};
      var body := entry.body;
      match entry.kind {
        case ShellOutput =>
          ApplyOutput(body);
        case ShellBackgrounded =>
          backgrounded := true;
        case ShellFinished =>
          state, exitCode, finishedAt := body.state, body.exitCode, Some(entry.occurredAt);
          var result := TextOf(body.result);
          if result != "" {
            output := result;
          }
        case _ =>
      }
    }

    method ApplyOutput(body: Body)
      modifies this
      ensures View() == OutputFolded(old(View()), body)
    {
      var text := TextOf(body.content);
      var current := if IsStatus(body) then status else output;
      var next := if body.mode == Some(REPLACE) then text else current + text;
      if IsStatus(body) {
        status := next;
      } else {
        output := next;
      }
    }
  }

  // ----- What the output is -----

  function FoldAll(fold: Fold, parts: seq<Entry>): Fold
    decreases |parts|
  {
    if parts == [] then fold else FoldAll(FoldEntry(fold, parts[0]), parts[1..])
  }

  lemma {:induction false} FoldAllAppend(fold: Fold, parts: seq<Entry>, last: Entry)
    ensures FoldAll(fold, parts + [last]) == FoldEntry(FoldAll(fold, parts), last)
    decreases |parts|
  {
    if parts == [] {
      assert parts + [last] == [last] && [last][1..] == [];
    } else {
      assert (parts + [last])[1..] == parts[1..] + [last];
      FoldAllAppend(FoldEntry(fold, parts[0]), parts[1..], last);
    }
  }

  /** How one part changes the output: it replaces all of it, adds to its end, or leaves it. */
  datatype Change = Replaces(text: string) | Appends(text: string)

  function OutputChange(entry: Entry): Change {
    var body := entry.body;
    if entry.kind == ShellOutput && !IsStatus(body) then
      if body.mode == Some(REPLACE) then Replaces(TextOf(body.content)) else Appends(TextOf(body.content))
    else if entry.kind == ShellFinished && TextOf(body.result) != "" then Replaces(TextOf(body.result))
    else Appends("")
  }

  function StatusChange(entry: Entry): Change {
    var body := entry.body;
    if entry.kind == ShellOutput && IsStatus(body) then
      if body.mode == Some(REPLACE) then Replaces(TextOf(body.content)) else Appends(TextOf(body.content))
    else Appends("")
  }

  function AppendedText(parts: seq<Entry>, change: Entry -> Change): string {
    if parts == [] then "" else change(parts[0]).text + AppendedText(parts[1..], change)
  }

  /** Parts that are new to a fold and to each other. */
  ghost predicate NewParts(fold: Fold, parts: seq<Entry>) {
    && (forall i :: 0 <= i < |parts| ==> parts[i].entryId !in fold.entryIds)
    && forall i, j :: 0 <= i < j < |parts| ==> parts[i].entryId != parts[j].entryId
  }

  lemma {:induction false} NewPartsStep(fold: Fold, parts: seq<Entry>)
    requires parts != [] && NewParts(fold, parts)
    ensures NewParts(FoldEntry(fold, parts[0]), parts[1..])
  {
  }

  lemma {:induction false} AppendsOnly(fold: Fold, parts: seq<Entry>)
    requires NewParts(fold, parts)
    ensures (forall i :: 0 <= i < |parts| ==> OutputChange(parts[i]).Appends?) ==>
              FoldAll(fold, parts).output == fold.output + AppendedText(parts, OutputChange)
    ensures (forall i :: 0 <= i < |parts| ==> StatusChange(parts[i]).Appends?) ==>
              FoldAll(fold, parts).status == fold.status + AppendedText(parts, StatusChange)
    decreases |parts|
  {
    if parts == [] {
      assert fold.output + "" == fold.output && fold.status + "" == fold.status;
    } else {
      var next := FoldEntry(fold, parts[0]);
      NewPartsStep(fold, parts);
      AppendsOnly(next, parts[1..]);
      assert forall i :: 0 <= i < |parts| - 1 ==> parts[1..][i] == parts[i + 1];
      OnePart(fold, parts[0]);
      AppendAssociative(fold.output, OutputChange(parts[0]).text, AppendedText(parts[1..], OutputChange));
      AppendAssociative(fold.status, StatusChange(parts[0]).text, AppendedText(parts[1..], StatusChange));
    }
  }

  lemma {:induction false} AppendAssociative(a: string, b: string, c: string)
    ensures (a + b) + c == a + (b + c)
  {
  }

  lemma {:induction false} OnePart(fold: Fold, entry: Entry)
    requires entry.entryId !in fold.entryIds
    ensures var change := OutputChange(entry);
            FoldEntry(fold, entry).output == if change.Replaces? then change.text else fold.output + change.text
    ensures var change := StatusChange(entry);
            FoldEntry(fold, entry).status == if change.Replaces? then change.text else fold.status + change.text
  {
    assert fold.output + "" == fold.output && fold.status + "" == fold.status;
  }

  lemma {:induction false} FoldAllSplit(fold: Fold, a: seq<Entry>, b: seq<Entry>)
    ensures FoldAll(fold, a + b) == FoldAll(FoldAll(fold, a), b)
    decreases |a|
  {
    if a == [] {
      assert a + b == b;
    } else {
      assert (a + b)[1..] == a[1..] + b;
      FoldAllSplit(FoldEntry(fold, a[0]), a[1..], b);
    }
  }

  lemma {:induction false} HeldAfter(fold: Fold, parts: seq<Entry>)
    ensures FoldAll(fold, parts).entryIds == fold.entryIds + (set i | 0 <= i < |parts| :: parts[i].entryId)
    decreases |parts|
  {
    if parts != [] {
      HeldAfter(FoldEntry(fold, parts[0]), parts[1..]);
      var rest := set i | 0 <= i < |parts| - 1 :: parts[1..][i].entryId;
      assert forall i :: 0 < i < |parts| ==> parts[i] == parts[1..][i - 1];
      assert (set i | 0 <= i < |parts| :: parts[i].entryId) == {parts[0].entryId} + rest;
    }
  }

  /** A shell's output is its last replacing text followed by the chunks appended later; the same holds for
      its status. `last` is the index of that replacing part. */
  lemma {:induction false} LastReplacementWins(fold: Fold, parts: seq<Entry>, last: nat)
    requires NewParts(fold, parts) && last < |parts|
    ensures OutputChange(parts[last]).Replaces? &&
            (forall i :: last < i < |parts| ==> OutputChange(parts[i]).Appends?) ==>
              FoldAll(fold, parts).output == OutputChange(parts[last]).text + AppendedText(parts[last + 1..], OutputChange)
    ensures StatusChange(parts[last]).Replaces? &&
            (forall i :: last < i < |parts| ==> StatusChange(parts[i]).Appends?) ==>
              FoldAll(fold, parts).status == StatusChange(parts[last]).text + AppendedText(parts[last + 1..], StatusChange)
  {
    var after := parts[last + 1..];
    var next := SplitAt(fold, parts, last);
    AppendsOnly(next, after);
    assert forall i :: 0 <= i < |after| ==> after[i] == parts[last + 1 + i];
  }

  lemma {:induction false} SplitAt(fold: Fold, parts: seq<Entry>, last: nat) returns (next: Fold)
    requires NewParts(fold, parts) && last < |parts|
    ensures FoldAll(fold, parts) == FoldAll(next, parts[last + 1..]) && NewParts(next, parts[last + 1..])
    ensures OutputChange(parts[last]).Replaces? ==> next.output == OutputChange(parts[last]).text
    ensures StatusChange(parts[last]).Replaces? ==> next.status == StatusChange(parts[last]).text
  {
    var before := parts[..last];
    var reached := FoldAll(fold, before);
    next := FoldEntry(reached, parts[last]);
    HeldAfter(fold, before);
    assert parts[last].entryId !in reached.entryIds;
    OnePart(reached, parts[last]);
    assert parts == before + ([parts[last]] + parts[last + 1..]);
    FoldAllSplit(fold, before, [parts[last]] + parts[last + 1..]);
    assert ([parts[last]] + parts[last + 1..])[1..] == parts[last + 1..];
    NewPartsAfter(fold, parts, last);
  }

  lemma {:induction false} NewPartsAfter(fold: Fold, parts: seq<Entry>, last: nat)
    requires NewParts(fold, parts) && last < |parts|
    ensures NewParts(FoldEntry(FoldAll(fold, parts[..last]), parts[last]), parts[last + 1..])
  {
    HeldAfter(fold, parts[..last]);
  }
}
