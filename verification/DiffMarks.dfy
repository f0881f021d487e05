/** Which rows of a diff are compared with each other, and the loop that marks them in place
    (client/_render_diff_parse.py, `_mark_changed_diff_ranges`; client/_render_diff_models.py). */
module DiffMarks {
  import opened DiffRanges
  import opened DiffRows
  import opened Wrappers

  /** The first index from `start` on whose row has another kind. */
  function BlockEnd(rows: seq<DiffRow>, start: nat, kind: RowKind): (end: nat)
    requires start <= |rows|
    ensures start <= end <= |rows|
    ensures end < |rows| ==> rows[end].kind != kind
    decreases |rows| - start
  {
    if start < |rows| && rows[start].kind == kind then BlockEnd(rows, start + 1, kind) else start
  }

  /** The first index of the run of one kind that ends at `i`. */
  function RunStart(rows: seq<DiffRow>, i: nat, kind: RowKind): (start: nat)
    requires i < |rows| && rows[i].kind == kind
    ensures start <= i && rows[start].kind == kind
    ensures start > 0 ==> rows[start - 1].kind != kind
  {
    if i > 0 && rows[i - 1].kind == kind then RunStart(rows, i - 1, kind) else i
  }

  /** The k-th row of a removed run and the k-th row of the added run directly after it are partners. */
  function Partner(rows: seq<DiffRow>, i: nat): (partner: Option<nat>)
    requires i < |rows|
    ensures partner.Some? ==> partner.value < |rows|
  {
    if rows[i].kind == REMOVED then
      var end := BlockEnd(rows, i, REMOVED);
      var j := end + (i - RunStart(rows, i, REMOVED));
      if j < BlockEnd(rows, end, ADDED) then Some(j) else None
    else if rows[i].kind == ADDED then
      var start := RunStart(rows, i, ADDED);
      if start == 0 || rows[start - 1].kind != REMOVED then None
      else
        var j := RunStart(rows, start - 1, REMOVED) + (i - start);
        if j < start then Some(j) else None
    else None
  }

  lemma {:induction false} BlockIsRun(rows: seq<DiffRow>, start: nat, i: nat, kind: RowKind)
    requires start <= |rows| && start <= i < BlockEnd(rows, start, kind)
    ensures rows[i].kind == kind
    decreases i - start
  {
    if start < i {
      BlockIsRun(rows, start + 1, i, kind);
    }
  }

  lemma {:induction false} BlockEndInside(rows: seq<DiffRow>, start: nat, i: nat, kind: RowKind)
    requires start <= |rows| && start <= i <= BlockEnd(rows, start, kind)
    ensures BlockEnd(rows, i, kind) == BlockEnd(rows, start, kind)
    decreases i - start
  {
    if start < i {
      BlockEndInside(rows, start + 1, i, kind);
    }
  }

  /** The rows of a block have its start as the start of their run. */
  lemma {:induction false} RunStartIs(rows: seq<DiffRow>, start: nat, i: nat, kind: RowKind)
    requires start <= |rows| && start <= i < BlockEnd(rows, start, kind)
    requires start > 0 ==> rows[start - 1].kind != kind
    ensures rows[i].kind == kind && RunStart(rows, i, kind) == start
  {
    BlockIsRun(rows, start, i, kind);
    if start < i {
      RunStartIs(rows, start, i - 1, kind);
    }
  }

  /** A run that ends where the kind changes is a block. */
  lemma {:induction false} RunIsBlock(rows: seq<DiffRow>, i: nat, kind: RowKind)
    requires i < |rows| && rows[i].kind == kind
    ensures BlockEnd(rows, RunStart(rows, i, kind), kind) == BlockEnd(rows, i, kind)
  {
    if i > 0 && rows[i - 1].kind == kind {
      RunIsBlock(rows, i - 1, kind);
    }
  }

  /** The row with the range in which it differs from its partner; kind, number and text stay. */
  function Mark(row: DiffRow, partner: DiffRow): DiffRow {
    row.(changed := Some(
      if row.kind == REMOVED then RangesOf(row.text, partner.text).removed else RangesOf(partner.text, row.text).added))
  }

  function MarkedRow(rows: seq<DiffRow>, i: nat): DiffRow
    requires i < |rows|
  {
    var partner := Partner(rows, i);
    if partner.None? then rows[i] else Mark(rows[i], rows[partner.value])
  }

  lemma {:induction false} RemovedPartner(rows: seq<DiffRow>, first: nat, i: nat, middle: nat, end: nat)
    requires first < |rows| && rows[first].kind == REMOVED && (first > 0 ==> rows[first - 1].kind != REMOVED)
    requires middle == BlockEnd(rows, first, REMOVED) && end == BlockEnd(rows, middle, ADDED) && first <= i < middle
    ensures Partner(rows, i) == if middle + (i - first) < end then Some(middle + (i - first)) else None
  {
    BlockEndInside(rows, first, i, REMOVED);
    RunStartIs(rows, first, i, REMOVED);
  }

  lemma {:induction false} AddedPartner(rows: seq<DiffRow>, first: nat, i: nat, middle: nat, end: nat)
    requires first < |rows| && rows[first].kind == REMOVED && (first > 0 ==> rows[first - 1].kind != REMOVED)
    requires middle == BlockEnd(rows, first, REMOVED) && end == BlockEnd(rows, middle, ADDED) && middle <= i < end
    ensures Partner(rows, i) == if first + (i - middle) < middle then Some(first + (i - middle)) else None
  {
    BlockIsRun(rows, first, middle - 1, REMOVED);
    RunStartIs(rows, middle, i, ADDED);
    RunStartIs(rows, first, middle - 1, REMOVED);
  }

  /** The partners of one block of removed rows and the added rows after it. */
  lemma {:induction false} BlockPartners(rows: seq<DiffRow>, first: nat, i: nat)
    requires first < |rows| && rows[first].kind == REMOVED && (first > 0 ==> rows[first - 1].kind != REMOVED)
    requires var middle := BlockEnd(rows, first, REMOVED); first <= i < BlockEnd(rows, middle, ADDED)
    ensures var middle := BlockEnd(rows, first, REMOVED);
            var end := BlockEnd(rows, middle, ADDED);
            Partner(rows, i) ==
              if i < middle then (if middle + (i - first) < end then Some(middle + (i - first)) else None)
              else (if first + (i - middle) < middle then Some(first + (i - middle)) else None)
  {
    var middle := BlockEnd(rows, first, REMOVED);
    var end := BlockEnd(rows, middle, ADDED);
    if i < middle {
      RemovedPartner(rows, first, i, middle, end);
    } else {
      AddedPartner(rows, first, i, middle, end);
    }
  }

  /** Where the block of a row with a partner begins. */
  function BlockStart(rows: seq<DiffRow>, i: nat): (first: nat)
    requires i < |rows| && Partner(rows, i).Some?
    ensures first <= i && rows[first].kind == REMOVED && (first > 0 ==> rows[first - 1].kind != REMOVED)
  {
    if rows[i].kind == REMOVED then RunStart(rows, i, REMOVED)
    else RunStart(rows, RunStart(rows, i, ADDED) - 1, REMOVED)
  }

  lemma {:induction false} PartnerIsInBlock(rows: seq<DiffRow>, i: nat)
    requires i < |rows| && Partner(rows, i).Some?
    ensures var first := BlockStart(rows, i);
            i < BlockEnd(rows, BlockEnd(rows, first, REMOVED), ADDED)
  {
    RunIsBlock(rows, i, rows[i].kind);
    if rows[i].kind == ADDED {
      RunIsBlock(rows, RunStart(rows, i, ADDED) - 1, REMOVED);
    }
  }

  /** Partners are partners of each other: one is removed, the other added. */
  lemma {:induction false} PartnersAreMutual(rows: seq<DiffRow>, i: nat)
    requires i < |rows| && Partner(rows, i).Some?
    ensures var j := Partner(rows, i).value;
            && Partner(rows, j) == Some(i)
            && (if rows[i].kind == REMOVED then i < j && rows[j].kind == ADDED
                else rows[i].kind == ADDED && j < i && rows[j].kind == REMOVED)
  {
    var first := BlockStart(rows, i);
    PartnerIsInBlock(rows, i);
    BlockPartners(rows, first, i);
    BlockPartners(rows, first, Partner(rows, i).value);
  }

  /** The loop stands at the start of a block: no pair lies across the index. */
  predicate AtBlock(rows: seq<DiffRow>, index: nat)
    requires index <= |rows|
  {
    index < |rows| ==>
      && (rows[index].kind == REMOVED ==> index == 0 || rows[index - 1].kind != REMOVED)
      && (rows[index].kind == ADDED ==>
            var start := RunStart(rows, index, ADDED); start == 0 || rows[start - 1].kind != REMOVED)
  }

  method MarkPair(rows: array<DiffRow>, removed: nat, added: nat)
    requires removed < added < rows.Length && rows[removed].kind == REMOVED && rows[added].kind == ADDED
    modifies rows
    ensures forall k :: 0 <= k < rows.Length && k != removed && k != added ==> rows[k] == old(rows[k])
    ensures rows[removed] == Mark(old(rows[removed]), old(rows[added]))
    ensures rows[added] == Mark(old(rows[added]), old(rows[removed]))
  {
    var ranges := FindRanges(rows[removed].text, rows[added].text);
    rows[removed] := rows[removed].(changed := Some(ranges.removed));
    rows[added] := rows[added].(changed := Some(ranges.added));
  }

  method FindBlockEnd(rows: array<DiffRow>, start: nat, kind: RowKind) returns (end: nat)
    requires start <= rows.Length
    ensures end == BlockEnd(rows[..], start, kind)
  {
    end := start;
    while end < rows.Length && rows[end].kind == kind
      invariant start <= end <= rows.Length
      invariant BlockEnd(rows[..], end, kind) == BlockEnd(rows[..], start, kind)
    {
      end := end + 1;
    }
  }

  predicate SameKinds(a: seq<DiffRow>, b: seq<DiffRow>) {
    |a| == |b| && forall i :: 0 <= i < |a| ==> a[i].kind == b[i].kind
  }

  lemma {:induction false} SameBlockEnd(a: seq<DiffRow>, b: seq<DiffRow>, start: nat, kind: RowKind)
    requires SameKinds(a, b) && start <= |a|
    ensures BlockEnd(a, start, kind) == BlockEnd(b, start, kind)
    decreases |a| - start
  {
    if start < |a| && a[start].kind == kind {
      SameBlockEnd(a, b, start + 1, kind);
    }
  }

  /** Mark every row that has a partner, and change nothing else. */
  method MarkChangedRanges(rows: array<DiffRow>)
    modifies rows
    ensures forall i :: 0 <= i < rows.Length ==> rows[i] == MarkedRow(old(rows[..]), i)
  {
    ghost var was := rows[..];
    ghost var goal := Goal(was, |was|);
    var index := 0;
    while index < rows.Length
      invariant index <= rows.Length && AtBlock(was, index)
      invariant SameKinds(rows[..], was)
      invariant forall k :: 0 <= k < index ==> rows[k] == goal[k]
      invariant forall k :: index <= k < rows.Length ==> rows[k] == was[k]
    {
      if rows[index].kind != REMOVED {
        SkipKeepsBlock(was, index);
        index := index + 1;
      } else {
        index := MarkNextBlock(rows, was, goal, index);
      }
    }
    GoalIsMarked(was, goal);
  }

  lemma {:induction false} GoalIsMarked(was: seq<DiffRow>, goal: seq<DiffRow>)
    requires goal == Goal(was, |was|)
    ensures |goal| == |was| && forall i :: 0 <= i < |was| ==> goal[i] == MarkedRow(was, i)
  {
    forall i | 0 <= i < |was| ensures goal[i] == MarkedRow(was, i) {
      GoalAt(was, |was|, i);
    }
  }

  method MarkNextBlock(rows: array<DiffRow>, ghost was: seq<DiffRow>, ghost goal: seq<DiffRow>, first: nat)
    returns (end: nat)
    requires goal == Goal(was, |was|) && |was| == rows.Length && first < rows.Length && was[first].kind == REMOVED && AtBlock(was, first)
    requires forall k :: 0 <= k < first ==> rows[k] == goal[k]
    requires forall k :: first <= k < rows.Length ==> rows[k] == was[k]
    requires SameKinds(rows[..], was)
    modifies rows
    ensures first < end <= rows.Length && AtBlock(was, end)
    ensures SameKinds(rows[..], was)
    ensures forall k :: 0 <= k < end ==> rows[k] == goal[k]
    ensures forall k :: end <= k < rows.Length ==> rows[k] == was[k]
  {
    var middle: nat;
    middle, end := FindBlock(rows, was, first);
    var count := if middle - first <= end - middle then middle - first else end - middle;
    ghost var shift := middle - first;
    BlockIsMarked(was, first, middle, end, count, shift);
    BlockEndsAtBlock(was, first, middle, end);
    MarkPairs(rows, was, goal, first, middle, count, shift);
    forall k | 0 <= k < rows.Length ensures rows[k].kind == was[k].kind {
      if k < end {
        MarkKeepsKind(was, k);
      }
    }
  }

  lemma {:induction false} MarkKeepsKind(rows: seq<DiffRow>, k: nat)
    requires k < |rows|
    ensures Goal(rows, |rows|)[k].kind == rows[k].kind
  {
    GoalAt(rows, |rows|, k);
  }

  method FindBlock(rows: array<DiffRow>, ghost was: seq<DiffRow>, first: nat) returns (middle: nat, end: nat)
    requires |was| == rows.Length && first < rows.Length && was[first].kind == REMOVED
    requires first > 0 ==> was[first - 1].kind != REMOVED
    requires SameKinds(rows[..], was)
    ensures IsBlock(was, first, middle, end)
  {
    SameBlockEnd(rows[..], was, first, REMOVED);
    middle := FindBlockEnd(rows, first, REMOVED);
    SameBlockEnd(rows[..], was, middle, ADDED);
    end := FindBlockEnd(rows, middle, ADDED);
  }

  lemma {:induction false} BlockEndsAtBlock(rows: seq<DiffRow>, first: nat, middle: nat, end: nat)
    requires IsBlock(rows, first, middle, end)
    ensures AtBlock(rows, end)
  {
    if middle < end {
      BlockIsRun(rows, middle, end - 1, ADDED);
    }
  }

  /** The rows that the loop has to produce, as one list. */
  ghost function Goal(rows: seq<DiffRow>, n: nat): (goal: seq<DiffRow>)
    requires n <= |rows|
    ensures |goal| == n
  {
    if n == 0 then [] else Goal(rows, n - 1) + [MarkedRow(rows, n - 1)]
  }

  lemma {:induction false} GoalAt(rows: seq<DiffRow>, n: nat, k: nat)
    requires k < n <= |rows|
    ensures Goal(rows, n)[k] == MarkedRow(rows, k)
  {
    if k < n - 1 {
      GoalAt(rows, n - 1, k);
    }
  }

  predicate IsBlock(rows: seq<DiffRow>, first: nat, middle: nat, end: nat) {
    && first < middle <= end <= |rows|
    && rows[first].kind == REMOVED && (first > 0 ==> rows[first - 1].kind != REMOVED)
    && middle == BlockEnd(rows, first, REMOVED)
    && end == BlockEnd(rows, middle, ADDED)
  }

  /** In a block, as many rows of each run are marked as the shorter run has. */
  lemma {:induction false} BlockIsMarked(rows: seq<DiffRow>, first: nat, middle: nat, end: nat, count: nat, shift: nat)
    requires IsBlock(rows, first, middle, end) && shift == middle - first
    requires count == if middle - first <= end - middle then middle - first else end - middle
    ensures forall i :: first <= i < first + count ==> PairMarked(rows, Goal(rows, |rows|), i, shift)
    ensures forall k :: first + count <= k < middle || middle + count <= k < end ==> Goal(rows, |rows|)[k] == rows[k]
  {
    var goal := Goal(rows, |rows|);
    forall i | first <= i < first + count ensures PairMarked(rows, goal, i, shift) {
      PairIsMarked(rows, first, middle, end, i, i + shift, shift, goal);
    }
    forall k | first + count <= k < middle || middle + count <= k < end ensures Goal(rows, |rows|)[k] == rows[k] {
      RestIsNotMarked(rows, first, middle, end, k);
    }
  }

  lemma {:induction false} PairIsMarked(
      rows: seq<DiffRow>, first: nat, middle: nat, end: nat, i: nat, j: nat, shift: nat, goal: seq<DiffRow>)
    requires IsBlock(rows, first, middle, end) && first <= i < middle && j == middle + (i - first) < end
    requires shift == middle - first && goal == Goal(rows, |rows|)
    ensures PairMarked(rows, goal, i, shift)
  {
    RemovedIsMarked(rows, first, middle, end, i, j, goal);
    AddedIsMarked(rows, first, middle, end, i, j, goal);
  }

  lemma {:induction false} RemovedIsMarked(
      rows: seq<DiffRow>, first: nat, middle: nat, end: nat, i: nat, j: nat, goal: seq<DiffRow>)
    requires IsBlock(rows, first, middle, end) && first <= i < middle && j == middle + (i - first) < end
    requires goal == Goal(rows, |rows|)
    ensures rows[i].kind == REMOVED && goal[i] == Mark(rows[i], rows[j])
  {
    BlockIsRun(rows, first, i, REMOVED);
    BlockPartners(rows, first, i);
    MarkedWith(rows, i, j);
  }

  lemma {:induction false} AddedIsMarked(
      rows: seq<DiffRow>, first: nat, middle: nat, end: nat, i: nat, j: nat, goal: seq<DiffRow>)
    requires IsBlock(rows, first, middle, end) && middle <= j < end && i == first + (j - middle) < middle
    requires goal == Goal(rows, |rows|)
    ensures rows[j].kind == ADDED && goal[j] == Mark(rows[j], rows[i])
  {
    BlockIsRun(rows, middle, j, ADDED);
    BlockPartners(rows, first, j);
    MarkedWith(rows, j, i);
  }

  lemma {:induction false} MarkedWith(rows: seq<DiffRow>, i: nat, j: nat)
    requires i < |rows| && j < |rows| && Partner(rows, i) == Some(j)
    ensures Goal(rows, |rows|)[i] == Mark(rows[i], rows[j])
  {
    GoalAt(rows, |rows|, i);
  }

  lemma {:induction false} RestIsNotMarked(rows: seq<DiffRow>, first: nat, middle: nat, end: nat, k: nat)
    requires IsBlock(rows, first, middle, end) && first <= k < end
    requires if k < middle then middle + (k - first) >= end else first + (k - middle) >= middle
    ensures Goal(rows, |rows|)[k] == rows[k]
  {
    BlockPartners(rows, first, k);
    GoalAt(rows, |rows|, k);
  }

  lemma {:induction false} SkipKeepsBlock(rows: seq<DiffRow>, index: nat)
    requires index < |rows| && AtBlock(rows, index) && rows[index].kind != REMOVED
    ensures AtBlock(rows, index + 1) && Goal(rows, |rows|)[index] == rows[index]
  {
    GoalAt(rows, |rows|, index);
  }

  predicate PairMarked(was: seq<DiffRow>, goal: seq<DiffRow>, removed: nat, shift: nat) {
    var added := removed + shift;
    && added < |was| && |goal| == |was|
    && was[removed].kind == REMOVED && was[added].kind == ADDED
    && goal[removed] == Mark(was[removed], was[added])
    && goal[added] == Mark(was[added], was[removed])
  }

  /** Mark the first rows of a removed run with the first rows of the added run after it. */
  method MarkPairs(
      rows: array<DiffRow>, ghost was: seq<DiffRow>, ghost goal: seq<DiffRow>, first: nat, middle: nat, count: nat,
      ghost shift: nat)
    requires |was| == rows.Length == |goal| && first + shift == middle && first + count <= middle && middle + count <= rows.Length
    requires forall i :: first <= i < first + count ==> PairMarked(was, goal, i, shift)
    requires forall k :: first <= k < rows.Length ==> rows[k] == was[k]
    modifies rows
    ensures forall k :: 0 <= k < first ==> rows[k] == old(rows[k])
    ensures forall k :: first <= k < first + count || middle <= k < middle + count ==> rows[k] == goal[k]
    ensures forall k :: first + count <= k < middle || middle + count <= k < rows.Length ==> rows[k] == was[k]
  {
    for i := first to first + count
      invariant forall k :: 0 <= k < first ==> rows[k] == old(rows[k])
      invariant forall k :: first <= k < i || middle <= k < i + shift ==> rows[k] == goal[k]
      invariant forall k :: i <= k < middle || i + shift <= k < rows.Length ==> rows[k] == was[k]
    {
      assert PairMarked(was, goal, i, shift);
      MarkPair(rows, i, middle + (i - first));
    }
  }

  /** The diff rows that the client paints: parsed, then marked. */
  method FindDiffRows(lines: seq<string>) returns (rows: seq<DiffRow>)
    ensures var parsed := ParseLines(lines).rows;
            |rows| == |parsed| && forall i :: 0 <= i < |rows| ==> rows[i] == MarkedRow(parsed, i)
  {
    var parsed := ParsedRows(lines);
    var marked := new DiffRow[|parsed|](i requires 0 <= i < |parsed| => parsed[i]);
    assert marked[..] == parsed;
    MarkChangedRanges(marked);
    return marked[..];
  }

  // ----- What is marked, by the kinds of the rows -----

  predicate AllOfKind(rows: seq<DiffRow>, from: nat, to: nat, kind: RowKind)
    requires from <= to <= |rows|
  {
    forall i :: from <= i < to ==> rows[i].kind == kind
  }

  predicate KindBehind(rows: seq<DiffRow>, at: nat, kind: RowKind) {
    at < |rows| && rows[at].kind == kind
  }

  /** A removed run that nothing longer holds, and the added run directly behind it. */
  predicate AreRuns(rows: seq<DiffRow>, first: nat, middle: nat, end: nat) {
    && first < middle <= end <= |rows|
    && AllOfKind(rows, first, middle, REMOVED) && AllOfKind(rows, middle, end, ADDED)
    && (first > 0 ==> rows[first - 1].kind != REMOVED)
    && !KindBehind(rows, middle, REMOVED) && !KindBehind(rows, end, ADDED)
  }

  lemma {:induction false} BlockEndIs(rows: seq<DiffRow>, start: nat, end: nat, kind: RowKind)
    requires start <= end <= |rows| && AllOfKind(rows, start, end, kind) && !KindBehind(rows, end, kind)
    ensures BlockEnd(rows, start, kind) == end
    decreases end - start
  {
    if start < end {
      BlockEndIs(rows, start + 1, end, kind);
    }
  }

  lemma {:induction false} RunsAreBlock(rows: seq<DiffRow>, first: nat, middle: nat, end: nat)
    requires AreRuns(rows, first, middle, end)
    ensures IsBlock(rows, first, middle, end)
  {
    BlockEndIs(rows, first, middle, REMOVED);
    BlockEndIs(rows, middle, end, ADDED);
  }

  /** The row has only its range added. */
  predicate OnlyMarked(row: DiffRow, marked: DiffRow) {
    marked.kind == row.kind && marked.number == row.number && marked.text == row.text && marked.changed.Some?
  }

  /** The ranges of two rows: the text before them is equal, and so is the text behind them, and two ranges that both
      hold text differ in their first and in their last character. */
  predicate ShowDifference(removed: DiffRow, added: DiffRow)
    requires removed.changed.Some? && added.changed.Some?
  {
    var before, after := removed.text, added.text;
    var r, a := removed.changed.value, added.changed.value;
    && r.start <= r.end <= |before| && a.start <= a.end <= |after| && r.start == a.start
    && before[..r.start] == after[..a.start] && before[r.end..] == after[a.end..]
    && (r.start < r.end && a.start < a.end ==>
          before[r.start] != after[a.start] && before[r.end - 1] != after[a.end - 1])
  }

  lemma {:induction false} MarksShow(removed: DiffRow, added: DiffRow)
    requires removed.kind == REMOVED && added.kind == ADDED
    ensures OnlyMarked(removed, Mark(removed, added)) && OnlyMarked(added, Mark(added, removed))
    ensures ShowDifference(Mark(removed, added), Mark(added, removed))
  {
    RangesAreTight(removed.text, added.text);
  }

  lemma {:induction false} PartnersAt(rows: seq<DiffRow>, first: nat, middle: nat, end: nat, k: nat, i: nat, j: nat)
    requires IsBlock(rows, first, middle, end) && i == first + k < middle && j == middle + k < end
    ensures Partner(rows, i) == Some(j) && Partner(rows, j) == Some(i)
  {
    RemovedPartner(rows, first, i, middle, end);
    AddedPartner(rows, first, j, middle, end);
  }

  lemma {:induction false} PartnersAreMarked(rows: seq<DiffRow>, i: nat, j: nat)
    requires i < |rows| && j < |rows| && Partner(rows, i) == Some(j) && Partner(rows, j) == Some(i)
    ensures MarkedRow(rows, i) == Mark(rows[i], rows[j]) && MarkedRow(rows, j) == Mark(rows[j], rows[i])
  {
  }

  /** The k-th rows of a removed run and of the added run directly behind it, at `i` and `j`, are marked with what differs
      between them. */
  lemma {:induction false} PairsShowTheirDifference(
      rows: seq<DiffRow>, first: nat, middle: nat, end: nat, k: nat, i: nat, j: nat)
    requires AreRuns(rows, first, middle, end) && i == first + k < middle && j == middle + k < end
    ensures OnlyMarked(rows[i], MarkedRow(rows, i)) && OnlyMarked(rows[j], MarkedRow(rows, j))
    ensures ShowDifference(MarkedRow(rows, i), MarkedRow(rows, j))
  {
    RunsAreBlock(rows, first, middle, end);
    PartnersAt(rows, first, middle, end, k, i, j);
    PartnersAreMarked(rows, i, j);
    MarksShow(rows[i], rows[j]);
  }

  /** No other row is marked: not the rest of the longer run, not an added run that does not stand directly behind a removed
      one, and no row of another kind. */
  lemma {:induction false} OthersAreNotMarked(rows: seq<DiffRow>, first: nat, middle: nat, end: nat, i: nat)
    requires i < |rows|
    requires || (rows[i].kind != REMOVED && rows[i].kind != ADDED)
             || (AreRuns(rows, first, middle, end) && first <= i < end
                 && (if i < middle then middle + (i - first) >= end else first + (i - middle) >= middle))
             || (middle <= i < end <= |rows| && AllOfKind(rows, middle, end, ADDED)
                 && (middle > 0 ==> rows[middle - 1].kind != REMOVED && rows[middle - 1].kind != ADDED))
    ensures MarkedRow(rows, i) == rows[i]
  {
    if rows[i].kind != REMOVED && rows[i].kind != ADDED {
    } else if AreRuns(rows, first, middle, end) && first <= i < end {
      RunsAreBlock(rows, first, middle, end);
      if i < middle {
        RemovedPartner(rows, first, i, middle, end);
      } else {
        AddedPartner(rows, first, i, middle, end);
      }
    } else {
      RunStartIs(rows, middle, i, ADDED);
    }
  }
}
