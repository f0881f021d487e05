/** What the greedy wrap promises: no character is lost, rows fit, and no layout has fewer rows. */
module WrapLaws {
  import opened TextWidth
  import opened Spans
  import opened Wrap

  ghost predicate AllSpace(row: Row) {
    forall cell <- row :: cell.glyph.space
  }

  // ----- Conservation -----

  /** The content is the rows in order, and the characters missing between two rows are white space. */
  ghost predicate BrokenAtSpace(content: Row, rows: seq<Row>)
    decreases |rows|
  {
    && rows != []
    && if |rows| == 1 then content == rows[0]
       else exists at: nat :: BreaksAt(content, rows[0], at) && BrokenAtSpace(content[at..], rows[1..])
  }

  /** The content starts with the row, and from there to the next row there is only white space. */
  ghost predicate BreaksAt(content: Row, row: Row, at: nat) {
    |row| <= at <= |content| && content[..|row|] == row && AllSpace(content[|row|..at])
  }

  function RowsOfLines(lines: seq<seq<Span>>): (rows: seq<Row>)
    ensures |rows| == |lines|
  {
    if lines == [] then [] else [Cells(lines[0])] + RowsOfLines(lines[1..])
  }

  lemma {:induction false} SpaceSpanCells(span: Span)
    requires IsSpace(span.text)
    ensures AllSpace(SpanCells(span))
  {
  }

  /** Filling a row splits the atoms: white space dropped before it, the row, and the atoms left. */
  lemma {:induction false} FillLineKeepsText(atoms: seq<Span>, current: seq<Span>, available: nat, wrapped: bool)
    returns (lead: Row)
    requires available >= 1 && SpansWidth(current) <= available
    ensures var line := FillLine(atoms, current, available, wrapped);
            && AllSpace(lead)
            && (current != [] || !wrapped ==> lead == [])
            && Cells(current) + Cells(atoms) == lead + (Cells(line.current) + Cells(line.atoms))
    decreases |atoms|, 0
  {
    lead := [];
    if atoms == [] {
      return;
    }
    var atom := atoms[0];
    var columns := TextColumns(atom.text);
    CellsCons(atom, atoms[1..]);
    assert [atom] + atoms[1..] == atoms;
    if IsSpace(atom.text) && current == [] && wrapped {
      lead := DiscardKeepsText(atom, atoms[1..], available);
    } else if current != [] && SpansWidth(current) + columns > available {
    } else if SpansWidth(current) + columns <= available {
      SpansWidthConcat(current, [atom]);
      CellsOne(atom);
      CellsAppend(current, atom);
      Regroup(Cells(current), SpanCells(atom), Cells(atoms[1..]));
      lead := FillLineKeepsText(atoms[1..], current + [atom], available, wrapped);
    } else {
      CutAtomKeepsText(atom, available);
      var split := CutAtom(atom, available);
      CellsConcat(split.remaining, atoms[1..]);
      Regroup(Cells(split.taken), Cells(split.remaining), Cells(atoms[1..]));
    }
  }

  lemma {:induction false} DiscardKeepsText(atom: Span, later: seq<Span>, available: nat) returns (lead: Row)
    requires available >= 1 && IsSpace(atom.text)
    ensures var line := FillLine(later, [], available, true);
            AllSpace(lead) && SpanCells(atom) + Cells(later) == lead + (Cells(line.current) + Cells(line.atoms))
    decreases |later|, 1
  {
    var line := FillLine(later, [], available, true);
    var next := FillLineKeepsText(later, [], available, true);
    assert Cells([]) + Cells(later) == Cells(later);
    Regroup(SpanCells(atom), next, Cells(line.current) + Cells(line.atoms));
    SpaceSpanCells(atom);
    lead := SpanCells(atom) + next;
  }

  lemma {:induction false} CutAtomKeepsText(atom: Span, room: nat)
    requires TextColumns(atom.text) > room >= 1
    ensures var split := CutAtom(atom, room);
            Cells(split.taken) + Cells(split.remaining) == SpanCells(atom)
  {
    CellsOne(atom);
    TakeSplitsWithoutLoss([atom], room);
    var first := FirstCharacter(atom);
    SpanCellsSplit(atom, 1);
    CellsOne(first.taken[0]);
    CellsOne(first.remaining[0]);
  }

  lemma {:induction false} TrimKeepsText(atoms: seq<Span>, current: seq<Span>) returns (trail: Row)
    ensures AllSpace(trail) && (atoms == [] ==> trail == [])
    ensures Cells(current) == Cells(Trim(atoms, current)) + trail
    decreases |current|
  {
    trail := [];
    if atoms != [] && current != [] && IsSpace(current[|current| - 1].text) {
      var front, last := current[..|current| - 1], current[|current| - 1];
      var earlier := TrimKeepsText(atoms, front);
      assert current == front + [last];
      CellsAppend(front, last);
      SpaceSpanCells(last);
      trail := earlier + SpanCells(last);
    }
  }

  lemma {:induction false} RowKeepsText(atoms: seq<Span>, available: nat, wrapped: bool) returns (lead: Row, trail: Row)
    requires available >= 1
    ensures var line := FillLine(atoms, [], available, wrapped);
            && AllSpace(lead) && (!wrapped ==> lead == [])
            && AllSpace(trail) && (line.atoms == [] ==> trail == [])
            && Cells(atoms) == lead + (Cells(Trim(line.atoms, line.current)) + (trail + Cells(line.atoms)))
  {
    var line := FillLine(atoms, [], available, wrapped);
    lead := FillLineKeepsText(atoms, [], available, wrapped);
    trail := TrimKeepsText(line.atoms, line.current);
    assert Cells([]) + Cells(atoms) == Cells(atoms);
    Regroup(Cells(Trim(line.atoms, line.current)), trail, Cells(line.atoms));
  }

  lemma {:induction false} LinesKeepText(atoms: seq<Span>, available: nat, rest: nat, wrapped: bool)
    returns (lead: Row)
    requires available >= 1 && rest >= 1
    ensures AllSpace(lead) && (!wrapped ==> lead == [])
    ensures lead <= Cells(atoms)
    ensures BrokenAtSpace(Cells(atoms)[|lead|..], RowsOfLines(Lines(atoms, available, rest, wrapped)))
    decreases Measure(atoms)
  {
    var trail;
    lead, trail := RowKeepsText(atoms, available, wrapped);
    var line := FillLine(atoms, [], available, wrapped);
    var row := Cells(Trim(line.atoms, line.current));
    var content := Cells(atoms)[|lead|..];
    assert content == row + (trail + Cells(line.atoms));
    if line.atoms == [] {
      assert content == row;
      assert RowsOfLines([Trim(line.atoms, line.current)]) == [row];
    } else {
      var next := LinesKeepText(line.atoms, rest, rest, true);
      FirstBreak(content, row, trail, next, Cells(line.atoms), RowsOfLines(Lines(line.atoms, rest, rest, true)));
      LinesUnfold(atoms, available, rest, wrapped);
    }
  }

  lemma {:induction false} LinesUnfold(atoms: seq<Span>, available: nat, rest: nat, wrapped: bool)
    requires available >= 1 && rest >= 1
    requires FillLine(atoms, [], available, wrapped).atoms != []
    ensures var line := FillLine(atoms, [], available, wrapped);
            RowsOfLines(Lines(atoms, available, rest, wrapped))
            == [Cells(Trim(line.atoms, line.current))] + RowsOfLines(Lines(line.atoms, rest, rest, true))
  {
    var line := FillLine(atoms, [], available, wrapped);
    var lines := Lines(atoms, available, rest, wrapped);
    assert lines[1..] == Lines(line.atoms, rest, rest, true);
  }

  lemma {:induction false} AllSpaceConcat(a: Row, b: Row)
    requires AllSpace(a) && AllSpace(b)
    ensures AllSpace(a + b)
  {
  }

  lemma {:induction false} BreakWith(content: Row, row: Row, at: nat, later: seq<Row>)
    requires BreaksAt(content, row, at) && BrokenAtSpace(content[at..], later)
    ensures BrokenAtSpace(content, [row] + later)
  {
    assert ([row] + later)[1..] == later;
  }

  lemma {:induction false} GapAfterRow(content: Row, row: Row, trail: Row, next: Row, left: Row, at: nat)
    requires content == row + (trail + left) && next <= left && at == |row| + |trail| + |next|
    ensures at <= |content| && content[..|row|] == row
    ensures content[|row|..at] == trail + next && content[at..] == left[|next|..]
  {
    assert left == next + left[|next|..];
  }

  lemma {:induction false} FirstBreak(content: Row, row: Row, trail: Row, next: Row, left: Row, later: seq<Row>)
    requires content == row + (trail + left)
    requires AllSpace(trail) && AllSpace(next) && next <= left
    requires BrokenAtSpace(left[|next|..], later)
    ensures BrokenAtSpace(content, [row] + later)
  {
    var at := |row| + |trail| + |next|;
    GapAfterRow(content, row, trail, next, left, at);
    AllSpaceConcat(trail, next);
    BreakWith(content, row, at, later);
  }

  /** For every width and content, the rows hold all characters once, in order and with their styles,
      except white space dropped beside a row break. */
  lemma {:induction false} WrapConserves(content: seq<Span>, available: nat, rest: nat)
    requires available >= 1 && rest >= 1
    ensures BrokenAtSpace(Cells(content), RowsOfLines(Lines(AtomsOf(content), available, rest, false)))
  {
    AtomsKeepTheText(content);
    var lead := LinesKeepText(AtomsOf(content), available, rest, false);
    assert Cells(content)[0..] == Cells(content);
  }

  function Visible(row: Row): Row {
    if row == [] then []
    else (if row[0].glyph.space then [] else [row[0]]) + Visible(row[1..])
  }

  function Joined(rows: seq<Row>): Row {
    if rows == [] then [] else rows[0] + Joined(rows[1..])
  }

  lemma {:induction false} VisibleConcat(a: Row, b: Row)
    ensures Visible(a + b) == Visible(a) + Visible(b)
  {
    if a == [] {
      assert a + b == b;
    } else {
      assert (a + b)[1..] == a[1..] + b;
      VisibleConcat(a[1..], b);
    }
  }

  lemma {:induction false} SpaceIsInvisible(gap: Row)
    requires AllSpace(gap)
    ensures Visible(gap) == []
  {
    if gap != [] {
      SpaceIsInvisible(gap[1..]);
    }
  }

  lemma {:induction false} FirstRowVisible(content: Row, rows: seq<Row>, at: nat)
    requires rows != [] && BreaksAt(content, rows[0], at)
    requires Visible(Joined(rows[1..])) == Visible(content[at..])
    ensures Visible(Joined(rows)) == Visible(content)
  {
    VisibleAfterBreak(content, rows[0], at);
    VisibleConcat(rows[0], Joined(rows[1..]));
  }

  lemma {:induction false} BrokenKeepsVisible(content: Row, rows: seq<Row>)
    requires BrokenAtSpace(content, rows)
    ensures Visible(Joined(rows)) == Visible(content)
    decreases |rows|
  {
    if |rows| == 1 {
      assert rows[1..] == [];
      assert Joined(rows) == rows[0];
    } else {
      var at: nat :| BreaksAt(content, rows[0], at) && BrokenAtSpace(content[at..], rows[1..]);
      BrokenKeepsVisible(content[at..], rows[1..]);
      FirstRowVisible(content, rows, at);
    }
  }

  lemma {:induction false} VisibleAfterBreak(content: Row, row: Row, at: nat)
    requires BreaksAt(content, row, at)
    ensures Visible(content) == Visible(row) + Visible(content[at..])
  {
    var gap, later := content[|row|..at], content[at..];
    assert content == (row + gap) + later;
    VisibleConcat(row + gap, later);
    VisibleConcat(row, gap);
    SpaceIsInvisible(gap);
  }

  /** All characters that are not white space come out once, in order and with their styles. */
  lemma {:induction false} WrapKeepsVisible(content: seq<Span>, available: nat, rest: nat)
    requires available >= 1 && rest >= 1
    ensures Visible(Joined(RowsOfLines(Lines(AtomsOf(content), available, rest, false)))) == Visible(Cells(content))
  {
    WrapConserves(content, available, rest);
    BrokenKeepsVisible(Cells(content), RowsOfLines(Lines(AtomsOf(content), available, rest, false)));
  }

  // ----- Rows fit -----

  /** A row fits its columns, or it is one single wider character. */
  ghost predicate Fits(line: seq<Span>, available: nat) {
    SpansWidth(line) <= available || |Cells(line)| == 1
  }

  lemma {:induction false} FilledLineFits(atoms: seq<Span>, current: seq<Span>, available: nat, wrapped: bool)
    requires available >= 1 && SpansWidth(current) <= available
    ensures Fits(FillLine(atoms, current, available, wrapped).current, available)
    decreases |atoms|
  {
    if atoms == [] {
      return;
    }
    var atom := atoms[0];
    var columns := TextColumns(atom.text);
    if IsSpace(atom.text) && current == [] && wrapped {
      FilledLineFits(atoms[1..], current, available, wrapped);
    } else if current != [] && SpansWidth(current) + columns > available {
    } else if SpansWidth(current) + columns <= available {
      SpansWidthConcat(current, [atom]);
      CellsOne(atom);
      FilledLineFits(atoms[1..], current + [atom], available, wrapped);
    } else {
      TakeSplitsWithoutLoss([atom], available);
      CellsOne(FirstCharacter(atom).taken[0]);
    }
  }

  lemma {:induction false} TrimmedLineFits(atoms: seq<Span>, current: seq<Span>, available: nat)
    requires Fits(current, available)
    ensures Fits(Trim(atoms, current), available)
    decreases |current|
  {
    if atoms != [] && current != [] && IsSpace(current[|current| - 1].text) {
      var front, last := current[..|current| - 1], current[|current| - 1];
      assert current == front + [last];
      SpansWidthConcat(front, [last]);
      CellsAppend(front, last);
      if SpansWidth(current) > available {
        assert |Cells(front)| == 0;
        SpansWidthIsRowWidth(front);
      }
      TrimmedLineFits(atoms, front, available);
    }
  }

  /** Every row fits the columns left by its prefix, unless it is one single wider character. */
  lemma {:induction false} WrapFits(atoms: seq<Span>, available: nat, rest: nat, wrapped: bool)
    requires available >= 1 && rest >= 1
    ensures var lines := Lines(atoms, available, rest, wrapped);
            && Fits(lines[0], available)
            && forall k :: 1 <= k < |lines| ==> Fits(lines[k], rest)
    decreases Measure(atoms)
  {
    var line := FillLine(atoms, [], available, wrapped);
    FilledLineFits(atoms, [], available, wrapped);
    TrimmedLineFits(line.atoms, line.current, available);
    if line.atoms != [] {
      WrapFits(line.atoms, rest, rest, true);
    }
  }
}
