/** What the atoms of a text are, in the codes of its characters, and where a row can end (client/_render_wrap.py). */
module WrapWords {
  import opened TextWidth
  import opened Spans
  import opened Wrap

  // ----- Atoms are the runs of blanks and of other characters -----

  /** The text is blank: it begins with a space or a tab. */
  predicate StartsBlank(text: Text)
    requires text != []
  {
    text[0].code == 32 || text[0].code == 9
  }

  /** Only spaces and tabs, or none of them. */
  predicate IsRun(text: Text) {
    && text != []
    && ((forall g <- text :: g.code == 32 || g.code == 9) || (forall g <- text :: g.code != 32 && g.code != 9))
  }

  /** Runs of one span, whose neighbours are of different kinds, and which are all of its text. */
  predicate AreRuns(span: Span, atoms: seq<Span>)
    decreases |atoms|
  {
    if atoms == [] then span.text == []
    else
      && IsRun(atoms[0].text) && atoms[0].style == span.style
      && atoms[0].text <= span.text
      && (|atoms| > 1 ==> atoms[1].text != [] && StartsBlank(atoms[0].text) != StartsBlank(atoms[1].text))
      && AreRuns(span.Sized(span.text[|atoms[0].text|..]), atoms[1..])
  }

  lemma {:induction false} RunIsRun(text: Text)
    requires text != []
    ensures var n := RunLength(text);
            && IsRun(text[..n])
            && (n < |text| ==> StartsBlank(text[..n]) != StartsBlank(text[n..]))
  {
    var n := RunLength(text);
    forall g | g in text[..n]
      ensures IsBlank(g) == IsBlank(text[0])
    {
      var i :| 0 <= i < n && text[..n][i] == g;
      assert text[i] == g;
    }
    if IsBlank(text[0]) {
      assert forall g <- text[..n] :: g.code == 32 || g.code == 9;
    } else {
      assert forall g <- text[..n] :: g.code != 32 && g.code != 9;
    }
  }

  lemma {:induction false} SpanAtomsAreRuns(span: Span)
    ensures AreRuns(span, SpanAtoms(span))
    decreases |span.text|
  {
    if span.text != [] {
      var n := RunLength(span.text);
      var rest := span.Sized(span.text[n..]);
      RunIsRun(span.text);
      SpanAtomsAreRuns(rest);
      var atoms := SpanAtoms(span);
      assert atoms[1..] == SpanAtoms(rest);
      if rest.text != [] {
        FirstAtomStarts(rest);
      }
    }
  }

  lemma {:induction false} FirstAtomStarts(span: Span)
    requires span.text != []
    ensures var atoms := SpanAtoms(span);
            atoms != [] && atoms[0].text != [] && atoms[0].text[0] == span.text[0]
  {
  }

  /** The first run of a text is as long as the run length says. */
  lemma {:induction false} FirstRunIs(span: Span, atoms: seq<Span>)
    requires AreRuns(span, atoms) && atoms != []
    ensures span.text != [] && |atoms[0].text| == RunLength(span.text)
  {
    var text, first := span.text, atoms[0].text;
    var n, m := RunLength(text), |first|;
    assert first == text[..m];
    assert first[0] == text[0];
    if m < |text| {
      NextRunStarts(span, atoms, m);
      assert IsBlank(text[m]) != IsBlank(text[0]);
    }
    if n < m {
      SameInRun(text, first, n);
    }
  }

  lemma {:induction false} SameInRun(text: Text, first: Text, i: nat)
    requires IsRun(first) && first <= text && i < |first|
    ensures IsBlank(text[i]) == IsBlank(text[0])
  {
    assert first[i] == text[i] && first[i] in first && first[0] in first;
  }

  lemma {:induction false} NextRunStarts(span: Span, atoms: seq<Span>, m: nat)
    requires AreRuns(span, atoms) && atoms != [] && m == |atoms[0].text| < |span.text|
    ensures StartsBlank(atoms[0].text) <==> !IsBlank(span.text[m])
  {
    var rest := span.text[m..];
    assert rest != [];
    assert AreRuns(span.Sized(rest), atoms[1..]);
    assert |atoms| > 1 && atoms[1..][0] == atoms[1];
    assert atoms[1].text <= rest && atoms[1].text[0] == rest[0] == span.text[m];
  }

  lemma {:induction false} RunsAreSpanAtoms(span: Span, atoms: seq<Span>)
    requires AreRuns(span, atoms)
    ensures atoms == SpanAtoms(span)
    decreases |atoms|
  {
    if atoms != [] {
      var n := |atoms[0].text|;
      FirstRunIs(span, atoms);
      RunsAreSpanAtoms(span.Sized(span.text[n..]), atoms[1..]);
      assert atoms[0].text == span.text[..n];
      assert atoms == [atoms[0]] + atoms[1..];
    }
  }

  /** The runs of each span in turn: no atom joins two spans. */
  ghost predicate AreAtoms(content: seq<Span>, atoms: seq<Span>) {
    if content == [] then atoms == []
    else exists n: nat :: n <= |atoms| && AreRuns(content[0], atoms[..n]) && AreAtoms(content[1..], atoms[n..])
  }

  lemma {:induction false} FirstAndRest(first: seq<Span>, rest: seq<Span>)
    ensures (first + rest)[..|first|] == first && (first + rest)[|first|..] == rest
  {
  }

  lemma {:induction false} AtomsAreAtoms(content: seq<Span>)
    ensures AreAtoms(content, AtomsOf(content))
  {
    if content != [] {
      var first, rest := SpanAtoms(content[0]), AtomsOf(content[1..]);
      SpanAtomsAreRuns(content[0]);
      AtomsAreAtoms(content[1..]);
      FirstAndRest(first, rest);
    }
  }

  /** The atoms of a content are the runs of its spans, and nothing else is. */
  lemma {:induction false} AtomsAreTheRuns(content: seq<Span>, atoms: seq<Span>)
    ensures AreAtoms(content, atoms) <==> atoms == AtomsOf(content)
  {
    AtomsAreAtoms(content);
    if content != [] && AreAtoms(content, atoms) {
      var n: nat :| n <= |atoms| && AreRuns(content[0], atoms[..n]) && AreAtoms(content[1..], atoms[n..]);
      RunsAreSpanAtoms(content[0], atoms[..n]);
      AtomsAreTheRuns(content[1..], atoms[n..]);
      assert atoms == atoms[..n] + atoms[n..];
    }
  }

  // ----- Where rows end -----

  predicate AllWhite(atoms: seq<Span>) {
    forall atom <- atoms :: IsSpace(atom.text)
  }

  /** The row has whole atoms: white space that may be left out, the row, white space that is left out, what is left. */
  ghost predicate HasWholeAtoms(atoms: seq<Span>, row: seq<Span>, left: seq<Span>, wrapped: bool) {
    exists lead: seq<Span>, trail: seq<Span> ::
      && atoms == lead + row + trail + left
      && AllWhite(lead) && AllWhite(trail)
      && (!wrapped ==> lead == []) && (left == [] ==> trail == [])
  }

  /** The row has as much of one atom as fits, and at least one character, because the atom is wider than the row. */
  ghost predicate CutsAtom(atoms: seq<Span>, row: seq<Span>, left: seq<Span>, available: nat, wrapped: bool) {
    exists lead: seq<Span>, atom: Span, n: nat, later: seq<Span> ::
      && atoms == lead + [atom] + later
      && AllWhite(lead) && (!wrapped ==> lead == [])
      && Width(atom.text) > available
      && CutsAt(atom.text, n, available)
      && (row == [atom.Sized(atom.text[..n])] || (row == [] && IsSpace(atom.text[..n])))
      && left == [atom.Sized(atom.text[n..])] + later
  }

  predicate CutsAt(text: Text, n: nat, available: nat) {
    && 0 < n <= |text|
    && (Width(text[..n]) <= available || n == 1)
    && (n < |text| ==> Width(text[..n + 1]) > available)
  }

  /** Each row has whole atoms, unless its only atom is wider than the row. */
  ghost predicate KeepsWords(atoms: seq<Span>, lines: seq<seq<Span>>, available: nat, rest: nat, wrapped: bool)
    decreases |lines|
  {
    && lines != []
    && exists left: seq<Span> ::
         && (HasWholeAtoms(atoms, lines[0], left, wrapped) || CutsAtom(atoms, lines[0], left, available, wrapped))
         && (|lines| == 1 <==> left == [])
         && (|lines| > 1 ==> KeepsWords(left, lines[1..], rest, rest, true))
  }

  lemma {:induction false} TrimTakesWhite(atoms: seq<Span>, current: seq<Span>) returns (trail: seq<Span>)
    ensures current == Trim(atoms, current) + trail && AllWhite(trail) && (atoms == [] ==> trail == [])
    decreases |current|
  {
    trail := [];
    if atoms != [] && current != [] && IsSpace(current[|current| - 1].text) {
      var front, last := current[..|current| - 1], current[|current| - 1];
      var earlier := TrimTakesWhite(atoms, front);
      assert current == front + [last];
      trail := earlier + [last];
    }
  }

  /** What a filled row took, before its end is trimmed. */
  ghost predicate Filled(
      atoms: seq<Span>, current: seq<Span>, line: Filling, available: nat, wrapped: bool, lead: seq<Span>)
  {
    && AllWhite(lead) && (!wrapped || current != [] ==> lead == [])
    && (|| current + atoms == lead + line.current + line.atoms
        || (current == [] && exists atom: Span, n: nat, later: seq<Span> ::
              && atoms == lead + [atom] + later && Width(atom.text) > available && CutsAt(atom.text, n, available)
              && line == Filling([atom.Sized(atom.text[n..])] + later, [atom.Sized(atom.text[..n])])))
  }

  lemma {:induction false} CutAtomCuts(atom: Span, available: nat) returns (n: nat)
    requires TextColumns(atom.text) > available >= 1
    ensures Width(atom.text) > available && CutsAt(atom.text, n, available)
    ensures CutAtom(atom, available) == Split([atom.Sized(atom.text[..n])], [atom.Sized(atom.text[n..])])
  {
    FastWidthIsWidth(atom.text);
    LongestFitIsLongest(atom.text, available);
    var fitting := LongestFit(atom.text, available);
    assert atom.text[..|atom.text|] == atom.text;
    assert [atom][1..] == [];
    assert [atom.Sized(atom.text[fitting..])] + [] == [atom.Sized(atom.text[fitting..])];
    n := if fitting == 0 then 1 else fitting;
    if n < |atom.text| {
      assert n + 1 > fitting;
    }
  }

  lemma {:induction false} FillLineFills(atoms: seq<Span>, current: seq<Span>, available: nat, wrapped: bool)
    returns (lead: seq<Span>)
    requires available >= 1 && SpansWidth(current) <= available
    ensures Filled(atoms, current, FillLine(atoms, current, available, wrapped), available, wrapped, lead)
    decreases |atoms|
  {
    lead := [];
    if atoms == [] {
      assert current + [] == [] + current + [];
      return;
    }
    var atom, rest := atoms[0], atoms[1..];
    assert atoms == [atom] + rest;
    if IsSpace(atom.text) && current == [] && wrapped {
      var later := FillLineFills(rest, [], available, wrapped);
      lead := [atom] + later;
      LeadGrows(atoms, atom, rest, FillLine(rest, [], available, wrapped), available, later, lead);
    } else if current != [] && SpansWidth(current) + TextColumns(atom.text) > available {
      assert current + atoms == [] + current + atoms;
    } else if SpansWidth(current) + TextColumns(atom.text) <= available {
      SpansWidthConcat(current, [atom]);
      CellsOne(atom);
      lead := FillLineFills(rest, current + [atom], available, wrapped);
      assert current + atoms == (current + [atom]) + rest;
    } else {
      var n := CutAtomCuts(atom, available);
      assert atoms == [] + [atom] + rest;
    }
  }

  lemma {:induction false} LeadGrows(
      atoms: seq<Span>, atom: Span, rest: seq<Span>, line: Filling, available: nat, later: seq<Span>, lead: seq<Span>)
    requires atoms == [atom] + rest && IsSpace(atom.text) && lead == [atom] + later
    requires Filled(rest, [], line, available, true, later)
    ensures Filled(atoms, [], line, available, true, lead)
  {
    assert [] + rest == rest && [] + atoms == atoms;
    if rest == later + line.current + line.atoms {
      assert atoms == [atom] + (later + line.current + line.atoms);
      assert [atom] + (later + line.current + line.atoms) == lead + line.current + line.atoms;
    } else {
      var wide: Span, n: nat, behind: seq<Span> :|
        && rest == later + [wide] + behind && Width(wide.text) > available && CutsAt(wide.text, n, available)
        && line == Filling([wide.Sized(wide.text[n..])] + behind, [wide.Sized(wide.text[..n])]);
      assert atoms == lead + [wide] + behind;
    }
  }

  lemma {:induction false} TrimOne(atoms: seq<Span>, piece: Span)
    ensures Trim(atoms, [piece]) == [piece] || (Trim(atoms, [piece]) == [] && IsSpace(piece.text))
  {
    assert [piece][..0] == [];
  }

  lemma {:induction false} RowKeepsWords(atoms: seq<Span>, available: nat, wrapped: bool)
    requires available >= 1
    ensures var line := FillLine(atoms, [], available, wrapped);
            var row := Trim(line.atoms, line.current);
            HasWholeAtoms(atoms, row, line.atoms, wrapped) || CutsAtom(atoms, row, line.atoms, available, wrapped)
  {
    var line := FillLine(atoms, [], available, wrapped);
    var lead := FillLineFills(atoms, [], available, wrapped);
    if [] + atoms == lead + line.current + line.atoms {
      var trail := TrimTakesWhite(line.atoms, line.current);
      WholeRow(atoms, lead, line.current, Trim(line.atoms, line.current), trail, line.atoms);
    } else {
      TrimOne(line.atoms, line.current[0]);
    }
  }

  lemma {:induction false} WholeRow(
      atoms: seq<Span>, lead: seq<Span>, current: seq<Span>, row: seq<Span>, trail: seq<Span>, left: seq<Span>)
    requires [] + atoms == lead + current + left && current == row + trail
    ensures atoms == lead + row + trail + left
  {
    assert [] + atoms == atoms;
    assert lead + (row + trail) + left == lead + row + trail + left;
  }

  lemma {:induction false} FirstKeepsWords(
      atoms: seq<Span>, lines: seq<seq<Span>>, left: seq<Span>, available: nat, rest: nat, wrapped: bool)
    requires lines != [] && (|lines| == 1 <==> left == [])
    requires HasWholeAtoms(atoms, lines[0], left, wrapped) || CutsAtom(atoms, lines[0], left, available, wrapped)
    requires |lines| > 1 ==> KeepsWords(left, lines[1..], rest, rest, true)
    ensures KeepsWords(atoms, lines, available, rest, wrapped)
  {
  }

  lemma {:induction false} LinesKeepWords(atoms: seq<Span>, available: nat, rest: nat, wrapped: bool)
    requires available >= 1 && rest >= 1
    ensures KeepsWords(atoms, Lines(atoms, available, rest, wrapped), available, rest, wrapped)
    decreases Measure(atoms)
  {
    var line := FillLine(atoms, [], available, wrapped);
    var lines := Lines(atoms, available, rest, wrapped);
    RowKeepsWords(atoms, available, wrapped);
    if line.atoms != [] {
      LinesKeepWords(line.atoms, rest, rest, true);
      assert lines[1..] == Lines(line.atoms, rest, rest, true);
    }
    FirstKeepsWords(atoms, lines, line.atoms, available, rest, wrapped);
  }

  /** For every content and width: the content falls into words and blanks by the codes of its characters, and a row ends
      inside one of them only when it is wider than the row; then the row has it alone, and as much of it as fits. */
  lemma {:induction false} WordsStayWhole(content: seq<Span>, available: nat, rest: nat)
    requires available >= 1 && rest >= 1
    ensures exists atoms ::
              AreAtoms(content, atoms) && KeepsWords(atoms, Lines(AtomsOf(content), available, rest, false), available, rest, false)
  {
    AtomsAreTheRuns(content, AtomsOf(content));
    LinesKeepWords(AtomsOf(content), available, rest, false);
  }

  // ----- White space beside a break -----

  lemma {:induction false} FilledStartsVisibly(atoms: seq<Span>, current: seq<Span>, available: nat)
    requires available >= 1 && SpansWidth(current) <= available
    requires current != [] ==> !IsSpace(current[0].text)
    ensures var row := FillLine(atoms, current, available, true).current;
            |row| > 1 ==> !IsSpace(row[0].text)
    ensures var line := FillLine(atoms, current, available, true);
            line.atoms == [] && line.current != [] ==> !IsSpace(line.current[0].text)
    decreases |atoms|
  {
    if atoms != [] {
      var atom, columns := atoms[0], TextColumns(atoms[0].text);
      if IsSpace(atom.text) && current == [] {
        FilledStartsVisibly(atoms[1..], current, available);
      } else if SpansWidth(current) + columns <= available {
        SpansWidthConcat(current, [atom]);
        CellsOne(atom);
        FilledStartsVisibly(atoms[1..], current + [atom], available);
      }
    }
  }

  lemma {:induction false} TrimmedEndsVisibly(atoms: seq<Span>, current: seq<Span>)
    ensures var row := Trim(atoms, current);
            && row <= current
            && (atoms != [] && row != [] ==> !IsSpace(row[|row| - 1].text))
    decreases |current|
  {
    if atoms != [] && current != [] && IsSpace(current[|current| - 1].text) {
      TrimmedEndsVisibly(atoms, current[..|current| - 1]);
    }
  }

  lemma {:induction false} RowHasNoOuterSpace(atoms: seq<Span>, available: nat, wrapped: bool)
    requires available >= 1
    ensures var line := FillLine(atoms, [], available, wrapped);
            var row := Trim(line.atoms, line.current);
            && (line.atoms != [] && row != [] ==> !IsSpace(row[|row| - 1].text))
            && (wrapped && row != [] ==> !IsSpace(row[0].text))
  {
    var line := FillLine(atoms, [], available, wrapped);
    TrimmedEndsVisibly(line.atoms, line.current);
    if wrapped {
      FilledStartsVisibly(atoms, [], available);
    }
  }

  /** No row but the last ends with white space of its own, and no row but the first begins with any. */
  lemma {:induction false} RowsHaveNoOuterSpace(atoms: seq<Span>, available: nat, rest: nat, wrapped: bool, k: nat)
    requires available >= 1 && rest >= 1 && k < |Lines(atoms, available, rest, wrapped)|
    ensures var lines := Lines(atoms, available, rest, wrapped);
            lines[k] != [] ==>
              && (k < |lines| - 1 ==> !IsSpace(lines[k][|lines[k]| - 1].text))
              && (wrapped || k > 0 ==> !IsSpace(lines[k][0].text))
    decreases Measure(atoms)
  {
    var line := FillLine(atoms, [], available, wrapped);
    var lines := Lines(atoms, available, rest, wrapped);
    RowHasNoOuterSpace(atoms, available, wrapped);
    if line.atoms != [] {
      assert lines[1..] == Lines(line.atoms, rest, rest, true);
      if k > 0 {
        RowsHaveNoOuterSpace(line.atoms, rest, rest, true, k - 1);
      }
    }
  }
}
