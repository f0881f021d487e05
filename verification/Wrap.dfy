/** The greedy word wrap of one logical line (client/_render_wrap.py). */
module Wrap {
  import opened TextWidth
  import opened Spans
  import opened Wrappers

  /** `str.isspace()`: not empty, and each character is white space. */
  predicate IsSpace(text: Text) {
    text != [] && forall g <- text :: g.space
  }

  predicate IsBlank(g: Glyph) {
    g.code == BLANK || g.code == TAB
  }

  // ----- Atoms: the longest runs of blanks and of other characters -----

  function RunLength(text: Text): (n: nat)
    requires text != []
    ensures 1 <= n <= |text|
    ensures forall i :: 0 <= i < n ==> IsBlank(text[i]) == IsBlank(text[0])
    ensures n < |text| ==> IsBlank(text[n]) != IsBlank(text[0])
  {
    if |text| == 1 || IsBlank(text[1]) != IsBlank(text[0]) then 1 else 1 + RunLength(text[1..])
  }

  function SpanAtoms(span: Span): (atoms: seq<Span>)
    ensures forall atom <- atoms :: atom.text != [] && atom.style == span.style
    decreases |span.text|
  {
    if span.text == [] then []
    else
      var n := RunLength(span.text);
      [span.Sized(span.text[..n])] + SpanAtoms(span.Sized(span.text[n..]))
  }

  function AtomsOf(content: seq<Span>): (atoms: seq<Span>)
    ensures forall atom <- atoms :: atom.text != []
  {
    if content == [] then [] else SpanAtoms(content[0]) + AtomsOf(content[1..])
  }

  /** Collect the atoms span by span. */
  method ContentAtoms(content: seq<Span>) returns (atoms: seq<Span>)
    ensures atoms == AtomsOf(content)
  {
    atoms := [];
    for k := 0 to |content|
      invariant atoms + AtomsOf(content[k..]) == AtomsOf(content)
    {
      assert content[k..][1..] == content[k + 1..];
      Regroup(atoms, SpanAtoms(content[k]), AtomsOf(content[k + 1..]));
      atoms := atoms + SpanAtoms(content[k]);
    }
    assert atoms + [] == atoms;
  }

  lemma {:induction false} SpanAtomsKeepTheText(span: Span)
    ensures Cells(SpanAtoms(span)) == SpanCells(span)
    decreases |span.text|
  {
    if span.text != [] {
      var n := RunLength(span.text);
      var rest := span.Sized(span.text[n..]);
      SpanAtomsKeepTheText(rest);
      CellsCons(span.Sized(span.text[..n]), SpanAtoms(rest));
      SpanCellsSplit(span, n);
    }
  }

  /** Splitting into atoms loses no character and no style. */
  lemma {:induction false} AtomsKeepTheText(content: seq<Span>)
    ensures Cells(AtomsOf(content)) == Cells(content)
  {
    if content != [] {
      AtomsKeepTheText(content[1..]);
      SpanAtomsKeepTheText(content[0]);
      CellsConcat(SpanAtoms(content[0]), AtomsOf(content[1..]));
    }
  }

  // ----- The wrap as a function on values -----

  /** Characters and atoms that are still to be placed. An empty atom counts, because it can make a row. */
  function Measure(atoms: seq<Span>): nat {
    if atoms == [] then 0 else |atoms[0].text| + 1 + Measure(atoms[1..])
  }

  lemma {:induction false} MeasureConcat(a: seq<Span>, b: seq<Span>)
    ensures Measure(a + b) == Measure(a) + Measure(b)
  {
    if a == [] {
      assert a + b == b;
    } else {
      assert (a + b)[1..] == a[1..] + b;
      MeasureConcat(a[1..], b);
    }
  }

  datatype Filling = Filling(atoms: seq<Span>, current: seq<Span>)

  /** The first character of an atom, and the rest of it, which can be empty. */
  function FirstCharacter(atom: Span): Split
    requires atom.text != []
  {
    Split([atom.Sized(atom.text[..1])], [atom.Sized(atom.text[1..])])
  }

  /** How an atom wider than its row is divided. */
  function CutAtom(atom: Span, room: nat): (split: Split)
    requires TextColumns(atom.text) > room >= 1
    ensures |split.taken| == |split.remaining| == 1
    ensures split.taken[0].text != []
    ensures |split.taken[0].text| + |split.remaining[0].text| == |atom.text|
  {
    CutSplitsOneSpan(atom, room);
    var split := TakeSplit([atom], room);
    assert [atom][1..] == [];
    if split.taken == [] then FirstCharacter(atom) else split
  }

  /** Put atoms on the current row until one does not fit. `wrapped` is true after the first row. */
  function FillLine(atoms: seq<Span>, current: seq<Span>, available: nat, wrapped: bool): (line: Filling)
    requires available >= 1
    requires SpansWidth(current) <= available
    ensures Measure(line.atoms) <= Measure(atoms)
    ensures atoms != [] && current == [] ==> Measure(line.atoms) < Measure(atoms)
    decreases |atoms|
  {
    if atoms == [] then Filling(atoms, current)
    else
      var atom := atoms[0];
      var columns := TextColumns(atom.text);
      if IsSpace(atom.text) && current == [] && wrapped then
        FillLine(atoms[1..], current, available, wrapped)
      else if current != [] && SpansWidth(current) + columns > available then
        Filling(atoms, current)
      else if SpansWidth(current) + columns <= available then
        SpansWidthConcat(current, [atom]);
        CellsOne(atom);
        FillLine(atoms[1..], current + [atom], available, wrapped)
      else
        var split := CutAtom(atom, available);
        assert split.remaining[1..] == [];
        MeasureConcat(split.remaining, atoms[1..]);
        Filling(split.remaining + atoms[1..], split.taken)
  }

  /** Drop the white space at the end of a row that is not the last one. */
  function Trim(atoms: seq<Span>, current: seq<Span>): seq<Span> {
    if atoms != [] && current != [] && IsSpace(current[|current| - 1].text)
    then Trim(atoms, current[..|current| - 1])
    else current
  }

  /** The content of each row: the first row has `available` columns and the others have `rest`. */
  function Lines(atoms: seq<Span>, available: nat, rest: nat, wrapped: bool): (lines: seq<seq<Span>>)
    requires available >= 1 && rest >= 1
    ensures |lines| >= 1
    decreases Measure(atoms)
  {
    var line := FillLine(atoms, [], available, wrapped);
    [Trim(line.atoms, line.current)]
    + if line.atoms == [] then [] else Lines(line.atoms, rest, rest, true)
  }

  function Available(width: int, prefix: seq<Span>): (columns: nat)
    ensures columns >= 1
  {
    var left := width - SpansWidth(prefix);
    if left > 1 then left else 1
  }

  function PaintLines(lines: seq<seq<Span>>, prefix: seq<Span>, continuation: seq<Span>, width: int, background: Option<nat>)
    : (painted: seq<Row>)
    ensures |painted| == |lines|
  {
    if lines == [] then []
    else [Painted(prefix + lines[0], width, background)]
         + PaintLines(lines[1..], continuation, continuation, width, background)
  }

  lemma {:induction false} PaintLinesAppend(
    lines: seq<seq<Span>>, line: seq<Span>, prefix: seq<Span>, continuation: seq<Span>, width: int, background: Option<nat>)
    ensures PaintLines(lines + [line], prefix, continuation, width, background)
         == PaintLines(lines, prefix, continuation, width, background)
            + [Painted((if lines == [] then prefix else continuation) + line, width, background)]
  {
    if lines == [] {
      assert lines + [line] == [line];
      assert [line][1..] == [];
    } else {
      assert (lines + [line])[1..] == lines[1..] + [line];
      PaintLinesAppend(lines[1..], line, continuation, continuation, width, background);
    }
  }

  // ----- The state of one wrap -----

  class WrapState {
    var atoms: seq<Span>
    var linePrefix: seq<Span>
    var painted: seq<Row>
    var current: seq<Span>
    var used: nat
    const continuation: seq<Span>
    const width: int
    const background: Option<nat>

    constructor (atoms: seq<Span>, first: seq<Span>, rest: seq<Span>, width: int, background: Option<nat>)
      ensures this.atoms == atoms && linePrefix == first && continuation == rest
      ensures this.width == width && this.background == background
      ensures painted == [] && current == [] && used == 0
    {
      this.atoms, linePrefix, continuation := atoms, first, rest;
      this.width, this.background := width, background;
      painted, current, used := [], [], 0;
    }

    method Paint() returns (rows: seq<Row>)
      requires painted == [] && current == [] && used == 0
      modifies this
      ensures var lines := Lines(old(atoms), Available(width, old(linePrefix)), Available(width, continuation), false);
              rows == painted == PaintLines(lines, old(linePrefix), continuation, width, background)
      ensures atoms == []
    {
      ghost var first, available, rest := linePrefix, Available(width, linePrefix), Available(width, continuation);
      ghost var all := Lines(atoms, available, rest, false);
      ghost var lines: seq<seq<Span>> := [];
      assert lines + all == all;
      while atoms != [] || painted == []
        invariant |painted| == |lines|
        invariant painted == PaintLines(lines, first, continuation, width, background)
        invariant linePrefix == if lines == [] then first else continuation
        invariant current == [] && used == 0
        invariant all == lines + if atoms == [] && lines != [] then []
                                 else Lines(atoms, Available(width, linePrefix), rest, lines != [])
        decreases Measure(atoms), if painted == [] then 1 else 0
      {
        FillRow();
        TrimRow();
        PaintLinesAppend(lines, current, first, continuation, width, background);
        Regroup(lines, [current], if atoms == [] then [] else Lines(atoms, rest, rest, true));
        lines := lines + [current];
        painted := painted + [Painted(linePrefix + current, width, background)];
        linePrefix := continuation;
        current := [];
        used := 0;
      }
      assert lines + [] == lines;
      return painted;
    }

    /** Drop the white space before a break. */
    method TrimRow()
      modifies this`current
      ensures current == Trim(atoms, old(current))
    {
      while atoms != [] && current != [] && IsSpace(current[|current| - 1].text)
        invariant Trim(atoms, current) == Trim(atoms, old(current))
        decreases |current|
      {
        current := current[..|current| - 1];
      }
    }

    /** Fill the current row from the atoms. */
    method FillRow()
      requires current == [] && used == 0
      modifies this`atoms, this`current, this`used
      ensures FillLine(old(atoms), [], Available(width, linePrefix), painted != []) == Filling(atoms, current)
    {
      var available := Available(width, linePrefix);
      ghost var target := FillLine(atoms, [], available, painted != []);
      while atoms != []
        invariant used == SpansWidth(current) <= available
        invariant FillLine(atoms, current, available, painted != []) == target
        decreases |atoms|
      {
        var atom := atoms[0];
        if DiscardLeadingSpace(atom) {
          atoms := atoms[1..];
          continue;
        }
        var full := AppendAtom(atom, available);
        if full {
          break;
        }
      }
    }

    predicate DiscardLeadingSpace(atom: Span)
      reads this
    {
      IsSpace(atom.text) && current == [] && painted != []
    }

    /** Place one atom. The result is true when the row is full. */
    method AppendAtom(atom: Span, available: nat) returns (full: bool)
      requires atoms != [] && atom == atoms[0]
      requires available >= 1 && used == SpansWidth(current) <= available
      requires !DiscardLeadingSpace(atom)
      modifies this`atoms, this`current, this`used
      ensures full ==> FillLine(old(atoms), old(current), available, painted != []) == Filling(atoms, current)
      ensures !full ==>
                && |atoms| < |old(atoms)|
                && used == SpansWidth(current) <= available
                && FillLine(old(atoms), old(current), available, painted != [])
                   == FillLine(atoms, current, available, painted != [])
    {
      var columns := TextColumns(atom.text);
      if current != [] && used + columns > available {
        return true;
      }
      atoms := atoms[1..];
      var room := available - used;
      if columns <= room {
        SpansWidthConcat(current, [atom]);
        CellsOne(atom);
        current := current + [atom];
        used := used + columns;
        return false;
      }
      var split := Take([atom], room);
      var head, tail := split.taken, split.remaining;
      if head == [] && current == [] {
        assert atom.text != [];
        var first := FirstCharacter(atom);
        head, tail := first.taken, first.remaining;
      }
      current := current + head;
      atoms := tail + atoms;
      return true;
    }
  }
}
