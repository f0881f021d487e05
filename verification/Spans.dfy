/** Styled runs of text (client/_render_span_operations.py, client/_render_styles.py). */
module Spans {
  import opened TextWidth
  import opened Wrappers

  datatype Style = Style(color: Option<nat>, background: Option<nat>, bold: bool, dim: bool, link: Option<string>)

  datatype Span = Span(text: Text, style: Style) {
    /** The same style on another text. */
    function Sized(other: Text): Span {
      Span(other, style)
    }
  }

  /** One painted character. */
  datatype Cell = Cell(glyph: Glyph, style: Style)

  type Row = seq<Cell>

  const PLAIN := Style(None, None, false, false, None)
  const SPACE: Glyph := Glyph(BLANK, false, false, true)

  function SpanCells(span: Span): (cells: Row)
    ensures |cells| == |span.text|
  {
    seq(|span.text|, i requires 0 <= i < |span.text| => Cell(span.text[i], span.style))
  }

  /** The characters of the spans, each with its style. */
  function Cells(spans: seq<Span>): Row {
    if spans == [] then [] else SpanCells(spans[0]) + Cells(spans[1..])
  }

  function SpansWidth(spans: seq<Span>): nat {
    if spans == [] then 0 else TextColumns(spans[0].text) + SpansWidth(spans[1..])
  }

  function RowWidth(row: Row): nat {
    if row == [] then 0 else CharWidth(row[0].glyph) + RowWidth(row[1..])
  }

  lemma {:induction false} CellsConcat(a: seq<Span>, b: seq<Span>)
    ensures Cells(a + b) == Cells(a) + Cells(b)
  {
    if a == [] {
      assert a + b == b;
    } else {
      assert (a + b)[1..] == a[1..] + b;
      CellsConcat(a[1..], b);
    }
  }

  lemma {:induction false} SpansWidthConcat(a: seq<Span>, b: seq<Span>)
    ensures SpansWidth(a + b) == SpansWidth(a) + SpansWidth(b)
  {
    if a == [] {
      assert a + b == b;
    } else {
      assert (a + b)[1..] == a[1..] + b;
      SpansWidthConcat(a[1..], b);
    }
  }

  lemma {:induction false} RowWidthConcat(a: Row, b: Row)
    ensures RowWidth(a + b) == RowWidth(a) + RowWidth(b)
  {
    if a == [] {
      assert a + b == b;
    } else {
      assert (a + b)[1..] == a[1..] + b;
      RowWidthConcat(a[1..], b);
    }
  }

  lemma {:induction false} SpanCellsWidth(span: Span)
    ensures RowWidth(SpanCells(span)) == Width(span.text)
    decreases |span.text|
  {
    if span.text != [] {
      var rest := span.Sized(span.text[1..]);
      assert SpanCells(span)[1..] == SpanCells(rest);
      SpanCellsWidth(rest);
    }
  }

  /** The width of the spans is the width of their characters. */
  lemma {:induction false} SpansWidthIsRowWidth(spans: seq<Span>)
    ensures SpansWidth(spans) == RowWidth(Cells(spans))
  {
    if spans != [] {
      SpansWidthIsRowWidth(spans[1..]);
      RowWidthConcat(SpanCells(spans[0]), Cells(spans[1..]));
      SpanCellsWidth(spans[0]);
      FastWidthIsWidth(spans[0].text);
    }
  }

  lemma {:induction false} CellsCons(span: Span, rest: seq<Span>)
    ensures Cells([span] + rest) == SpanCells(span) + Cells(rest)
    ensures SpansWidth([span] + rest) == TextColumns(span.text) + SpansWidth(rest)
  {
    assert ([span] + rest)[1..] == rest;
  }

  lemma {:induction false} Regroup<T>(a: seq<T>, b: seq<T>, c: seq<T>)
    ensures (a + b) + c == a + (b + c)
  {
  }

  lemma {:induction false} CellsOne(span: Span)
    ensures Cells([span]) == SpanCells(span)
    ensures SpansWidth([span]) == TextColumns(span.text)
  {
    assert [span][1..] == [];
  }

  lemma {:induction false} SpanCellsSplit(span: Span, n: nat)
    requires n <= |span.text|
    ensures SpanCells(span) == SpanCells(span.Sized(span.text[..n])) + SpanCells(span.Sized(span.text[n..]))
  {
  }

  lemma {:induction false} SpanCellsJoin(a: Span, b: Span)
    requires a.style == b.style
    ensures SpanCells(a.Sized(a.text + b.text)) == SpanCells(a) + SpanCells(b)
  {
  }

  predicate NeighboursDiffer(spans: seq<Span>) {
    forall i :: 0 < i < |spans| ==> spans[i - 1].style != spans[i].style
  }

  /** Join adjacent spans that look the same: no character and no style changes, and no two neighbours
      of the result look the same. */
  method Merged(spans: seq<Span>) returns (merged: seq<Span>)
    ensures Cells(merged) == Cells(spans)
    ensures NeighboursDiffer(merged)
  {
    merged := [];
    for k := 0 to |spans|
      invariant Cells(merged) == Cells(spans[..k])
      invariant NeighboursDiffer(merged)
    {
      var span := spans[k];
      CellsAppend(spans[..k], span);
      assert spans[..k + 1] == spans[..k] + [span];
      if merged != [] && merged[|merged| - 1].style == span.style {
        var previous := merged[|merged| - 1];
        JoinLast(merged, span);
        merged := merged[|merged| - 1 := previous.Sized(previous.text + span.text)];
      } else {
        CellsAppend(merged, span);
        merged := merged + [span];
      }
    }
    assert spans[..|spans|] == spans;
  }

  lemma {:induction false} CellsAppend(spans: seq<Span>, span: Span)
    ensures Cells(spans + [span]) == Cells(spans) + SpanCells(span)
  {
    CellsConcat(spans, [span]);
    CellsOne(span);
  }

  lemma {:induction false} JoinLast(spans: seq<Span>, span: Span)
    requires spans != [] && spans[|spans| - 1].style == span.style
    ensures var last := spans[|spans| - 1];
            Cells(spans[|spans| - 1 := last.Sized(last.text + span.text)]) == Cells(spans) + SpanCells(span)
  {
    var front, last := spans[..|spans| - 1], spans[|spans| - 1];
    var joined := last.Sized(last.text + span.text);
    assert spans == front + [last];
    assert spans[|spans| - 1 := joined] == front + [joined];
    CellsAppend(front, last);
    CellsAppend(front, joined);
    SpanCellsJoin(last, span);
  }

  function Filled(spans: seq<Span>, background: nat): (filled: seq<Span>)
    ensures |filled| == |spans|
  {
    if spans == [] then []
    else
      var style := spans[0].style;
      [Span(spans[0].text, style.(background := if style.background.Some? then style.background else Some(background)))]
      + Filled(spans[1..], background)
  }

  function Blanks(n: nat): (text: Text)
    ensures |text| == n && IsAscii(text)
  {
    seq(n, _ => SPACE)
  }

  /** The characters of one screen row; a background fills the row to the width. */
  function Painted(spans: seq<Span>, width: int, background: Option<nat>): Row {
    if background.None? then Cells(spans)
    else
      var filled := Filled(spans, background.value);
      var remaining := width - SpansWidth(filled);
      Cells(if remaining > 0 then filled + [Span(Blanks(remaining), PLAIN.(background := background))] else filled)
  }

  /** The cell on a row's background; its own background stays. */
  function OnBackground(cell: Cell, background: nat): Cell {
    match cell.style.background
    case Some(_) => cell
    case None => Cell(cell.glyph, cell.style.(background := Some(background)))
  }

  lemma {:induction false} FilledKeepsText(spans: seq<Span>, background: nat)
    ensures SpansWidth(Filled(spans, background)) == SpansWidth(spans)
    ensures var cells, filled := Cells(spans), Cells(Filled(spans, background));
            && |filled| == |cells|
            && forall i :: 0 <= i < |cells| ==> filled[i] == OnBackground(cells[i], background)
  {
    if spans != [] {
      FilledKeepsText(spans[1..], background);
      var filled := Filled(spans, background);
      assert filled[1..] == Filled(spans[1..], background);
    }
  }

  /** A background row is exactly as wide as the pane, unless its own text is wider. The text comes first, in its own
      styles and on its own backgrounds or the row's, and then blanks on the row's background. */
  lemma {:induction false} BackgroundFillsTheRow(spans: seq<Span>, width: int, background: nat)
    ensures var row, cells := Painted(spans, width, Some(background)), Cells(spans);
            && RowWidth(row) == (if width > SpansWidth(spans) then width else SpansWidth(spans))
            && |row| >= |cells|
            && (forall i :: 0 <= i < |cells| ==> row[i] == OnBackground(cells[i], background))
            && (forall i :: |cells| <= i < |row| ==> row[i] == Cell(SPACE, PLAIN.(background := Some(background))))
  {
    FilledKeepsText(spans, background);
    var filled := Filled(spans, background);
    SpansWidthIsRowWidth(filled);
    if width > SpansWidth(filled) {
      PadFills(filled, Span(Blanks(width - SpansWidth(filled)), PLAIN.(background := Some(background))));
    }
  }

  lemma {:induction false} PadFills(filled: seq<Span>, pad: Span)
    requires IsAscii(pad.text)
    ensures Cells(filled + [pad]) == Cells(filled) + SpanCells(pad)
    ensures RowWidth(Cells(filled + [pad])) == SpansWidth(filled) + |pad.text|
  {
    CellsConcat(filled, [pad]);
    CellsOne(pad);
    SpansWidthConcat(filled, [pad]);
    SpansWidthIsRowWidth(filled + [pad]);
  }

  datatype Split = Split(taken: seq<Span>, remaining: seq<Span>)

  function Head(span: Span, columns: int): seq<Span> {
    var fitting := LongestFit(span.text, columns);
    if fitting > 0 then [span.Sized(span.text[..fitting])] else []
  }

  /** The first columns of the spans and what is left, for specifications. */
  function TakeSplit(spans: seq<Span>, available: nat): Split {
    if spans == [] || available == 0 then Split([], spans)
    else
      var span := spans[0];
      if TextColumns(span.text) <= available then
        var rest := TakeSplit(spans[1..], available - TextColumns(span.text));
        Split([span] + rest.taken, rest.remaining)
      else
        Split(Head(span, available), [span.Sized(span.text[LongestFit(span.text, available)..])] + spans[1..])
  }

  /** The loop of `_take`, with its work list and its countdown of columns. */
  method Take(spans: seq<Span>, width: int) returns (split: Split)
    ensures split == TakeSplit(spans, if width < 0 then 0 else width)
  {
    var taken, remaining := [], spans;
    var available: nat := if width < 0 then 0 else width;
    ghost var whole := available;
    while remaining != [] && available > 0
      invariant var rest := TakeSplit(remaining, available);
        TakeSplit(spans, whole) == Split(taken + rest.taken, rest.remaining)
      decreases available, |remaining|
    {
      var span := remaining[0];
      remaining := remaining[1..];
      var columns := TextColumns(span.text);
      if columns <= available {
        assert forall later: seq<Span> :: taken + ([span] + later) == (taken + [span]) + later;
        taken := taken + [span];
        available := available - columns;
      } else {
        var fitting := Cut(span.text, available);
        LongestFitUnique(span.text, available, fitting);
        taken := taken + Head(span, available);
        remaining := [span.Sized(span.text[fitting..])] + remaining;
        available := 0;
        assert taken + [] == taken;
      }
    }
    assert taken + [] == taken;
    split := Split(taken, remaining);
  }

  /** Taking splits the text without loss and keeps every style, and stays within the columns. */
  lemma {:induction false} TakeSplitsWithoutLoss(spans: seq<Span>, available: nat)
    ensures var split := TakeSplit(spans, available);
            && Cells(split.taken) + Cells(split.remaining) == Cells(spans)
            && SpansWidth(split.taken) <= available
  {
    if spans == [] || available == 0 {
      return;
    }
    var span := spans[0];
    var columns := TextColumns(span.text);
    if columns <= available {
      TakeSplitsWithoutLoss(spans[1..], available - columns);
      var rest := TakeSplit(spans[1..], available - columns);
      CellsCons(span, rest.taken);
      Regroup(SpanCells(span), Cells(rest.taken), Cells(rest.remaining));
    } else {
      CutSplitsOneSpan(span, available);
      var tail := span.Sized(span.text[LongestFit(span.text, available)..]);
      CellsCons(tail, spans[1..]);
      Regroup(Cells(Head(span, available)), SpanCells(tail), Cells(spans[1..]));
    }
  }

  /** Taking stops only when the columns are used or the next character does not fit. */
  lemma {:induction false} TakeFillsTheColumns(spans: seq<Span>, available: nat)
    ensures var split := TakeSplit(spans, available);
            Cells(split.remaining) != [] ==>
              || SpansWidth(split.taken) == available
              || SpansWidth(split.taken) + CharWidth(Cells(split.remaining)[0].glyph) > available
  {
    if spans == [] || available == 0 {
      return;
    }
    var span := spans[0];
    var columns := TextColumns(span.text);
    if columns <= available {
      TakeFillsTheColumns(spans[1..], available - columns);
      var rest := TakeSplit(spans[1..], available - columns);
      assert ([span] + rest.taken)[1..] == rest.taken;
    } else {
      CutSplitsOneSpan(span, available);
      var n := LongestFit(span.text, available);
      var tail := span.Sized(span.text[n..]);
      assert Cells([tail] + spans[1..])[0] == SpanCells(tail)[0];
    }
  }

  lemma {:induction false} CutSplitsOneSpan(span: Span, available: nat)
    requires TextColumns(span.text) > available
    ensures var n := LongestFit(span.text, available);
            && n < |span.text|
            && Cells(Head(span, available)) + SpanCells(span.Sized(span.text[n..])) == SpanCells(span)
            && SpansWidth(Head(span, available)) == Width(span.text[..n]) <= available
            && Width(span.text[..n]) + CharWidth(span.text[n]) > available
  {
    var n := LongestFit(span.text, available);
    LongestFitIsLongest(span.text, available);
    FastWidthIsWidth(span.text);
    assert span.text[..|span.text|] == span.text;
    SpanCellsSplit(span, n);
    CellsOne(span.Sized(span.text[..n]));
    FastWidthIsWidth(span.text[..n]);
    WidthConcat(span.text[..n], [span.text[n]]);
    assert span.text[..n] + [span.text[n]] == span.text[..n + 1];
  }
}
