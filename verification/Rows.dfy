/** One logical text as the screen rows it takes (client/_render_rows.py, `_split_lines`). */
module Rows {
  import opened TextWidth
  import opened Spans
  import opened Wrap
  import opened WrapLaws
  import opened Wrappers

  const NEWLINE: Glyph := Glyph(LINE_FEED, false, false, true)

  predicate HasNewline(text: Text) {
    exists i :: 0 <= i < |text| && text[i] == NEWLINE
  }

  function FindNewline(text: Text): (i: nat)
    requires HasNewline(text)
    ensures i < |text| && text[i] == NEWLINE && !HasNewline(text[..i])
  {
    if text[0] == NEWLINE then 0
    else
      assert HasNewline(text[1..]) by {
        var k :| 0 <= k < |text| && text[k] == NEWLINE;
        assert text[1..][k - 1] == NEWLINE;
      }
      assert forall i :: 0 <= i < FindNewline(text[1..]) ==> text[1..][i] == text[i + 1];
      var i := FindNewline(text[1..]);
      assert forall k :: 0 <= k < i ==> text[1..][..i][k] != NEWLINE;
      assert forall k :: 0 < k < i + 1 ==> text[k] == text[1..][..i][k - 1];
      1 + i
  }

  /** `text.split("\n")`. */
  function SplitText(text: Text): (parts: seq<Text>)
    ensures parts != []
    ensures forall part <- parts :: !HasNewline(part)
    decreases |text|
  {
    if !HasNewline(text) then [text]
    else
      var i := FindNewline(text);
      [text[..i]] + SplitText(text[i + 1..])
  }

  function PartSpans(span: Span, part: Text): seq<Span> {
    if part == [] then [] else [span.Sized(part)]
  }

  function PartLines(span: Span, parts: seq<Text>): (lines: seq<seq<Span>>)
    ensures |lines| == |parts|
    ensures forall i :: 0 <= i < |parts| ==> lines[i] == PartSpans(span, parts[i])
  {
    seq(|parts|, i requires 0 <= i < |parts| => PartSpans(span, parts[i]))
  }

  /** Two lists of lines where the last line of the first goes on in the first line of the second. */
  function Glue(a: seq<seq<Span>>, b: seq<seq<Span>>): (lines: seq<seq<Span>>)
    requires a != [] && b != []
    ensures |lines| == |a| + |b| - 1
  {
    a[..|a| - 1] + [a[|a| - 1] + b[0]] + b[1..]
  }

  function LogicalLines(spans: seq<Span>): (lines: seq<seq<Span>>)
    ensures lines != []
  {
    if spans == [] then [[]] else Glue(PartLines(spans[0], SplitText(spans[0].text)), LogicalLines(spans[1..]))
  }

  lemma {:induction false} GlueAssociative(a: seq<seq<Span>>, b: seq<seq<Span>>, c: seq<seq<Span>>)
    requires a != [] && b != [] && c != []
    ensures Glue(Glue(a, b), c) == Glue(a, Glue(b, c))
  {
    if |b| == 1 {
      Regroup(a[|a| - 1], b[0], c[0]);
      assert Glue(Glue(a, b), c) == a[..|a| - 1] + [a[|a| - 1] + b[0] + c[0]] + c[1..];
      assert Glue(a, Glue(b, c)) == a[..|a| - 1] + [a[|a| - 1] + (b[0] + c[0])] + c[1..];
    } else {
      var middle := b[1..|b| - 1];
      var ends := [b[|b| - 1] + c[0]] + c[1..];
      assert Glue(Glue(a, b), c) == a[..|a| - 1] + [a[|a| - 1] + b[0]] + middle + ends;
      assert Glue(b, c) == [b[0]] + middle + ends;
      assert Glue(a, Glue(b, c)) == a[..|a| - 1] + [a[|a| - 1] + b[0]] + middle + ends;
    }
  }

  lemma {:induction false} GlueNothing(lines: seq<seq<Span>>)
    requires lines != []
    ensures Glue([[]], lines) == Glue(lines, [[]]) == lines
  {
    assert [] + lines[0] == lines[0] && lines[|lines| - 1] + [] == lines[|lines| - 1];
  }

  /** Collect the logical lines span by span. */
  method SplitLines(spans: seq<Span>) returns (logical: seq<seq<Span>>)
    ensures logical == LogicalLines(spans)
  {
    logical := [[]];
    GlueNothing(LogicalLines(spans));
    for k := 0 to |spans|
      invariant logical != []
      invariant Glue(logical, LogicalLines(spans[k..])) == LogicalLines(spans)
    {
      GlueAssociative(logical, PartLines(spans[k], SplitText(spans[k].text)), LogicalLines(spans[k + 1..]));
      assert spans[k..][1..] == spans[k + 1..];
      logical := AddParts(logical, spans[k]);
    }
    GlueNothing(logical);
  }

  /** Add the parts of one span: the first goes on in the open line and each other part starts a line. */
  method AddParts(before: seq<seq<Span>>, span: Span) returns (logical: seq<seq<Span>>)
    requires before != []
    ensures logical == Glue(before, PartLines(span, SplitText(span.text)))
  {
    logical := before;
    var parts := SplitText(span.text);
    ghost var lines := PartLines(span, parts);
    for index := 0 to |parts|
      invariant logical == if index == 0 then before else Glue(before, lines[..index])
    {
      GlueNext(before, lines, index);
      assert lines[index] == PartSpans(span, parts[index]);
      if index > 0 {
        logical := logical + [[]];
      }
      assert logical[|logical| - 1] + [] == logical[|logical| - 1];
      if parts[index] != [] {
        logical := logical[|logical| - 1 := logical[|logical| - 1] + [span.Sized(parts[index])]];
      }
    }
    assert lines[..|parts|] == lines;
  }

  lemma {:induction false} GlueNext(before: seq<seq<Span>>, lines: seq<seq<Span>>, index: nat)
    requires before != [] && index < |lines|
    ensures Glue(before, lines[..index + 1]) ==
            if index == 0 then before[|before| - 1 := before[|before| - 1] + lines[0]]
            else Glue(before, lines[..index]) + [[] + lines[index]]
  {
    assert [] + lines[index] == lines[index];
  }

  // ----- The logical lines joined by newlines give back the text -----

  const BREAK: Row := [Cell(NEWLINE, PLAIN)]

  /** The characters with the style of each newline left out. */
  function PlainBreaks(row: Row): (plain: Row)
    ensures |plain| == |row|
  {
    seq(|row|, i requires 0 <= i < |row| => if row[i].glyph == NEWLINE then BREAK[0] else row[i])
  }

  function JoinLines(lines: seq<seq<Span>>): Row
    requires lines != []
  {
    if |lines| == 1 then Cells(lines[0]) else Cells(lines[0]) + BREAK + JoinLines(lines[1..])
  }

  lemma {:induction false} JoinGlued(a: seq<seq<Span>>, b: seq<seq<Span>>)
    requires a != [] && b != []
    ensures JoinLines(Glue(a, b)) == JoinLines(a) + JoinLines(b)
    decreases |a|
  {
    var lines := Glue(a, b);
    if |a| == 1 {
      CellsConcat(a[0], b[0]);
      assert lines == [a[0] + b[0]] + b[1..];
      if |b| > 1 {
        assert lines[1..] == b[1..];
        assert Cells(a[0]) + Cells(b[0]) + BREAK + JoinLines(b[1..])
            == Cells(a[0]) + (Cells(b[0]) + BREAK + JoinLines(b[1..]));
      }
    } else {
      assert lines[0] == a[0] && lines[1..] == Glue(a[1..], b);
      JoinGlued(a[1..], b);
      Regroup(Cells(a[0]) + BREAK, JoinLines(a[1..]), JoinLines(b));
    }
  }

  lemma {:induction false} JoinPartLines(span: Span, text: Text)
    ensures JoinLines(PartLines(span, SplitText(text))) == PlainBreaks(SpanCells(span.Sized(text)))
    decreases |text|
  {
    var lines := PartLines(span, SplitText(text));
    if !HasNewline(text) {
      PartCells(span, text);
    } else {
      var i := FindNewline(text);
      PartCells(span, text[..i]);
      JoinPartLines(span, text[i + 1..]);
      assert lines[1..] == PartLines(span, SplitText(text[i + 1..]));
      BreakAt(span, text, i);
    }
  }

  lemma {:induction false} BreakAt(span: Span, text: Text, i: nat)
    requires i < |text| && text[i] == NEWLINE
    ensures PlainBreaks(SpanCells(span.Sized(text)))
         == PlainBreaks(SpanCells(span.Sized(text[..i]))) + BREAK + PlainBreaks(SpanCells(span.Sized(text[i + 1..])))
  {
  }

  lemma {:induction false} PartCells(span: Span, part: Text)
    requires !HasNewline(part)
    ensures Cells(PartSpans(span, part)) == PlainBreaks(SpanCells(span.Sized(part)))
  {
    if part != [] {
      CellsOne(span.Sized(part));
    }
  }

  lemma {:induction false} PlainBreaksConcat(a: Row, b: Row)
    ensures PlainBreaks(a + b) == PlainBreaks(a) + PlainBreaks(b)
  {
  }

  /** Splitting at newlines and joining again gives back every character with its style. */
  lemma {:induction false} SplitLinesJoinBack(spans: seq<Span>)
    ensures JoinLines(LogicalLines(spans)) == PlainBreaks(Cells(spans))
  {
    if spans != [] {
      var first, rest := spans[0], spans[1..];
      JoinPartLines(first, first.text);
      assert first.Sized(first.text) == first;
      SplitLinesJoinBack(rest);
      JoinGlued(PartLines(first, SplitText(first.text)), LogicalLines(rest));
      PlainBreaksConcat(SpanCells(first), Cells(rest));
    }
  }

  lemma {:induction false} GluedPlainly(a: seq<seq<Span>>, b: seq<seq<Span>>)
    requires a != [] && b != []
    requires forall line <- a :: !IsMultiline(line)
    requires forall line <- b :: !IsMultiline(line)
    ensures forall line <- Glue(a, b) :: !IsMultiline(line)
  {
    var middle := a[|a| - 1] + b[0];
    assert a[|a| - 1] in a && b[0] in b;
    assert forall span <- middle :: span in a[|a| - 1] || span in b[0];
    assert forall line <- Glue(a, b) :: line in a[..|a| - 1] || line == middle || line in b[1..];
    assert forall line <- a[..|a| - 1] :: line in a;
    assert forall line <- b[1..] :: line in b;
  }

  /** No logical line holds a newline. */
  lemma {:induction false} LinesHaveNoNewline(spans: seq<Span>)
    ensures forall line <- LogicalLines(spans) :: !IsMultiline(line)
  {
    if spans != [] {
      LinesHaveNoNewline(spans[1..]);
      GluedPlainly(PartLines(spans[0], SplitText(spans[0].text)), LogicalLines(spans[1..]));
    }
  }

  // ----- The three layouts -----

  datatype Layout = WordWrap | Truncate | Verbatim

  datatype RowOptions =
    RowOptions(prefix: seq<Span>, continuation: Option<seq<Span>>, mode: Layout, background: Option<nat>)
  {
    function Rest(): seq<Span> {
      if continuation.None? then prefix else continuation.value
    }
  }

  predicate IsMultiline(content: seq<Span>) {
    exists span <- content :: HasNewline(span.text)
  }

  /** The rows of one logical line. */
  function LineRows(content: seq<Span>, width: int, options: RowOptions): (rows: seq<Row>)
    ensures rows != []
  {
    match options.mode
    case Verbatim => [Painted(options.prefix + content, width, options.background)]
    case Truncate =>
      var taken := TakeSplit(options.prefix + content, if width < 0 then 0 else width).taken;
      [Painted(taken, width, options.background)]
    case WordWrap =>
      var first, rest := Available(width, options.prefix), Available(width, options.Rest());
      PaintLines(Lines(AtomsOf(content), first, rest, false), options.prefix, options.Rest(), width, options.background)
  }

  function LinesRows(lines: seq<seq<Span>>, width: int, options: RowOptions): (rows: seq<Row>)
    ensures lines != [] ==> rows != []
  {
    if lines == [] then []
    else
      var rest := options.Rest();
      LineRows(lines[0], width, options.(continuation := Some(rest)))
      + LinesRows(lines[1..], width, options.(prefix := rest, continuation := Some(rest)))
  }

  function RowsOf(content: seq<Span>, width: int, options: RowOptions): (rows: seq<Row>)
    ensures rows != []
  {
    if options.mode != Verbatim && IsMultiline(content) then LinesRows(LogicalLines(content), width, options)
    else LineRows(content, width, options)
  }

  method OneLineRows(content: seq<Span>, width: int, options: RowOptions) returns (rows: seq<Row>)
    ensures rows == LineRows(content, width, options)
  {
    if options.mode == Verbatim {
      return [Painted(options.prefix + content, width, options.background)];
    }
    if options.mode == Truncate {
      var split := Take(options.prefix + content, width);
      return [Painted(split.taken, width, options.background)];
    }
    var atoms := ContentAtoms(content);
    var state := new WrapState(atoms, options.prefix, options.Rest(), width, options.background);
    rows := state.Paint();
  }

  /** `rows`: choose the layout, after the text is split at its newlines. */
  method PaintRows(content: seq<Span>, width: int, options: RowOptions) returns (rows: seq<Row>)
    ensures rows == RowsOf(content, width, options)
  {
    if options.mode != Verbatim && IsMultiline(content) {
      rows := MultilineRows(content, width, options);
    } else {
      rows := OneLineRows(content, width, options);
    }
  }

  method MultilineRows(content: seq<Span>, width: int, options: RowOptions) returns (painted: seq<Row>)
    ensures painted == LinesRows(LogicalLines(content), width, options)
  {
    var logical := SplitLines(content);
    var rest := options.Rest();
    painted := [];
    for index := 0 to |logical|
      invariant var later := if index == 0 then options else options.(prefix := rest, continuation := Some(rest));
        painted + LinesRows(logical[index..], width, later) == LinesRows(logical, width, options)
    {
      ghost var later := if index == 0 then options else options.(prefix := rest, continuation := Some(rest));
      var prefix := if index == 0 then options.prefix else rest;
      var lineRows := OneLineRows(logical[index], width, options.(prefix := prefix, continuation := Some(rest)));
      assert logical[index..][1..] == logical[index + 1..];
      Regroup(painted, lineRows, LinesRows(logical[index + 1..], width, options.(prefix := rest, continuation := Some(rest))));
      painted := painted + lineRows;
    }
    assert painted + [] == painted;
  }

  // ----- What a wrapped text keeps -----

  lemma {:induction false} JoinedConcat(a: seq<Row>, b: seq<Row>)
    ensures Joined(a + b) == Joined(a) + Joined(b)
  {
    if a == [] {
      assert a + b == b;
    } else {
      assert (a + b)[1..] == a[1..] + b;
      JoinedConcat(a[1..], b);
      Regroup(a[0], Joined(a[1..]), Joined(b));
    }
  }

  /** The content of each row of some logical lines, without the prefixes. */
  function WrappedLines(lines: seq<seq<Span>>, width: int, first: seq<Span>, rest: seq<Span>): seq<seq<Span>> {
    if lines == [] then []
    else
      Lines(AtomsOf(lines[0]), Available(width, first), Available(width, rest), false)
      + WrappedLines(lines[1..], width, rest, rest)
  }

  lemma {:induction false} PaintLinesConcat(
    a: seq<seq<Span>>, b: seq<seq<Span>>, first: seq<Span>, rest: seq<Span>, width: int, background: Option<nat>)
    requires a != []
    ensures PaintLines(a + b, first, rest, width, background)
         == PaintLines(a, first, rest, width, background) + PaintLines(b, rest, rest, width, background)
  {
    assert (a + b)[1..] == a[1..] + b;
    if |a| == 1 {
      assert a[1..] + b == b;
    } else {
      PaintLinesConcat(a[1..], b, rest, rest, width, background);
    }
  }

  lemma {:induction false} WrappedRowsAreLines(lines: seq<seq<Span>>, width: int, options: RowOptions)
    requires options.mode == WordWrap
    ensures LinesRows(lines, width, options)
         == PaintLines(WrappedLines(lines, width, options.prefix, options.Rest()),
                       options.prefix, options.Rest(), width, options.background)
  {
    if lines != [] {
      var rest := options.Rest();
      var next := options.(prefix := rest, continuation := Some(rest));
      WrappedRowsAreLines(lines[1..], width, next);
      PaintLinesConcat(Lines(AtomsOf(lines[0]), Available(width, options.prefix), Available(width, rest), false),
                       WrappedLines(lines[1..], width, rest, rest), options.prefix, rest, width, options.background);
    }
  }

  lemma {:induction false} PaintedEach(
    lines: seq<seq<Span>>, first: seq<Span>, rest: seq<Span>, width: int, background: Option<nat>, i: nat)
    requires i < |lines|
    ensures PaintLines(lines, first, rest, width, background)[i]
         == Painted((if i == 0 then first else rest) + lines[i], width, background)
    decreases i
  {
    if i > 0 {
      PaintedEach(lines[1..], rest, rest, width, background, i - 1);
    }
  }

  lemma {:induction false} VisibleRows(first: seq<Row>, second: seq<Row>)
    ensures Visible(Joined(first + second)) == Visible(Joined(first)) + Visible(Joined(second))
  {
    JoinedConcat(first, second);
    VisibleConcat(Joined(first), Joined(second));
  }

  lemma {:induction false} VisibleBreak(line: Row, later: Row)
    ensures Visible(line + BREAK + later) == Visible(line) + Visible(later)
  {
    VisibleConcat(line + BREAK, later);
    VisibleConcat(line, BREAK);
    SpaceIsInvisible(BREAK);
  }

  lemma {:induction false} RowsOfLinesConcat(a: seq<seq<Span>>, b: seq<seq<Span>>)
    ensures RowsOfLines(a + b) == RowsOfLines(a) + RowsOfLines(b)
  {
    if a == [] {
      assert a + b == b;
    } else {
      assert (a + b)[1..] == a[1..] + b;
      RowsOfLinesConcat(a[1..], b);
    }
  }

  lemma {:induction false} LinesKeepVisible(lines: seq<seq<Span>>, width: int, first: seq<Span>, rest: seq<Span>)
    requires lines != []
    ensures Visible(Joined(RowsOfLines(WrappedLines(lines, width, first, rest)))) == Visible(JoinLines(lines))
  {
    var head := Lines(AtomsOf(lines[0]), Available(width, first), Available(width, rest), false);
    var tail := WrappedLines(lines[1..], width, rest, rest);
    WrapKeepsVisible(lines[0], Available(width, first), Available(width, rest));
    if |lines| == 1 {
      assert lines[1..] == [] && head + [] == head;
    } else {
      LinesKeepVisible(lines[1..], width, rest, rest);
      RowsOfLinesConcat(head, tail);
      VisibleRows(RowsOfLines(head), RowsOfLines(tail));
      VisibleBreak(Cells(lines[0]), JoinLines(lines[1..]));
    }
  }

  lemma {:induction false} PlainBreaksKeepVisible(row: Row)
    ensures Visible(PlainBreaks(row)) == Visible(row)
  {
    if row != [] {
      PlainBreaksKeepVisible(row[1..]);
      assert PlainBreaks(row)[1..] == PlainBreaks(row[1..]);
    }
  }

  /** The content of each screen row of a wrapped text. */
  function WrappedContent(content: seq<Span>, width: int, options: RowOptions): seq<seq<Span>> {
    WrappedLines(if IsMultiline(content) then LogicalLines(content) else [content], width, options.prefix, options.Rest())
  }

  lemma {:induction false} WrappedRows(content: seq<Span>, width: int, options: RowOptions)
    requires options.mode == WordWrap
    ensures RowsOf(content, width, options)
         == PaintLines(WrappedContent(content, width, options), options.prefix, options.Rest(), width, options.background)
  {
    if IsMultiline(content) {
      WrappedRowsAreLines(LogicalLines(content), width, options);
    } else {
      assert [content][1..] == [];
      var lines := Lines(AtomsOf(content), Available(width, options.prefix), Available(width, options.Rest()), false);
      assert WrappedLines([], width, options.Rest(), options.Rest()) == [] && lines + [] == lines;
      assert WrappedContent(content, width, options) == lines;
    }
  }

  lemma {:induction false} WrappedContentIsVisible(content: seq<Span>, width: int, options: RowOptions)
    ensures Visible(Joined(RowsOfLines(WrappedContent(content, width, options)))) == Visible(Cells(content))
  {
    if IsMultiline(content) {
      LinesKeepVisible(LogicalLines(content), width, options.prefix, options.Rest());
      SplitLinesJoinBack(content);
      PlainBreaksKeepVisible(Cells(content));
    } else {
      LinesKeepVisible([content], width, options.prefix, options.Rest());
    }
  }

  /** Under every width, prefix and background: each row of a wrapped text is its prefix and its part of the text, and
      the parts show all visible characters of the text once, in order and with their styles. */
  lemma {:induction false} WrappedTextKeepsVisible(content: seq<Span>, width: int, options: RowOptions)
    requires options.mode == WordWrap
    ensures var rows, parts := RowsOf(content, width, options), WrappedContent(content, width, options);
            && |rows| == |parts|
            && (forall i :: 0 <= i < |rows| ==>
                  rows[i] == Painted((if i == 0 then options.prefix else options.Rest()) + parts[i], width, options.background))
            && Visible(Joined(RowsOfLines(parts))) == Visible(Cells(content))
  {
    WrappedRows(content, width, options);
    WrappedContentIsVisible(content, width, options);
    var parts := WrappedContent(content, width, options);
    forall i | 0 <= i < |parts|
      ensures RowsOf(content, width, options)[i]
           == Painted((if i == 0 then options.prefix else options.Rest()) + parts[i], width, options.background)
    {
      PaintedEach(parts, options.prefix, options.Rest(), width, options.background, i);
    }
  }

  /** The part of a row fits what its prefix leaves of the width. */
  ghost predicate PartFits(part: seq<Span>, prefix: seq<Span>, width: int) {
    || SpansWidth(prefix) + SpansWidth(part) <= width
    || SpansWidth(part) <= 1
    || |Cells(part)| == 1
  }

  lemma {:induction false} PartFitsBehind(part: seq<Span>, prefix: seq<Span>, width: int)
    requires Fits(part, Available(width, prefix))
    ensures PartFits(part, prefix, width)
  {
  }

  lemma {:induction false} OneLineFits(content: seq<Span>, width: int, first: seq<Span>, rest: seq<Span>, i: nat)
    requires i < |Lines(AtomsOf(content), Available(width, first), Available(width, rest), false)|
    ensures PartFits(Lines(AtomsOf(content), Available(width, first), Available(width, rest), false)[i],
                     if i == 0 then first else rest, width)
  {
    WrapFits(AtomsOf(content), Available(width, first), Available(width, rest), false);
    PartFitsBehind(Lines(AtomsOf(content), Available(width, first), Available(width, rest), false)[i],
                   if i == 0 then first else rest, width);
  }

  lemma {:induction false} EitherPart<T>(all: seq<T>, head: seq<T>, tail: seq<T>, i: nat)
    requires all == head + tail && i < |all|
    ensures if i < |head| then all[i] == head[i] else i - |head| < |tail| && all[i] == tail[i - |head|]
  {
  }

  lemma {:induction false} WrappedLinesFit(lines: seq<seq<Span>>, width: int, first: seq<Span>, rest: seq<Span>, i: nat)
    requires i < |WrappedLines(lines, width, first, rest)|
    ensures PartFits(WrappedLines(lines, width, first, rest)[i], if i == 0 then first else rest, width)
  {
    var head := Lines(AtomsOf(lines[0]), Available(width, first), Available(width, rest), false);
    var tail := WrappedLines(lines[1..], width, rest, rest);
    EitherPart(WrappedLines(lines, width, first, rest), head, tail, i);
    if i < |head| {
      OneLineFits(lines[0], width, first, rest, i);
    } else {
      WrappedLinesFit(lines[1..], width, rest, rest, i - |head|);
    }
  }

  /** Every row of a wrapped text fits the width together with its prefix, unless the prefix leaves no column or the
      part is one single wider character; a background then fills the rest of the width. */
  lemma {:induction false} WrappedRowsFit(content: seq<Span>, width: int, options: RowOptions, i: nat)
    requires options.mode == WordWrap && i < |RowsOf(content, width, options)|
    ensures i < |WrappedContent(content, width, options)|
    ensures var part := WrappedContent(content, width, options)[i];
            var prefix := if i == 0 then options.prefix else options.Rest();
            var row := RowsOf(content, width, options)[i];
            && (RowWidth(row) <= width || SpansWidth(part) <= 1 || |Cells(part)| == 1)
            && (options.background.None? ==> row == Cells(prefix) + Cells(part))
            && (options.background.Some? ==> RowWidth(row) >= width)
  {
    WrappedTextKeepsVisible(content, width, options);
    var lines := if IsMultiline(content) then LogicalLines(content) else [content];
    WrappedLinesFit(lines, width, options.prefix, options.Rest(), i);
    var part := WrappedContent(content, width, options)[i];
    var prefix := if i == 0 then options.prefix else options.Rest();
    CellsConcat(prefix, part);
    SpansWidthConcat(prefix, part);
    SpansWidthIsRowWidth(prefix + part);
    if options.background.Some? {
      BackgroundFillsTheRow(prefix + part, width, options.background.value);
    }
  }

  /** Text in columns is one row, whatever it holds. */
  lemma {:induction false} VerbatimIsOneRow(content: seq<Span>, width: int, options: RowOptions)
    requires options.mode == Verbatim
    ensures |RowsOf(content, width, options)| == 1
    ensures options.background.None? ==> RowsOf(content, width, options)[0] == Cells(options.prefix) + Cells(content)
  {
    CellsConcat(options.prefix, content);
  }

  // ----- Truncated text -----

  /** The row shows as much of the start of the spans as the width has room for, and nothing else; with a background it has
      exactly the width, filled with blanks. */
  ghost predicate ShowsStart(row: Row, spans: seq<Span>, width: nat, background: Option<nat>) {
    exists n: nat :: ShowsUpTo(row, Cells(spans), n, width, background)
  }

  predicate ShowsUpTo(row: Row, cells: Row, n: nat, width: nat, background: Option<nat>) {
    && n <= |cells| && n <= |row|
    && RowWidth(cells[..n]) <= width
    && (n < |cells| ==> RowWidth(cells[..n]) == width || RowWidth(cells[..n]) + CharWidth(cells[n].glyph) > width)
    && match background
       case None => row == cells[..n]
       case Some(color) =>
         && RowWidth(row) == width
         && (forall i :: 0 <= i < n ==> row[i] == OnBackground(cells[i], color))
         && (forall i :: n <= i < |row| ==> row[i] == Cell(SPACE, PLAIN.(background := background)))
  }

  lemma {:induction false} TakenCells(spans: seq<Span>, available: nat, taken: Row, left: Row)
    requires taken == Cells(TakeSplit(spans, available).taken) && left == Cells(TakeSplit(spans, available).remaining)
    ensures |taken| <= |Cells(spans)| && Cells(spans)[..|taken|] == taken
    ensures RowWidth(taken) == SpansWidth(TakeSplit(spans, available).taken) <= available
    ensures |taken| < |Cells(spans)| ==>
              RowWidth(taken) == available || RowWidth(taken) + CharWidth(Cells(spans)[|taken|].glyph) > available
  {
    TakeSplitsWithoutLoss(spans, available);
    TakeFillsTheColumns(spans, available);
    SpansWidthIsRowWidth(TakeSplit(spans, available).taken);
    assert Cells(spans) == taken + left;
  }

  lemma {:induction false} TruncatedRow(spans: seq<Span>, width: int, available: nat, background: Option<nat>)
    requires available == if width < 0 then 0 else width
    ensures ShowsStart(Painted(TakeSplit(spans, available).taken, width, background), spans, available, background)
  {
    var split := TakeSplit(spans, available);
    var taken := Cells(split.taken);
    TakenCells(spans, available, taken, Cells(split.remaining));
    if background.Some? {
      BackgroundFillsTheRow(split.taken, width, background.value);
    }
    assert ShowsUpTo(Painted(split.taken, width, background), Cells(spans), |taken|, available, background);
  }

  lemma {:induction false} TruncatedLines(lines: seq<seq<Span>>, width: int, options: RowOptions, i: nat)
    requires options.mode == Truncate && i < |lines|
    ensures var rows, available := LinesRows(lines, width, options), (if width < 0 then 0 else width);
            && |rows| == |lines|
            && ShowsStart(rows[i], (if i == 0 then options.prefix else options.Rest()) + lines[i], available, options.background)
    decreases |lines|
  {
    var rest := options.Rest();
    var next := options.(prefix := rest, continuation := Some(rest));
    if i == 0 {
      TruncatedRow(options.prefix + lines[0], width, if width < 0 then 0 else width, options.background);
    }
    if |lines| > 1 {
      TruncatedLines(lines[1..], width, next, if i > 0 then i - 1 else 0);
    }
  }

  /** A truncated text has one row for each logical line: within the width, the start of the prefix and the line. */
  lemma {:induction false} TruncatedRowsFit(content: seq<Span>, width: int, options: RowOptions)
    requires options.mode == Truncate
    ensures var rows, available := RowsOf(content, width, options), (if width < 0 then 0 else width);
            var lines := if IsMultiline(content) then LogicalLines(content) else [content];
            && |rows| == |lines|
            && forall i :: 0 <= i < |rows| ==>
                 ShowsStart(rows[i], (if i == 0 then options.prefix else options.Rest()) + lines[i], available, options.background)
  {
    var lines := if IsMultiline(content) then LogicalLines(content) else [content];
    if IsMultiline(content) {
      TruncatedLines(lines, width, options, 0);
      forall i | 0 <= i < |lines|
        ensures ShowsStart(LinesRows(lines, width, options)[i], (if i == 0 then options.prefix else options.Rest()) + lines[i],
                           if width < 0 then 0 else width, options.background)
      {
        TruncatedLines(lines, width, options, i);
      }
    } else {
      TruncatedRow(options.prefix + content, width, if width < 0 then 0 else width, options.background);
    }
  }
}
