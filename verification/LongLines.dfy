/** Output lines that are longer than the paint reads: how many rows they take, and when the cut is seen
    (client/_render_blocks.py). */
module LongLines {
  import opened TextWidth
  import opened Spans
  import opened Wrap
  import opened WrapLaws
  import opened Rows
  import opened Scrollback
  import opened Blocks
  import opened Wrappers

  // ----- Lines without white space fill the scrollback -----

  ghost predicate Solid(row: Row) {
    forall i :: 0 <= i < |row| ==> !row[i].glyph.space && !row[i].glyph.zeroWidth
  }

  lemma {:induction false} SolidRowLength(row: Row)
    requires Solid(row)
    ensures |row| <= RowWidth(row)
  {
    if row != [] {
      SolidRowLength(row[1..]);
    }
  }

  /** Without white space nothing is dropped. */
  lemma {:induction false} SolidTextIsWhole(content: Row, rows: seq<Row>)
    requires Solid(content) && BrokenAtSpace(content, rows)
    ensures Joined(rows) == content
    decreases |rows|
  {
    if |rows| == 1 {
      assert rows[1..] == [];
    } else {
      var at: nat :| BreaksAt(content, rows[0], at) && BrokenAtSpace(content[at..], rows[1..]);
      NoGapInSolid(content, rows[0], at);
      SolidTextIsWhole(content[at..], rows[1..]);
    }
  }

  lemma {:induction false} NoGapInSolid(content: Row, row: Row, at: nat)
    requires Solid(content) && BreaksAt(content, row, at)
    ensures at == |row| && content == row + content[at..] && Solid(content[at..])
  {
    if at > |row| {
      FirstIsSpace(content[|row|..at]);
    }
  }

  lemma {:induction false} FirstIsSpace(gap: Row)
    requires AllSpace(gap) && gap != []
    ensures gap[0].glyph.space
  {
    assert gap[0] in gap;
  }

  lemma {:induction false} JoinedLines(lines: seq<seq<Span>>)
    requires lines != []
    ensures Joined(RowsOfLines(lines)) == Cells(lines[0]) + Joined(RowsOfLines(lines[1..]))
  {
    assert RowsOfLines(lines)[1..] == RowsOfLines(lines[1..]);
  }

  lemma {:induction false} SolidParts(head: Row, tail: Row)
    requires Solid(head + tail)
    ensures Solid(head) && Solid(tail)
  {
    assert forall i :: 0 <= i < |head| ==> head[i] == (head + tail)[i];
    assert forall i :: 0 <= i < |tail| ==> tail[i] == (head + tail)[|head| + i];
  }

  lemma {:induction false} OneRowMore(rows: nat, columns: nat)
    requires rows > 0
    ensures rows * columns == columns + (rows - 1) * columns
  {
  }

  lemma {:induction false} RowsBoundText(lines: seq<seq<Span>>, columns: nat)
    requires columns >= 1 && Solid(Joined(RowsOfLines(lines)))
    requires forall k :: 0 <= k < |lines| ==> Fits(lines[k], columns)
    ensures |Joined(RowsOfLines(lines))| <= |lines| * columns
  {
    if lines != [] {
      JoinedLines(lines);
      SolidParts(Cells(lines[0]), Joined(RowsOfLines(lines[1..])));
      RowsBoundText(lines[1..], columns);
      SpansWidthIsRowWidth(lines[0]);
      SolidRowLength(Cells(lines[0]));
      OneRowMore(|lines|, columns);
    }
  }

  /** The last characters of a long line fill the scrollback when each of them takes a column and none is
      white space. */
  lemma {:induction false} SolidLineFillsScrollback(line: Text, width: nat, color: nat)
    requires width >= 1 && |line| >= CAPACITY * width
    requires forall i :: 0 <= i < |line| ==> !line[i].space && !line[i].zeroWidth
    ensures |LineOnRail(width, color)(line)| >= CAPACITY
  {
    var content := [Span(line, PLAIN)];
    var options := RailOptions(color);
    assert !IsMultiline(content);
    var columns := Available(width, options.prefix);
    var lines := Lines(AtomsOf(content), columns, columns, false);
    CellsOne(content[0]);
    WrapConserves(content, columns, columns);
    SolidTextIsWhole(Cells(content), RowsOfLines(lines));
    WrapFits(AtomsOf(content), columns, columns, false);
    RowsBoundText(lines, columns);
    assert columns <= width;
    ProductMonotone(|lines|, columns, width);
    FactorBound(CAPACITY, |lines|, width);
  }

  lemma {:induction false} ProductMonotone(k: nat, a: nat, b: nat)
    requires a <= b
    ensures k * a <= k * b
  {
  }

  lemma {:induction false} FactorBound(a: nat, b: nat, width: nat)
    requires width >= 1 && a * width <= b * width
    ensures a <= b
  {
  }

  lemma {:induction false} OneAtomOneRow(line: Text, width: nat, color: nat)
    requires line != [] && Width(line) <= 1
    requires forall i :: 0 <= i < |line| ==> !IsBlank(line[i]) && line[i] != NEWLINE
    ensures LineOnRail(width, color)(line) == [Cells(RailOptions(color).prefix + [Span(line, PLAIN)])]
  {
    var span := Span(line, PLAIN);
    var options := RailOptions(color);
    assert !IsMultiline([span]);
    assert RunLength(line) == |line| && line[..|line|] == line && line[|line|..] == [];
    assert [span][1..] == [];
    assert SpanAtoms(span.Sized([])) == [];
    assert SpanAtoms(span) == [span];
    assert AtomsOf([]) == [];
    assert AtomsOf([span]) == [span] + AtomsOf([]) == [span];
    FastWidthIsWidth(line);
    var columns := Available(width, options.prefix);
    assert [] + [span] == [span];
    assert FillLine([span], [], columns, false) == FillLine([], [span], columns, false) == Filling([], [span]);
    assert Lines([span], columns, columns, false) == [[span]];
  }

  lemma {:induction false} ZeroWidthText(n: nat)
    ensures Width(seq(n, _ => JOINER)) == 0
  {
    var text := seq(n, _ => JOINER);
    if n > 0 {
      assert text[1..] == seq(n - 1, _ => JOINER);
      ZeroWidthText(n - 1);
    }
  }

  const JOINER: Glyph := Glyph(0x200D, true, false, false)

  /** The limit on the length is needed: a letter before more zero-width characters than the paint reads
      is on the screen of the full paint, and the early cut loses it. */
  lemma {:induction false} LongLineCanLoseText(letter: Glyph, width: nat, color: nat)
    requires width >= 1 && !letter.zeroWidth && !letter.wide && !letter.space
    ensures var line := [letter] + seq(CAPACITY * width, _ => JOINER);
            && |Stripped(line)| == CAPACITY * width + 1
            && !LooksWhole(line, width, color)
  {
    var joiners := seq(CAPACITY * width, _ => JOINER);
    var line := [letter] + joiners;
    ZeroWidthText(CAPACITY * width);
    FactorBound(1, width, 1);
    ProductMonotone(CAPACITY, 1, width);
    assert |joiners| >= 1;
    assert Stripped(line) == line;
    assert Newest(line, CAPACITY * width) == joiners;
    assert line[1..] == joiners;
    assert forall i :: 0 <= i < |joiners| ==> joiners[i] == JOINER;
    OneAtomOneRow(line, width, color);
    OneAtomOneRow(joiners, width, color);
    var rail := RailOptions(color).prefix;
    CellsAppend(rail, Span(line, PLAIN));
    CellsAppend(rail, Span(joiners, PLAIN));
    OtherRowIsSeen(Cells(rail + [Span(joiners, PLAIN)]), Cells(rail + [Span(line, PLAIN)]));
    assert ShownEnd(width)(line) == joiners;
  }

  lemma {:induction false} OtherRowIsSeen(a: Row, b: Row)
    requires |a| != |b|
    ensures !SameScreen([a], [b])
  {
    assert [a][0] == a && [b][0] == b;
  }

  // ----- The rows of a line without white space -----

  predicate Unbroken(text: Text) {
    forall i :: 0 <= i < |text| ==> !text[i].space
  }

  /** How much of a too wide text goes on a row: what fits, but at least one character. */
  function RowLength(text: Text, columns: nat): (n: nat)
    requires columns >= 1 && Width(text) > columns
    ensures 0 < n <= |text|
  {
    var n := LongestFit(text, columns);
    if n == 0 then 1 else n
  }

  /** The parts of a text that each take a row. The last one is empty after a character wider than its row. */
  function Chunks(text: Text, columns: nat): (chunks: seq<Text>)
    requires columns >= 1
    ensures chunks != []
    decreases |text|
  {
    if Width(text) <= columns then [text]
    else
      var n := RowLength(text, columns);
      [text[..n]] + Chunks(text[n..], columns)
  }

  function RailRow(chunk: Text, color: nat): Row {
    Cells(RailOptions(color).prefix + [Span(chunk, PLAIN)])
  }

  function RailRows(chunks: seq<Text>, color: nat): (rows: seq<Row>)
    ensures |rows| == |chunks|
    ensures forall i :: 0 <= i < |chunks| ==> rows[i] == RailRow(chunks[i], color)
  {
    seq(|chunks|, i requires 0 <= i < |chunks| => RailRow(chunks[i], color))
  }

  lemma {:induction false} RailRowsSplit(above: seq<Text>, below: seq<Text>, color: nat)
    ensures RailRows(above + below, color) == RailRows(above, color) + RailRows(below, color)
  {
  }

  lemma {:induction false} RailRowsFirst(chunk: Text, rest: seq<Text>, color: nat)
    ensures RailRows([chunk] + rest, color) == [RailRow(chunk, color)] + RailRows(rest, color)
  {
  }

  lemma {:induction false} OneAtom(text: Text)
    requires Unbroken(text) && text != []
    ensures AtomsOf([Span(text, PLAIN)]) == [Span(text, PLAIN)]
  {
    var span := Span(text, PLAIN);
    var n := RunLength(text);
    assert n == |text| && text[..n] == text && text[n..] == [];
    assert [span][1..] == [] && SpanAtoms(span.Sized([])) == [] && AtomsOf([]) == [];
    assert SpanAtoms(span) == [span];
    assert [span] + [] == [span];
  }

  lemma {:induction false} LastRow(text: Text, columns: nat, wrapped: bool)
    requires Unbroken(text) && columns >= 1 && Width(text) <= columns
    ensures Lines([Span(text, PLAIN)], columns, columns, wrapped) == [[Span(text, PLAIN)]]
  {
    var span := Span(text, PLAIN);
    FastWidthIsWidth(text);
    UnbrokenIsNoSpace(text);
    assert [span][1..] == [] && [] + [span] == [span];
    assert FillLine([], [span], columns, wrapped) == Filling([], [span]);
    assert FillLine([span], [], columns, wrapped) == Filling([], [span]);
  }

  lemma {:induction false} UnbrokenIsNoSpace(text: Text)
    requires Unbroken(text)
    ensures !IsSpace(text)
  {
    assert text != [] ==> text[0] in text;
  }

  lemma {:induction false} CutRow(text: Text, columns: nat)
    requires columns >= 1 && Width(text) > columns
    ensures var n := RowLength(text, columns);
            && TextColumns(text) > columns
            && CutAtom(Span(text, PLAIN), columns) == Split([Span(text[..n], PLAIN)], [Span(text[n..], PLAIN)])
  {
    FastWidthIsWidth(text);
    var span := Span(text, PLAIN);
    assert [span][1..] == [];
    assert [span.Sized(text[LongestFit(text, columns)..])] + [] == [span.Sized(text[LongestFit(text, columns)..])];
  }

  lemma {:induction false} FullRow(text: Text, columns: nat, wrapped: bool)
    requires Unbroken(text) && columns >= 1 && Width(text) > columns
    ensures var n := RowLength(text, columns);
            FillLine([Span(text, PLAIN)], [], columns, wrapped)
            == Filling([Span(text[n..], PLAIN)], [Span(text[..n], PLAIN)])
  {
    var span := Span(text, PLAIN);
    CutRow(text, columns);
    UnbrokenIsNoSpace(text);
    var n := RowLength(text, columns);
    assert [span][1..] == [];
    assert [Span(text[n..], PLAIN)] + [] == [Span(text[n..], PLAIN)];
  }

  lemma {:induction false} FirstRow(text: Text, columns: nat, wrapped: bool, n: nat)
    requires Unbroken(text) && columns >= 1 && Width(text) > columns && n == RowLength(text, columns)
    ensures Lines([Span(text, PLAIN)], columns, columns, wrapped)
            == [[Span(text[..n], PLAIN)]] + Lines([Span(text[n..], PLAIN)], columns, columns, true)
  {
    FullRow(text, columns, wrapped);
    UnbrokenIsNoSpace(text[..n]);
  }

  lemma {:induction false} RowsOfChunks(text: Text, columns: nat, wrapped: bool, width: nat, color: nat)
    requires Unbroken(text) && columns >= 1
    ensures var prefix := RailOptions(color).prefix;
            PaintLines(Lines([Span(text, PLAIN)], columns, columns, wrapped), prefix, prefix, width, None)
            == RailRows(Chunks(text, columns), color)
    decreases |text|
  {
    if Width(text) <= columns {
      LastRow(text, columns, wrapped);
    } else {
      var n := RowLength(text, columns);
      FirstRow(text, columns, wrapped, n);
      RowsOfChunks(text[n..], columns, true, width, color);
      PaintFirst([Span(text[..n], PLAIN)], Lines([Span(text[n..], PLAIN)], columns, columns, true), width, color);
      RailRowsFirst(text[..n], Chunks(text[n..], columns), color);
    }
  }

  lemma {:induction false} PaintFirst(line: seq<Span>, rest: seq<seq<Span>>, width: nat, color: nat)
    ensures var prefix := RailOptions(color).prefix;
            PaintLines([line] + rest, prefix, prefix, width, None)
            == [Cells(prefix + line)] + PaintLines(rest, prefix, prefix, width, None)
  {
    assert ([line] + rest)[1..] == rest;
  }

  function RailColumns(width: nat, color: nat): (columns: nat)
    ensures columns >= 1 && (width >= 1 ==> columns <= width)
  {
    Available(width, RailOptions(color).prefix)
  }

  /** A line without white space takes one row for each chunk. */
  lemma {:induction false} LineIsItsChunks(line: Text, width: nat, color: nat)
    requires Unbroken(line) && line != []
    ensures LineOnRail(width, color)(line) == RailRows(Chunks(line, RailColumns(width, color)), color)
  {
    assert !IsMultiline([Span(line, PLAIN)]);
    OneAtom(line);
    RowsOfChunks(line, RailColumns(width, color), false, width, color);
  }

  // ----- When such a line fills the scrollback -----

  predicate NarrowSolid(text: Text) {
    forall i :: 0 <= i < |text| ==> !text[i].space && !text[i].wide
  }

  lemma {:induction false} NarrowFits(text: Text, columns: nat)
    requires NarrowSolid(text) && columns >= 1 && Width(text) > columns
    ensures var n := RowLength(text, columns);
            && n < |text| && n == LongestFit(text, columns)
            && Width(text[..n]) == columns && Width(text[n..]) == Width(text) - columns
  {
    var n := LongestFit(text, columns);
    LongestFitIsLongest(text, columns);
    assert text[..|text|] == text;
    assert text[..n] + [text[n]] == text[..n + 1];
    WidthConcat(text[..n], [text[n]]);
    WidthSplit(text, n);
  }

  /** So many chunks hold the length, and one less does not. */
  predicate ChunkCount(length: nat, count: nat, per: nat) {
    length <= count * per && (count == 1 || (count > 1 && length > (count - 1) * per))
  }

  lemma {:induction false} OneChunkMore(length: nat, count: nat, per: nat)
    requires ChunkCount(length, count, per) && length > 0
    ensures ChunkCount(length + per, count + 1, per)
  {
    OneRowMore(count + 1, per);
    OneRowMore(count, per);
  }

  lemma {:induction false} CountChunks(text: Text, columns: nat)
    requires NarrowSolid(text) && columns >= 1
    ensures ChunkCount(Width(text), |Chunks(text, columns)|, columns)
    decreases |text|
  {
    if Width(text) > columns {
      NarrowFits(text, columns);
      var n := RowLength(text, columns);
      CountChunks(text[n..], columns);
      OneChunkMore(Width(text[n..]), |Chunks(text[n..], columns)|, columns);
    }
  }

  /** A line without white space and wide characters fills the scrollback exactly when it is wider than all rows but one. */
  lemma {:induction false} NarrowLineFillsIff(line: Text, width: nat, color: nat)
    requires NarrowSolid(line)
    ensures |LineOnRail(width, color)(line)| >= CAPACITY
            <==> Width(line) > (CAPACITY - 1) * RailColumns(width, color)
  {
    var columns := RailColumns(width, color);
    if line == [] {
      EmptyLineIsOneRow(width, color);
    } else {
      LineIsItsChunks(line, width, color);
      CountChunks(line, columns);
      FillsIff(|Chunks(line, columns)|, Width(line), columns);
    }
  }

  lemma {:induction false} FillsIff(count: nat, total: nat, columns: nat)
    requires ChunkCount(total, count, columns)
    ensures count >= CAPACITY <==> total > (CAPACITY - 1) * columns
  {
    if count >= CAPACITY {
      ProductGrows(CAPACITY - 1, count - 1, columns);
    } else {
      ProductGrows(count, CAPACITY - 1, columns);
    }
  }

  lemma {:induction false} ProductGrows(a: nat, b: nat, columns: nat)
    requires a <= b
    ensures a * columns <= b * columns
  {
  }

  lemma {:induction false} EmptyLineIsOneRow(width: nat, color: nat)
    ensures |LineOnRail(width, color)([])| == 1
  {
    var span, columns := Span([], PLAIN), RailColumns(width, color);
    assert !IsMultiline([span]);
    assert [span][1..] == [] && SpanAtoms(span) == [] && AtomsOf([]) == [];
    assert AtomsOf([span]) == [];
    assert Lines([], columns, columns, false) == [[]];
  }

  /** Each character takes `w` columns. */
  predicate Uniform(text: Text, w: nat) {
    1 <= w <= 2 && forall i :: 0 <= i < |text| ==> !text[i].space && CharWidth(text[i]) == w
  }

  /** The characters of a full row. A row of one column takes a wide character all the same. */
  function PerRow(columns: nat, w: nat): (per: nat)
    requires columns >= 1 && 1 <= w <= 2
    ensures 1 <= per <= columns
  {
    if w == 1 then columns else if columns == 1 then 1 else columns / 2
  }

  lemma {:induction false} UniformWidth(text: Text, w: nat)
    requires Uniform(text, w)
    ensures Width(text) == if w == 1 then |text| else |text| + |text|
  {
    if text != [] {
      UniformWidth(text[1..], w);
    }
  }

  lemma {:induction false} TooWideIff(text: Text, w: nat, columns: nat, per: nat)
    requires Uniform(text, w) && columns >= 1 && per == PerRow(columns, w)
    ensures Width(text) > columns <==> (if columns < w then text != [] else |text| > per)
  {
    UniformWidth(text, w);
  }

  lemma {:induction false} UniformRow(text: Text, w: nat, columns: nat, per: nat)
    requires Uniform(text, w) && columns >= 1 && per == PerRow(columns, w) && Width(text) > columns
    ensures RowLength(text, columns) == per
  {
    var n := LongestFit(text, columns);
    LongestFitIsLongest(text, columns);
    UniformWidth(text[..n], w);
    TooWideIff(text, w, columns, per);
    if n < |text| {
      UniformWidth(text[..n + 1], w);
    }
    assert text[..|text|] == text;
  }

  lemma {:induction false} UniformChunk(text: Text, w: nat, columns: nat, per: nat, rest: Text)
    requires Uniform(text, w) && columns >= 1 && per == PerRow(columns, w) && Width(text) > columns
    requires per <= |text| ==> rest == text[per..]
    ensures per <= |text| && Uniform(rest, w) && |rest| == |text| - per
    ensures Chunks(text, columns) == [text[..per]] + Chunks(rest, columns)
  {
    UniformRow(text, w, columns, per);
  }

  lemma {:induction false} CountUniform(text: Text, w: nat, columns: nat, per: nat)
    requires Uniform(text, w) && w <= columns && per == PerRow(columns, w)
    ensures ChunkCount(|text|, |Chunks(text, columns)|, per)
    decreases |text|
  {
    TooWideIff(text, w, columns, per);
    if Width(text) > columns {
      var rest := text[per..];
      UniformChunk(text, w, columns, per, rest);
      CountUniform(rest, w, columns, per);
      OneChunkMore(|rest|, |Chunks(rest, columns)|, per);
    }
  }

  /** Wide characters in a single column take a row each, and an empty row ends the line. */
  lemma {:induction false} CountTooWide(text: Text, w: nat, columns: nat)
    requires Uniform(text, w) && 1 == columns < w
    ensures |Chunks(text, columns)| == |text| + 1
    decreases |text|
  {
    TooWideIff(text, w, columns, 1);
    if text != [] {
      UniformChunk(text, w, columns, 1, text[1..]);
      CountTooWide(text[1..], w, columns);
    }
  }

  /** Of a line in which each character takes `w` columns: how many characters fill the scrollback. A wide character
      in a row of one column is followed by an empty row at the end of the line. */
  predicate FillsScrollback(length: nat, columns: nat, w: nat)
    requires columns >= 1 && 1 <= w <= 2
  {
    if columns < w then length >= CAPACITY - 1 else length > (CAPACITY - 1) * PerRow(columns, w)
  }

  lemma {:induction false} ChunksFillIff(text: Text, w: nat, columns: nat)
    requires Uniform(text, w) && columns >= 1
    ensures |Chunks(text, columns)| >= CAPACITY <==> FillsScrollback(|text|, columns, w)
  {
    if columns >= w {
      CountUniform(text, w, columns, PerRow(columns, w));
      FillsIff(|Chunks(text, columns)|, |text|, PerRow(columns, w));
    } else {
      CountTooWide(text, w, columns);
    }
  }

  lemma {:induction false} UniformIsUnbroken(text: Text, w: nat)
    requires Uniform(text, w)
    ensures Unbroken(text)
  {
  }

  /** Such a line fills the scrollback exactly when it has that many characters. */
  lemma {:induction false} UniformLineFillsIff(line: Text, w: nat, width: nat, color: nat)
    requires Uniform(line, w)
    ensures |LineOnRail(width, color)(line)| >= CAPACITY <==> FillsScrollback(|line|, RailColumns(width, color), w)
  {
    if line == [] {
      EmptyLineIsOneRow(width, color);
    } else {
      UniformIsUnbroken(line, w);
      LineIsItsChunks(line, width, color);
      ChunksFillIff(line, w, RailColumns(width, color));
    }
  }

  // ----- When the cut is seen -----

  /** The length of the last row. */
  function LastLength(length: nat, columns: nat): nat
    requires columns >= 1
  {
    if length <= columns then length else LastLength(length - columns, columns)
  }

  /** The columns of full rows only. */
  predicate FullRows(length: nat, columns: nat)
    requires columns >= 1
  {
    length == 0 || (length >= columns && FullRows(length - columns, columns))
  }

  lemma {:induction false} SameLastIsFullRows(length: nat, shorter: nat, columns: nat)
    requires columns >= 1 && 0 < shorter <= length
    ensures LastLength(length, columns) == LastLength(shorter, columns) <==> FullRows(length - shorter, columns)
  {
    if length - shorter >= columns {
      SameLastIsFullRows(length - columns, shorter, columns);
    } else if shorter > columns {
      SameLastIsFullRows(length - columns, shorter - columns, columns);
    }
  }

  lemma {:induction false} StepModulo(length: nat, columns: nat)
    requires 1 <= columns <= length
    ensures (length - columns) % columns == length % columns
  {
    var q, r := length / columns, length % columns;
    var d := (length - columns) / columns - (q - 1);
    assert d * columns == r - (length - columns) % columns;
    assert d >= 1 ==> d * columns >= columns;
    assert d <= -1 ==> d * columns <= -1 * columns;
  }

  lemma {:induction false} FullRowsIff(length: nat, columns: nat)
    requires columns >= 1
    ensures FullRows(length, columns) <==> length % columns == 0
  {
    if length >= columns {
      StepModulo(length, columns);
      FullRowsIff(length - columns, columns);
    }
  }

  function LastOf(chunks: seq<Text>): Text
    requires chunks != []
  {
    chunks[|chunks| - 1]
  }

  lemma {:induction false} LastOfMore(first: Text, later: seq<Text>)
    requires later != []
    ensures LastOf([first] + later) == LastOf(later)
  {
  }

  lemma {:induction false} LastChunk(text: Text, w: nat, columns: nat, per: nat)
    requires Uniform(text, w) && w <= columns && per == PerRow(columns, w)
    ensures |LastOf(Chunks(text, columns))| == LastLength(|text|, per)
    decreases |text|
  {
    TooWideIff(text, w, columns, per);
    if Width(text) > columns {
      var rest := text[per..];
      UniformChunk(text, w, columns, per, rest);
      LastChunk(rest, w, columns, per);
      LastOfMore(text[..per], Chunks(rest, columns));
    }
  }

  lemma {:induction false} DropTwice(text: Text, a: nat, b: nat)
    requires a + b <= |text|
    ensures text[a..][b..] == text[a + b..]
  {
  }

  lemma {:induction false} FirstChunk(text: Text, w: nat, columns: nat, per: nat, rest: Text)
    requires Uniform(text, w) && columns >= 1 && per == PerRow(columns, w) && |text| > per && rest == text[per..]
    ensures Uniform(rest, w) && Chunks(text, columns) == [text[..per]] + Chunks(rest, columns)
  {
    TooWideIff(text, w, columns, per);
    UniformChunk(text, w, columns, per, rest);
  }

  /** Dropping full rows from the front drops whole chunks. */
  lemma {:induction false} DropRows(text: Text, w: nat, columns: nat, per: nat, dropped: nat, left: Text)
    returns (above: seq<Text>)
    requires Uniform(text, w) && columns >= 1 && per == PerRow(columns, w)
    requires dropped < |text| && FullRows(dropped, per) && left == text[dropped..]
    ensures Chunks(text, columns) == above + Chunks(left, columns)
    decreases dropped
  {
    if dropped == 0 {
      above := [];
      assert left == text;
    } else {
      var rest := text[per..];
      FirstChunk(text, w, columns, per, rest);
      DropTwice(text, per, dropped - per);
      var later := DropRows(rest, w, columns, per, dropped - per, left);
      above := PutFirst(text[..per], later, Chunks(rest, columns), Chunks(left, columns));
    }
  }

  lemma {:induction false} PutFirst(first: Text, later: seq<Text>, rest: seq<Text>, end: seq<Text>)
    returns (above: seq<Text>)
    requires rest == later + end
    ensures [first] + rest == above + end
  {
    above := [first] + later;
    Regroup([first], later, end);
  }

  /** The chunks of what is left fill the scrollback. */
  lemma {:induction false} LeftFills(left: Text, w: nat, columns: nat, width: nat)
    requires Uniform(left, w) && 1 <= columns <= width && |left| == CAPACITY * width
    ensures |Chunks(left, columns)| >= CAPACITY
  {
    ChunksFillIff(left, w, columns);
    ProductMonotone(CAPACITY - 1, PerRow(columns, w), width);
    ProductMonotone(CAPACITY, 1, width);
  }

  lemma {:induction false} AlignedCutIsHidden(
    line: Text, w: nat, color: nat, cut: nat, left: Text, columns: nat, per: nat, width: nat)
    requires Uniform(line, w) && cut <= |line| && left == line[cut..]
    requires 1 <= columns <= width && per == PerRow(columns, w)
    requires |left| == CAPACITY * width && FullRows(cut, per)
    ensures SameScreen(RailRows(Chunks(left, columns), color), RailRows(Chunks(line, columns), color))
  {
    LeftFills(left, w, columns, width);
    ProductMonotone(CAPACITY, 1, width);
    var above := DropRows(line, w, columns, per, cut, left);
    RailRowsSplit(above, Chunks(left, columns), color);
    FullScreenHidesAbove(RailRows(above, color), RailRows(Chunks(left, columns), color));
  }

  lemma {:induction false} RailRowLength(chunk: Text, color: nat, rail: nat)
    requires rail == |Cells(RailOptions(color).prefix)|
    ensures |RailRow(chunk, color)| == rail + |chunk|
  {
    CellsAppend(RailOptions(color).prefix, Span(chunk, PLAIN));
  }

  lemma {:induction false} SameLastRow(a: seq<Row>, b: seq<Row>)
    requires SameScreen(a, b) && a != [] && b != []
    ensures a[|a| - 1] == b[|b| - 1]
  {
    var x, y := Newest(a, CAPACITY), Newest(b, CAPACITY);
    assert x[|x| - 1] == a[|a| - 1] && y[|y| - 1] == b[|b| - 1];
  }

  lemma {:induction false} EndsAlike(a: seq<Text>, b: seq<Text>, color: nat)
    requires a != [] && b != [] && SameScreen(RailRows(a, color), RailRows(b, color))
    ensures |LastOf(a)| == |LastOf(b)|
  {
    SameLastRow(RailRows(a, color), RailRows(b, color));
    var rail := |Cells(RailOptions(color).prefix)|;
    RailRowLength(a[|a| - 1], color, rail);
    RailRowLength(b[|b| - 1], color, rail);
  }

  lemma {:induction false} OneEachRow(cut: nat)
    ensures FullRows(cut, 1)
  {
    if cut > 0 {
      OneEachRow(cut - 1);
    }
  }

  lemma {:induction false} SeenCutIsAligned(
    line: Text, w: nat, color: nat, cut: nat, left: Text, columns: nat, per: nat)
    requires Uniform(line, w) && cut < |line| && left == line[cut..] && columns >= 1 && per == PerRow(columns, w)
    requires SameScreen(RailRows(Chunks(left, columns), color), RailRows(Chunks(line, columns), color))
    ensures FullRows(cut, per)
  {
    if columns < w {
      OneEachRow(cut);
    } else {
      EndsAlike(Chunks(left, columns), Chunks(line, columns), color);
      LastChunk(line, w, columns, per);
      LastChunk(left, w, columns, per);
      SameLastIsFullRows(|line|, |left|, per);
    }
  }

  lemma {:induction false} CutIff(
    line: Text, w: nat, color: nat, cut: nat, left: Text, columns: nat, per: nat, width: nat)
    requires Uniform(line, w) && cut < |line| && left == line[cut..]
    requires 1 <= columns <= width && per == PerRow(columns, w) && |left| == CAPACITY * width
    ensures SameScreen(RailRows(Chunks(left, columns), color), RailRows(Chunks(line, columns), color))
            <==> FullRows(cut, per)
  {
    if FullRows(cut, per) {
      AlignedCutIsHidden(line, w, color, cut, left, columns, per, width);
    } else if SameScreen(RailRows(Chunks(left, columns), color), RailRows(Chunks(line, columns), color)) {
      SeenCutIsAligned(line, w, color, cut, left, columns, per);
    }
  }

  /** The paint of a line without its first `cut` characters looks like the paint of the whole line. */
  ghost predicate CutIsHidden(line: Text, width: nat, color: nat, cut: nat)
    requires cut <= |line|
  {
    SameScreen(LineOnRail(width, color)(line[cut..]), LineOnRail(width, color)(line))
  }

  lemma {:induction false} CutIsHiddenInChunks(line: Text, width: nat, color: nat, cut: nat, left: Text, columns: nat)
    requires Unbroken(line) && cut < |line| && left == line[cut..] && columns == RailColumns(width, color)
    ensures CutIsHidden(line, width, color, cut) <==>
            SameScreen(RailRows(Chunks(left, columns), color), RailRows(Chunks(line, columns), color))
  {
    LineIsItsChunks(line, width, color);
    LineIsItsChunks(left, width, color);
  }

  /** The paint of what is shown of a line looks like the paint of the whole line. */
  ghost predicate LooksWhole(line: Text, width: nat, color: nat) {
    SameScreen(LineOnRail(width, color)(ShownEnd(width)(line)), LineOnRail(width, color)(Stripped(line)))
  }

  lemma {:induction false} UnbrokenIsShown(line: Text, width: nat, cut: nat)
    requires Unbroken(line) && width >= 1 && cut <= |line|
    requires cut == if |line| <= CAPACITY * width then 0 else |line| - CAPACITY * width
    ensures Stripped(line) == line && ShownEnd(width)(line) == line[cut..]
  {
  }

  lemma {:induction false} ShownIsCut(line: Text, width: nat, color: nat, cut: nat)
    requires cut <= |line| && Stripped(line) == line && ShownEnd(width)(line) == line[cut..]
    ensures LooksWhole(line, width, color) <==> CutIsHidden(line, width, color, cut)
  {
  }

  lemma {:induction false} NoCutIsHidden(line: Text, width: nat, color: nat)
    ensures CutIsHidden(line, width, color, 0)
  {
    assert line[0..] == line;
  }

  /** Of a line in which each character takes `w` columns, the cut is hidden exactly when the number of characters that
      it leaves out fills whole rows. */
  lemma {:induction false} CutIsHiddenIff(line: Text, w: nat, width: nat, color: nat, cut: nat)
    requires Uniform(line, w) && width >= 1
    requires cut == if |line| <= CAPACITY * width then 0 else |line| - CAPACITY * width
    ensures LooksWhole(line, width, color) <==> cut % PerRow(RailColumns(width, color), w) == 0
  {
    var columns := RailColumns(width, color);
    var per := PerRow(columns, w);
    UniformIsUnbroken(line, w);
    UnbrokenIsShown(line, width, cut);
    ShownIsCut(line, width, color, cut);
    FullRowsIff(cut, per);
    if cut == 0 {
      NoCutIsHidden(line, width, color);
    } else {
      var left := line[cut..];
      CutIsHiddenInChunks(line, width, color, cut, left, columns);
      CutIff(line, w, color, cut, left, columns, per, width);
    }
  }

  lemma {:induction false} RailIsTwoColumns(color: nat)
    ensures SpansWidth(RailOptions(color).prefix) == 2
  {
    var rail := Span(RAIL, PLAIN.(color := Some(color)));
    CellsOne(rail);
    FastWidthIsWidth(RAIL);
    assert RAIL[1..] == [SPACE] && [SPACE][1..] == [];
    assert Width([SPACE]) == 1;
  }

  lemma {:induction false} EightyColumns(width: nat, color: nat)
    requires width == 80
    ensures RailColumns(width, color) == 78 && CAPACITY * width == 384000
  {
    RailIsTwoColumns(color);
  }

  lemma {:induction false} OneIsNoRow(w: nat)
    requires 1 <= w <= 2
    ensures 1 % PerRow(78, w) != 0
  {
    assert PerRow(78, w) == 78 || PerRow(78, w) == 39;
  }

  /** In a pane of 80 columns the cut of a line of 384001 letters is seen, wide letters or not. */
  lemma {:induction false} CutCanBeSeen(line: Text, w: nat, width: nat, color: nat)
    requires Uniform(line, w) && width == 80 && |line| == 384001
    ensures !LooksWhole(line, width, color)
  {
    EightyColumns(width, color);
    OneIsNoRow(w);
    CutIsHiddenIff(line, w, width, color, 1);
  }
}
