/** The output of a command, painted from its newest lines (client/_render_blocks.py). */
module Blocks {
  import opened TextWidth
  import opened Spans
  import opened Rows
  import opened Scrollback
  import opened Wrappers

  // ----- `str.splitlines()`, `str.rstrip()` -----

  const RETURN: nat := 13

  predicate EndsLine(g: Glyph) {
    g.code in {10, 11, 12, 13, 28, 29, 30, 0x85, 0x2028, 0x2029}
  }

  function FirstEnd(text: Text): (i: nat)
    ensures i <= |text|
    ensures i < |text| ==> EndsLine(text[i])
    ensures forall k :: 0 <= k < i ==> !EndsLine(text[k])
  {
    if text == [] || EndsLine(text[0]) then 0 else 1 + FirstEnd(text[1..])
  }

  /** The end after position `i`: a carriage return and a line feed are one end. */
  function EndLength(text: Text, i: nat): nat
    requires i < |text|
  {
    if text[i].code == RETURN && i + 1 < |text| && text[i + 1] == NEWLINE then 2 else 1
  }

  /** The length of the first line with its end. */
  function LineLength(text: Text): (n: nat)
    requires text != []
    ensures 0 < n <= |text|
  {
    var i := FirstEnd(text);
    if i == |text| then i else i + EndLength(text, i)
  }

  function TextLines(text: Text): (lines: seq<Text>)
    decreases |text|
  {
    if text == [] then [] else [text[..FirstEnd(text)]] + TextLines(text[LineLength(text)..])
  }

  function Stripped(line: Text): (stripped: Text)
    ensures stripped <= line
    ensures stripped != [] ==> !stripped[|stripped| - 1].space
  {
    if line != [] && line[|line| - 1].space then Stripped(line[..|line| - 1]) else line
  }

  // ----- The tail of a text -----

  /** `text.rfind("\n", 0, start)`. */
  function LastNewline(text: Text, start: nat): (i: int)
    requires start <= |text|
    ensures -1 <= i < start
    ensures i >= 0 ==> text[i] == NEWLINE
    ensures forall k :: i < k < start ==> text[k] != NEWLINE
  {
    if start == 0 then -1 else if text[start - 1] == NEWLINE then start - 1 else LastNewline(text, start - 1)
  }

  function Newlines(text: Text): nat {
    if text == [] then 0 else (if text[0] == NEWLINE then 1 else 0) + Newlines(text[1..])
  }

  lemma {:induction false} NoNewlines(text: Text)
    requires forall k :: 0 <= k < |text| ==> text[k] != NEWLINE
    ensures Newlines(text) == 0
  {
    if text != [] {
      NoNewlines(text[1..]);
    }
  }

  lemma {:induction false} NewlinesConcat(a: Text, b: Text)
    ensures Newlines(a + b) == Newlines(a) + Newlines(b)
  {
    if a == [] {
      assert a + b == b;
    } else {
      assert (a + b)[1..] == a[1..] + b;
      NewlinesConcat(a[1..], b);
    }
  }

  /** Where the tail starts that is left after `skipped + 1` more line feeds are looked for before `start`. */
  function TailCut(text: Text, start: nat, skipped: nat): (cut: nat)
    requires start <= |text|
    ensures cut <= |text|
  {
    var next := LastNewline(text, start);
    if next < 0 then 0 else if skipped == 0 then next + 1 else TailCut(text, next, skipped - 1)
  }

  /** The end of the text that holds at least its newest lines. */
  function TailOf(text: Text, lineCount: nat): Text {
    text[TailCut(text, |text|, lineCount)..]
  }

  /** Look for the line feeds from the end, and cut after the last one found. */
  method Tail(text: Text, lineCount: nat) returns (tail: Text)
    ensures tail == TailOf(text, lineCount)
  {
    var start: int := |text|;
    for found := 0 to lineCount + 1
      invariant 0 <= start <= |text|
      invariant found > 0 ==> start < |text|
      invariant TailCut(text, |text|, lineCount) == if found <= lineCount then TailCut(text, start, lineCount - found) else start + 1
    {
      start := LastNewline(text, start);
      if start < 0 {
        return text;
      }
    }
    return text[start + 1..];
  }

  /** The cut is after a line feed and leaves that many line feeds, or it is at the start of the text. */
  lemma {:induction false} TailCutAfterNewline(text: Text, start: nat, skipped: nat, left: nat)
    requires start <= |text| && Newlines(text[start..]) + skipped == left
    ensures var cut := TailCut(text, start, skipped);
            cut > 0 ==> text[cut - 1] == NEWLINE && Newlines(text[cut..]) == left
    decreases skipped
  {
    var next := LastNewline(text, start);
    if next >= 0 {
      TailStep(text, start, next);
      if skipped > 0 {
        TailCutAfterNewline(text, next, skipped - 1, left);
      } else {
        assert text[next..][1..] == text[next + 1..];
      }
    }
  }

  lemma {:induction false} TailStep(text: Text, start: nat, next: nat)
    requires start <= |text| && next == LastNewline(text, start)
    ensures Newlines(text[next..]) == Newlines(text[start..]) + 1
  {
    var between := text[next + 1..start];
    NoNewlines(between);
    assert text[next..] == [NEWLINE] + between + text[start..];
    NewlinesConcat([NEWLINE] + between, text[start..]);
    NewlinesConcat([NEWLINE], between);
    assert [NEWLINE][1..] == [];
  }

  lemma {:induction false} NewlinesOfParts(text: Text, i: nat, next: nat)
    requires i <= next <= |text|
    ensures Newlines(text) == Newlines(text[..i]) + Newlines(text[i..next]) + Newlines(text[next..])
  {
    assert text == text[..i] + text[i..next] + text[next..];
    NewlinesConcat(text[..i] + text[i..next], text[next..]);
    NewlinesConcat(text[..i], text[i..next]);
  }

  lemma {:induction false} NewlinesAreLines(text: Text)
    ensures |TextLines(text)| >= Newlines(text)
    decreases |text|
  {
    if text != [] {
      var i, next := FirstEnd(text), LineLength(text);
      if i == |text| {
        NoNewlines(text);
      } else {
        NewlinesAreLines(text[next..]);
        NoNewlines(text[..i]);
        OneNewlineAtMost(text[i..next]);
        NewlinesOfParts(text, i, next);
        TextLinesStep(text);
      }
    }
  }

  lemma {:induction false} OneNewlineAtMost(end: Text)
    requires |end| == 1 || (|end| == 2 && end[0].code == RETURN)
    ensures Newlines(end) <= 1
  {
    if |end| == 1 {
      assert end[1..] == [];
    } else {
      assert end[1..] == [end[1]] && [end[1]][1..] == [];
      assert Newlines([end[1]]) <= 1;
    }
  }

  lemma {:induction false} FirstLinesAgree(a: Text, b: Text)
    requires a != [] && a[|a| - 1] == NEWLINE
    ensures TextLines(a) == [a[..FirstEnd(a)]] + TextLines(a[LineLength(a)..])
    ensures TextLines(a + b) == [a[..FirstEnd(a)]] + TextLines(a[LineLength(a)..] + b)
  {
    FirstLineOfPrefix(a, b);
    TextLinesStep(a);
    TextLinesStep(a + b);
  }

  /** A line feed always ends a line, so the lines of a text cut after one are the lines of its parts. */
  lemma {:induction false} CutAfterNewline(a: Text, b: Text)
    requires a != [] && a[|a| - 1] == NEWLINE
    ensures TextLines(a + b) == TextLines(a) + TextLines(b)
    decreases |a|
  {
    FirstLineOfPrefix(a, b);
    var n := LineLength(a);
    FirstLinesAgree(a, b);
    if n < |a| {
      CutAfterNewline(a[n..], b);
    } else {
      assert a[n..] == [] && a[n..] + b == b;
    }
    Regroup([a[..FirstEnd(a)]], TextLines(a[n..]), TextLines(b));
  }

  lemma {:induction false} TextLinesStep(text: Text)
    requires text != []
    ensures TextLines(text) == [text[..FirstEnd(text)]] + TextLines(text[LineLength(text)..])
  {
  }

  lemma {:induction false} FirstLineOfPrefix(a: Text, b: Text)
    requires a != [] && a[|a| - 1] == NEWLINE
    ensures (a + b)[..FirstEnd(a + b)] == a[..FirstEnd(a)]
    ensures LineLength(a + b) == LineLength(a)
    ensures (a + b)[LineLength(a)..] == a[LineLength(a)..] + b
  {
    FirstEndOfPrefix(a, b);
  }

  lemma {:induction false} FirstEndOfPrefix(a: Text, b: Text)
    requires a != [] && a[|a| - 1] == NEWLINE
    ensures var i := FirstEnd(a);
            i < |a| && FirstEnd(a + b) == i && EndLength(a + b, i) == EndLength(a, i)
  {
    assert EndsLine(a[|a| - 1]);
    assert forall k :: 0 <= k < |a| ==> (a + b)[k] == a[k];
  }

  /** The tail of a text has the same newest lines as the text. */
  lemma {:induction false} TailHasTheNewestLines(text: Text)
    ensures SameScreen(TextLines(TailOf(text, CAPACITY)), TextLines(text))
  {
    var cut := TailCut(text, |text|, CAPACITY);
    assert text[|text|..] == [];
    TailCutAfterNewline(text, |text|, CAPACITY, CAPACITY);
    if cut > 0 {
      assert text == text[..cut] + text[cut..];
      CutAfterNewline(text[..cut], text[cut..]);
      NewlinesAreLines(text[cut..]);
      FullScreenHidesAbove(TextLines(text[..cut]), TextLines(text[cut..]));
    } else {
      assert text[0..] == text;
    }
  }

  // ----- The rows of the newest lines -----

  datatype BlockContent =
    BlockContent(heading: seq<Span>, summary: Text, output: Text, status: Text, finish: Option<seq<Span>>, color: nat)

  const RAIL: Text := [Glyph(0x2502, false, false, false), SPACE]

  function RailOptions(color: nat): RowOptions {
    RowOptions([Span(RAIL, PLAIN.(color := Some(color)))], None, WordWrap, None)
  }

  function LineOnRail(width: nat, color: nat): Text -> seq<Row> {
    line => RowsOf([Span(line, PLAIN)], width, RailOptions(color))
  }

  function Mapped<A, B>(items: seq<A>, f: A -> B): (mapped: seq<B>)
    ensures |mapped| == |items|
    ensures forall i :: 0 <= i < |items| ==> mapped[i] == f(items[i])
  {
    seq(|items|, i requires 0 <= i < |items| => f(items[i]))
  }

  /** Each line without its trailing white space. */
  function FullLines(text: Text): seq<Text> {
    Mapped(TextLines(text), Stripped)
  }

  /** `line.rstrip()[-longest:]`; a limit of zero keeps the line. */
  function ShownEnd(width: nat): Text -> Text {
    line => if width == 0 then Stripped(line) else Newest(Stripped(line), CAPACITY * width)
  }

  predicate LinesAreShort(text: Text, width: nat) {
    width == 0 || forall line <- TextLines(text) :: |Stripped(line)| <= CAPACITY * width
  }

  /** All rows that a block's output would take: the status and then the output. */
  function FullStreamRows(content: BlockContent, width: nat): seq<Row> {
    Concat(FullLines(content.status) + FullLines(content.output), LineOnRail(width, content.color))
  }

  /** The lines of one stream that the paint reads. */
  function ReadLines(text: Text, width: nat): seq<Text> {
    Mapped(TextLines(TailOf(text, CAPACITY)), ShownEnd(width))
  }

  /** The rows that the paint makes of a block's output. */
  function LazyStreamRows(content: BlockContent, width: nat): seq<Row> {
    var lines := ReadLines(content.status, width) + ReadLines(content.output, width);
    var rows := LineOnRail(width, content.color);
    Concat(Newest(lines, StopPoint(lines, rows, 0)), rows)
  }

  /** Paint the newest lines of the status and the output, until the scrollback is full. */
  method StreamRows(content: BlockContent, width: nat) returns (rows: seq<Row>)
    ensures rows == LazyStreamRows(content, width)
  {
    var output := Tail(content.output, CAPACITY);
    var status := Tail(content.status, CAPACITY);
    var lines := Mapped(TextLines(status), ShownEnd(width)) + Mapped(TextLines(output), ShownEnd(width));
    var shown;
    rows, shown := PaintNewest(lines, LineOnRail(width, content.color));
  }

  lemma {:induction false} ShortLinesShown(text: Text, width: nat)
    requires LinesAreShort(text, width)
    ensures SameScreen(ReadLines(text, width), FullLines(text))
  {
    TailHasTheNewestLines(text);
    var some, all := TextLines(TailOf(text, CAPACITY)), TextLines(text);
    SameScreenCases(some, all);
    forall line | line in Newest(some, CAPACITY)
      ensures ShownEnd(width)(line) == Stripped(line)
    {
      assert line in all;
    }
    MappedNewest(some, ShownEnd(width));
    MappedNewest(all, Stripped);
    MappedAlike(Newest(some, CAPACITY), ShownEnd(width), Stripped);
  }

  lemma {:induction false} MappedAlike<A, B>(items: seq<A>, f: A -> B, g: A -> B)
    requires forall item <- items :: f(item) == g(item)
    ensures Mapped(items, f) == Mapped(items, g)
  {
  }

  lemma {:induction false} MappedNewest<A, B>(items: seq<A>, f: A -> B)
    ensures Newest(Mapped(items, f), CAPACITY) == Mapped(Newest(items, CAPACITY), f)
  {
  }

  /** When no line is longer than the scrollback can show, the painted rows leave the same screen as the
      rows of all lines of the status and the output. */
  lemma {:induction false} StreamRefinesAllLines(content: BlockContent, width: nat)
    requires LinesAreShort(content.output, width) && LinesAreShort(content.status, width)
    ensures SameScreen(LazyStreamRows(content, width), FullStreamRows(content, width))
  {
    var rows := LineOnRail(width, content.color);
    var lines := ReadLines(content.status, width) + ReadLines(content.output, width);
    ShortLinesShown(content.output, width);
    ShortLinesShown(content.status, width);
    SameScreenConcat(ReadLines(content.status, width), FullLines(content.status),
                     ReadLines(content.output, width), FullLines(content.output));
    EarlyStopRefines(lines, rows, StopPoint(lines, rows, 0));
    SameItemsSameScreen(lines, FullLines(content.status) + FullLines(content.output), rows);
  }
}
