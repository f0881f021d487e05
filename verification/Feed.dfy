/** The mirror pane: the feed from its newest item, its panels and the extension sections
    (client/_render_feed.py, client/_render_compose.py, `_block`, `screen`). */
module Feed {
  import opened TextWidth
  import opened Spans
  import opened Rows
  import opened Scrollback
  import opened Blocks
  import opened Wrappers

  /** One feed item. What a single entry draws is not part of this model, so an entry has its rows at each width. */
  datatype FeedItem = EntryItem(visible: bool, rowsAt: nat -> seq<Row>) | ShellItem(block: BlockContent)

  const BAR: Glyph := Glyph(0x2500, false, false, false)
  const EMPTY_ROW: Row := []
  const CONTINUATION: seq<Span> := [Span([SPACE, SPACE], PLAIN)]

  function Rule(width: nat): Row {
    SpanCells(Span(seq(width, _ => BAR), PLAIN.(dim := true)))
  }

  function TruncatedRows(content: seq<Span>, width: nat): seq<Row> {
    RowsOf(content, width, RowOptions([], None, Truncate, None))
  }

  function BlockHead(content: BlockContent, width: nat): seq<Row> {
    [EMPTY_ROW, Rule(width)] + TruncatedRows(content.heading, width)
    + (if content.summary == [] then []
       else RowsOf([Span(content.summary, PLAIN)], width, RowOptions([], Some(CONTINUATION), WordWrap, None)))
    + [Rule(width)]
  }

  function BlockFoot(content: BlockContent, width: nat): seq<Row> {
    if content.finish.None? then [] else [Rule(width)] + TruncatedRows(content.finish.value, width) + [Rule(width)]
  }

  /** A command block: its heading, its output behind a rail, and how it ended. It has the screen of the block with
      every line, when no line is longer than the scrollback can show. */
  method BlockRows(content: BlockContent, width: nat) returns (painted: seq<Row>)
    ensures painted == LazyBlockRows(content, width)
    ensures BlockIsShort(content, width) ==> SameScreen(painted, FullBlockRows(content, width))
  {
    var stream := StreamRows(content, width);
    painted := BlockHead(content, width);
    painted := painted + stream;
    painted := painted + BlockFoot(content, width);
    BlockRefines(content, width);
  }

  function LazyBlockRows(content: BlockContent, width: nat): seq<Row> {
    BlockHead(content, width) + LazyStreamRows(content, width) + BlockFoot(content, width)
  }

  function FullBlockRows(content: BlockContent, width: nat): seq<Row> {
    BlockHead(content, width) + FullStreamRows(content, width) + BlockFoot(content, width)
  }

  /** No line is longer than the scrollback can show. */
  ghost predicate BlockIsShort(content: BlockContent, width: nat) {
    LinesAreShort(content.output, width) && LinesAreShort(content.status, width)
  }

  lemma {:induction false} BlockRefines(content: BlockContent, width: nat)
    ensures BlockIsShort(content, width) ==> SameScreen(LazyBlockRows(content, width), FullBlockRows(content, width))
  {
    if BlockIsShort(content, width) {
      var head, foot := BlockHead(content, width), BlockFoot(content, width);
      StreamRefinesAllLines(content, width);
      SameScreenConcat(head, head, LazyStreamRows(content, width), FullStreamRows(content, width));
      SameScreenConcat(head + LazyStreamRows(content, width), head + FullStreamRows(content, width), foot, foot);
    }
  }

  function LazyRecordRows(width: nat): FeedItem -> seq<Row> {
    (item: FeedItem) =>
      match item
      case ShellItem(block) => LazyBlockRows(block, width)
      case EntryItem(visible, rowsAt) => if visible then rowsAt(width) else []
  }

  function FullRecordRows(width: nat): FeedItem -> seq<Row> {
    (item: FeedItem) =>
      match item
      case ShellItem(block) => FullBlockRows(block, width)
      case EntryItem(visible, rowsAt) => if visible then rowsAt(width) else []
  }

  datatype MirrorRows = MirrorRows(rows: seq<Row>, shown: nat)

  /** Paint from the newest item to the oldest, and stop when the scrollback is full. */
  method ScrollbackFeed(feed: seq<FeedItem>, width: nat) returns (mirror: MirrorRows)
    ensures StopsAfter(feed, LazyRecordRows(width), mirror.shown)
    ensures mirror.rows == Concat(Newest(feed, mirror.shown), LazyRecordRows(width))
  {
    var rows, shown := PaintNewest(feed, LazyRecordRows(width));
    mirror := MirrorRows(rows, shown);
  }

  function WithTasks(rows: seq<Row>, tasks: seq<Row>, width: nat): seq<Row> {
    if tasks == [] then rows else rows + ([EMPTY_ROW, Rule(width)] + tasks)
  }

  /** The rows that the whole pane shows: the header and the newest rows. */
  function Screen(painted: seq<Row>, header: seq<Row>): seq<Row> {
    header + Newest(painted, CAPACITY)
  }

  function MirrorScreen(painted: seq<Row>, header: seq<Row>, sections: seq<Row>, width: nat): seq<Row> {
    Screen(WithTasks(painted, sections, width), header)
  }

  ghost predicate LinesFit(feed: seq<FeedItem>, width: nat) {
    forall item <- feed :: item.ShellItem? ==> BlockIsShort(item.block, width)
  }

  /** The screen that paints every record and every line. */
  function FullScreen(feed: seq<FeedItem>, tasks: seq<Row>, sections: seq<Row>, header: seq<Row>, width: nat): seq<Row> {
    MirrorScreen(WithTasks(Concat(feed, FullRecordRows(width)), tasks, width), header, sections, width)
  }

  /** `mirror`: paint the feed and the panels. The screen is the one that painting every record and every
      line makes, when no output line is longer than the scrollback can show. */
  method Mirror(feed: seq<FeedItem>, tasks: seq<Row>, sections: seq<Row>, header: seq<Row>, width: nat)
    returns (screen: seq<Row>, shown: nat)
    ensures StopsAfter(feed, LazyRecordRows(width), shown)
    ensures LinesFit(feed, width) ==> screen == FullScreen(feed, tasks, sections, header, width)
    ensures screen == LazyScreen(feed, shown, tasks, sections, header, width)
  {
    var mirror := ScrollbackFeed(feed, width);
    shown := mirror.shown;
    screen := MirrorScreen(WithTasks(mirror.rows, tasks, width), header, sections, width);
    if LinesFit(feed, width) {
      LazyFeedRefinesFullFeed(feed, width, shown);
      SameScreenWithTasks(mirror.rows, Concat(feed, FullRecordRows(width)), tasks, width);
      SameScreenWithTasks(WithTasks(mirror.rows, tasks, width),
                          WithTasks(Concat(feed, FullRecordRows(width)), tasks, width), sections, width);
    }
  }

  function LazyScreen(
    feed: seq<FeedItem>, shown: nat, tasks: seq<Row>, sections: seq<Row>, header: seq<Row>, width: nat): seq<Row> {
    MirrorScreen(WithTasks(Concat(Newest(feed, shown), LazyRecordRows(width)), tasks, width), header, sections, width)
  }

  // ----- What stands where -----

  /** A dim line over the whole width. */
  function Bars(width: nat): Row {
    seq(width, _ => Cell(Glyph(0x2500, false, false, false), Style(None, None, false, true, None)))
  }

  /** From top to bottom: an empty row and a line, the heading, the summary, a line; the status and then the output behind
      the rail; and between two lines how the command ended. */
  lemma {:induction false} BlockStandsInOrder(content: BlockContent, width: nat)
    ensures var rail := LineOnRail(width, content.color);
            FullBlockRows(content, width)
            == [[], Bars(width)]
               + RowsOf(content.heading, width, RowOptions([], None, Truncate, None))
               + (if content.summary == [] then [] else SummaryRows(content.summary, width))
               + [Bars(width)]
               + Concat(FullLines(content.status), rail) + Concat(FullLines(content.output), rail)
               + (if content.finish.None? then []
                  else [Bars(width)] + RowsOf(content.finish.value, width, RowOptions([], None, Truncate, None)) + [Bars(width)])
  {
    assert Rule(width) == Bars(width);
    ConcatSplit(FullLines(content.status), FullLines(content.output), LineOnRail(width, content.color));
    Between(BlockHead(content, width), Concat(FullLines(content.status), LineOnRail(width, content.color)),
            Concat(FullLines(content.output), LineOnRail(width, content.color)), BlockFoot(content, width));
  }

  lemma {:induction false} Between(head: seq<Row>, first: seq<Row>, second: seq<Row>, foot: seq<Row>)
    ensures head + (first + second) + foot == head + first + second + foot
  {
  }

  /** The summary wraps behind two blanks from its second row on. */
  function SummaryRows(summary: Text, width: nat): seq<Row> {
    RowsOf([Span(summary, PLAIN)], width, RowOptions([], Some([Span([SPACE, SPACE], PLAIN)]), WordWrap, None))
  }

  /** Every row of a block's output starts with the rail: a bar and a blank in the colour of the block. */
  lemma {:induction false} OutputStandsBehindTheRail(line: Text, width: nat, color: nat, i: nat)
    requires i < |LineOnRail(width, color)(line)|
    ensures var row, style := LineOnRail(width, color)(line)[i], Style(Some(color), None, false, false, None);
            |row| >= 2 && row[0] == Cell(Glyph(0x2502, false, false, false), style) && row[1] == Cell(SPACE, style)
  {
    var content, options := [Span(line, PLAIN)], RailOptions(color);
    WrappedTextKeepsVisible(content, width, options);
    CellsConcat(options.prefix, WrappedContent(content, width, options)[i]);
    CellsOne(options.prefix[0]);
  }

  /** A hidden entry draws nothing, and every other record its own rows. */
  lemma {:induction false} RecordsDraw(feed: seq<FeedItem>, width: nat, k: nat)
    requires k < |feed|
    ensures Concat(feed, FullRecordRows(width))
            == Concat(feed[..k], FullRecordRows(width))
               + (match feed[k]
                  case EntryItem(visible, rowsAt) => if visible then rowsAt(width) else []
                  case ShellItem(block) => FullBlockRows(block, width))
               + Concat(feed[k + 1..], FullRecordRows(width))
  {
    var rows := FullRecordRows(width);
    assert feed == feed[..k] + ([feed[k]] + feed[k + 1..]);
    ConcatSplit(feed[..k], [feed[k]] + feed[k + 1..], rows);
    ConcatSplit([feed[k]], feed[k + 1..], rows);
    assert [feed[k]][1..] == [];
  }

  /** A panel follows what it is put under, behind an empty row and a line; an empty panel leaves nothing. */
  function Panel(panel: seq<Row>, width: nat): seq<Row> {
    if panel == [] then [] else [[], Bars(width)] + panel
  }

  /** The pane: the header, and under it the newest 4800 rows of the feed, the tasks and the sections, in this order. */
  lemma {:induction false} PaneStandsInOrder(
      feed: seq<FeedItem>, tasks: seq<Row>, sections: seq<Row>, header: seq<Row>, width: nat)
    ensures var rows := Concat(feed, FullRecordRows(width)) + Panel(tasks, width) + Panel(sections, width);
            FullScreen(feed, tasks, sections, header, width)
            == header + if |rows| <= 4800 then rows else rows[|rows| - 4800..]
  {
    var rows := Concat(feed, FullRecordRows(width));
    PanelStandsBelow(rows, tasks, width);
    PanelStandsBelow(rows + Panel(tasks, width), sections, width);
    NewestRows(rows + Panel(tasks, width) + Panel(sections, width));
  }

  lemma {:induction false} PanelStandsBelow(rows: seq<Row>, panel: seq<Row>, width: nat)
    ensures WithTasks(rows, panel, width) == rows + Panel(panel, width)
  {
    assert Rule(width) == Bars(width);
    assert rows + [] == rows;
  }

  lemma {:induction false} NewestRows(rows: seq<Row>)
    ensures Newest(rows, CAPACITY) == if |rows| <= 4800 then rows else rows[|rows| - 4800..]
  {
  }

  lemma {:induction false} SameScreenWithTasks(a: seq<Row>, b: seq<Row>, tasks: seq<Row>, width: nat)
    requires SameScreen(a, b)
    ensures SameScreen(WithTasks(a, tasks, width), WithTasks(b, tasks, width))
  {
    SameScreenBelow(a, b, [EMPTY_ROW, Rule(width)] + tasks);
  }

  lemma {:induction false} RecordRefines(item: FeedItem, width: nat)
    requires item.ShellItem? ==> BlockIsShort(item.block, width)
    ensures SameScreen(LazyRecordRows(width)(item), FullRecordRows(width)(item))
  {
    if item.ShellItem? {
      BlockRefines(item.block, width);
    }
  }

  /** The newest-first walk over lazily painted records leaves the screen of all rows of all records. */
  lemma {:induction false} LazyFeedRefinesFullFeed(feed: seq<FeedItem>, width: nat, shown: nat)
    requires LinesFit(feed, width) && StopsAfter(feed, LazyRecordRows(width), shown)
    ensures SameScreen(Concat(Newest(feed, shown), LazyRecordRows(width)), Concat(feed, FullRecordRows(width)))
  {
    EarlyStopRefines(feed, LazyRecordRows(width), shown);
    forall item <- feed
      ensures SameScreen(LazyRecordRows(width)(item), FullRecordRows(width)(item))
    {
      RecordRefines(item, width);
    }
    SameRowsSameScreen(feed, LazyRecordRows(width), FullRecordRows(width));
  }

  /** A paint of only the items that the last paint showed makes the same screen. */
  lemma {:induction false} RepaintOfNewest(
    feed: seq<FeedItem>, shown: nat, again: nat, tasks: seq<Row>, sections: seq<Row>, header: seq<Row>, width: nat)
    requires StopsAfter(feed, LazyRecordRows(width), shown)
    requires StopsAfter(Newest(feed, shown), LazyRecordRows(width), again)
    ensures again == shown
    ensures LazyScreen(Newest(feed, shown), again, tasks, sections, header, width)
         == LazyScreen(feed, shown, tasks, sections, header, width)
  {
    RepaintAfterForgetting(feed, LazyRecordRows(width), shown, again);
  }
}
