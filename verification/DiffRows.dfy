/** The rows of a unified diff with their line numbers, and the marking of changed pairs
    (client/_render_diff_parse.py, client/_render_diff_models.py). */
module DiffRows {
  import opened DiffRanges
  import opened Wrappers

  datatype RowKind = REMOVED | ADDED | CONTEXT | SEPARATOR

  datatype DiffRow = DiffRow(kind: RowKind, number: Option<nat>, text: string, changed: Option<TextRange>)

  const ELLIPSIS := "\U{22EE}"
  const NO_NEWLINE := "\\ No newline at end of file"

  // ----- Hunk headers -----

  predicate IsDigit(c: char) {
    '0' <= c <= '9'
  }

  /** The number of leading digits. */
  function Digits(text: string): (n: nat)
    ensures n <= |text|
  {
    if text == [] || !IsDigit(text[0]) then 0 else 1 + Digits(text[1..])
  }

  function Value(digits: string): nat {
    if digits == [] then 0
    else
      var last := digits[|digits| - 1];
      10 * Value(digits[..|digits| - 1]) + if IsDigit(last) then last as nat - '0' as nat else 0
  }

  predicate Starts(text: string, prefix: string) {
    prefix <= text
  }

  predicate HasLength(text: string) {
    text != [] && text[0] == ',' && Digits(text[1..]) > 0
  }

  /** After a start, the optional length of a range: without one, the range is a single line. */
  function Length(text: string): nat {
    if HasLength(text) then Value(text[1..1 + Digits(text[1..])]) else 1
  }

  function DropLength(text: string): string {
    if HasLength(text) then text[1 + Digits(text[1..])..] else text
  }

  /** A hunk's first line and number of lines on each side. */
  datatype Hunk = Hunk(oldLine: nat, oldLength: nat, newLine: nat, newLength: nat)

  /** The hunk that a header names. */
  function HunkOf(line: string): Option<Hunk> {
    if !Starts(line, "@@ -") then None
    else
      var left := line[4..];
      var n := Digits(left);
      var middle := DropLength(left[n..]);
      if n == 0 || !Starts(middle, " +") then None
      else
        var right := middle[2..];
        var m := Digits(right);
        if m == 0 || !Starts(DropLength(right[m..]), " @@") then None
        else Some(Hunk(Value(left[..n]), Length(left[n..]), Value(right[..m]), Length(right[m..])))
  }

  // ----- Parsing -----

  /** The next line number on each side. */
  datatype Numbers = Numbers(oldLine: nat, newLine: nat)

  /** The numbers, when the parser has seen a header, and the rows so far. */
  datatype Parsed = Parsed(numbers: Option<Numbers>, rows: seq<DiffRow>)

  /** A line that names a file, also when it stands inside a hunk. */
  predicate IsFileLine(line: string) {
    Starts(line, "--- ") || Starts(line, "+++ ")
  }

  predicate LooksLikeContent(line: string) {
    line != [] && (line[0] == '-' || line[0] == '+' || line[0] == ' ')
  }

  function AddRow(parsed: Parsed, kind: RowKind, number: nat, text: string, next: Numbers): Parsed {
    Parsed(Some(next), parsed.rows + [DiffRow(kind, Some(number), text, None)])
  }

  function ParseContent(parsed: Parsed, line: string): Parsed {
    if parsed.numbers.None? || line == [] then parsed
    else
      var numbers := parsed.numbers.value;
      if line[0] == '-' then
        AddRow(parsed, REMOVED, numbers.oldLine, line[1..], numbers.(oldLine := numbers.oldLine + 1))
      else if line[0] == '+' then
        AddRow(parsed, ADDED, numbers.newLine, line[1..], numbers.(newLine := numbers.newLine + 1))
      else if line[0] == ' ' then
        AddRow(parsed, CONTEXT, numbers.newLine, line[1..], Numbers(numbers.oldLine + 1, numbers.newLine + 1))
      else parsed
  }

  function ParseHunk(parsed: Parsed, hunk: Hunk): Parsed {
    Parsed(Some(Numbers(hunk.oldLine, hunk.newLine)),
      if parsed.numbers.Some? then parsed.rows + [DiffRow(SEPARATOR, None, ELLIPSIS, None)] else parsed.rows)
  }

  function ParseLine(parsed: Parsed, line: string): Parsed {
    var hunk := HunkOf(line);
    if hunk.Some? then ParseHunk(parsed, hunk.value)
    else if IsFileLine(line) || line == NO_NEWLINE then parsed
    else ParseContent(parsed, line)
  }

  const NOTHING := Parsed(None, [])

  function ParseLines(lines: seq<string>): Parsed {
    if lines == [] then NOTHING else ParseLine(ParseLines(lines[..|lines| - 1]), lines[|lines| - 1])
  }

  class DiffParser {
    var oldNumber: Option<nat>
    var newNumber: Option<nat>
    var parsed: seq<DiffRow>

    predicate Valid()
      reads this
    {
      oldNumber.Some? <==> newNumber.Some?
    }

    function View(): Parsed
      requires Valid()
      reads this
    {
      Parsed(if oldNumber.Some? then Some(Numbers(oldNumber.value, newNumber.value)) else None, parsed)
    }

    constructor ()
      ensures Valid() && View() == NOTHING
    {
      oldNumber, newNumber, parsed := None, None, [];
    }

    method ParseInputLine(line: string)
      requires Valid()
      modifies this
      ensures Valid() && View() == ParseLine(old(View()), line)
    {
      var hunk := HunkOf(line);
      if hunk.Some? {
        if oldNumber.Some? {
          parsed := parsed + [DiffRow(SEPARATOR, None, ELLIPSIS, None)];
        }
        oldNumber, newNumber := Some(hunk.value.oldLine), Some(hunk.value.newLine);
        return;
      }
      if oldNumber.None? || newNumber.None? || IsFileLine(line) || line == NO_NEWLINE {
        return;
      }
      var row := ParsedLine(line);
      if row.Some? {
        parsed := parsed + [row.value];
      }
    }

    /** The row of a line inside a hunk; its side's number moves on. */
    method ParsedLine(line: string) returns (row: Option<DiffRow>)
      requires Valid() && oldNumber.Some?
      modifies this`oldNumber, this`newNumber
      ensures Valid()
      ensures View().(rows := parsed + if row.Some? then [row.value] else []) == ParseContent(old(View()), line)
    {
      var oldLine, newLine := oldNumber.value, newNumber.value;
      if line == [] {
        return None;
      }
      if line[0] == '-' {
        oldNumber := Some(oldLine + 1);
        return Some(DiffRow(REMOVED, Some(oldLine), line[1..], None));
      }
      if line[0] == '+' {
        newNumber := Some(newLine + 1);
        return Some(DiffRow(ADDED, Some(newLine), line[1..], None));
      }
      if line[0] == ' ' {
        oldNumber := Some(oldLine + 1);
        newNumber := Some(newLine + 1);
        return Some(DiffRow(CONTEXT, Some(newLine), line[1..], None));
      }
      return None;
    }
  }

  method ParsedRows(lines: seq<string>) returns (rows: seq<DiffRow>)
    ensures rows == ParseLines(lines).rows
  {
    var parser := new DiffParser();
    for i := 0 to |lines|
      invariant parser.Valid() && parser.View() == ParseLines(lines[..i])
      invariant fresh(parser)
    {
      assert lines[..i + 1][..i] == lines[..i];
      parser.ParseInputLine(lines[i]);
    }
    assert lines[..|lines|] == lines;
    return parser.parsed;
  }

  // ----- Line numbers -----

  predicate OnOldSide(kind: RowKind) {
    kind == REMOVED || kind == CONTEXT
  }

  predicate OnNewSide(kind: RowKind) {
    kind == ADDED || kind == CONTEXT
  }

  /** The rows of one side since the last separator. */
  function Since(rows: seq<DiffRow>, oldSide: bool): nat {
    if rows == [] || rows[|rows| - 1].kind == SEPARATOR then 0
    else
      var last := rows[|rows| - 1].kind;
      Since(rows[..|rows| - 1], oldSide) + if (if oldSide then OnOldSide(last) else OnNewSide(last)) then 1 else 0
  }

  function Separators(rows: seq<DiffRow>): nat {
    if rows == [] then 0
    else Separators(rows[..|rows| - 1]) + if rows[|rows| - 1].kind == SEPARATOR then 1 else 0
  }

  /** The headers among the lines. */
  function Hunks(lines: seq<string>): seq<Hunk> {
    if lines == [] then []
    else
      var hunk := HunkOf(lines[|lines| - 1]);
      Hunks(lines[..|lines| - 1]) + if hunk.Some? then [hunk.value] else []
  }

  /** The row belongs to the hunk after as many separators, and its number is that hunk's start plus the earlier
      rows on its side. */
  predicate Numbered(rows: seq<DiffRow>, hunks: seq<Hunk>, i: nat)
    requires i < |rows|
  {
    if rows[i].kind == SEPARATOR then rows[i].number.None?
    else
      && Separators(rows[..i]) < |hunks|
      && var hunk := hunks[Separators(rows[..i])];
         rows[i].number == Some(
           if rows[i].kind == REMOVED then hunk.oldLine + Since(rows[..i], true) else hunk.newLine + Since(rows[..i], false))
  }

  predicate InHunk(parsed: Parsed, hunks: seq<Hunk>) {
    if hunks == [] then parsed == NOTHING
    else
      && Separators(parsed.rows) == |hunks| - 1
      && var hunk := hunks[|hunks| - 1];
         parsed.numbers
           == Some(Numbers(hunk.oldLine + Since(parsed.rows, true), hunk.newLine + Since(parsed.rows, false)))
  }

  predicate AllNumbered(rows: seq<DiffRow>, hunks: seq<Hunk>) {
    forall i :: 0 <= i < |rows| ==> Numbered(rows, hunks, i)
  }

  lemma {:induction false} MoreHunks(rows: seq<DiffRow>, hunks: seq<Hunk>, more: seq<Hunk>)
    requires AllNumbered(rows, hunks)
    ensures AllNumbered(rows, hunks + more)
  {
    forall i | 0 <= i < |rows| ensures Numbered(rows, hunks + more, i) {
      assert Numbered(rows, hunks, i);
    }
  }

  lemma {:induction false} AppendNumbered(rows: seq<DiffRow>, row: DiffRow, hunks: seq<Hunk>)
    requires AllNumbered(rows, hunks) && Numbered(rows + [row], hunks, |rows|)
    ensures AllNumbered(rows + [row], hunks)
  {
    forall i | 0 <= i < |rows| ensures Numbered(rows + [row], hunks, i) {
      assert Numbered(rows, hunks, i);
      assert (rows + [row])[..i] == rows[..i];
    }
  }

  lemma {:induction false} RowIsNumbered(rows: seq<DiffRow>, row: DiffRow, hunks: seq<Hunk>)
    requires AllNumbered(rows, hunks) && Separators(rows) < |hunks| && row.kind != SEPARATOR
    requires var hunk := hunks[Separators(rows)];
             row.number == Some(
               if row.kind == REMOVED then hunk.oldLine + Since(rows, true) else hunk.newLine + Since(rows, false))
    ensures AllNumbered(rows + [row], hunks)
    ensures Separators(rows + [row]) == Separators(rows)
    ensures Since(rows + [row], true) == Since(rows, true) + if OnOldSide(row.kind) then 1 else 0
    ensures Since(rows + [row], false) == Since(rows, false) + if OnNewSide(row.kind) then 1 else 0
  {
    assert (rows + [row])[..|rows|] == rows;
    AppendNumbered(rows, row, hunks);
  }

  lemma {:induction false} ContentIsNumbered(parsed: Parsed, hunks: seq<Hunk>, line: string)
    requires InHunk(parsed, hunks) && AllNumbered(parsed.rows, hunks)
    ensures InHunk(ParseContent(parsed, line), hunks) && AllNumbered(ParseContent(parsed, line).rows, hunks)
  {
    if parsed.numbers.Some? && LooksLikeContent(line) {
      var row := ParseContent(parsed, line).rows[|parsed.rows|];
      assert row.number == Some(if row.kind == REMOVED then parsed.numbers.value.oldLine else parsed.numbers.value.newLine);
      RowIsNumbered(parsed.rows, row, hunks);
    }
  }

  lemma {:induction false} SeparatorIsNumbered(rows: seq<DiffRow>, hunks: seq<Hunk>)
    requires AllNumbered(rows, hunks)
    ensures var row := DiffRow(SEPARATOR, None, ELLIPSIS, None);
            && AllNumbered(rows + [row], hunks)
            && Separators(rows + [row]) == Separators(rows) + 1
            && Since(rows + [row], true) == Since(rows + [row], false) == 0
  {
    var row := DiffRow(SEPARATOR, None, ELLIPSIS, None);
    assert (rows + [row])[..|rows|] == rows;
    AppendNumbered(rows, row, hunks);
  }

  lemma {:induction false} HunkIsNumbered(parsed: Parsed, hunks: seq<Hunk>, hunk: Hunk)
    requires InHunk(parsed, hunks) && AllNumbered(parsed.rows, hunks)
    ensures InHunk(ParseHunk(parsed, hunk), hunks + [hunk]) && AllNumbered(ParseHunk(parsed, hunk).rows, hunks + [hunk])
  {
    MoreHunks(parsed.rows, hunks, [hunk]);
    if parsed.numbers.Some? {
      SeparatorIsNumbered(parsed.rows, hunks + [hunk]);
    }
  }

  /** Every row's number is its hunk's start plus the earlier rows on that side. */
  lemma {:induction false} RowsAreNumbered(lines: seq<string>)
    ensures var parsed := ParseLines(lines);
            InHunk(parsed, Hunks(lines)) && AllNumbered(parsed.rows, Hunks(lines))
  {
    if lines != [] {
      RowsAreNumbered(lines[..|lines| - 1]);
      var before := ParseLines(lines[..|lines| - 1]);
      var hunks := Hunks(lines[..|lines| - 1]);
      var hunk := HunkOf(lines[|lines| - 1]);
      if hunk.Some? {
        HunkIsNumbered(before, hunks, hunk.value);
      } else {
        assert hunks + [] == hunks;
        ContentIsNumbered(before, hunks, lines[|lines| - 1]);
      }
    }
  }

  // ----- What the diff says -----

  /** Of a diff that is read by the counts of its headers: the numbers and rows so far, and how many lines of the
      current hunk are still to come on each side. */
  datatype Counted = Counted(parsed: Parsed, oldLeft: nat, newLeft: nat)

  /** The kind of the row for this line when the hunk still expects one there. */
  function ContentKind(counted: Counted, line: string): Option<RowKind> {
    if line == [] then None
    else if line[0] == '-' && counted.oldLeft > 0 then Some(REMOVED)
    else if line[0] == '+' && counted.newLeft > 0 then Some(ADDED)
    else if line[0] == ' ' && counted.oldLeft > 0 && counted.newLeft > 0 then Some(CONTEXT)
    else None
  }

  function CountLine(counted: Counted, line: string): Counted {
    var hunk := HunkOf(line);
    if hunk.Some? then Counted(ParseHunk(counted.parsed, hunk.value), hunk.value.oldLength, hunk.value.newLength)
    else
      var kind := ContentKind(counted, line);
      if kind.None? then counted
      else
        Counted(ParseContent(counted.parsed, line),
                counted.oldLeft - if OnOldSide(kind.value) then 1 else 0,
                counted.newLeft - if OnNewSide(kind.value) then 1 else 0)
  }

  /** The reading that the headers prescribe: after a header come as many lines of each side as it counts, and any other
      line is no content. */
  function CountLines(lines: seq<string>): Counted {
    if lines == [] then Counted(NOTHING, 0, 0) else CountLine(CountLines(lines[..|lines| - 1]), lines[|lines| - 1])
  }

  /** The line is content by the counts of its hunk. */
  predicate IsContent(lines: seq<string>, i: nat)
    requires i < |lines|
  {
    ContentKind(CountLines(lines[..i]), lines[i]).Some?
  }

  /** A content line that the parser takes for a file name. */
  predicate Hidden(lines: seq<string>, i: nat)
    requires i < |lines|
  {
    IsContent(lines, i) && IsFileLine(lines[i])
  }

  /** A line behind the first header that is no content and that the parser takes for content. */
  predicate Extra(lines: seq<string>, i: nat)
    requires i < |lines|
  {
    && !IsContent(lines, i)
    && Hunks(lines[..i]) != []
    && LooksLikeContent(lines[i])
    && !IsFileLine(lines[i])
  }

  function HiddenLines(lines: seq<string>): nat {
    if lines == [] then 0 else HiddenLines(lines[..|lines| - 1]) + if Hidden(lines, |lines| - 1) then 1 else 0
  }

  function ExtraLines(lines: seq<string>): nat {
    if lines == [] then 0 else ExtraLines(lines[..|lines| - 1]) + if Extra(lines, |lines| - 1) then 1 else 0
  }

  lemma {:induction false} FirstOf(text: string, prefix: string)
    ensures prefix != [] && Starts(text, prefix) ==> text != [] && text[0] == prefix[0]
  {
  }

  lemma {:induction false} HeaderIsNoContent(line: string)
    requires HunkOf(line).Some?
    ensures line != [] && line[0] == '@' && !LooksLikeContent(line) && !IsFileLine(line) && line != NO_NEWLINE
  {
    FirstOf(line, "@@ -");
    FirstOf(line, "--- ");
    FirstOf(line, "+++ ");
  }

  /** A row whose line would have been taken for a file name. */
  predicate FromFileLine(row: DiffRow) {
    || (row.kind == REMOVED && Starts(row.text, "-- "))
    || (row.kind == ADDED && Starts(row.text, "++ "))
  }

  lemma {:induction false} FileLineRow(line: string)
    requires LooksLikeContent(line)
    ensures IsFileLine(line) <==>
            || (line[0] == '-' && Starts(line[1..], "-- "))
            || (line[0] == '+' && Starts(line[1..], "++ "))
  {
    assert line == [line[0]] + line[1..];
    assert "--- "[1..] == "-- " && "+++ "[1..] == "++ ";
    if Starts(line, "--- ") {
      assert line[1..][..3] == line[..4][1..];
    }
    if Starts(line, "+++ ") {
      assert line[1..][..3] == line[..4][1..];
    }
  }

  predicate NoneFromFileLine(rows: seq<DiffRow>) {
    forall row <- rows :: !FromFileLine(row)
  }

  lemma {:induction false} NoSuchRowAdded(parsed: Parsed, line: string)
    requires NoneFromFileLine(parsed.rows)
    ensures NoneFromFileLine(ParseLine(parsed, line).rows)
  {
    if LooksLikeContent(line) {
      FileLineRow(line);
    }
  }

  /** The parser never makes a row out of such a line. */
  lemma {:induction false} ParserHasNoSuchRow(lines: seq<string>)
    ensures NoneFromFileLine(ParseLines(lines).rows)
  {
    if lines != [] {
      ParserHasNoSuchRow(lines[..|lines| - 1]);
      NoSuchRowAdded(ParseLines(lines[..|lines| - 1]), lines[|lines| - 1]);
    }
  }

  lemma {:induction false} HiddenRow(counted: Counted, line: string) returns (row: DiffRow)
    requires ContentKind(counted, line).Some? && IsFileLine(line) && counted.parsed.numbers.Some?
    ensures row in CountLine(counted, line).parsed.rows && FromFileLine(row)
  {
    if HunkOf(line).Some? {
      HeaderIsNoContent(line);
    }
    FileLineRow(line);
    row := CountLine(counted, line).parsed.rows[|counted.parsed.rows|];
  }

  lemma {:induction false} RowsStay(counted: Counted, line: string, row: DiffRow)
    requires row in counted.parsed.rows
    ensures row in CountLine(counted, line).parsed.rows
  {
  }

  lemma {:induction false} HiddenRowIsMeant(lines: seq<string>, i: nat) returns (row: DiffRow)
    requires i < |lines| && Hidden(lines, i)
    ensures row in CountLines(lines).parsed.rows && FromFileLine(row)
  {
    var before := lines[..|lines| - 1];
    if i == |lines| - 1 {
      CountedNumbers(before);
      row := HiddenRow(CountLines(before), lines[i]);
    } else {
      SameInPrefix(lines, before, i);
      row := HiddenRowIsMeant(before, i);
      RowsStay(CountLines(before), lines[|lines| - 1], row);
    }
  }

  /** Both readings are inside a hunk after the first header; only then the counted one expects lines. */
  lemma {:induction false} CountedNumbers(lines: seq<string>)
    ensures ParseLines(lines).numbers.Some? <==> Hunks(lines) != []
    ensures CountLines(lines).parsed.numbers.Some? <==> Hunks(lines) != []
    ensures Hunks(lines) == [] ==> CountLines(lines).oldLeft == CountLines(lines).newLeft == 0
  {
    if lines != [] {
      CountedNumbers(lines[..|lines| - 1]);
    }
  }

  predicate Promised(counted: Counted, hunk: Hunk) {
    && Since(counted.parsed.rows, true) + counted.oldLeft == hunk.oldLength
    && Since(counted.parsed.rows, false) + counted.newLeft == hunk.newLength
  }

  lemma {:induction false} SinceAppend(rows: seq<DiffRow>, row: DiffRow)
    requires row.kind != SEPARATOR
    ensures Since(rows + [row], true) == Since(rows, true) + if OnOldSide(row.kind) then 1 else 0
    ensures Since(rows + [row], false) == Since(rows, false) + if OnNewSide(row.kind) then 1 else 0
  {
    assert (rows + [row])[..|rows|] == rows;
  }

  lemma {:induction false} ContentKeepsPromise(counted: Counted, line: string, hunk: Hunk)
    requires Promised(counted, hunk) && HunkOf(line).None? && counted.parsed.numbers.Some?
    ensures Promised(CountLine(counted, line), hunk)
  {
    var kind := ContentKind(counted, line);
    if kind.Some? {
      var row := ContentRow(counted.parsed, line, kind.value);
      CountsOneLine(counted, line, kind.value);
      SinceAppend(counted.parsed.rows, row);
    }
  }

  lemma {:induction false} ContentRow(parsed: Parsed, line: string, kind: RowKind) returns (row: DiffRow)
    requires parsed.numbers.Some? && line != []
    requires line[0] == (if kind == REMOVED then '-' else if kind == ADDED then '+' else ' ') && kind != SEPARATOR
    ensures row.kind == kind && ParseContent(parsed, line).rows == parsed.rows + [row]
  {
    row := ParseContent(parsed, line).rows[|parsed.rows|];
  }

  lemma {:induction false} CountsOneLine(counted: Counted, line: string, kind: RowKind)
    requires HunkOf(line).None? && ContentKind(counted, line) == Some(kind)
    ensures var next := CountLine(counted, line);
            && next.parsed == ParseContent(counted.parsed, line)
            && next.oldLeft == counted.oldLeft - (if OnOldSide(kind) then 1 else 0)
            && next.newLeft == counted.newLeft - (if OnNewSide(kind) then 1 else 0)
  {
  }

  lemma {:induction false} HeaderPromises(counted: Counted, line: string)
    requires HunkOf(line).Some? && (counted.parsed.numbers.None? ==> counted.parsed.rows == [])
    ensures Promised(CountLine(counted, line), HunkOf(line).value)
  {
  }

  /** The last header among the lines. */
  function LastHunk(lines: seq<string>): Option<Hunk> {
    if lines == [] then None
    else
      var hunk := HunkOf(lines[|lines| - 1]);
      if hunk.Some? then hunk else LastHunk(lines[..|lines| - 1])
  }

  /** By the counts, a hunk has exactly the lines that its header promises, and those still to come. */
  lemma {:induction false} CountsAreKept(lines: seq<string>, hunk: Hunk)
    requires LastHunk(lines) == Some(hunk)
    ensures Promised(CountLines(lines), hunk)
  {
    var before, line := lines[..|lines| - 1], lines[|lines| - 1];
    InsideAfterHeader(before);
    if HunkOf(line).None? {
      CountsAreKept(before, hunk);
      ContentKeepsPromise(CountLines(before), line, hunk);
    } else {
      HeaderPromises(CountLines(before), line);
    }
  }

  lemma {:induction false} InsideAfterHeader(lines: seq<string>)
    ensures CountLines(lines).parsed.numbers.Some? <==> LastHunk(lines).Some?
    ensures LastHunk(lines).None? ==> CountLines(lines).parsed.rows == []
  {
    if lines != [] {
      InsideAfterHeader(lines[..|lines| - 1]);
    }
  }

  /** The parser loses the hidden lines, adds the extra ones, and does nothing else. */
  lemma {:induction false} HiddenLessExtraMore(lines: seq<string>)
    ensures |ParseLines(lines).rows| + HiddenLines(lines) == |CountLines(lines).parsed.rows| + ExtraLines(lines)
    ensures HiddenLines(lines) == ExtraLines(lines) == 0 ==> ParseLines(lines) == CountLines(lines).parsed
  {
    if lines != [] {
      var before, line := lines[..|lines| - 1], lines[|lines| - 1];
      HiddenLessExtraMore(before);
      CountedNumbers(before);
      if HunkOf(line).Some? {
        HeaderIsNoContent(line);
      }
    }
  }

  lemma {:induction false} SameInPrefix(lines: seq<string>, before: seq<string>, i: nat)
    requires i < |before| && before <= lines
    ensures Hidden(before, i) == Hidden(lines, i) && Extra(before, i) == Extra(lines, i)
  {
    assert before[..i] == lines[..i];
  }

  lemma {:induction false} EachIsCounted(lines: seq<string>, i: nat)
    requires i < |lines|
    ensures Hidden(lines, i) ==> HiddenLines(lines) > 0
    ensures Extra(lines, i) ==> ExtraLines(lines) > 0
  {
    if i < |lines| - 1 {
      var before := lines[..|lines| - 1];
      EachIsCounted(before, i);
      SameInPrefix(lines, before, i);
    }
  }

  lemma {:induction false} FindHidden(lines: seq<string>) returns (i: nat)
    requires HiddenLines(lines) > 0
    ensures i < |lines| && Hidden(lines, i)
  {
    i := |lines| - 1;
    if !Hidden(lines, i) {
      var before := lines[..|lines| - 1];
      i := FindHidden(before);
      SameInPrefix(lines, before, i);
    }
  }

  lemma {:induction false} FindExtra(lines: seq<string>) returns (i: nat)
    requires ExtraLines(lines) > 0
    ensures i < |lines| && Extra(lines, i)
  {
    i := |lines| - 1;
    if !Extra(lines, i) {
      var before := lines[..|lines| - 1];
      i := FindExtra(before);
      SameInPrefix(lines, before, i);
    }
  }

  predicate NoneIn(lines: seq<string>) {
    forall i :: 0 <= i < |lines| ==> !Hidden(lines, i) && !Extra(lines, i)
  }

  lemma {:induction false} NoneIffCountsAreZero(lines: seq<string>)
    ensures NoneIn(lines) <==> HiddenLines(lines) == 0 && ExtraLines(lines) == 0
  {
    if HiddenLines(lines) > 0 {
      var i := FindHidden(lines);
    } else if ExtraLines(lines) > 0 {
      var i := FindExtra(lines);
    } else {
      forall i | 0 <= i < |lines| ensures !Hidden(lines, i) && !Extra(lines, i) {
        EachIsCounted(lines, i);
      }
    }
  }

  /** The rows are the diff's own exactly when no content line starts like a file name, and every other line behind the
      first header that starts like content is a file line. */
  lemma {:induction false} RowsAreExactIff(lines: seq<string>)
    ensures ParseLines(lines).rows == CountLines(lines).parsed.rows <==>
            forall i :: 0 <= i < |lines| ==> !Hidden(lines, i) && !Extra(lines, i)
  {
    HiddenLessExtraMore(lines);
    NoneIffCountsAreZero(lines);
    if HiddenLines(lines) > 0 {
      ParserHasNoSuchRow(lines);
      var i := FindHidden(lines);
      var row := HiddenRowIsMeant(lines, i);
    }
  }

  lemma {:induction false} OneLineHeader()
    ensures HunkOf("@@ -1 +1 @@") == Some(Hunk(1, 1, 1, 1))
  {
    var line := "@@ -1 +1 @@";
    var left := line[4..];
    assert left == "1 +1 @@";
    assert Digits(left[1..]) == 0 && Digits(left) == 1;
    var right := "1 @@";
    assert left[1..] == " +1 @@" && left[1..][2..] == right;
    assert Digits(right[1..]) == 0 && Digits(right) == 1 && right[1..] == " @@";
    assert left[..1] == "1" == right[..1];
    assert Value("1") == 1;
  }

  lemma {:induction false} FirstLine(header: string, hunk: Hunk)
    requires HunkOf(header) == Some(hunk)
    ensures ParseLines([header]) == Parsed(Some(Numbers(hunk.oldLine, hunk.newLine)), [])
    ensures CountLines([header]) == Counted(ParseLines([header]), hunk.oldLength, hunk.newLength)
  {
    assert [header][..0] == [];
  }

  lemma {:induction false} NextLine(before: seq<string>, line: string)
    requires LooksLikeContent(line)
    ensures HunkOf(line).None?
    ensures ParseLines(before + [line])
            == if IsFileLine(line) then ParseLines(before) else ParseContent(ParseLines(before), line)
    ensures CountLines(before + [line]) == CountLine(CountLines(before), line)
  {
    if HunkOf(line).Some? {
      HeaderIsNoContent(line);
    }
    assert (before + [line])[..|before|] == before;
  }

  /** A removed line that looks like a file name, in a hunk of one line on each side, is lost. */
  lemma {:induction false} FileLineIsLost(header: string, removed: string)
    requires HunkOf(header) == Some(Hunk(1, 1, 1, 1)) && Starts(removed, "--- ")
    ensures ParseLines([header] + [removed]).rows == []
    ensures |CountLines([header] + [removed]).parsed.rows| == 1
  {
    FirstLine(header, Hunk(1, 1, 1, 1));
    FirstOf(removed, "--- ");
    NextLine([header], removed);
  }

  lemma {:induction false} AddedIsCounted(counted: Counted, added: string)
    requires counted.oldLeft == 0 && counted.newLeft == 1 && counted.parsed.numbers.Some?
    requires added != [] && added[0] == '+' && HunkOf(added).None?
    ensures CountLine(counted, added) == Counted(ParseContent(counted.parsed, added), 0, 0)
    ensures ParseContent(counted.parsed, added).numbers.Some?
    ensures |ParseContent(counted.parsed, added).rows| == |counted.parsed.rows| + 1
  {
  }

  lemma {:induction false} CompleteHunk(header: string, removed: string, added: string)
    requires HunkOf(header) == Some(Hunk(1, 1, 1, 1))
    requires LooksLikeContent(removed) && LooksLikeContent(added) && removed[0] == '-' && added[0] == '+'
    requires !IsFileLine(removed) && !IsFileLine(added)
    ensures var counted := CountLines([header] + [removed] + [added]);
            && counted.oldLeft == counted.newLeft == 0
            && counted.parsed.numbers.Some? && |counted.parsed.rows| == 2
            && ParseLines([header] + [removed] + [added]) == counted.parsed
  {
    FirstLine(header, Hunk(1, 1, 1, 1));
    NextLine([header], removed);
    var before := [header] + [removed];
    NextLine(before, added);
    AddedIsCounted(CountLines(before), added);
  }

  /** After a complete hunk, any line that starts with a dash and is no file line becomes a row. */
  lemma {:induction false} LineAfterTheHunkIsAdded(header: string, removed: string, added: string, after: string)
    requires HunkOf(header) == Some(Hunk(1, 1, 1, 1))
    requires LooksLikeContent(removed) && LooksLikeContent(added) && removed[0] == '-' && added[0] == '+'
    requires LooksLikeContent(after) && after[0] == '-'
    requires !IsFileLine(removed) && !IsFileLine(added) && !IsFileLine(after)
    ensures |CountLines([header] + [removed] + [added] + [after]).parsed.rows| == 2
    ensures |ParseLines([header] + [removed] + [added] + [after]).rows| == 3
  {
    CompleteHunk(header, removed, added);
    NextLine([header] + [removed] + [added], after);
  }

  /** A removed comment of a language that comments with two dashes is lost. */
  lemma {:induction false} RemovedCommentIsLost(header: string, comment: string)
    requires header == "@@ -1 +1 @@" && comment == "--- x"
    ensures |CountLines([header] + [comment]).parsed.rows| == 1 && ParseLines([header] + [comment]).rows == []
  {
    OneLineHeader();
    FileLineIsLost(header, comment);
  }

  /** The line that ends a mailed patch is taken for a removed line. */
  lemma {:induction false} SignatureIsARow(header: string, removed: string, added: string, signature: string)
    requires header == "@@ -1 +1 @@" && removed == "-a" && added == "+b" && signature == "-- "
    ensures |CountLines([header] + [removed] + [added] + [signature]).parsed.rows| == 2
    ensures |ParseLines([header] + [removed] + [added] + [signature]).rows| == 3
  {
    OneLineHeader();
    LineAfterTheHunkIsAdded(header, removed, added, signature);
  }
}
