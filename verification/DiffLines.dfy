/** What the lines of a diff say, in their characters: the numbers of a hunk header and the marks of its lines
    (client/_render_diff_parse.py). */
module DiffLines {
  import opened Wrappers
  import opened DiffRows

  // ----- Hunk headers -----

  function DigitOf(d: nat): (c: char)
    requires d < 10
    ensures IsDigit(c) && c as nat == '0' as nat + d
  {
    '0' + d as char
  }

  /** A number in decimal notation. */
  function Decimal(n: nat): (text: string)
    ensures text != []
  {
    if n < 10 then [DigitOf(n)] else Decimal(n / 10) + [DigitOf(n % 10)]
  }

  predicate AllDigits(text: string) {
    forall i :: 0 <= i < |text| ==> IsDigit(text[i])
  }

  lemma {:induction false} DecimalHasDigits(n: nat)
    ensures AllDigits(Decimal(n))
  {
    if n >= 10 {
      DecimalHasDigits(n / 10);
    }
  }

  lemma {:induction false} ValueNext(digits: string, last: char)
    requires IsDigit(last)
    ensures Value(digits + [last]) == 10 * Value(digits) + (last as nat - '0' as nat)
  {
    assert (digits + [last])[..|digits|] == digits;
  }

  /** The digits of a number have its value. */
  lemma {:induction false} DecimalHasItsValue(n: nat)
    ensures Value(Decimal(n)) == n
  {
    if n < 10 {
      assert [] + [DigitOf(n)] == [DigitOf(n)];
      ValueNext([], DigitOf(n));
    } else {
      DecimalHasItsValue(n / 10);
      ValueNext(Decimal(n / 10), DigitOf(n % 10));
    }
  }

  predicate StartsWithDigit(text: string) {
    text != [] && IsDigit(text[0])
  }

  lemma {:induction false} DigitsReach(digits: string, rest: string)
    requires AllDigits(digits) && !StartsWithDigit(rest)
    ensures Digits(digits + rest) == |digits|
    ensures (digits + rest)[..|digits|] == digits && (digits + rest)[|digits|..] == rest
  {
    if digits == [] {
      assert digits + rest == rest;
    } else {
      assert (digits + rest)[1..] == digits[1..] + rest;
      DigitsReach(digits[1..], rest);
    }
  }

  /** The length of a side; a header leaves a length of one out, or names it. */
  function LengthText(length: Option<nat>): string {
    match length case None => [] case Some(n) => "," + Decimal(n)
  }

  function LengthOf(length: Option<nat>): nat {
    match length case None => 1 case Some(n) => n
  }

  lemma {:induction false} LengthIsRead(length: Option<nat>, rest: string)
    requires rest != [] && rest[0] == ' '
    ensures Length(LengthText(length) + rest) == LengthOf(length)
    ensures DropLength(LengthText(length) + rest) == rest
    ensures !StartsWithDigit(LengthText(length) + rest)
  {
    match length {
      case None => assert [] + rest == rest;
      case Some(n) =>
        var text := "," + Decimal(n) + rest;
        DecimalHasDigits(n);
        DecimalHasItsValue(n);
        DigitsReach(Decimal(n), rest);
        assert text[1..] == Decimal(n) + rest;
        assert text[1 + |Decimal(n)|..] == text[1..][|Decimal(n)|..];
        assert text[1..1 + |Decimal(n)|] == text[1..][..|Decimal(n)|];
    }
  }

  /** One side of a header: its start, its length, and what follows. */
  lemma {:induction false} SideIsRead(start: nat, length: Option<nat>, rest: string)
    requires rest != [] && rest[0] == ' '
    ensures var text := Decimal(start) + (LengthText(length) + rest);
            var n := Digits(text);
            && 0 < n <= |text| && Value(text[..n]) == start
            && Length(text[n..]) == LengthOf(length) && DropLength(text[n..]) == rest
  {
    LengthIsRead(length, rest);
    DecimalHasDigits(start);
    DecimalHasItsValue(start);
    DigitsReach(Decimal(start), LengthText(length) + rest);
  }

  function RightText(newLine: nat, newLength: Option<nat>, section: string): string {
    Decimal(newLine) + (LengthText(newLength) + (" @@" + section))
  }

  function HeaderText(oldLine: nat, oldLength: Option<nat>, newLine: nat, newLength: Option<nat>, section: string): string {
    "@@ -" + (Decimal(oldLine) + (LengthText(oldLength) + (" +" + RightText(newLine, newLength, section))))
  }

  lemma {:induction false} Behind(prefix: string, rest: string)
    ensures Starts(prefix + rest, prefix) && (prefix + rest)[|prefix|..] == rest
  {
  }

  /** Every header is read with its numbers: the old start and length behind the minus, the new ones behind the plus, and a
      missing length is one. */
  lemma {:induction false} HeaderIsRead(
      oldLine: nat, oldLength: Option<nat>, newLine: nat, newLength: Option<nat>, section: string)
    ensures HunkOf(HeaderText(oldLine, oldLength, newLine, newLength, section))
            == Some(Hunk(oldLine, LengthOf(oldLength), newLine, LengthOf(newLength)))
  {
    var right := RightText(newLine, newLength, section);
    Behind("@@ -", Decimal(oldLine) + (LengthText(oldLength) + (" +" + right)));
    SideIsRead(oldLine, oldLength, " +" + right);
    Behind(" +", right);
    SideIsRead(newLine, newLength, " @@" + section);
    Behind(" @@", section);
  }

  // ----- Lines of a hunk -----

  lemma {:induction false} MarkedIsNoHeader(mark: char, text: string)
    requires mark != '@'
    ensures HunkOf([mark] + text).None?
  {
    assert ([mark] + text)[0] == mark;
  }

  lemma {:induction false} PrefixBehindMark(mark: char, text: string, first: char, prefix: string)
    ensures Starts([mark] + text, [first] + prefix) <==> mark == first && Starts(text, prefix)
  {
    if Starts([mark] + text, [first] + prefix) {
      assert ([mark] + text)[0] == ([first] + prefix)[0];
      assert forall i :: 0 <= i < |prefix| ==> text[i] == ([mark] + text)[i + 1] == ([first] + prefix)[i + 1] == prefix[i];
    }
    if mark == first && Starts(text, prefix) {
      assert ([mark] + text)[..|prefix| + 1] == [mark] + text[..|prefix|];
    }
  }

  /** A removed line takes the next old number, an added one the next new number, a context line both and shows the new
      one; the row has the text behind the mark. The lines that name the files are no rows. */
  lemma {:induction false} MarkedLineIsARow(parsed: Parsed, mark: char, text: string)
    requires parsed.numbers.Some? && (mark == '-' || mark == '+' || mark == ' ')
    requires !(mark == '-' && Starts(text, "-- ")) && !(mark == '+' && Starts(text, "++ "))
    ensures var next, numbers := ParseLine(parsed, [mark] + text), parsed.numbers.value;
            && next.numbers == Some(Numbers(
                 if mark == '+' then numbers.oldLine else numbers.oldLine + 1,
                 if mark == '-' then numbers.newLine else numbers.newLine + 1))
            && next.rows == parsed.rows + [DiffRow(
                 match mark case '-' => REMOVED case '+' => ADDED case _ => CONTEXT,
                 Some(if mark == '-' then numbers.oldLine else numbers.newLine), text, None)]
  {
    MarkedIsNoHeader(mark, text);
    var line := [mark] + text;
    assert line[0] == mark && line[1..] == text;
    PrefixBehindMark(mark, text, '-', "-- ");
    PrefixBehindMark(mark, text, '+', "++ ");
    assert "--- " == ['-'] + "-- " && "+++ " == ['+'] + "++ ";
  }

  /** A header sets the numbers, and from the second one on puts an ellipsis between the hunks. Every other line, and every
      line before the first header, changes nothing. */
  lemma {:induction false} OtherLinesAreNoRows(parsed: Parsed, line: string)
    ensures HunkOf(line).Some? ==>
              var hunk := HunkOf(line).value;
              && ParseLine(parsed, line).numbers == Some(Numbers(hunk.oldLine, hunk.newLine))
              && ParseLine(parsed, line).rows
                 == parsed.rows + if parsed.numbers.None? then [] else [DiffRow(SEPARATOR, None, "\U{22EE}", None)]
    ensures HunkOf(line).None? && (parsed.numbers.None? || line == [] || line[0] !in "-+ ") ==> ParseLine(parsed, line) == parsed
  {
    assert parsed.rows + [] == parsed.rows;
  }
}
