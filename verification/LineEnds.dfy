/** What ends a line of a command's output, in the codes of its characters, and what is left of a line
    (client/_render_blocks.py; `str.splitlines()` and `str.rstrip()`). */
module LineEnds {
  import opened TextWidth
  import opened Rows
  import opened Blocks

  predicate IsEndCode(code: nat) {
    || code == 10 || code == 11 || code == 12 || code == 13 || code == 28 || code == 29 || code == 30
    || code == 0x85 || code == 0x2028 || code == 0x2029
  }

  /** The text has no character that ends a line. */
  predicate IsOneLine(text: Text) {
    forall i :: 0 <= i < |text| ==> !IsEndCode(text[i].code)
  }

  /** One line end: one of these characters, or a carriage return and a line feed together. */
  predicate IsLineEnd(end: Text) {
    || (|end| == 1 && IsEndCode(end[0].code))
    || (|end| == 2 && end[0].code == 13 && end[1].code == 10)
  }

  lemma {:induction false} EndsAt(text: Text, i: nat)
    requires i <= |text| && (forall k :: 0 <= k < i ==> !IsEndCode(text[k].code))
    requires i < |text| ==> IsEndCode(text[i].code)
    ensures FirstEnd(text) == i
  {
    var found := FirstEnd(text);
    assert found < i ==> EndsLine(text[found]);
    assert found > i ==> !EndsLine(text[i]);
  }

  lemma {:induction false} OneLine(line: Text)
    requires IsOneLine(line)
    ensures TextLines(line) == if line == [] then [] else [line]
  {
    EndsAt(line, |line|);
    if line != [] {
      assert line[..|line|] == line && line[|line|..] == [];
    }
  }

  /** A line, its end, and any text: the line stands first, without its end, and then the lines of the text. A carriage
      return and a line feed are one end, so a text that starts with a line feed cannot follow a bare return. */
  lemma {:induction false} EndsSplitLines(line: Text, end: Text, later: Text)
    requires IsOneLine(line) && IsLineEnd(end)
    requires end[|end| - 1].code == 13 && later != [] ==> later[0].code != 10
    ensures TextLines(line + end + later) == [line] + TextLines(later)
  {
    var text := line + end + later;
    assert text[|line|] == end[0];
    assert forall k :: 0 <= k < |line| ==> text[k] == line[k];
    EndsAt(text, |line|);
    if |end| == 2 {
      assert text[|line| + 1] == end[1] == NEWLINE;
    } else if later != [] {
      assert text[|line| + 1] == later[0];
    }
    assert text[..|line|] == line && text[|line| + |end|..] == later;
  }

  /** What is left of a line without its trailing white space: nothing but white space is gone, and none is left at
      its end. */
  lemma {:induction false} StrippedIsExact(line: Text)
    ensures var left := Stripped(line);
            && left <= line
            && (forall i :: |left| <= i < |line| ==> line[i].space)
            && (left != [] ==> !left[|left| - 1].space)
  {
    if line != [] && line[|line| - 1].space {
      var front := line[..|line| - 1];
      StrippedIsExact(front);
      BackOne(line, front, Stripped(front));
    }
  }

  lemma {:induction false} BackOne(line: Text, front: Text, left: Text)
    requires line != [] && line[|line| - 1].space && front == line[..|line| - 1]
    requires left <= front && forall i :: |left| <= i < |front| ==> front[i].space
    ensures left <= line && forall i :: |left| <= i < |line| ==> line[i].space
  {
  }
}
