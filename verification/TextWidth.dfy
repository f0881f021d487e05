/** Terminal columns of text (client/_render_width.py). */
module TextWidth {

  /** One character with the Unicode facts that the renderer asks for:
      its category is Mn, Me or Cf; its East Asian width is W or F; `isspace()` is true. */
  datatype RawGlyph = Glyph(code: nat, zeroWidth: bool, wide: bool, space: bool)

  const LINE_FEED: nat := 10
  const TAB: nat := 9
  const BLANK: nat := 32

  /** The Unicode tables agree with ASCII: no ASCII character is combining or wide, and the ASCII
      blanks and line ends are white space. */
  type Glyph = g: RawGlyph |
      && (g.code < 128 ==> !g.zeroWidth && !g.wide)
      && (TAB <= g.code <= 13 || 28 <= g.code <= BLANK ==> g.space)
    witness Glyph(65, false, false, false)

  type Text = seq<Glyph>

  function CharWidth(g: Glyph): (w: nat) {
    if g.zeroWidth then 0 else if g.wide then 2 else 1
  }

  predicate IsAscii(text: Text) {
    forall g <- text :: g.code < 128
  }

  /** The sum of the character widths: the general definition of the columns of a text. */
  function Width(text: Text): (w: nat) {
    if text == [] then 0 else CharWidth(text[0]) + Width(text[1..])
  }

  /** The program's width, with its shortcut for ASCII text. */
  function TextColumns(text: Text): nat {
    if IsAscii(text) then |text| else Width(text)
  }

  lemma {:induction false} WidthConcat(a: Text, b: Text)
    ensures Width(a + b) == Width(a) + Width(b)
  {
    if a == [] {
      assert a + b == b;
    } else {
      assert (a + b)[1..] == a[1..] + b;
      WidthConcat(a[1..], b);
    }
  }

  lemma {:induction false} WidthSplit(text: Text, n: nat)
    requires n <= |text|
    ensures Width(text) == Width(text[..n]) + Width(text[n..])
  {
    WidthConcat(text[..n], text[n..]);
    assert text == text[..n] + text[n..];
  }

  /** A longer prefix is at least as wide. */
  lemma {:induction false} PrefixWidthMonotone(text: Text, m: nat, n: nat)
    requires m <= n <= |text|
    ensures Width(text[..m]) <= Width(text[..n])
  {
    WidthSplit(text[..n], m);
    assert text[..n][..m] == text[..m];
  }

  lemma {:induction false} AsciiWidth(text: Text)
    requires IsAscii(text)
    ensures Width(text) == |text|
  {
    if text != [] {
      assert text[0].code < 128;
      AsciiWidth(text[1..]);
    }
  }

  /** The shortcut for ASCII text gives the sum of the character widths. */
  lemma {:induction false} FastWidthIsWidth(text: Text)
    ensures TextColumns(text) == Width(text)
  {
    if IsAscii(text) {
      AsciiWidth(text);
    }
  }

  /** The positions of the characters that take columns, and of those that take two. */
  function Seen(text: Text): set<nat> {
    set i: nat | i < |text| && !text[i].zeroWidth
  }

  function Doubled(text: Text): set<nat> {
    set i: nat | i < |text| && !text[i].zeroWidth && text[i].wide
  }

  lemma {:induction false} SeenBehind(before: Text, last: Glyph)
    ensures Seen(before + [last]) == Seen(before) + if last.zeroWidth then {} else {|before|}
    ensures Doubled(before + [last]) == Doubled(before) + if !last.zeroWidth && last.wide then {|before|} else {}
  {
  }

  lemma {:induction false} WidthBehind(before: Text, last: Glyph)
    ensures Width(before + [last]) == Width(before) + CharWidth(last)
  {
    WidthConcat(before, [last]);
    assert [last][1..] == [];
  }

  /** The columns of a text: one for each character that takes any, and one more for each wide one. */
  lemma {:induction false} WidthCounts(text: Text)
    ensures Width(text) == |Seen(text)| + |Doubled(text)|
    decreases |text|
  {
    if text != [] {
      var before, last := text[..|text| - 1], text[|text| - 1];
      assert text == before + [last];
      WidthCounts(before);
      WidthBehind(before, last);
      SeenBehind(before, last);
    } else {
      assert Seen(text) == {} && Doubled(text) == {};
    }
  }

  /** `n` is the length of the longest prefix at most `columns` wide. */
  ghost predicate IsLongestFit(text: Text, columns: int, n: nat) {
    && n <= |text|
    && (columns < 0 ==> n == 0)
    && (columns >= 0 ==> Width(text[..n]) <= columns)
    && forall m {:trigger text[..m]} :: n < m <= |text| ==> Width(text[..m]) > columns
  }

  /** Walk the text while its columns still fit. */
  method Cut(text: Text, columns: int) returns (n: nat)
    ensures IsLongestFit(text, columns, n)
  {
    if IsAscii(text) {
      n := if columns < 0 then 0 else if |text| < columns then |text| else columns;
      AsciiCut(text, columns, n);
      return;
    }
    var used := 0;
    for index := 0 to |text|
      invariant used == Width(text[..index])
      invariant index > 0 ==> used <= columns
    {
      WidthConcat(text[..index], [text[index]]);
      assert text[..index] + [text[index]] == text[..index + 1];
      used := used + CharWidth(text[index]);
      if used > columns {
        LaterPrefixesAreWider(text, index + 1, columns);
        return index;
      }
    }
    assert text[..|text|] == text;
    assert text != [];
    return |text|;
  }

  lemma {:induction false} AsciiCut(text: Text, columns: int, n: nat)
    requires IsAscii(text)
    requires n == if columns < 0 then 0 else if |text| < columns then |text| else columns
    ensures IsLongestFit(text, columns, n)
  {
    forall m: nat | m <= |text|
      ensures Width(text[..m]) == m
    {
      AsciiWidth(text[..m]);
    }
  }

  lemma {:induction false} LaterPrefixesAreWider(text: Text, n: nat, columns: int)
    requires n <= |text| && Width(text[..n]) > columns
    ensures forall m {:trigger text[..m]} :: n <= m <= |text| ==> Width(text[..m]) > columns
  {
    forall m | n <= m <= |text|
      ensures Width(text[..m]) > columns
    {
      PrefixWidthMonotone(text, n, m);
    }
  }

  /** The longest fit as a value, for specifications. */
  function LongestFit(text: Text, columns: int): (n: nat)
    ensures n <= |text|
  {
    if text == [] || CharWidth(text[0]) > columns then 0
    else 1 + LongestFit(text[1..], columns - CharWidth(text[0]))
  }

  lemma {:induction false} LongestFitIsLongest(text: Text, columns: int)
    ensures IsLongestFit(text, columns, LongestFit(text, columns))
  {
    if text == [] {
    } else if CharWidth(text[0]) > columns {
      assert text[..1] == [text[0]];
      LaterPrefixesAreWider(text, 1, columns);
    } else {
      var rest := columns - CharWidth(text[0]);
      LongestFitIsLongest(text[1..], rest);
      var n := LongestFit(text[1..], rest);
      assert text[..n + 1][1..] == text[1..][..n];
      forall m | n + 1 < m <= |text|
        ensures Width(text[..m]) > columns
      {
        assert text[..m][1..] == text[1..][..m - 1];
      }
    }
  }

  /** Only one length can be the longest fit, so the loop computes `LongestFit`. */
  lemma {:induction false} LongestFitUnique(text: Text, columns: int, n: nat)
    requires IsLongestFit(text, columns, n)
    ensures n == LongestFit(text, columns)
  {
    LongestFitIsLongest(text, columns);
    var here, there := text[..n], text[..LongestFit(text, columns)];
    assert Width(here) <= columns || n == 0;
  }
}
