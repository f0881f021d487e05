/** The greedy wrap never uses more rows than another choice of breaks between atoms. */
module WrapOptimal {
  import opened TextWidth
  import opened Spans
  import opened Wrap

  /** From `m` to `n` there is only white space. */
  ghost predicate SpaceBetween(atoms: seq<Span>, m: nat, n: nat) {
    m <= n <= |atoms| && forall k :: m <= k < n ==> IsSpace(atoms[k].text)
  }

  /** Any way to lay the atoms on rows: whole atoms in order, each row within its columns, and only white
      space left out between two rows. */
  ghost predicate IsLayout(atoms: seq<Span>, rows: seq<seq<Span>>, available: nat, rest: nat)
    decreases |rows|
  {
    && rows != []
    && rows[0] <= atoms
    && SpansWidth(rows[0]) <= available
    && if |rows| == 1 then rows[0] == atoms
       else exists n: nat :: SpaceBetween(atoms, |rows[0]|, n) && IsLayout(atoms[n..], rows[1..], rest, rest)
  }

  /** No atom has to be cut: the first one fits the first row, and each one fits the other rows. */
  ghost predicate AtomsFit(atoms: seq<Span>, available: nat, rest: nat) {
    && (atoms != [] ==> TextColumns(atoms[0].text) <= available)
    && forall atom <- atoms :: TextColumns(atom.text) <= rest
  }

  lemma {:induction false} PrefixNotWider(atoms: seq<Span>, k: nat, m: nat)
    requires k <= m <= |atoms|
    ensures SpansWidth(atoms[k..m]) <= SpansWidth(atoms[..m])
    ensures SpansWidth(atoms[..k]) <= SpansWidth(atoms[..m])
  {
    assert atoms[..m] == atoms[..k] + atoms[k..m];
    SpansWidthConcat(atoms[..k], atoms[k..m]);
  }

  /** Every atom fits a row that may be a later one, and the first atom fits an empty row. */
  ghost predicate NoneIsCut(atoms: seq<Span>, current: seq<Span>, available: nat, wrapped: bool) {
    && (current == [] && atoms != [] ==> TextColumns(atoms[0].text) <= available)
    && (wrapped ==> forall atom <- atoms :: TextColumns(atom.text) <= available)
  }

  lemma {:induction false} NoneIsCutAfter(
      atoms: seq<Span>, rest: seq<Span>, current: seq<Span>, next: seq<Span>, available: nat, wrapped: bool)
    requires NoneIsCut(atoms, current, available, wrapped) && atoms != [] && rest == atoms[1..]
    requires wrapped || next != []
    ensures NoneIsCut(rest, next, available, wrapped)
  {
    assert forall atom <- rest :: atom in atoms;
    assert rest != [] ==> rest[0] in rest;
  }

  lemma {:induction false} SpaceIsSkipped(atoms: seq<Span>, rest: seq<Span>, available: nat)
    requires available >= 1 && atoms != [] && rest == atoms[1..] && IsSpace(atoms[0].text)
    ensures FillLine(atoms, [], available, true) == FillLine(rest, [], available, true)
  {
  }

  lemma {:induction false} AtomIsTaken(
      atoms: seq<Span>, rest: seq<Span>, current: seq<Span>, next: seq<Span>, available: nat, wrapped: bool)
    requires available >= 1 && SpansWidth(current) <= available
    requires atoms != [] && rest == atoms[1..] && next == current + [atoms[0]]
    requires !(IsSpace(atoms[0].text) && current == [] && wrapped)
    requires SpansWidth(current) + TextColumns(atoms[0].text) <= available
    ensures SpansWidth(next) == SpansWidth(current) + TextColumns(atoms[0].text)
    ensures FillLine(atoms, current, available, wrapped) == FillLine(rest, next, available, wrapped)
  {
    SpansWidthConcat(current, [atoms[0]]);
    CellsOne(atoms[0]);
  }

  lemma {:induction false} RowIsFull(atoms: seq<Span>, current: seq<Span>, available: nat, wrapped: bool)
    requires available >= 1 && SpansWidth(current) <= available
    requires atoms != [] && current != [] && SpansWidth(current) + TextColumns(atoms[0].text) > available
    ensures FillLine(atoms, current, available, wrapped).atoms == atoms[0..]
  {
  }

  /** One row takes at least every prefix that fits. */
  lemma {:induction false} FillReaches(atoms: seq<Span>, current: seq<Span>, available: nat, wrapped: bool, m: nat)
    returns (e: nat)
    requires available >= 1 && SpansWidth(current) <= available
    requires m <= |atoms| && SpansWidth(current) + SpansWidth(atoms[..m]) <= available
    requires NoneIsCut(atoms, current, available, wrapped)
    ensures m <= e <= |atoms|
    ensures FillLine(atoms, current, available, wrapped).atoms == atoms[e..]
    decreases |atoms|
  {
    if atoms == [] {
      return 0;
    }
    var rest := atoms[1..];
    var columns := TextColumns(atoms[0].text);
    var less := if m == 0 then 0 else m - 1;
    RestOfPrefix(atoms, m, less);
    if IsSpace(atoms[0].text) && current == [] && wrapped {
      SpaceIsSkipped(atoms, rest, available);
      NoneIsCutAfter(atoms, rest, current, current, available, wrapped);
      e := FillReaches(rest, current, available, wrapped, less);
      DropTwice(atoms, 1, e);
      e := e + 1;
    } else if current != [] && SpansWidth(current) + columns > available {
      RowIsFull(atoms, current, available, wrapped);
      e := 0;
    } else {
      var next := current + [atoms[0]];
      AtomIsTaken(atoms, rest, current, next, available, wrapped);
      NoneIsCutAfter(atoms, rest, current, next, available, wrapped);
      e := FillReaches(rest, next, available, wrapped, less);
      DropTwice(atoms, 1, e);
      e := e + 1;
    }
  }

  lemma {:induction false} RestOfPrefix(atoms: seq<Span>, m: nat, less: nat)
    requires atoms != [] && m <= |atoms| && less == if m == 0 then 0 else m - 1
    ensures less <= |atoms[1..]|
    ensures if m == 0 then SpansWidth(atoms[1..][..less]) == 0
            else SpansWidth(atoms[..m]) == TextColumns(atoms[0].text) + SpansWidth(atoms[1..][..less])
  {
    if m > 0 {
      assert atoms[..m][1..] == atoms[1..][..less];
    }
  }

  lemma {:induction false} FillSkips(atoms: seq<Span>, k: nat, available: nat)
    requires available >= 1 && SpaceBetween(atoms, 0, k)
    ensures FillLine(atoms, [], available, true) == FillLine(atoms[k..], [], available, true)
    decreases k
  {
    if k > 0 {
      assert atoms[1..][k - 1..] == atoms[k..];
      FillSkips(atoms[1..], k - 1, available);
    }
  }

  /** White space at the start of a wrapped row makes no difference. */
  lemma {:induction false} LinesSkip(atoms: seq<Span>, k: nat, rest: nat)
    requires rest >= 1 && SpaceBetween(atoms, 0, k)
    ensures Lines(atoms, rest, rest, true) == Lines(atoms[k..], rest, rest, true)
  {
    FillSkips(atoms, k, rest);
  }

  /** One greedy row that starts at `d` reaches at least the end `m` of a row that fits. */
  lemma {:induction false} RowReaches(atoms: seq<Span>, d: nat, m: nat, available: nat, rest: nat, wrapped: bool) returns (p: nat)
    requires available >= 1 && d <= |atoms| && m <= |atoms|
    requires SpansWidth(atoms[..m]) <= available
    requires AtomsFit(atoms, available, rest)
    requires if wrapped then available == rest else d == 0
    ensures m <= p <= |atoms| && d <= p
    ensures FillLine(atoms[d..], [], available, wrapped).atoms == atoms[p..]
  {
    var ahead := if m > d then m - d else 0;
    AheadFits(atoms, d, m, ahead);
    SuffixFitsItsRow(atoms, d, available, rest, wrapped);
    var e := FillReaches(atoms[d..], [], available, wrapped, ahead);
    p := d + e;
    DropTwice(atoms, d, e);
  }

  lemma {:induction false} DropTwice<T>(s: seq<T>, d: nat, e: nat)
    requires d + e <= |s|
    ensures s[d..][e..] == s[d + e..]
  {
  }

  lemma {:induction false} AheadFits(atoms: seq<Span>, d: nat, m: nat, ahead: nat)
    requires d <= |atoms| && m <= |atoms| && ahead == if m > d then m - d else 0
    ensures SpansWidth(atoms[d..][..ahead]) <= SpansWidth(atoms[..m])
  {
    if m > d {
      assert atoms[d..][..ahead] == atoms[d..m];
      PrefixNotWider(atoms, d, m);
    }
  }

  lemma {:induction false} SuffixFitsItsRow(atoms: seq<Span>, d: nat, available: nat, rest: nat, wrapped: bool)
    requires d <= |atoms| && AtomsFit(atoms, available, rest)
    requires if wrapped then available == rest else d == 0
    ensures atoms[d..] != [] ==> TextColumns(atoms[d..][0].text) <= available
    ensures wrapped ==> forall atom <- atoms[d..] :: TextColumns(atom.text) <= available
  {
  }

  lemma {:induction false} SuffixFits(atoms: seq<Span>, n: nat, available: nat, rest: nat)
    requires n <= |atoms| && AtomsFit(atoms, available, rest)
    ensures AtomsFit(atoms[n..], rest, rest)
  {
  }

  /** The greedy wrap is never behind another layout, so it ends no later. */
  lemma {:induction false} StaysAhead(
    atoms: seq<Span>, d: nat, rows: seq<seq<Span>>, available: nat, rest: nat, wrapped: bool)
    requires available >= 1 && rest >= 1
    requires IsLayout(atoms, rows, available, rest) && d <= |atoms|
    requires AtomsFit(atoms, available, rest)
    requires if wrapped then available == rest else d == 0
    ensures |Lines(atoms[d..], available, rest, wrapped)| <= |rows|
    decreases |rows|
  {
    var m := |rows[0]|;
    assert rows[0] == atoms[..m];
    var p := RowReaches(atoms, d, m, available, rest, wrapped);
    if p == |atoms| {
      OneLine(atoms[d..], available, rest, wrapped);
    } else {
      MoreLines(atoms[d..], available, rest, wrapped);
      var n: nat :| SpaceBetween(atoms, m, n) && IsLayout(atoms[n..], rows[1..], rest, rest);
      SuffixFits(atoms, n, available, rest);
      var from := if p < n then 0 else p - n;
      StaysAhead(atoms[n..], from, rows[1..], rest, rest, true);
      SameLinesFrom(atoms, p, n, from, rest);
    }
  }

  lemma {:induction false} OneLine(atoms: seq<Span>, available: nat, rest: nat, wrapped: bool)
    requires available >= 1 && rest >= 1 && FillLine(atoms, [], available, wrapped).atoms == []
    ensures |Lines(atoms, available, rest, wrapped)| == 1
  {
  }

  lemma {:induction false} MoreLines(atoms: seq<Span>, available: nat, rest: nat, wrapped: bool)
    requires available >= 1 && rest >= 1 && FillLine(atoms, [], available, wrapped).atoms != []
    ensures |Lines(atoms, available, rest, wrapped)|
         == 1 + |Lines(FillLine(atoms, [], available, wrapped).atoms, rest, rest, true)|
  {
  }

  lemma {:induction false} SameLinesFrom(atoms: seq<Span>, p: nat, n: nat, from: nat, rest: nat)
    requires rest >= 1 && p <= |atoms| && n <= |atoms| && from == if p < n then 0 else p - n
    requires p < n ==> SpaceBetween(atoms, p, n)
    ensures Lines(atoms[n..][from..], rest, rest, true) == Lines(atoms[p..], rest, rest, true)
  {
    if p < n {
      assert atoms[p..][n - p..] == atoms[n..] == atoms[n..][0..];
      LinesSkip(atoms[p..], n - p, rest);
    } else {
      assert atoms[n..][from..] == atoms[p..];
    }
  }

  /** When no atom has to be cut, no other choice of breaks uses fewer rows. */
  lemma {:induction false} GreedyIsOptimal(content: seq<Span>, rows: seq<seq<Span>>, available: nat, rest: nat)
    requires available >= 1 && rest >= 1
    requires AtomsFit(AtomsOf(content), available, rest)
    requires IsLayout(AtomsOf(content), rows, available, rest)
    ensures |Lines(AtomsOf(content), available, rest, false)| <= |rows|
  {
    var atoms := AtomsOf(content);
    assert atoms[0..] == atoms;
    StaysAhead(atoms, 0, rows, available, rest, false);
  }

  /** A layout that can also leave out white space before the first row and after the last row. */
  ghost predicate IsLooseLayout(atoms: seq<Span>, rows: seq<seq<Span>>, available: nat, rest: nat) {
    exists i: nat, j: nat :: i <= j <= |atoms| && LooseAt(atoms, i, j, rows, available, rest)
  }

  ghost predicate LooseAt(atoms: seq<Span>, i: nat, j: nat, rows: seq<seq<Span>>, available: nat, rest: nat)
    requires i <= j <= |atoms|
  {
    && SpaceBetween(atoms, 0, i) && SpaceBetween(atoms, j, |atoms|)
    && IsLayout(atoms[i..j], rows, available, rest)
  }

  /** Content that neither starts nor ends with white space: leaving out outer white space wins nothing. */
  lemma {:induction false} GreedyBeatsLooseLayouts(atoms: seq<Span>, rows: seq<seq<Span>>, available: nat, rest: nat)
    requires available >= 1 && rest >= 1
    requires AtomsFit(atoms, available, rest)
    requires atoms != [] ==> !IsSpace(atoms[0].text) && !IsSpace(atoms[|atoms| - 1].text)
    requires IsLooseLayout(atoms, rows, available, rest)
    ensures |Lines(atoms, available, rest, false)| <= |rows|
  {
    var i: nat, j: nat :| i <= j <= |atoms| && LooseAt(atoms, i, j, rows, available, rest);
    if atoms != [] {
      assert i == 0;
      assert j == |atoms|;
    }
    assert atoms[i..j] == atoms && atoms[0..] == atoms;
    StaysAhead(atoms, 0, rows, available, rest, false);
  }

  /** The condition is needed: white space at the end that does not fit makes an extra blank row. */
  lemma {:induction false} TrailingSpaceCostsARow(g: Glyph)
    requires !g.space && CharWidth(g) == 1
    ensures var word, blank := Span([g], PLAIN), Span([SPACE], PLAIN);
            && IsLooseLayout([word, blank], [[word]], 1, 1)
            && Lines([word, blank], 1, 1, false) == [[word], []]
  {
    var word, blank := Span([g], PLAIN), Span([SPACE], PLAIN);
    var atoms := [word, blank];
    CellsOne(word);
    FastWidthIsWidth([g]);
    FastWidthIsWidth([SPACE]);
    assert atoms[0..1] == [word] && atoms[1..] == [blank];
    assert LooseAt(atoms, 0, 1, [[word]], 1, 1);
    assert FillLine(atoms, [], 1, false) == FillLine([blank], [word], 1, false) by {
      assert [] + [word] == [word];
    }
    assert FillLine([blank], [word], 1, false) == Filling([blank], [word]);
    assert Trim([blank], [word]) == [word] by {
      assert [word][|[word]| - 1] == word && !IsSpace([g]);
    }
    assert [blank][1..] == [];
    assert FillLine([blank], [], 1, true) == Filling([], []);
    assert Lines([blank], 1, 1, true) == [[]];
  }
}
