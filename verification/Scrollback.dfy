/** Painting from the newest item, and stopping when the scrollback is full. */
module Scrollback {

  /** The rows that the terminal keeps (client/_render_styles.py, SCROLLBACK_ROWS). */
  const CAPACITY: nat := 4800

  function Newest<T>(items: seq<T>, count: nat): (kept: seq<T>)
    ensures |kept| == if |items| < count then |items| else count
  {
    if |items| <= count then items else items[|items| - count..]
  }

  /** Two lists that leave the same items on the screen. */
  ghost predicate SameScreen<T>(a: seq<T>, b: seq<T>) {
    Newest(a, CAPACITY) == Newest(b, CAPACITY)
  }

  lemma {:induction false} SameScreenCases<T>(a: seq<T>, b: seq<T>)
    requires SameScreen(a, b)
    ensures a == b || (|a| >= CAPACITY && |b| >= CAPACITY)
  {
  }

  /** A full screen hides what is above it. */
  lemma {:induction false} FullScreenHidesAbove<T>(above: seq<T>, shown: seq<T>)
    requires |shown| >= CAPACITY
    ensures SameScreen(above + shown, shown)
  {
    assert Newest(above + shown, CAPACITY) == Newest(shown, CAPACITY);
  }

  /** Parts that look the same can replace each other between the same neighbours, and side by side. */
  lemma {:induction false} SameScreenConcat<T>(a: seq<T>, b: seq<T>, c: seq<T>, d: seq<T>)
    requires SameScreen(a, b) && SameScreen(c, d)
    ensures SameScreen(a + c, b + d)
  {
    SameScreenCases(c, d);
    if c != d {
      FullScreenHidesAbove(a, c);
      FullScreenHidesAbove(b, d);
    } else {
      SameScreenBelow(a, b, c);
    }
  }

  lemma {:induction false} SameScreenBelow<T>(a: seq<T>, b: seq<T>, c: seq<T>)
    requires SameScreen(a, b)
    ensures SameScreen(a + c, b + c)
  {
    SameScreenCases(a, b);
    if a != b {
      var x, y := a[..|a| - CAPACITY], b[..|b| - CAPACITY];
      var common := Newest(a, CAPACITY) + c;
      assert a + c == x + common && b + c == y + common;
      FullScreenHidesAbove(x, common);
      FullScreenHidesAbove(y, common);
    }
  }

  /** The rows of all items, oldest first. */
  function Concat<I, R>(items: seq<I>, rows: I -> seq<R>): seq<R> {
    if items == [] then [] else rows(items[0]) + Concat(items[1..], rows)
  }

  lemma {:induction false} ConcatSplit<I, R>(a: seq<I>, b: seq<I>, rows: I -> seq<R>)
    ensures Concat(a + b, rows) == Concat(a, rows) + Concat(b, rows)
  {
    if a == [] {
      assert a + b == b;
    } else {
      assert (a + b)[1..] == a[1..] + b;
      ConcatSplit(a[1..], b, rows);
    }
  }

  lemma {:induction false} ConcatNewest<I, R>(items: seq<I>, count: nat, rows: I -> seq<R>)
    requires count < |items|
    ensures Concat(Newest(items, count + 1), rows)
         == rows(items[|items| - count - 1]) + Concat(Newest(items, count), rows)
  {
    var wider := Newest(items, count + 1);
    assert wider == items[|items| - count - 1..];
    assert wider[1..] == Newest(items, count);
  }

  /** The walk from the newest item stopped after `shown` items: it stopped as soon as the scrollback
      was full, and only then or at the oldest item. */
  ghost predicate StopsAfter<I, R>(items: seq<I>, rows: I -> seq<R>, shown: nat) {
    && shown <= |items|
    && (shown < |items| ==> |Concat(Newest(items, shown), rows)| >= CAPACITY)
    && (shown > 0 ==> |Concat(Newest(items, shown - 1), rows)| < CAPACITY)
  }

  /** The parts of the newest items are painted, newest first, and the scrollback was not full before the last. */
  ghost predicate Walked<I, R>(items: seq<I>, rows: I -> seq<R>, newestRows: seq<seq<R>>) {
    && |newestRows| <= |items|
    && OldestFirst(newestRows) == Concat(Newest(items, |newestRows|), rows)
    && (newestRows != [] ==> |Concat(Newest(items, |newestRows| - 1), rows)| < CAPACITY)
  }

  lemma {:induction false} WalkedOneMore<I, R>(
      items: seq<I>, rows: I -> seq<R>, newestRows: seq<seq<R>>, index: nat, part: seq<R>)
    requires Walked(items, rows, newestRows) && |OldestFirst(newestRows)| < CAPACITY
    requires index + |newestRows| + 1 == |items| && part == rows(items[index])
    ensures Walked(items, rows, newestRows + [part])
    ensures |OldestFirst(newestRows + [part])| == |OldestFirst(newestRows)| + |part|
  {
    var done := |newestRows|;
    assert items[|items| - done - 1] == items[index];
    ConcatNewest(items, done, rows);
    OldestFirstAdd(newestRows, part);
    assert |newestRows + [part]| == done + 1;
  }

  /** Paint from the newest item to the oldest and stop when the scrollback is full. The painted parts
      are kept newest first and put in order at the end. */
  method PaintNewest<I, R>(items: seq<I>, rows: I -> seq<R>) returns (painted: seq<R>, shown: nat)
    ensures StopsAfter(items, rows, shown) && shown == StopPoint(items, rows, 0)
    ensures painted == Concat(Newest(items, shown), rows)
  {
    var newestRows: seq<seq<R>> := [];
    var rowCount := 0;
    var index := |items|;
    while index > 0 && rowCount < CAPACITY
      invariant index == |items| - |newestRows| >= 0
      invariant Walked(items, rows, newestRows)
      invariant rowCount == |OldestFirst(newestRows)|
      decreases index
    {
      index := index - 1;
      WalkedOneMore(items, rows, newestRows, index, rows(items[index]));
      newestRows := newestRows + [rows(items[index])];
      rowCount := rowCount + |newestRows[|newestRows| - 1]|;
    }
    painted := OldestFirst(newestRows);
    shown := |newestRows|;
    StopUnique(items, rows, shown, StopPoint(items, rows, 0));
  }

  /** How many of the newest items the walk shows, for specifications. */
  function StopPoint<I, R>(items: seq<I>, rows: I -> seq<R>, reached: nat): (shown: nat)
    requires reached <= |items|
    requires reached > 0 ==> |Concat(Newest(items, reached - 1), rows)| < CAPACITY
    ensures StopsAfter(items, rows, shown)
    decreases |items| - reached
  {
    if reached == |items| || |Concat(Newest(items, reached), rows)| >= CAPACITY then reached
    else StopPoint(items, rows, reached + 1)
  }

  /** The rows of parts that are listed newest first. */
  function OldestFirst<R>(newestRows: seq<seq<R>>): seq<R> {
    if newestRows == [] then [] else OldestFirst(newestRows[1..]) + newestRows[0]
  }

  lemma {:induction false} OldestFirstAdd<R>(newestRows: seq<seq<R>>, older: seq<R>)
    ensures OldestFirst(newestRows + [older]) == older + OldestFirst(newestRows)
  {
    if newestRows == [] {
      assert newestRows + [older] == [older] && [older][1..] == [];
    } else {
      assert (newestRows + [older])[1..] == newestRows[1..] + [older];
      OldestFirstAdd(newestRows[1..], older);
    }
  }

  lemma {:induction false} ConcatLength<I, R>(items: seq<I>, m: nat, n: nat, rows: I -> seq<R>)
    requires m <= n
    ensures |Concat(Newest(items, m), rows)| <= |Concat(Newest(items, n), rows)|
    decreases n - m
  {
    if m < n {
      if m < |items| {
        ConcatNewest(items, m, rows);
      }
      ConcatLength(items, m + 1, n, rows);
    }
  }

  lemma {:induction false} NotFullBefore<I, R>(items: seq<I>, rows: I -> seq<R>, m: nat, n: nat)
    requires m < n && StopsAfter(items, rows, n)
    ensures m < |items| && |Concat(Newest(items, m), rows)| < CAPACITY
  {
    ConcatLength(items, m, n - 1, rows);
  }

  lemma {:induction false} StopIsFirst<I, R>(items: seq<I>, rows: I -> seq<R>, m: nat, n: nat)
    requires StopsAfter(items, rows, m) && StopsAfter(items, rows, n)
    ensures m >= n
  {
    if m < n {
      NotFullBefore(items, rows, m, n);
    }
  }

  lemma {:induction false} StopUnique<I, R>(items: seq<I>, rows: I -> seq<R>, m: nat, n: nat)
    requires StopsAfter(items, rows, m) && StopsAfter(items, rows, n)
    ensures m == n
  {
    StopIsFirst(items, rows, m, n);
    StopIsFirst(items, rows, n, m);
  }

  /** The early stop leaves the same screen as painting every item. */
  lemma {:induction false} EarlyStopRefines<I, R>(items: seq<I>, rows: I -> seq<R>, shown: nat)
    requires StopsAfter(items, rows, shown)
    ensures SameScreen(Concat(Newest(items, shown), rows), Concat(items, rows))
  {
    var split := |items| - shown;
    assert items == items[..split] + items[split..] && Newest(items, shown) == items[split..];
    ConcatSplit(items[..split], items[split..], rows);
    if shown < |items| {
      FullScreenHidesAbove(Concat(items[..split], rows), Concat(items[split..], rows));
    } else {
      assert Concat(items[..split], rows) == [];
    }
  }

  /** After the older items are forgotten, the next paint shows the same items and the same rows. */
  lemma {:induction false} RepaintAfterForgetting<I, R>(items: seq<I>, rows: I -> seq<R>, shown: nat, again: nat)
    requires StopsAfter(items, rows, shown)
    requires StopsAfter(Newest(items, shown), rows, again)
    ensures again == shown
    ensures Concat(Newest(Newest(items, shown), again), rows) == Concat(Newest(items, shown), rows)
  {
    var kept := Newest(items, shown);
    assert Newest(kept, shown) == kept;
    if shown > 0 {
      assert Newest(kept, shown - 1) == Newest(items, shown - 1);
    }
    assert StopsAfter(kept, rows, shown);
    StopUnique(kept, rows, shown, again);
  }

  lemma {:induction false} EachAtLeastOneRow<I, R>(items: seq<I>, rows: I -> seq<R>)
    requires forall item :: rows(item) != []
    ensures |Concat(items, rows)| >= |items|
  {
    if items != [] {
      EachAtLeastOneRow(items[1..], rows);
    }
  }

  /** Lists with the same newest items look the same when each item takes at least one row. */
  lemma {:induction false} SameItemsSameScreen<I, R>(a: seq<I>, b: seq<I>, rows: I -> seq<R>)
    requires SameScreen(a, b)
    requires forall item :: rows(item) != []
    ensures SameScreen(Concat(a, rows), Concat(b, rows))
  {
    SameScreenCases(a, b);
    if a != b {
      var x, y, common := a[..|a| - CAPACITY], b[..|b| - CAPACITY], Newest(a, CAPACITY);
      assert a == x + common && b == y + common;
      ConcatSplit(x, common, rows);
      ConcatSplit(y, common, rows);
      EachAtLeastOneRow(common, rows);
      FullScreenHidesAbove(Concat(x, rows), Concat(common, rows));
      FullScreenHidesAbove(Concat(y, rows), Concat(common, rows));
    }
  }

  /** Items whose rows look the same one by one look the same together. */
  lemma {:induction false} SameRowsSameScreen<I, R>(items: seq<I>, lazy: I -> seq<R>, full: I -> seq<R>)
    requires forall item <- items :: SameScreen(lazy(item), full(item))
    ensures SameScreen(Concat(items, lazy), Concat(items, full))
  {
    if items != [] {
      SameRowsSameScreen(items[1..], lazy, full);
      SameScreenConcat(lazy(items[0]), full(items[0]), Concat(items[1..], lazy), Concat(items[1..], full));
    }
  }
}
