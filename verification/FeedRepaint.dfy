/** The paint of a session's feed and the forgetting that follows it (client/_model_session_feed.py and the pane that
    keeps only the items that its last paint showed). */
module FeedRepaint {
  import opened Scrollback
  import opened Spans
  import B = Blocks
  import F = Feed
  import Folds = ShellFolds
  import S = Session

  /** What a feed key stands for. */
  datatype Record = EntryRecord(entry: Folds.Entry) | ShellRecord(fold: Folds.Fold)

  function RecordOf(model: S.Model, key: S.FeedKey): Record
    requires S.Holds(model, key)
  {
    match key
    case EntryKey(id) => EntryRecord(model.entries[id])
    case ShellKey(id) => ShellRecord(model.shells[id])
  }

  ghost predicate AllHeld(model: S.Model) {
    forall key <- model.order :: S.Holds(model, key)
  }

  /** The records of the feed, oldest first. */
  ghost function FeedOf(model: S.Model): (feed: seq<Record>)
    requires AllHeld(model)
    ensures |feed| == |model.order|
  {
    seq(|model.order|, i requires 0 <= i < |model.order| => RecordOf(model, model.order[i]))
  }

  lemma {:induction false} InvariantHolds(model: S.Model)
    requires S.FeedInvariant(model)
    ensures AllHeld(model)
  {
  }

  lemma {:induction false} KeptRecord(model: S.Model, n: nat, key: S.FeedKey)
    requires n <= |model.order| && S.Holds(model, key) && key !in model.order[..n]
    ensures S.Holds(S.WithoutOldest(model, n), key)
    ensures RecordOf(S.WithoutOldest(model, n), key) == RecordOf(model, key)
  {
  }

  lemma {:induction false} NewestIsNotForgotten(order: seq<S.FeedKey>, n: nat, i: nat)
    requires S.NoDuplicates(order) && n <= i < |order|
    ensures order[i] !in order[..n]
  {
  }

  lemma {:induction false} KeptRecordAt(model: S.Model, n: nat, left: S.Model, i: nat)
    requires n <= |model.order| && left == S.WithoutOldest(model, n) && AllHeld(model) && AllHeld(left)
    requires S.NoDuplicates(model.order) && left.order == model.order[n..] && i < |left.order|
    ensures FeedOf(left)[i] == FeedOf(model)[n + i]
  {
    assert left.order[i] == model.order[n + i];
    NewestIsNotForgotten(model.order, n, n + i);
    KeptRecord(model, n, model.order[n + i]);
  }

  lemma {:induction false} KeptRecords(model: S.Model, n: nat, left: S.Model)
    requires n <= |model.order| && left == S.WithoutOldest(model, n) && AllHeld(model) && AllHeld(left)
    requires S.NoDuplicates(model.order) && left.order == model.order[n..]
    ensures FeedOf(left) == FeedOf(model)[n..]
  {
    forall i | 0 <= i < |left.order| ensures FeedOf(left)[i] == FeedOf(model)[n + i] {
      KeptRecordAt(model, n, left, i);
    }
  }

  lemma {:induction false} KeptFeed(model: S.Model, n: nat, left: S.Model)
    requires S.FeedInvariant(model) && n <= |model.order| && left == S.WithoutOldest(model, n)
    ensures AllHeld(model) && AllHeld(left) && FeedOf(left) == FeedOf(model)[n..]
  {
    S.ForgettingKeeps(model, n, left);
    InvariantHolds(model);
    InvariantHolds(left);
    KeptRecords(model, n, left);
  }

  lemma {:induction false} SomeForgotten(model: S.Model, count: nat, n: nat, left: S.Model)
    requires S.FeedInvariant(model) && n == |model.order| - count > 0 && left == S.WithoutOldest(model, n)
    ensures AllHeld(model) && AllHeld(left) && FeedOf(left) == Newest(FeedOf(model), count)
  {
    KeptFeed(model, n, left);
  }

  lemma {:induction false} NoneForgotten(model: S.Model, count: nat)
    requires S.FeedInvariant(model) && |model.order| <= count
    ensures AllHeld(model) && FeedOf(model) == Newest(FeedOf(model), count)
  {
    InvariantHolds(model);
  }

  lemma {:induction false} NoneForgets(model: S.Model, count: nat)
    requires |model.order| <= count
    ensures S.KeepNewest(model, count) == model
  {
  }

  /** Forgetting keeps exactly the newest records, unchanged and in their order. */
  lemma {:induction false} KeepNewestIsNewest(model: S.Model, count: nat)
    requires S.FeedInvariant(model)
    ensures AllHeld(model) && AllHeld(S.KeepNewest(model, count))
    ensures FeedOf(S.KeepNewest(model, count)) == Newest(FeedOf(model), count)
  {
    if |model.order| <= count {
      NoneForgets(model, count);
      NoneForgotten(model, count);
    } else {
      var n := |model.order| - count;
      S.KeepNewestForgets(model, count, n);
      SomeForgotten(model, count, n, S.KeepNewest(model, count));
    }
  }

  /** The feed as the pane paints it. What one record draws is a parameter. */
  ghost function Drawn(model: S.Model, draw: Record -> F.FeedItem): (items: seq<F.FeedItem>)
    requires AllHeld(model)
  {
    B.Mapped(FeedOf(model), draw)
  }

  lemma {:induction false} DrawnNewest(model: S.Model, count: nat, draw: Record -> F.FeedItem)
    requires S.FeedInvariant(model)
    ensures AllHeld(model) && AllHeld(S.KeepNewest(model, count))
    ensures Drawn(S.KeepNewest(model, count), draw) == Newest(Drawn(model, draw), count)
  {
    KeepNewestIsNewest(model, count);
  }

  /** After the pane forgets what its paint did not show, the next paint at the same width shows the same screen and
      forgets nothing more. */
  lemma {:induction false} RepaintIsStable(
    model: S.Model, draw: Record -> F.FeedItem, shown: nat, again: nat,
    tasks: seq<Row>, sections: seq<Row>, header: seq<Row>, width: nat)
    requires S.FeedInvariant(model) && AllHeld(model) && AllHeld(S.KeepNewest(model, shown))
    requires StopsAfter(Drawn(model, draw), F.LazyRecordRows(width), shown)
    requires StopsAfter(Drawn(S.KeepNewest(model, shown), draw), F.LazyRecordRows(width), again)
    ensures again == shown
    ensures S.KeepNewest(S.KeepNewest(model, shown), again) == S.KeepNewest(model, shown)
    ensures F.LazyScreen(Drawn(S.KeepNewest(model, shown), draw), again, tasks, sections, header, width)
         == F.LazyScreen(Drawn(model, draw), shown, tasks, sections, header, width)
  {
    DrawnNewest(model, shown, draw);
    F.RepaintOfNewest(Drawn(model, draw), shown, again, tasks, sections, header, width);
    S.KeepNewestKeeps(model, shown);
  }
}
