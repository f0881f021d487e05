/** The changed part of two lines of text (client/_render_diff_models.py). */
module DiffRanges {

  datatype TextRange = TextRange(start: nat, end: nat)

  datatype ChangedRanges = ChangedRanges(removed: TextRange, added: TextRange)

  function Shorter(before: string, after: string): nat {
    if |before| <= |after| then |before| else |after|
  }

  /** The first `prefix` characters agree, and the last `suffix`, without overlap. */
  predicate Agrees(before: string, after: string, prefix: nat, suffix: nat) {
    && prefix + suffix <= Shorter(before, after)
    && before[..prefix] == after[..prefix]
    && before[|before| - suffix..] == after[|after| - suffix..]
  }

  lemma {:induction false} AgreesPointwise(before: string, after: string, prefix: nat, suffix: nat)
    requires Agrees(before, after, prefix, suffix)
    ensures forall k :: 0 <= k < prefix ==> before[k] == after[k]
    ensures forall k :: |before| - suffix <= k < |before| ==> before[k] == after[k + |after| - |before|]
  {
    assert forall k :: 0 <= k < prefix ==> before[k] == before[..prefix][k] && after[k] == after[..prefix][k];
    forall k | |before| - suffix <= k < |before| ensures before[k] == after[k + |after| - |before|] {
      assert before[k] == before[|before| - suffix..][k - |before| + suffix];
      assert after[k + |after| - |before|] == after[|after| - suffix..][k - |before| + suffix];
    }
  }

  /** The length of the common prefix. */
  function CommonPrefix(before: string, after: string): (prefix: nat)
    ensures Agrees(before, after, prefix, 0)
    ensures prefix < Shorter(before, after) ==> before[prefix] != after[prefix]
  {
    if before == [] || after == [] || before[0] != after[0] then 0
    else
      var rest := CommonPrefix(before[1..], after[1..]);
      assert before[..rest + 1] == [before[0]] + before[1..][..rest];
      assert after[..rest + 1] == [after[0]] + after[1..][..rest];
      rest + 1
  }

  /** The length of the common suffix, at most `limit`. */
  function CommonSuffix(before: string, after: string, limit: nat): (suffix: nat)
    requires limit <= Shorter(before, after)
    ensures suffix <= limit && Agrees(before, after, 0, suffix)
    ensures suffix < limit ==> before[|before| - suffix - 1] != after[|after| - suffix - 1]
    decreases limit
  {
    if limit == 0 || before[|before| - 1] != after[|after| - 1] then 0
    else
      var rest := CommonSuffix(before[..|before| - 1], after[..|after| - 1], limit - 1);
      SuffixGrows(before, after, rest);
      rest + 1
  }

  lemma {:induction false} SuffixGrows(before: string, after: string, suffix: nat)
    requires suffix < |before| && suffix < |after| && before[|before| - 1] == after[|after| - 1]
    requires Agrees(before[..|before| - 1], after[..|after| - 1], 0, suffix)
    ensures Agrees(before, after, 0, suffix + 1)
  {
    var b, a := before[..|before| - 1], after[..|after| - 1];
    assert before[|before| - (suffix + 1)..] == b[|b| - suffix..] + [before[|before| - 1]];
    assert after[|after| - (suffix + 1)..] == a[|a| - suffix..] + [after[|after| - 1]];
  }

  function RangesOf(before: string, after: string): ChangedRanges {
    var prefix := CommonPrefix(before, after);
    var suffix := CommonSuffix(before, after, Shorter(before, after) - prefix);
    ChangedRanges(TextRange(prefix, |before| - suffix), TextRange(prefix, |after| - suffix))
  }

  /** Everything outside the ranges is equal text, and two ranges that are not empty differ at both ends. */
  lemma {:induction false} RangesAreTight(before: string, after: string)
    ensures var ranges := RangesOf(before, after);
            var r, a := ranges.removed, ranges.added;
            && r.start == a.start && r.start <= r.end <= |before| && a.start <= a.end <= |after|
            && before[..r.start] == after[..a.start]
            && before[r.end..] == after[a.end..]
            && (r.start < r.end && a.start < a.end ==>
                  before[r.start] != after[a.start] && before[r.end - 1] != after[a.end - 1])
  {
    var prefix := CommonPrefix(before, after);
    var suffix := CommonSuffix(before, after, Shorter(before, after) - prefix);
    assert suffix <= Shorter(before, after) - prefix;
  }

  /** Nothing is marked exactly when the lines are equal. */
  lemma {:induction false} NothingChangedIffEqual(before: string, after: string)
    ensures before == after <==>
            RangesOf(before, after).removed.start == RangesOf(before, after).removed.end
            && RangesOf(before, after).added.start == RangesOf(before, after).added.end
  {
    RangesAreTight(before, after);
    var ranges := RangesOf(before, after);
    if ranges.removed.start == ranges.removed.end && ranges.added.start == ranges.added.end {
      assert before == before[..ranges.removed.start] + before[ranges.removed.end..];
      assert after == after[..ranges.added.start] + after[ranges.added.end..];
    }
  }

  /** No other agreeing prefix and suffix leave a shorter changed part. */
  lemma {:induction false} NoShorterRanges(before: string, after: string, prefix: nat, suffix: nat)
    requires Agrees(before, after, prefix, suffix)
    ensures var ranges := RangesOf(before, after);
            && ranges.removed.end - ranges.removed.start <= |before| - suffix - prefix
            && ranges.added.end - ranges.added.start <= |after| - suffix - prefix
  {
    AgreesPointwise(before, after, prefix, suffix);
    var most := CommonPrefix(before, after);
    var tail := CommonSuffix(before, after, Shorter(before, after) - most);
  }

  method FindRanges(before: string, after: string) returns (ranges: ChangedRanges)
    ensures ranges == RangesOf(before, after)
  {
    var prefix := 0;
    var limit := if |before| <= |after| then |before| else |after|;
    while prefix < limit && before[prefix] == after[prefix]
      invariant prefix <= limit && before[..prefix] == after[..prefix]
    {
      prefix := prefix + 1;
    }
    PrefixIs(before, after, prefix);
    var suffix := 0;
    var remaining := limit - prefix;
    while suffix < remaining
      invariant suffix <= remaining && before[|before| - suffix..] == after[|after| - suffix..]
    {
      if before[|before| - suffix - 1] != after[|after| - suffix - 1] {
        break;
      }
      assert before[|before| - (suffix + 1)..] == [before[|before| - suffix - 1]] + before[|before| - suffix..];
      assert after[|after| - (suffix + 1)..] == [after[|after| - suffix - 1]] + after[|after| - suffix..];
      suffix := suffix + 1;
    }
    SuffixIs(before, after, remaining, suffix);
    return ChangedRanges(TextRange(prefix, |before| - suffix), TextRange(prefix, |after| - suffix));
  }

  lemma {:induction false} PrefixIs(before: string, after: string, prefix: nat)
    requires Agrees(before, after, prefix, 0)
    requires prefix < Shorter(before, after) ==> before[prefix] != after[prefix]
    ensures CommonPrefix(before, after) == prefix
  {
    AgreesPointwise(before, after, prefix, 0);
    AgreesPointwise(before, after, CommonPrefix(before, after), 0);
  }

  lemma {:induction false} SuffixIs(before: string, after: string, limit: nat, suffix: nat)
    requires suffix <= limit <= Shorter(before, after) && Agrees(before, after, 0, suffix)
    requires suffix < limit ==> before[|before| - suffix - 1] != after[|after| - suffix - 1]
    ensures CommonSuffix(before, after, limit) == suffix
  {
    AgreesPointwise(before, after, 0, suffix);
    AgreesPointwise(before, after, 0, CommonSuffix(before, after, limit));
  }
}
