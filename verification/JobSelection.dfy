/** The oldest jobs in one state, as the job table selects them for scheduling and recovery
    (repository/impl/sqlite/extension_jobs.py, `jobs_in_state`). */
module JobSelection {
  import opened Wrappers
  import opened Jobs

  /** Where a row stands by the time of its last update and then its id. */
  type Rank = JobKey -> int

  predicate Ranked(jobs: Store, rank: Rank) {
    forall a <- jobs, b <- jobs :: rank(a) == rank(b) ==> a == b
  }

  /** The job has the state, and its owner is one of the owners when there are any. */
  predicate Selected(job: Job, state: JobState, owners: Option<set<string>>) {
    job.state == state && (owners.Some? ==> job.key.owner in owners.value)
  }

  function SelectedKeys(jobs: Store, state: JobState, owners: Option<set<string>>): set<JobKey> {
    set key | key in jobs && Selected(jobs[key], state, owners)
  }

  predicate OldestFirst(keys: seq<JobKey>, rank: Rank) {
    forall i, j :: 0 <= i < j < |keys| ==> rank(keys[i]) < rank(keys[j])
  }

  /** The oldest keys of the set, in their order: all of them, or the limit. */
  predicate AreOldest(keys: seq<JobKey>, among: set<JobKey>, limit: nat, rank: Rank) {
    && |keys| <= limit
    && OldestFirst(keys, rank)
    && (forall key <- keys :: key in among)
    && (forall key <- among :: key in keys || (|keys| == limit && forall i :: 0 <= i < |keys| ==> rank(keys[i]) < rank(key)))
  }

  lemma {:induction false} HasOldest(keys: set<JobKey>, rank: Rank)
    requires keys != {}
    ensures exists oldest <- keys :: forall key <- keys :: rank(oldest) <= rank(key)
    decreases keys
  {
    var one :| one in keys;
    var rest := keys - {one};
    assert forall key <- keys :: key == one || key in rest;
    if rest == {} {
      assert forall key <- keys :: rank(one) <= rank(key);
    } else {
      HasOldest(rest, rank);
      var oldest :| oldest in rest && forall key <- rest :: rank(oldest) <= rank(key);
      var best := if rank(one) < rank(oldest) then one else oldest;
      assert best in keys && forall key <- keys :: rank(best) <= rank(key);
    }
  }

  /** Take the oldest key that is left until the limit is reached. */
  method TakeOldest(among: set<JobKey>, limit: nat, rank: Rank) returns (keys: seq<JobKey>)
    requires forall a <- among, b <- among :: rank(a) == rank(b) ==> a == b
    ensures AreOldest(keys, among, limit, rank)
  {
    keys := [];
    var left := among;
    while left != {} && |keys| < limit
      invariant |keys| <= limit && left <= among && OldestFirst(keys, rank)
      invariant forall key <- keys :: key in among && key !in left
      invariant forall key <- among :: key in left || key in keys
      invariant forall i :: 0 <= i < |keys| ==> forall key <- left :: rank(keys[i]) < rank(key)
      decreases left
    {
      HasOldest(left, rank);
      var oldest :| oldest in left && forall key <- left :: rank(oldest) <= rank(key);
      keys := keys + [oldest];
      left := left - {oldest};
    }
  }

  lemma {:induction false} OldestMember(a: seq<JobKey>, b: seq<JobKey>, among: set<JobKey>, limit: nat, rank: Rank, i: nat)
    requires AreOldest(a, among, limit, rank) && AreOldest(b, among, limit, rank)
    requires i < |a| && i < |b| && a[..i] == b[..i]
    ensures rank(b[i]) <= rank(a[i])
  {
    assert a[i] in a && a[i] in among;
    forall j | 0 <= j < i ensures b[j] == a[j] {
      assert b[j] == b[..i][j] && a[j] == a[..i][j];
    }
  }

  lemma {:induction false} SameOldestPrefix(a: seq<JobKey>, b: seq<JobKey>, among: set<JobKey>, limit: nat, rank: Rank, i: nat)
    requires forall x <- among, y <- among :: rank(x) == rank(y) ==> x == y
    requires AreOldest(a, among, limit, rank) && AreOldest(b, among, limit, rank)
    requires i <= |a| && i <= |b|
    ensures a[..i] == b[..i]
  {
    if i > 0 {
      var k := i - 1;
      SameOldestPrefix(a, b, among, limit, rank, k);
      OldestMember(a, b, among, limit, rank, k);
      OldestMember(b, a, among, limit, rank, k);
      assert a[k] in a && b[k] in b;
      assert a[..i] == a[..k] + [a[k]] && b[..i] == b[..k] + [b[k]];
    }
  }

  function Members(keys: seq<JobKey>): set<JobKey> {
    set key | key in keys
  }

  lemma {:induction false} AsManyMembers(keys: seq<JobKey>, rank: Rank)
    requires OldestFirst(keys, rank)
    ensures |Members(keys)| == |keys|
  {
    if keys != [] {
      var last, before := keys[|keys| - 1], keys[..|keys| - 1];
      AsManyMembers(before, rank);
      assert keys == before + [last];
      assert Members(keys) == Members(before) + {last};
      assert last !in Members(before);
    }
  }

  lemma {:induction false} SubsetIsSmaller(part: set<JobKey>, whole: set<JobKey>)
    requires part <= whole
    ensures |part| <= |whole|
  {
    assert whole == part + (whole - part);
  }

  /** The list is as long as the limit and the set allow. */
  lemma {:induction false} OldestCount(keys: seq<JobKey>, among: set<JobKey>, limit: nat, rank: Rank)
    requires AreOldest(keys, among, limit, rank)
    ensures |keys| == if |among| < limit then |among| else limit
  {
    AsManyMembers(keys, rank);
    SubsetIsSmaller(Members(keys), among);
    if |keys| < limit {
      assert Members(keys) == among;
    }
  }

  /** The selection is determined: no other list has the oldest keys in their order. */
  lemma {:induction false} OldestAreUnique(a: seq<JobKey>, b: seq<JobKey>, among: set<JobKey>, limit: nat, rank: Rank)
    requires forall x <- among, y <- among :: rank(x) == rank(y) ==> x == y
    requires AreOldest(a, among, limit, rank) && AreOldest(b, among, limit, rank)
    ensures a == b
  {
    OldestCount(a, among, limit, rank);
    OldestCount(b, among, limit, rank);
    SameOldestPrefix(a, b, among, limit, rank, |a|);
    assert a[..|a|] == a && b[..|b|] == b;
  }

  /** No job of another owner or state holds an old job back: each selected job is in the list, or the list is full of
      older ones. */
  lemma {:induction false} OthersHoldNothingBack(
      jobs: Store, state: JobState, owners: Option<set<string>>, limit: nat, rank: Rank, keys: seq<JobKey>, key: JobKey)
    requires AreOldest(keys, SelectedKeys(jobs, state, owners), limit, rank)
    requires key in jobs && Selected(jobs[key], state, owners) && key !in keys
    ensures |keys| == limit
    ensures forall other <- keys :: other in jobs && Selected(jobs[other], state, owners) && rank(other) < rank(key)
  {
    assert key in SelectedKeys(jobs, state, owners);
  }
}
