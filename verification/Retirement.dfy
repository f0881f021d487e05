/** Release of one removed runtime: workers first, then its resources, once (extensions/manager_retirement.py). */
module Retirement {
  import opened Wrappers

  datatype Package = Package(extension: string, plugin: bool)

  /** What one deactivation call answers. */
  datatype Answer = TransportFails | Raises | Responds(revision: string, jobs: seq<string>)

  datatype Reason = UnresolvedJobs | DeactivationFailed | CloseFailed | CleanupUnavailable

  datatype Issue = Issue(revision: string, extension: Option<string>, reason: Reason, jobs: seq<string>)

  datatype Deactivation = Deactivation(issue: Option<Issue>, retry: bool)

  datatype Owner = Owner(
    revision: string,
    pending: seq<Package>,
    closed: bool,
    closeIssue: Option<Issue>,
    issues: seq<Issue>)

  datatype Shutdown = Shutdown(revision: string, resourcesClosed: bool, issues: seq<Issue>)

  // ----- The removal order -----

  function Matching(extension: string, packages: seq<Package>): (found: seq<Package>)
    ensures forall package :: package in found <==> package in packages && package.extension == extension
  {
    if packages == [] then []
    else (if packages[0].extension == extension then [packages[0]] else []) + Matching(extension, packages[1..])
  }

  /** The active packages, from the end of the active order. */
  function RemovalOrder(activeOrder: seq<string>, packages: seq<Package>): seq<Package> {
    if activeOrder == [] then []
    else RemovalOrder(activeOrder[1..], packages) + Matching(activeOrder[0], packages)
  }

  function NewOwner(revision: string, activeOrder: seq<string>, packages: seq<Package>): Owner {
    Owner(revision, RemovalOrder(activeOrder, packages), false, None, [])
  }

  function Position(order: seq<string>, extension: string): (at: nat)
    requires extension in order
    ensures at < |order| && order[at] == extension
  {
    if order[0] == extension then 0 else 1 + Position(order[1..], extension)
  }

  ghost predicate Active(order: seq<string>, pending: seq<Package>) {
    forall package <- pending :: package.extension in order
  }

  /** No package comes after one that is earlier in the active order. */
  ghost predicate DependentsFirst(order: seq<string>, pending: seq<Package>)
    requires Active(order, pending)
  {
    forall i, j :: 0 <= i < j < |pending| ==>
      Position(order, pending[j].extension) <= Position(order, pending[i].extension)
  }

  predicate Distinct(order: seq<string>) {
    forall i, j :: 0 <= i < j < |order| ==> order[i] != order[j]
  }

  lemma {:induction false} RemovalOrderIsActive(order: seq<string>, packages: seq<Package>)
    ensures Active(order, RemovalOrder(order, packages))
    ensures forall package :: package in RemovalOrder(order, packages) <==>
              package in packages && package.extension in order
  {
    if order != [] {
      RemovalOrderIsActive(order[1..], packages);
    }
  }

  /** The removal order has exactly the active packages, dependents before their providers. */
  lemma {:induction false} RemovesDependentsFirst(order: seq<string>, packages: seq<Package>)
    requires Distinct(order)
    ensures Active(order, RemovalOrder(order, packages))
    ensures forall package :: package in RemovalOrder(order, packages) <==>
              package in packages && package.extension in order
    ensures DependentsFirst(order, RemovalOrder(order, packages))
  {
    RemovalOrderIsActive(order, packages);
    if order != [] {
      RemovesDependentsFirst(order[1..], packages);
      var rest := RemovalOrder(order[1..], packages);
      var last := Matching(order[0], packages);
      assert order[0] !in order[1..];
      assert forall package <- rest :: Position(order, package.extension) == 1 + Position(order[1..], package.extension);
      assert forall package <- last :: Position(order, package.extension) == 0;
    }
  }

  // ----- One attempt -----

  function Answered(package: Package, revision: string, answer: Answer): Deactivation {
    if !package.plugin then Deactivation(None, false)
    else
      var failed := Issue(revision, Some(package.extension), DeactivationFailed, []);
      match answer
      case TransportFails => Deactivation(Some(failed), false)
      case Raises => Deactivation(Some(failed), true)
      case Responds(answered, jobs) =>
        if answered != revision then Deactivation(Some(failed), true)
        else if jobs != [] then Deactivation(Some(Issue(revision, Some(package.extension), UnresolvedJobs, jobs)), true)
        else Deactivation(None, false)
  }

  /** The package needs no further attempt: it has no worker, its transport is dead, or it acknowledged with
      this revision and no pending job. */
  predicate Settles(package: Package, revision: string, answer: Answer) {
    !package.plugin || answer.TransportFails? || answer == Responds(revision, [])
  }

  function Unsettled(pending: seq<Package>, revision: string, answers: seq<Answer>): seq<Package>
    requires |answers| == |pending|
  {
    if pending == [] then []
    else
      (if Answered(pending[0], revision, answers[0]).retry then [pending[0]] else [])
      + Unsettled(pending[1..], revision, answers[1..])
  }

  function IssuesOf(pending: seq<Package>, revision: string, answers: seq<Answer>): seq<Issue>
    requires |answers| == |pending|
  {
    if pending == [] then []
    else
      var issue := Answered(pending[0], revision, answers[0]).issue;
      (if issue.Some? then [issue.value] else []) + IssuesOf(pending[1..], revision, answers[1..])
  }

  /** Its resources were closed, or the one attempt to close them failed. */
  predicate Finished(owner: Owner) {
    owner.closed || owner.closeIssue.Some?
  }

  predicate Fits(owner: Owner, answers: seq<Answer>) {
    |answers| == |owner.pending|
  }

  function DeactivateOwner(owner: Owner, answers: seq<Answer>): Owner
    requires Fits(owner, answers)
  {
    if Finished(owner) then owner
    else
      owner.(pending := Unsettled(owner.pending, owner.revision, answers),
             issues := IssuesOf(owner.pending, owner.revision, answers))
  }

  function CloseOwner(owner: Owner, raises: bool): Owner {
    if Finished(owner) then owner
    else if raises then owner.(closeIssue := Some(Issue(owner.revision, None, CloseFailed, [])))
    else owner.(closed := true)
  }

  function RetireOwner(owner: Owner, answers: seq<Answer>, raises: bool): Owner
    requires Fits(owner, answers)
  {
    var asked := DeactivateOwner(owner, answers);
    if asked.pending == [] then CloseOwner(asked, raises) else asked
  }

  function Observed(owner: Owner): Shutdown {
    Shutdown(owner.revision, owner.closed,
      owner.issues + if owner.closeIssue.Some? then [owner.closeIssue.value] else [])
  }

  lemma {:induction false} UnsettledNext(
      pending: seq<Package>, revision: string, answers: seq<Answer>, package: Package, answer: Answer)
    requires |answers| == |pending|
    ensures var outcome := Answered(package, revision, answer);
            Unsettled(pending + [package], revision, answers + [answer])
            == Unsettled(pending, revision, answers) + if outcome.retry then [package] else []
  {
    if pending != [] {
      assert (pending + [package])[1..] == pending[1..] + [package];
      assert (answers + [answer])[1..] == answers[1..] + [answer];
      UnsettledNext(pending[1..], revision, answers[1..], package, answer);
    }
  }

  lemma {:induction false} IssuesNext(
      pending: seq<Package>, revision: string, answers: seq<Answer>, package: Package, answer: Answer)
    requires |answers| == |pending|
    ensures var outcome := Answered(package, revision, answer);
            IssuesOf(pending + [package], revision, answers + [answer])
            == IssuesOf(pending, revision, answers) + if outcome.issue.Some? then [outcome.issue.value] else []
  {
    if pending != [] {
      assert (pending + [package])[1..] == pending[1..] + [package];
      assert (answers + [answer])[1..] == answers[1..] + [answer];
      IssuesNext(pending[1..], revision, answers[1..], package, answer);
    }
  }

  // ----- What an answer means -----

  /** The worker confirmed this revision with no job left, or there is no worker. */
  predicate Acknowledges(package: Package, revision: string, answer: Answer) {
    !package.plugin || answer == Responds(revision, [])
  }

  /** What one answer leaves: a worker is asked again unless it settled; a worker that did not acknowledge leaves an issue
      of this revision and extension, with its jobs when it answered for this revision. */
  lemma {:induction false} AnswerDecides(package: Package, revision: string, answer: Answer)
    ensures var left := Answered(package, revision, answer);
            && (left.retry <==> package.plugin && !answer.TransportFails? && answer != Responds(revision, []))
            && (left.issue.Some? <==> package.plugin && answer != Responds(revision, []))
            && (left.issue.Some? ==>
                  && left.issue.value.revision == revision && left.issue.value.extension == Some(package.extension)
                  && (if answer.Responds? && answer.revision == revision
                      then left.issue.value.reason == UnresolvedJobs && left.issue.value.jobs == answer.jobs
                      else left.issue.value.reason == DeactivationFailed && left.issue.value.jobs == []))
  {
  }

  /** A close that raises leaves its issue behind the issues of the workers, and no later attempt changes the evidence. */
  lemma {:induction false} FailedCloseIsEvidence(owner: Owner, attempts: seq<Attempt>)
    requires !Finished(owner) && AreAttempts(CloseOwner(owner, true), attempts)
    ensures Observed(After(CloseOwner(owner, true), attempts))
            == Shutdown(owner.revision, false, owner.issues + [Issue(owner.revision, None, CloseFailed, [])])
  {
    ClosesAtMostOnce(CloseOwner(owner, true), attempts);
  }

  predicate AllAcknowledge(pending: seq<Package>, revision: string, answers: seq<Answer>)
    requires |answers| == |pending|
  {
    forall i :: 0 <= i < |pending| ==> Acknowledges(pending[i], revision, answers[i])
  }

  predicate AllSettle(pending: seq<Package>, revision: string, answers: seq<Answer>)
    requires |answers| == |pending|
  {
    forall i :: 0 <= i < |pending| ==> Settles(pending[i], revision, answers[i])
  }

  lemma {:induction false} NoIssueIffAllAcknowledge(pending: seq<Package>, revision: string, answers: seq<Answer>)
    requires |answers| == |pending|
    ensures IssuesOf(pending, revision, answers) == [] <==> AllAcknowledge(pending, revision, answers)
    ensures Unsettled(pending, revision, answers) == [] <==> AllSettle(pending, revision, answers)
    ensures AllAcknowledge(pending, revision, answers) ==> AllSettle(pending, revision, answers)
  {
    if pending != [] {
      NoIssueIffAllAcknowledge(pending[1..], revision, answers[1..]);
      AllOfRest(pending, revision, answers);
    }
  }

  lemma {:induction false} AllOfRest(pending: seq<Package>, revision: string, answers: seq<Answer>)
    requires |answers| == |pending| > 0
    ensures AllAcknowledge(pending, revision, answers) <==>
            Acknowledges(pending[0], revision, answers[0]) && AllAcknowledge(pending[1..], revision, answers[1..])
    ensures AllSettle(pending, revision, answers) <==>
            Settles(pending[0], revision, answers[0]) && AllSettle(pending[1..], revision, answers[1..])
  {
    var packages, rest := pending[1..], answers[1..];
    forall i | 0 < i < |pending|
      ensures Acknowledges(pending[i], revision, answers[i]) <==> Acknowledges(packages[i - 1], revision, rest[i - 1])
      ensures Settles(pending[i], revision, answers[i]) <==> Settles(packages[i - 1], revision, rest[i - 1])
    {
    }
  }

  /** The answer of a retirement: it is empty only when the resources are closed. On an owner that is not finished it is
      empty exactly when every worker acknowledges and the close succeeds; the resources are closed also when the
      transport of a worker is dead, and then the answer keeps that issue as evidence. */
  lemma {:induction false} EmptyAnswerMeansClosed(owner: Owner, answers: seq<Answer>, raises: bool)
    requires Fits(owner, answers)
    ensures var after := RetireOwner(owner, answers, raises);
            && (Observed(after).issues == [] ==> Observed(after).resourcesClosed)
            && (!Finished(owner) ==>
                  && (Observed(after).issues == [] <==> AllAcknowledge(owner.pending, owner.revision, answers) && !raises)
                  && (Observed(after).resourcesClosed <==> AllSettle(owner.pending, owner.revision, answers) && !raises))
            && (Finished(owner) ==> Observed(after) == Observed(owner))
  {
    NoIssueIffAllAcknowledge(owner.pending, owner.revision, answers);
  }

  class RetirementOwner {
    const revision: string
    var pending: seq<Package>
    var closed: bool
    var closeIssue: Option<Issue>
    var issues: seq<Issue>

    function View(): Owner
      reads this
    {
      Owner(revision, pending, closed, closeIssue, issues)
    }

    constructor (revision: string, activeOrder: seq<string>, packages: seq<Package>)
      ensures View() == NewOwner(revision, activeOrder, packages)
    {
      this.revision := revision;
      pending := RemovalOrder(activeOrder, packages);
      closed, closeIssue, issues := false, None, [];
    }

    /** `answers` has what each pending worker would answer, `raises` whether the resource close would fail. */
    method Retire(answers: seq<Answer>, raises: bool) returns (left: seq<Issue>)
      requires Fits(View(), answers)
      modifies this
      ensures View() == RetireOwner(old(View()), answers, raises)
      ensures left == Observed(View()).issues
    {
      Deactivate(answers);
      if pending == [] {
        CloseResources(raises);
      }
      var observation := Observation();
      left := observation.issues;
    }

    method Deactivate(answers: seq<Answer>)
      requires Fits(View(), answers)
      modifies this
      ensures View() == DeactivateOwner(old(View()), answers)
    {
      if closed || closeIssue.Some? {
        return;
      }
      var retries, found;
      retries, found := AskPending(answers);
      pending, issues := retries, found;
    }

    /** Ask every unacknowledged worker once. */
    method AskPending(answers: seq<Answer>) returns (retries: seq<Package>, found: seq<Issue>)
      requires Fits(View(), answers)
      ensures retries == Unsettled(pending, revision, answers)
      ensures found == IssuesOf(pending, revision, answers)
    {
      retries, found := [], [];
      for i := 0 to |pending|
        invariant retries == Unsettled(pending[..i], revision, answers[..i])
        invariant found == IssuesOf(pending[..i], revision, answers[..i])
      {
        UnsettledNext(pending[..i], revision, answers[..i], pending[i], answers[i]);
        IssuesNext(pending[..i], revision, answers[..i], pending[i], answers[i]);
        assert pending[..i + 1] == pending[..i] + [pending[i]] && answers[..i + 1] == answers[..i] + [answers[i]];
        var outcome := Answered(pending[i], revision, answers[i]);
        if outcome.retry {
          retries := retries + [pending[i]];
        }
        if outcome.issue.Some? {
          found := found + [outcome.issue.value];
        }
      }
      assert pending[..|pending|] == pending && answers[..|pending|] == answers;
    }

    method CloseResources(raises: bool)
      modifies this
      ensures View() == CloseOwner(old(View()), raises)
    {
      if closed || closeIssue.Some? {
        return;
      }
      if raises {
        closeIssue := Some(Issue(revision, None, CloseFailed, []));
      } else {
        closed := true;
      }
    }

    method Observation() returns (observation: Shutdown)
      ensures observation == Observed(View())
    {
      observation := Shutdown(revision, closed, issues + if closeIssue.Some? then [closeIssue.value] else []);
    }
  }

  // ----- Any sequence of attempts -----

  datatype Attempt =
    | Deactivating(answers: seq<Answer>)
    | Closing(raises: bool)
    | Retiring(answers: seq<Answer>, raises: bool)

  predicate Possible(owner: Owner, attempt: Attempt) {
    attempt.Closing? || Fits(owner, attempt.answers)
  }

  function Attempted(owner: Owner, attempt: Attempt): Owner
    requires Possible(owner, attempt)
  {
    match attempt
    case Deactivating(answers) => DeactivateOwner(owner, answers)
    case Closing(raises) => CloseOwner(owner, raises)
    case Retiring(answers, raises) => RetireOwner(owner, answers, raises)
  }

  predicate AreAttempts(owner: Owner, attempts: seq<Attempt>)
    decreases |attempts|
  {
    attempts == [] || (Possible(owner, attempts[0]) && AreAttempts(Attempted(owner, attempts[0]), attempts[1..]))
  }

  function After(owner: Owner, attempts: seq<Attempt>): Owner
    requires AreAttempts(owner, attempts)
    decreases |attempts|
  {
    if attempts == [] then owner else After(Attempted(owner, attempts[0]), attempts[1..])
  }

  /** The attempt calls `close` on the prepared runtime. */
  predicate CallsClose(owner: Owner, attempt: Attempt)
    requires Possible(owner, attempt)
  {
    !Finished(owner) && match attempt
      case Deactivating(_) => false
      case Closing(_) => true
      case Retiring(answers, _) => Unsettled(owner.pending, owner.revision, answers) == []
  }

  function CloseCalls(owner: Owner, attempts: seq<Attempt>): nat
    requires AreAttempts(owner, attempts)
    decreases |attempts|
  {
    if attempts == [] then 0
    else
      (if CallsClose(owner, attempts[0]) then 1 else 0)
      + CloseCalls(Attempted(owner, attempts[0]), attempts[1..])
  }

  /** However often an owner is retried, its resources are closed at most once; the result is final, also
      when the close failed. */
  lemma {:induction false} ClosesAtMostOnce(owner: Owner, attempts: seq<Attempt>)
    requires AreAttempts(owner, attempts)
    ensures CloseCalls(owner, attempts) <= 1
    ensures !Finished(owner) ==> (CloseCalls(owner, attempts) == 1 <==> Finished(After(owner, attempts)))
    ensures Finished(owner) ==> CloseCalls(owner, attempts) == 0 && After(owner, attempts) == owner
    decreases |attempts|
  {
    if attempts != [] {
      ClosesAtMostOnce(Attempted(owner, attempts[0]), attempts[1..]);
    }
  }

  predicate Subsequence<T(==)>(part: seq<T>, whole: seq<T>) {
    part == [] || (whole != [] && (
      if part[0] == whole[0] then Subsequence(part[1..], whole[1..]) else Subsequence(part, whole[1..])))
  }

  lemma {:induction false} SubsequenceSkips<T>(part: seq<T>, first: T, whole: seq<T>)
    requires Subsequence(part, whole)
    ensures Subsequence(part, [first] + whole)
    decreases |part| + |whole|, 1
  {
    assert ([first] + whole)[1..] == whole;
    if part != [] && part[0] == first {
      SubsequenceDrops(part, whole);
    }
  }

  lemma {:induction false} SubsequenceDrops<T>(part: seq<T>, whole: seq<T>)
    requires Subsequence(part, whole) && part != []
    ensures Subsequence(part[1..], whole)
    decreases |part| + |whole|, 0
  {
    assert [whole[0]] + whole[1..] == whole;
    if part[0] == whole[0] {
      SubsequenceSkips(part[1..], whole[0], whole[1..]);
    } else {
      SubsequenceDrops(part, whole[1..]);
      SubsequenceSkips(part[1..], whole[0], whole[1..]);
    }
  }

  lemma {:induction false} SubsequenceOfSelf<T>(whole: seq<T>)
    ensures Subsequence(whole, whole)
  {
    if whole != [] {
      SubsequenceOfSelf(whole[1..]);
    }
  }

  lemma {:induction false} SubsequenceOfSubsequence<T>(part: seq<T>, middle: seq<T>, whole: seq<T>)
    requires Subsequence(part, middle) && Subsequence(middle, whole)
    ensures Subsequence(part, whole)
    decreases |part| + |middle| + |whole|
  {
    if part != [] {
      if middle[0] == whole[0] {
        if part[0] == middle[0] {
          SubsequenceOfSubsequence(part[1..], middle[1..], whole[1..]);
        } else {
          SubsequenceOfSubsequence(part, middle[1..], whole[1..]);
        }
      } else {
        SubsequenceOfSubsequence(part, middle, whole[1..]);
        assert [whole[0]] + whole[1..] == whole;
        SubsequenceSkips(part, whole[0], whole[1..]);
      }
    }
  }

  lemma {:induction false} UnsettledIsSubsequence(pending: seq<Package>, revision: string, answers: seq<Answer>)
    requires |answers| == |pending|
    ensures Subsequence(Unsettled(pending, revision, answers), pending)
  {
    if pending != [] {
      UnsettledIsSubsequence(pending[1..], revision, answers[1..]);
      var rest := Unsettled(pending[1..], revision, answers[1..]);
      assert [pending[0]] + pending[1..] == pending;
      if Answered(pending[0], revision, answers[0]).retry {
        assert ([pending[0]] + rest)[1..] == rest;
      } else {
        assert [] + rest == rest;
        SubsequenceSkips(rest, pending[0], pending[1..]);
      }
    }
  }

  /** Over any sequence of attempts the unacknowledged packages only shrink, in their order. */
  lemma {:induction false} PendingOnlyShrinks(owner: Owner, attempts: seq<Attempt>)
    requires AreAttempts(owner, attempts)
    ensures Subsequence(After(owner, attempts).pending, owner.pending)
    ensures After(owner, attempts).revision == owner.revision
    decreases |attempts|
  {
    if attempts == [] {
      SubsequenceOfSelf(owner.pending);
    } else {
      var next := Attempted(owner, attempts[0]);
      PendingOnlyShrinks(next, attempts[1..]);
      if attempts[0].Closing? || Finished(owner) {
      } else {
        UnsettledIsSubsequence(owner.pending, owner.revision, attempts[0].answers);
        SubsequenceOfSubsequence(After(owner, attempts).pending, next.pending, owner.pending);
      }
    }
  }

  lemma {:induction false} SubsequenceMembers<T>(part: seq<T>, whole: seq<T>)
    requires Subsequence(part, whole)
    ensures forall item <- part :: item in whole
    decreases |whole|
  {
    if part != [] {
      if part[0] == whole[0] {
        SubsequenceMembers(part[1..], whole[1..]);
        assert forall item <- part :: item == part[0] || item in part[1..];
      } else {
        SubsequenceMembers(part, whole[1..]);
      }
    }
  }

  lemma {:induction false} SubsequenceKeepsOrder(order: seq<string>, part: seq<Package>, whole: seq<Package>)
    requires Subsequence(part, whole) && Active(order, whole) && DependentsFirst(order, whole)
    ensures Active(order, part) && DependentsFirst(order, part)
    decreases |whole|
  {
    SubsequenceMembers(part, whole);
    if part != [] {
      assert Active(order, whole[1..]);
      if part[0] == whole[0] {
        SubsequenceKeepsOrder(order, part[1..], whole[1..]);
        SubsequenceMembers(part[1..], whole[1..]);
        forall j | 1 <= j < |part|
          ensures Position(order, part[j].extension) <= Position(order, part[0].extension)
        {
          assert part[j] == part[1..][j - 1];
          assert part[j] in whole[1..];
        }
        assert forall i, j :: 1 <= i < j < |part| ==> part[i] == part[1..][i - 1] && part[j] == part[1..][j - 1];
      } else {
        SubsequenceKeepsOrder(order, part, whole[1..]);
      }
    }
  }

  /** Every retry asks dependents before their providers. */
  lemma {:induction false} RetriesKeepDependentsFirst(
      revision: string, order: seq<string>, packages: seq<Package>, attempts: seq<Attempt>)
    requires Distinct(order) && AreAttempts(NewOwner(revision, order, packages), attempts)
    ensures var pending := After(NewOwner(revision, order, packages), attempts).pending;
            Active(order, pending) && DependentsFirst(order, pending)
  {
    var owner := NewOwner(revision, order, packages);
    RemovesDependentsFirst(order, packages);
    PendingOnlyShrinks(owner, attempts);
    SubsequenceKeepsOrder(order, After(owner, attempts).pending, owner.pending);
  }

  /** In one of the attempts the package was asked and settled. */
  ghost predicate SettledIn(owner: Owner, attempts: seq<Attempt>, package: Package)
    requires AreAttempts(owner, attempts)
    decreases |attempts|
  {
    attempts != [] && (
      || (!attempts[0].Closing? && !Finished(owner)
          && exists i :: 0 <= i < |owner.pending| && owner.pending[i] == package
                         && Settles(package, owner.revision, attempts[0].answers[i]))
      || SettledIn(Attempted(owner, attempts[0]), attempts[1..], package))
  }

  lemma {:induction false} DroppedWasSettled(pending: seq<Package>, revision: string, answers: seq<Answer>, package: Package)
    requires |answers| == |pending| && package in pending && package !in Unsettled(pending, revision, answers)
    ensures exists i :: 0 <= i < |pending| && pending[i] == package && Settles(package, revision, answers[i])
  {
    if pending[0] == package {
      assert Settles(package, revision, answers[0]);
    } else {
      DroppedWasSettled(pending[1..], revision, answers[1..], package);
      var i :| 0 <= i < |pending[1..]| && pending[1..][i] == package && Settles(package, revision, answers[1..][i]);
      assert pending[i + 1] == package;
    }
  }

  lemma {:induction false} ForgottenWasSettled(owner: Owner, attempts: seq<Attempt>, package: Package)
    requires AreAttempts(owner, attempts) && package in owner.pending
    ensures package in After(owner, attempts).pending || SettledIn(owner, attempts, package)
    decreases |attempts|
  {
    if attempts != [] {
      var next := Attempted(owner, attempts[0]);
      if package in next.pending {
        ForgottenWasSettled(next, attempts[1..], package);
      } else {
        DroppedWasSettled(owner.pending, owner.revision, attempts[0].answers, package);
      }
    }
  }

  ghost predicate OnlyRetires(attempts: seq<Attempt>) {
    forall attempt <- attempts :: attempt.Retiring?
  }

  lemma {:induction false} RetiresFinishOnlyWhenAnswered(owner: Owner, attempts: seq<Attempt>)
    requires AreAttempts(owner, attempts) && OnlyRetires(attempts)
    ensures Finished(After(owner, attempts)) && !Finished(owner) ==> After(owner, attempts).pending == []
    ensures attempts != [] && After(owner, attempts).pending == [] ==> Finished(After(owner, attempts))
    decreases |attempts|
  {
    if attempts != [] {
      var next := Attempted(owner, attempts[0]);
      assert attempts[0] in attempts;
      ClosesAtMostOnce(next, attempts[1..]);
      RetiresFinishOnlyWhenAnswered(next, attempts[1..]);
    }
  }

  /** A replacement closes the removed runtime only after each of its packages was settled in some attempt. */
  lemma {:induction false} ReplacementClosesOnlySettled(
      revision: string, order: seq<string>, packages: seq<Package>, attempts: seq<Attempt>, package: Package)
    requires AreAttempts(NewOwner(revision, order, packages), attempts) && OnlyRetires(attempts)
    requires Finished(After(NewOwner(revision, order, packages), attempts))
    requires package in packages && package.extension in order
    ensures SettledIn(NewOwner(revision, order, packages), attempts, package)
  {
    var owner := NewOwner(revision, order, packages);
    RemovalOrderIsActive(order, packages);
    RetiresFinishOnlyWhenAnswered(owner, attempts);
    ForgottenWasSettled(owner, attempts, package);
  }
}
