// Council rounds and the chair's decision (src/council/council.js:80-138, 398-422).
module Council {
  import opened Text

  datatype Severity = Critical | High | Medium | Low
  datatype Finding = Finding(severity: Severity, category: string, issue: string)
  datatype Verdict = Complete | ChangesRequired
  datatype ChairDecision = ChairDecision(
    verdict: Verdict, nextCursorPrompt: string, blocking: seq<Finding>, resolved: seq<Finding>)

  // A Council member's findings.
  type Review = seq<Finding>

  datatype Objection = EmptyPrompt | UnresolvedBlocking | IgnoredMinority

  predicate Grave(f: Finding) {
    f.severity == High || f.severity == Critical
  }

  predicate Addresses(entry: Finding, f: Finding) {
    entry.issue == f.issue || (entry.category == f.category && entry.severity == f.severity)
  }

  predicate Addressed(d: ChairDecision, f: Finding) {
    exists entry :: entry in d.resolved + d.blocking && Addresses(entry, f)
  }

  predicate GraveBlocking(d: ChairDecision) {
    exists f :: f in d.blocking && Grave(f)
  }

  // Every grave finding of the review is answered by a resolved or a blocking entry.
  predicate Heard(d: ChairDecision, review: Review) {
    forall f :: f in review && Grave(f) ==> Addressed(d, f)
  }

  predicate AllHeard(d: ChairDecision, reviews: seq<Review>) {
    forall r :: r in reviews ==> Heard(d, r)
  }

  predicate Acceptable(d: ChairDecision, reviews: seq<Review>) {
    && (d.verdict == ChangesRequired ==> Trim(d.nextCursorPrompt) != "")
    && (d.verdict == Complete ==> !GraveBlocking(d))
    && AllHeard(d, reviews)
  }

  // assertReviewChairDecision
  method AssertReviewChairDecision(d: ChairDecision, reviews: seq<Review>) returns (objection: Option<Objection>)
    ensures objection.None? <==> Acceptable(d, reviews)
    ensures objection == Some(EmptyPrompt) <==> d.verdict == ChangesRequired && Trim(d.nextCursorPrompt) == ""
    ensures objection == Some(UnresolvedBlocking) <==> d.verdict == Complete && GraveBlocking(d)
  {
    if d.verdict == ChangesRequired && Trim(d.nextCursorPrompt) == "" { return Some(EmptyPrompt); }
    if d.verdict == Complete && GraveBlocking(d) { return Some(UnresolvedBlocking); }
    for i := 0 to |reviews|
      invariant forall k :: 0 <= k < i ==> Heard(d, reviews[k])
    {
      var review := reviews[i];
      for j := 0 to |review|
        invariant forall k :: 0 <= k < j && Grave(review[k]) ==> Addressed(d, review[k])
      {
        if Grave(review[j]) && !Addressed(d, review[j]) {
          assert review[j] in review && !Heard(d, review);
          assert review in reviews;
          return Some(IgnoredMinority);
        }
      }
    }
    return None;
  }

  // assertFinalDecision asks less: nothing grave may block a COMPLETE, and changes need a prompt.
  method AssertFinalDecision(d: ChairDecision) returns (objection: Option<Objection>)
    ensures objection.None? <==> Acceptable(d, [])
    ensures objection == Some(UnresolvedBlocking) <==> d.verdict == Complete && GraveBlocking(d)
    ensures objection == Some(EmptyPrompt) <==> d.verdict == ChangesRequired && Trim(d.nextCursorPrompt) == ""
  {
    if d.verdict == Complete && GraveBlocking(d) { return Some(UnresolvedBlocking); }
    if d.verdict == ChangesRequired && Trim(d.nextCursorPrompt) == "" { return Some(EmptyPrompt); }
    return None;
  }

  // Spelled out: a decision is acceptable exactly when changes come with a prompt that is not blank, a COMPLETE blocks on
  // nothing HIGH or CRITICAL, and for every HIGH or CRITICAL finding of every member some resolved or blocking entry has
  // its issue, or its category at its severity.
  lemma {:induction false} AcceptableIff(d: ChairDecision, reviews: seq<Review>)
    ensures Acceptable(d, reviews) <==>
            && (d.verdict == ChangesRequired ==> !Blank(d.nextCursorPrompt))
            && (d.verdict == Complete ==> forall b :: b in d.blocking ==> b.severity == Medium || b.severity == Low)
            && (forall r, f :: r in reviews && f in r && (f.severity == High || f.severity == Critical) ==>
                  exists e :: (e in d.resolved || e in d.blocking)
                              && (e.issue == f.issue || (e.category == f.category && e.severity == f.severity)))
  {
    TrimIsEmptyIffBlank(d.nextCursorPrompt);
    forall f: Finding
      ensures Addressed(d, f) <==> exists e :: (e in d.resolved || e in d.blocking)
                                               && (e.issue == f.issue || (e.category == f.category && e.severity == f.severity))
    {
      assert forall e :: e in d.resolved + d.blocking <==> e in d.resolved || e in d.blocking;
      if e :| (e in d.resolved || e in d.blocking) && (e.issue == f.issue || (e.category == f.category && e.severity == f.severity)) {
        assert e in d.resolved + d.blocking && Addresses(e, f);
      }
    }
    hide Addressed, Trim, Blank;
  }

  // No majority overrides: one member with one grave finding that no entry answers is enough to refuse the
  // decision, however many members are content.
  lemma {:induction false} OneUnheardMemberSuffices(d: ChairDecision, reviews: seq<Review>, dissenter: Review, f: Finding)
    requires dissenter in reviews && f in dissenter && Grave(f) && !Addressed(d, f)
    ensures !Acceptable(d, reviews)
  {
    assert !Heard(d, dissenter);
  }

  predicate Mild(review: Review) {
    forall f :: f in review ==> !Grave(f)
  }

  // Acceptance depends only on which grave findings there are: adding any number of members without grave
  // findings, in any places, or reordering the members changes nothing.
  lemma {:induction false} MildMembersDoNotMatter(d: ChairDecision, reviews: seq<Review>, more: seq<Review>)
    requires forall r :: r in reviews ==> r in more
    requires forall r :: r in more && r !in reviews ==> Mild(r)
    ensures Acceptable(d, reviews) <==> Acceptable(d, more)
  {
    assert AllHeard(d, reviews) <==> AllHeard(d, more) by {
      if AllHeard(d, reviews) {
        forall r | r in more ensures Heard(d, r) {
          assert r !in reviews ==> Mild(r);
        }
      }
    }
  }

  lemma {:induction false} OrderDoesNotMatter(d: ChairDecision, reviews: seq<Review>, permuted: seq<Review>)
    requires multiset(reviews) == multiset(permuted)
    ensures Acceptable(d, reviews) <==> Acceptable(d, permuted)
  {
    forall r ensures r in reviews <==> r in permuted {
      assert r in reviews <==> r in multiset(reviews);
      assert r in permuted <==> r in multiset(permuted);
    }
    MildMembersDoNotMatter(d, reviews, permuted);
  }

  predicate Resolved(d: ChairDecision, f: Finding) {
    exists entry :: entry in d.resolved && Addresses(entry, f)
  }

  // A blocking entry names the issue, at a severity that does not block.
  predicate PlayedDown(d: ChairDecision, f: Finding) {
    exists entry :: entry in d.blocking && entry.issue == f.issue && !Grave(entry)
  }

  // A COMPLETE decision passes exactly when it blocks on nothing grave and every grave finding of every member
  // is resolved or played down.
  lemma {:induction false} CompleteIffResolvedOrPlayedDown(d: ChairDecision, reviews: seq<Review>)
    requires d.verdict == Complete
    ensures Acceptable(d, reviews) <==>
              && !GraveBlocking(d)
              && forall r, f :: r in reviews && f in r && Grave(f) ==> Resolved(d, f) || PlayedDown(d, f)
  {
    if !GraveBlocking(d) {
      forall f | Grave(f) ensures Addressed(d, f) <==> Resolved(d, f) || PlayedDown(d, f) {
        AddressedIff(d, f);
      }
      assert AllHeard(d, reviews) <==>
             forall r, f :: r in reviews && f in r && Grave(f) ==> Addressed(d, f);
    }
  }

  lemma {:induction false} AddressedIff(d: ChairDecision, f: Finding)
    requires Grave(f) && !GraveBlocking(d)
    ensures Addressed(d, f) <==> Resolved(d, f) || PlayedDown(d, f)
  {
    assert forall entry :: entry in d.resolved + d.blocking <==> entry in d.resolved || entry in d.blocking;
    if PlayedDown(d, f) {
      var entry :| entry in d.blocking && entry.issue == f.issue && !Grave(entry);
      assert entry in d.resolved + d.blocking && Addresses(entry, f);
    }
    if Resolved(d, f) {
      var entry :| entry in d.resolved && Addresses(entry, f);
      assert entry in d.resolved + d.blocking;
    }
  }

  // So a critical finding may be answered by a blocking entry of low severity with its issue.
  lemma {:induction false} PlayedDownFindingIsAccepted(category: string, issue: string)
    ensures var f := Finding(Critical, category, issue);
            var d := ChairDecision(Complete, "", [Finding(Low, category, issue)], []);
            Acceptable(d, [[f]]) && !GraveBlocking(d)
  {
    var f := Finding(Critical, category, issue);
    var d := ChairDecision(Complete, "", [Finding(Low, category, issue)], []);
    assert (d.resolved + d.blocking)[0] == Finding(Low, category, issue);
    assert Addresses(Finding(Low, category, issue), f);
    assert Heard(d, [f]);
  }

  // ---- Independent rounds ----

  datatype RoundError = AllProvidersFailed | InsufficientCouncil

  function Answers<T>(settled: seq<Option<T>>): (r: seq<T>)
    ensures |r| <= |settled|
  {
    if settled == [] then []
    else
      var n := |settled| - 1;
      Answers(settled[..n]) + (if settled[n].Some? then [settled[n].value] else [])
  }

  function Failures<T>(settled: seq<Option<T>>): nat {
    if settled == [] then 0
    else Failures(settled[..|settled| - 1]) + (if settled[|settled| - 1].None? then 1 else 0)
  }

  lemma {:induction false} NobodyIsLost<T>(settled: seq<Option<T>>)
    ensures |Answers(settled)| + Failures(settled) == |settled|
  {
    if settled != [] { NobodyIsLost(settled[..|settled| - 1]); }
  }

  // Answers are those of the providers that gave one, in the order of the providers.
  lemma {:induction false} AnswersInOrder<T>(a: seq<Option<T>>, b: seq<Option<T>>, x: T)
    ensures Answers(a + b) == Answers(a) + Answers(b)
    ensures Answers([Some(x)]) == [x] && Answers<T>([None]) == []
    decreases |b|
  {
    var none: Option<T> := None;
    assert [Some(x)][..0] == [] && [none][..0] == [];
    if b == [] {
      assert a + b == a;
    } else {
      AnswersInOrder(a, b[..|b| - 1], x);
      assert (a + b)[..|a + b| - 1] == a + b[..|b| - 1];
    }
  }

  // independentRound, once all providers have settled: every provider is counted as valid or failed, in order, and
  // the round is refused exactly when too few answered, with the sharper error when none did.
  method IndependentRound<T>(settled: seq<Option<T>>, minResponses: nat)
    returns (valid: seq<T>, failed: nat, error: Option<RoundError>)
    ensures valid == Answers(settled) && |valid| + failed == |settled|
    ensures error == Some(AllProvidersFailed) <==> valid == []
    ensures error.None? <==> valid != [] && |valid| >= minResponses
  {
    valid, failed := [], 0;
    for i := 0 to |settled|
      invariant valid == Answers(settled[..i]) && failed == Failures(settled[..i])
    {
      assert settled[..i + 1][..i] == settled[..i];
      if settled[i].Some? {
        valid := valid + [settled[i].value];
      } else {
        failed := failed + 1;
      }
    }
    assert settled[..|settled|] == settled;
    NobodyIsLost(settled);
    if valid == [] { return valid, failed, Some(AllProvidersFailed); }
    if |valid| < minResponses { return valid, failed, Some(InsufficientCouncil); }
    error := None;
  }
}
