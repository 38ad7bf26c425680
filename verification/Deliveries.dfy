// What preparing a delivery and deciding on it do to the ledger, and what the owner's decisions mean over whole runs
// (src/delivery/prepare.js:32-222, src/delivery/decisions.js:20-94, src/orchestrator/orchestrator.js:1075-1125).
module Deliveries {
  import opened Text
  import opened States
  import opened Records
  import opened Workflow
  import opened Lookups
  import opened Delivery
  import Lineage
  import Gate
  import JobSafety
  import WorkflowProofs
  import WorkflowSafety

  // ---- Preparing ----

  // The entry is of the final checkpoint and of the evidence there is, and may still be offered.
  predicate IsOfThisEvidence(p: Project, d: Records.Delivery) {
    && d.key == DeliveryKey(FinalCheckpoint(p), Lineage.EvidenceSetOf(p))
    && (d.status == Ready || d.status == Preparing)
  }

  // The first entry of this evidence is READY already.
  predicate IsOffered(p: Project, i: nat)
    requires i < |p.deliveries|
  {
    && IsOfThisEvidence(p, p.deliveries[i]) && p.deliveries[i].status == Ready
    && forall j :: 0 <= j < i ==> !IsOfThisEvidence(p, p.deliveries[j])
  }

  predicate IsComplete(package: Package) {
    && package.archive && package.manifestHash && package.ownerReport && package.verificationReport
    && (package.sourceArtifact ==> package.sourceHashMatches)
  }

  // What publishing another entry leaves of one: it is no longer current, and no longer READY.
  predicate GivesWay(before: Records.Delivery, after: Records.Delivery) {
    && !after.current && after == before.(current := false, status := after.status)
    && after.status == (if before.status == Ready then Superseded else before.status)
  }

  // Entry i was published with the package: READY, current, of this evidence; every other entry gave way; and the entry
  // was being prepared already, or it is a new one, with a version above all others.
  predicate Publishes(p: Project, after: seq<Records.Delivery>, i: nat, package: Package) {
    && |p.deliveries| <= |after| <= |p.deliveries| + 1 && i < |after|
    && after[i].status == Ready && after[i].current && after[i].package == Some(package)
    && after[i].checkpointSha == FinalCheckpoint(p) && after[i].evidenceSet == Lineage.EvidenceSetOf(p)
    && (forall j :: 0 <= j < |p.deliveries| && j != i ==> GivesWay(p.deliveries[j], after[j]))
    && if i < |p.deliveries|
       then |after| == |p.deliveries| && p.deliveries[i].status == Preparing && after[i].version == p.deliveries[i].version
       else |after| == i + 1 && forall j :: 0 <= j < i ==> after[j].version < after[i].version
  }

  // Nothing but an entry that is being prepared was added.
  predicate OnlyStarts(p: Project, after: seq<Records.Delivery>) {
    || after == p.deliveries
    || (|after| == |p.deliveries| + 1 && after[..|p.deliveries|] == p.deliveries
        && after[|p.deliveries|].status == Preparing && !after[|p.deliveries|].current)
  }

  lemma {:induction false} OfferedIsReused(p: Project)
    requires LedgerOk(p.deliveries, p.ownerReviews)
    ensures SlotFor(p).Reuse? <==> exists i :: 0 <= i < |p.deliveries| && IsOffered(p, i)
    ensures SlotFor(p).Reuse? ==> p.deliveries[SlotFor(p).index].current
  {
    hide FinalCheckpoint, Lineage.EvidenceSetOf, VersionsIncrease, ReviewsAreFinal, PackageValid;
    var existing := FindReusable(p.deliveries, Lineage.DeliveryKeyOf(p));
    assert forall d :: Reusable(d, Lineage.DeliveryKeyOf(p)) <==> IsOfThisEvidence(p, d);
    if existing.Some? {
      assert p.deliveries[existing.value] in p.deliveries && ReadyIsSound(p.deliveries[existing.value]);
      if p.deliveries[existing.value].status == Ready {
        PackagesHaveManifests(p.deliveries[existing.value]);
        assert IsOffered(p, existing.value);
      }
    }
  }

  lemma {:induction false} PackagesHaveManifests(d: Records.Delivery)
    requires ReadyIsSound(d) && d.status == Ready
    ensures HasManifest(d)
  {
  }

  lemma {:induction false} PublishedGivesWay(ds: seq<Records.Delivery>, i: nat, package: Package, j: nat)
    requires i < |ds| && j < |ds|
    ensures j != i && (ds[j].status == Ready ==> ds[j].current) ==> GivesWay(ds[j], Published(ds, i, package)[j])
    ensures j == i ==> Published(ds, i, package)[i] == ds[i].(status := Ready, current := true, package := Some(package))
  {
  }

  lemma {:induction false} PublishingPublishes(p: Project, package: Package)
    requires LedgerOk(p.deliveries, p.ownerReviews) && SlotFor(p).Publish? && PackageValid(package)
    ensures Publishes(p, Published(SlotFor(p).deliveries, SlotFor(p).index, package), SlotFor(p).index, package)
  {
    hide FinalCheckpoint, Lineage.EvidenceSetOf, ReviewsAreFinal, PackageValid, VersionsIncrease;
    SlotIsSound(p);
    var slot := SlotFor(p);
    var staged, i := slot.deliveries, slot.index;
    assert ReadyIsSound(staged[i]) by { assert staged[i] in staged; }
    forall j | 0 <= j < |p.deliveries| && j != i ensures GivesWay(p.deliveries[j], Published(staged, i, package)[j]) {
      assert staged[j] == p.deliveries[j] && p.deliveries[j] in p.deliveries && ReadyIsSound(p.deliveries[j]);
      PublishedGivesWay(staged, i, package, j);
    }
    PublishedGivesWay(staged, i, package, i);
    hide Published, GivesWay;
    if i == |p.deliveries| { AppendedIsNewest(p, staged, Published(staged, i, package)); }
  }

  lemma {:induction false} AppendedIsNewest(p: Project, staged: seq<Records.Delivery>, after: seq<Records.Delivery>)
    requires staged == p.deliveries + [NewDelivery(p)] && |after| == |staged|
    requires after[|p.deliveries|].version == staged[|p.deliveries|].version
    requires forall j :: 0 <= j < |p.deliveries| ==> GivesWay(p.deliveries[j], after[j])
    ensures forall j :: 0 <= j < |p.deliveries| ==> after[j].version < after[|p.deliveries|].version
  {
    hide FinalCheckpoint, Lineage.EvidenceSetOf;
    forall j | 0 <= j < |p.deliveries| ensures after[j].version < after[|p.deliveries|].version {
      assert p.deliveries[j] in p.deliveries && GivesWay(p.deliveries[j], after[j]);
    }
  }

  // Preparing a delivery succeeds exactly when the lineage is sound and one of this evidence is offered already, or the
  // package is complete. In the first case nothing changes; in the second the entry is published. A failure at most
  // leaves an entry that is being prepared.
  lemma {:induction false} PreparesIff(p: Project, packaged: Option<Package>)
    requires LedgerOk(p.deliveries, p.ownerReviews)
    ensures var r := Prepare(p, packaged);
            var offered := exists i :: 0 <= i < |p.deliveries| && IsOffered(p, i);
            && (r.ok <==> Lineage.LineageOk(p) && (offered || (packaged.Some? && IsComplete(packaged.value))))
            && (r.ok && offered ==> r.deliveries == p.deliveries)
            && (r.ok && !offered ==> exists i :: 0 <= i < |r.deliveries| && Publishes(p, r.deliveries, i, packaged.value))
            && (!r.ok ==> OnlyStarts(p, r.deliveries))
  {
    OfferedIsReused(p);
    var slot := SlotFor(p);
    hide Lineage.LineageOk, IsOffered, Publishes, LedgerOk;
    if slot.Reuse? {
      assert p.deliveries[slot.index].(current := true) == p.deliveries[slot.index];
      assert p.deliveries[slot.index := p.deliveries[slot.index]] == p.deliveries;
    } else {
      StagedOnlyStarts(p);
      if packaged.Some? && PackageValid(packaged.value) {
        PublishingPublishes(p, packaged.value);
        assert slot.index < |Published(slot.deliveries, slot.index, packaged.value)|;
      }
    }
  }

  lemma {:induction false} StagedOnlyStarts(p: Project)
    requires SlotFor(p).Publish?
    ensures OnlyStarts(p, SlotFor(p).deliveries)
  {
  }

  // ---- Deciding ----

  // The delivery no longer is what it was prepared from.
  predicate IsOutdated(p: Project, d: Records.Delivery) {
    d.status != Ready || d.checkpointSha != FinalCheckpoint(p) || d.evidenceSet != Lineage.EvidenceSetOf(p)
  }

  predicate IsDecided(p: Project, d: Records.Delivery) {
    exists r :: r in p.ownerReviews && r.deliveryVersion == d.version
  }

  // Every refusal, for the delivery that stands, and what it leaves in memory; the caller stores none of it.
  lemma {:induction false} RefusedIff(p: Project, decision: OwnerDecision, feedback: string)
    ensures var r := Decide(p, decision, feedback);
            && (r.error == Some(NoDelivery) <==> p.deliveries == [])
            && forall i :: 0 <= i < |p.deliveries| && StandsAt(p.deliveries, i) ==>
                 var d := p.deliveries[i];
                 && (r.error == Some(StaleDelivery) <==> IsOutdated(p, d))
                 && (r.error == Some(DecisionConflict) <==> !IsOutdated(p, d) && IsDecided(p, d))
                 && (r.error == Some(InvalidFeedback) <==>
                       !IsOutdated(p, d) && !IsDecided(p, d) && decision == OwnerRequestsChanges && Blank(feedback))
                 && (r.error.Some? ==>
                       r.ownerReviews == p.ownerReviews && |r.deliveries| == |p.deliveries|
                       && (r.error != Some(StaleDelivery) || d.status == Approved ==> r.deliveries == p.deliveries)
                       && forall j :: 0 <= j < |p.deliveries| && j != i ==> r.deliveries[j] == p.deliveries[j])
  {
    hide FinalCheckpoint, Lineage.EvidenceSetOf, Trim;
    CurrentStands(p.deliveries);
    TrimIsEmptyIffBlank(feedback);
    forall i | 0 <= i < |p.deliveries| && p.deliveries[i].status == Approved
      ensures p.deliveries[i := p.deliveries[i].(status := Approved)] == p.deliveries
    {
    }
  }

  // The decision takes effect on the one delivery that was current: an approval leaves it APPROVED and current, a
  // request for changes leaves it SUPERSEDED and none current. One review is added, of that delivery and of that
  // decision; nothing else of the delivery and no other entry changes.
  predicate TakesEffect(p: Project, decision: OwnerDecision, i: nat, after: seq<Records.Delivery>,
                        reviews: seq<OwnerReview>)
    requires i < |p.deliveries|
  {
    && p.deliveries[i].current && !IsOutdated(p, p.deliveries[i]) && !IsDecided(p, p.deliveries[i])
    && |after| == |p.deliveries|
    && (forall j :: 0 <= j < |after| && j != i ==> after[j] == p.deliveries[j] && !after[j].current)
    && after[i] == p.deliveries[i].(status := after[i].status, current := after[i].current)
    && (decision == OwnerApproves ==> after[i].status == Approved && after[i].current)
    && (decision == OwnerRequestsChanges ==> after[i].status == Superseded && !after[i].current)
    && reviews == p.ownerReviews + [OwnerReview(p.deliveries[i].version, decision)]
  }

  lemma {:induction false} DecisionTakesEffect(p: Project, decision: OwnerDecision, feedback: string)
    requires LedgerOk(p.deliveries, p.ownerReviews) && Decide(p, decision, feedback).error.None?
    ensures var r := Decide(p, decision, feedback);
            exists i :: 0 <= i < |p.deliveries| && TakesEffect(p, decision, i, r.deliveries, r.ownerReviews)
  {
    hide FinalCheckpoint, Lineage.EvidenceSetOf, Trim, PackageValid, VersionsIncrease, ReviewsAreFinal;
    var i := Lineage.CurrentIndex(p.deliveries).value;
    assert p.deliveries[i] in p.deliveries && ReadyIsSound(p.deliveries[i]);
    var r := Decide(p, decision, feedback);
    assert TakesEffect(p, decision, i, r.deliveries, r.ownerReviews);
  }

  // ---- The owner's decision on a stored project ----

  // A READY project can always be approved, and changes can be requested with any feedback that is not blank.
  lemma {:induction false} ReadyCanBeDecided(cfg: Config, p: Project, decision: OwnerDecision, feedback: string)
    requires WorkflowProofs.Inv(cfg, p) && p.state == ReadyForOwnerReview
    ensures Decide(p, decision, feedback).error.None? <==> decision == OwnerApproves || !Blank(feedback)
  {
    hide WorkflowProofs.Flow, Gate.GateOk, Lineage.LineageOk, FinalCheckpoint, Lineage.EvidenceSetOf, Trim, Blank;
    var q := p.(error := false);
    WorkflowSafety.CurrentMeansDelivered(q, Gate.Settings(cfg.maxIterations, true));
    WorkflowSafety.EvidenceSetIgnoresError(p);
    CurrentStands(p.deliveries);
    RefusedIff(p, decision, feedback);
    var i := Lineage.CurrentIndex(p.deliveries).value;
    assert StandsAt(p.deliveries, i) && p.deliveries[i] in p.deliveries;
    hide Decide, Lineage.CurrentIndex;
  }

  // The record after a decision, in the given state.
  predicate IsStored(p: Project, decision: OwnerDecision, feedback: string, q: Project, state: State, edges: seq<Edge>) {
    && (exists i :: 0 <= i < |p.deliveries| && TakesEffect(p, decision, i, q.deliveries, q.ownerReviews))
    && q.pendingFeedback == (if decision == OwnerApproves then p.pendingFeedback else Some(Trim(feedback)))
    && q == p.(state := state, history := p.history + edges, deliveries := q.deliveries,
               ownerReviews := q.ownerReviews, pendingFeedback := q.pendingFeedback)
  }

  function FirstState(decision: OwnerDecision): State {
    if decision == OwnerApproves then OwnerApproved else OwnerChangesRequested
  }

  function SecondState(decision: OwnerDecision): State {
    if decision == OwnerApproves then Done else CouncilDiscovery
  }

  // The ledger and the feedback after an accepted decision.
  function WithDecision(p: Project, decision: OwnerDecision, feedback: string): Project {
    var d := Decide(p, decision, feedback);
    p.(deliveries := d.deliveries, ownerReviews := d.ownerReviews,
       pendingFeedback := if decision == OwnerApproves then p.pendingFeedback else Some(Trim(feedback)))
  }

  lemma {:induction false} AcceptedTwice(p: Project, decision: OwnerDecision, feedback: string)
    requires p.state == ReadyForOwnerReview && Decide(p, decision, feedback).error.None?
    ensures var q := WithDecision(p, decision, feedback);
            var r := WorkflowProofs.Moved(q, FirstState(decision));
            OwnerDecides(p, decision, feedback)
            == Exec([r, WorkflowProofs.Moved(r, SecondState(decision))], WorkflowProofs.Moved(r, SecondState(decision)), Ok)
  {
    hide Decide, Trim, TransitionTwice;
    WorkflowSafety.TwoTransitions(WithDecision(p, decision, feedback), FirstState(decision), SecondState(decision));
  }

  lemma {:induction false} DecidedIsStored(p: Project, decision: OwnerDecision, feedback: string, to: State, edges: seq<Edge>)
    requires LedgerOk(p.deliveries, p.ownerReviews) && Decide(p, decision, feedback).error.None?
    ensures IsStored(p, decision, feedback,
                     WithDecision(p, decision, feedback).(state := to, history := p.history + edges), to, edges)
  {
    DecisionTakesEffect(p, decision, feedback);
    hide Decide, Trim, TakesEffect, LedgerOk;
  }

  // The owner decides only on a READY project. An approval is stored as OWNER_APPROVED and then as DONE; a request for
  // changes is stored as OWNER_CHANGES_REQUESTED and then opens a new discovery, with the trimmed feedback pending; both
  // records carry the decided ledger. A refusal stores nothing.
  lemma {:induction false} OwnerDecisionIsStored(cfg: Config, p: Project, decision: OwnerDecision, feedback: string)
    requires WorkflowProofs.Inv(cfg, p)
    ensures var e := OwnerDecides(p, decision, feedback);
            var (first, second) := if decision == OwnerApproves then (OwnerApproved, Done)
                                   else (OwnerChangesRequested, CouncilDiscovery);
            if p.state == ReadyForOwnerReview && (decision == OwnerApproves || !Blank(feedback)) then
              && e.outcome.Ok? && |e.saves| == 2 && e.last == e.saves[1]
              && IsStored(p, decision, feedback, e.saves[0], first, [Edge(ReadyForOwnerReview, first)])
              && IsStored(p, decision, feedback, e.saves[1], second, [Edge(ReadyForOwnerReview, first), Edge(first, second)])
            else e.outcome.Threw? && e.saves == []
  {
    hide WorkflowProofs.Flow, WorkflowProofs.Cert, LedgerOk, Decide, Blank, Trim, IsStored, TransitionTwice;
    if p.state == ReadyForOwnerReview {
      ReadyCanBeDecided(cfg, p, decision, feedback);
      if decision == OwnerApproves || !Blank(feedback) {
        var first, second := FirstState(decision), SecondState(decision);
        AcceptedTwice(p, decision, feedback);
        var edges := [Edge(ReadyForOwnerReview, first), Edge(first, second)];
        DecidedIsStored(p, decision, feedback, first, [Edge(ReadyForOwnerReview, first)]);
        DecidedIsStored(p, decision, feedback, second, edges);
        assert p.history + [Edge(ReadyForOwnerReview, first)] + [Edge(first, second)] == p.history + edges;
      }
    }
  }

  // ---- Whole runs ----

  predicate IsClosed(s: State) {
    s == OwnerApproved || s == Done
  }

  // What was decided on a delivery shows in its status.
  predicate Shows(ds: seq<Records.Delivery>, r: OwnerReview) {
    exists d :: d in ds && d.version == r.deliveryVersion
                && (r.decision == OwnerApproves ==> d.status == Approved)
                && (r.decision == OwnerRequestsChanges ==> d.status in {Superseded, Stale})
  }

  // A delivery that is current, and still of the final checkpoint and the evidence there is, is APPROVED, and the last
  // review of the owner approves it.
  predicate ApprovesCurrent(p: Project) {
    exists d :: d in p.deliveries && d.status == Approved && d.current
                && d.checkpointSha == FinalCheckpoint(p) && d.evidenceSet == Lineage.EvidenceSetOf(p)
                && p.ownerReviews != [] && p.ownerReviews[|p.ownerReviews| - 1] == OwnerReview(d.version, OwnerApproves)
  }

  // Every review shows; an approved project shows what was approved, and no other project has an approving review.
  predicate OwnerOk(p: Project) {
    && (forall r :: r in p.ownerReviews ==> Shows(p.deliveries, r))
    && (if IsClosed(p.state) then ApprovesCurrent(p)
        else forall r :: r in p.ownerReviews ==> r.decision == OwnerRequestsChanges)
  }

  lemma {:induction false} ShowsStill(before: seq<Records.Delivery>, after: seq<Records.Delivery>, r: OwnerReview)
    requires Shows(before, r) && Evolves(before, after)
    ensures Shows(after, r)
  {
    var d :| d in before && d.version == r.deliveryVersion
             && (r.decision == OwnerApproves ==> d.status == Approved)
             && (r.decision == OwnerRequestsChanges ==> d.status in {Superseded, Stale});
    var i :| 0 <= i < |before| && before[i] == d;
    assert Ages(before[i], after[i]) && after[i] in after;
  }

  // The engine's own work neither reviews nor closes a project.
  lemma {:induction false} WorkKeepsOwner(cfg: Config, world: World, p: Project, q: Project)
    requires OwnerOk(p) && !IsClosed(p.state) && q.ownerReviews == p.ownerReviews && Evolves(p.deliveries, q.deliveries)
    requires !IsClosed(q.state)
    ensures OwnerOk(q)
  {
    hide Evolves, Shows;
    forall r | r in q.ownerReviews ensures Shows(q.deliveries, r) { ShowsStill(p.deliveries, q.deliveries, r); }
  }

  lemma {:induction false} ErrorKeepsOwner(p: Project, q: Project)
    requires OwnerOk(p) && q == p.(error := true)
    ensures OwnerOk(q)
  {
    WorkflowSafety.EvidenceSetIgnoresError(p);
    WorkflowSafety.EvidenceSetIgnoresError(q);
    assert p.(error := false) == q.(error := false);
    hide Shows, FinalCheckpoint, Lineage.EvidenceSetOf;
  }

  lemma {:induction false} EvidenceSetIgnoresOwner(p: Project, q: Project)
    requires q == p.(state := q.state, history := q.history, deliveries := q.deliveries,
                     ownerReviews := q.ownerReviews, pendingFeedback := q.pendingFeedback)
    ensures Lineage.EvidenceSetOf(q) == Lineage.EvidenceSetOf(p) && FinalCheckpoint(q) == FinalCheckpoint(p)
  {
  }

  lemma {:induction false} EffectShows(p: Project, decision: OwnerDecision, i: nat, after: seq<Records.Delivery>,
                                       reviews: seq<OwnerReview>)
    requires i < |p.deliveries| && TakesEffect(p, decision, i, after, reviews)
    requires forall r :: r in p.ownerReviews ==> Shows(p.deliveries, r)
    ensures forall r :: r in reviews ==> Shows(after, r)
  {
    hide FinalCheckpoint, Lineage.EvidenceSetOf;
    assert after[i] in after;
    forall r | r in p.ownerReviews ensures Shows(after, r) {
      var d :| d in p.deliveries && d.version == r.deliveryVersion
               && (r.decision == OwnerApproves ==> d.status == Approved)
               && (r.decision == OwnerRequestsChanges ==> d.status in {Superseded, Stale});
      var j :| 0 <= j < |p.deliveries| && p.deliveries[j] == d;
      assert j != i && after[j] == d && after[j] in after;
    }
  }

  lemma {:induction false} DecisionKeepsOwner(cfg: Config, p: Project, decision: OwnerDecision, feedback: string, q: Project)
    requires WorkflowProofs.Inv(cfg, p) && OwnerOk(p) && q in OwnerDecides(p, decision, feedback).saves
    ensures OwnerOk(q)
  {
    hide WorkflowProofs.Inv, OwnerDecides, Shows, TakesEffect, FinalCheckpoint, Lineage.EvidenceSetOf;
    OwnerDecisionIsStored(cfg, p, decision, feedback);
    var e := OwnerDecides(p, decision, feedback);
    assert e.saves != [] ==> q == e.saves[0] || q == e.saves[1];
    var first, second := FirstState(decision), SecondState(decision);
    if q == e.saves[0] {
      StoredIsOk(p, decision, feedback, q, first, [Edge(ReadyForOwnerReview, first)]);
    } else {
      StoredIsOk(p, decision, feedback, q, second, [Edge(ReadyForOwnerReview, first), Edge(first, second)]);
    }
  }

  lemma {:induction false} StoredIsOk(p: Project, decision: OwnerDecision, feedback: string, q: Project, to: State,
                                      edges: seq<Edge>)
    requires OwnerOk(p) && p.state == ReadyForOwnerReview && IsStored(p, decision, feedback, q, to, edges)
    requires to == FirstState(decision) || to == SecondState(decision)
    ensures OwnerOk(q)
  {
    EvidenceSetIgnoresOwner(p, q);
    var i :| 0 <= i < |p.deliveries| && TakesEffect(p, decision, i, q.deliveries, q.ownerReviews);
    EffectShows(p, decision, i, q.deliveries, q.ownerReviews);
    hide Shows, FinalCheckpoint, Lineage.EvidenceSetOf, IsDecided, Trim;
    if decision == OwnerApproves {
      assert q.deliveries[i] in q.deliveries;
    }
  }

  // Nothing that the engine does moves a closed project: a failure may be recorded on it, and that is all.
  lemma {:induction false} ClosedStays(cfg: Config, world: World, p: Project, a: Action, q: Project)
    requires IsClosed(p.state) && q in Run(cfg, world, p, a).saves
    ensures q == p.(error := true)
  {
    hide LoopPass, FinishDelivery, Delivery.Decide;
    if a.JobAction? && cfg.queue { ClosedJobsAreSilent(cfg, world, p, a.job); hide Job; }
  }

  lemma {:induction false} ClosedJobsAreSilent(cfg: Config, world: World, p: Project, job: JobType)
    requires IsClosed(p.state)
    ensures Job(cfg, world, p, job).saves == []
  {
    hide FinishOrReplayCursor, FinishPlatform, FinishRuntime, FinishVisual, FinishReview, FinishFinal, FinishDelivery;
    hide FinishProvisioning, EnsureDiscovery, RequestCursorRun;
  }

  lemma {:induction false} WorkOpens(cfg: Config, world: World, p: Project, a: Action, q: Project)
    requires WorkflowProofs.Inv(cfg, p) && ProvisionsOrThrows(world) && !IsClosed(p.state)
    requires !a.DecideAction? && q in Run(cfg, world, p, a).saves
    ensures q.ownerReviews == p.ownerReviews && !IsClosed(q.state)
  {
    hide WorkflowProofs.Flow, WorkflowProofs.Cert, LedgerOk, Evolves, LoopPass, Job, FinishDelivery, ResumeTarget;
    hide WorkflowProofs.Remaining, WorkflowProofs.EnteredThroughGate, WorkflowProofs.RunsOk;
    match a {
      case PassAction => WorkflowProofs.LoopPassProgress(cfg, world, p);
      case JobAction(job) => JobSafety.EveryJobIsSound(cfg, world, p, job);
      case FailAction =>
      case RetryAction => WorkflowSafety.ResumeTargetFits(cfg, p);
      case BootAction => WorkflowProofs.FinishDeliveryProgress(cfg, world, p);
    }
  }

  lemma {:induction false} ActionKeepsOwner(cfg: Config, world: World, p: Project, a: Action, q: Project)
    requires WorkflowProofs.Inv(cfg, p) && OwnerOk(p) && ProvisionsOrThrows(world) && q in Run(cfg, world, p, a).saves
    ensures OwnerOk(q)
  {
    hide WorkflowProofs.Inv, OwnerOk, Evolves;
    if IsClosed(p.state) {
      ClosedStays(cfg, world, p, a, q);
      ErrorKeepsOwner(p, q);
    } else if a.DecideAction? {
      hide OwnerDecides;
      DecisionKeepsOwner(cfg, p, a.decision, a.feedback, q);
    } else {
      hide Run;
      WorkOpens(cfg, world, p, a, q);
      WorkflowSafety.ActionIsSound(cfg, world, p, a);
      WorkKeepsOwner(cfg, world, p, q);
    }
  }

  lemma {:induction false} StepKeepsOwner(cfg: Config, p: Project, q: Project)
    requires WorkflowProofs.Inv(cfg, p) && OwnerOk(p) && DurableStep(cfg, p, q)
    ensures OwnerOk(q)
  {
    hide Run, WorkflowProofs.Inv, OwnerOk;
    var world: World, a: Action :| ProvisionsOrThrows(world) && q in Run(cfg, world, p, a).saves;
    ActionKeepsOwner(cfg, world, p, a, q);
  }

  lemma {:induction false} InitialIsOwned(id: string, demo: bool, existing: bool, baseline: string)
    ensures OwnerOk(Initial(id, demo, existing, baseline))
  {
  }

  // In every run: each owner review shows in the status of its delivery; an approved project, and a DONE one above all,
  // has a current APPROVED delivery of its final checkpoint and evidence with the approving review; and no project that
  // is not approved has an approving review.
  lemma {:induction false} DecisionsShowInEveryRun(cfg: Config, t: seq<Project>, i: nat)
    requires WorkflowSafety.Trace(cfg, t) && i < |t|
    ensures OwnerOk(t[i])
  {
    hide DurableStep, OwnerOk;
    if i == 0 {
      InitialIsOwned(t[0].id, t[0].demo, t[0].existingRepository, t[0].repositoryBaseline);
    } else {
      DecisionsShowInEveryRun(cfg, t, i - 1);
      WorkflowSafety.TraceIsSound(cfg, t, i - 1);
      StepKeepsOwner(cfg, t[i - 1], t[i]);
    }
  }

  // An approval that is interrupted between its two transitions is never finished: from OWNER_APPROVED no action
  // whatever moves the project, to DONE or anywhere else.
  lemma {:induction false} InterruptedApprovalStays(cfg: Config, t: seq<Project>, i: nat, k: nat)
    requires WorkflowSafety.Trace(cfg, t) && i <= k < |t| && IsClosed(t[i].state)
    ensures t[k] == t[i] || t[k] == t[i].(error := true)
    decreases k
  {
    hide Run;
    if i < k {
      InterruptedApprovalStays(cfg, t, i, k - 1);
      assert DurableStep(cfg, t[k - 1], t[k]);
      var world: World, a: Action :| ProvisionsOrThrows(world) && t[k] in Run(cfg, world, t[k - 1], a).saves;
      ClosedStays(cfg, world, t[k - 1], a, t[k]);
    }
  }

  // And it can happen: the record that is stored between them is a moment of some run whenever READY is.
  lemma {:induction false} ApprovalCanBeInterrupted(cfg: Config, t: seq<Project>)
    requires WorkflowSafety.Trace(cfg, t) && t[|t| - 1].state == ReadyForOwnerReview
    ensures exists q :: WorkflowSafety.Trace(cfg, t + [q]) && q.state == OwnerApproved
  {
    hide DurableStep, WorkflowProofs.Inv;
    var p := t[|t| - 1];
    WorkflowSafety.TraceIsSound(cfg, t, |t| - 1);
    ApprovalIsAStep(cfg, p);
    var q :| DurableStep(cfg, p, q) && q.state == OwnerApproved;
    var longer := t + [q];
    forall a, b | 0 <= a < b < |longer| && b == a + 1 ensures DurableStep(cfg, longer[a], longer[b]) {
      if b < |t| { assert longer[a] == t[a] && longer[b] == t[b]; }
    }
    assert WorkflowSafety.Trace(cfg, longer);
  }

  lemma {:induction false} ApprovalIsAStep(cfg: Config, p: Project)
    requires WorkflowProofs.Inv(cfg, p) && p.state == ReadyForOwnerReview
    ensures exists q :: DurableStep(cfg, p, q) && q.state == OwnerApproved
  {
    hide WorkflowProofs.Inv, OwnerDecides, IsStored;
    OwnerDecisionIsStored(cfg, p, OwnerApproves, "");
    var e := OwnerDecides(p, OwnerApproves, "");
    var world: World := (x: Project) => Answers(DiscoveryFails, "", None, false, None, CursorThrows, None,
                                               Aspect(NotRun, CursorReported), None, None, None, None, None, false);
    StoredState(p, OwnerApproves, "", e.saves[0], OwnerApproved, [Edge(ReadyForOwnerReview, OwnerApproved)]);
    assert e.saves[0] in Run(cfg, world, p, DecideAction(OwnerApproves, "")).saves && ProvisionsOrThrows(world);
    assert DurableStep(cfg, p, e.saves[0]);
  }

  lemma {:induction false} StoredState(p: Project, decision: OwnerDecision, feedback: string, q: Project, to: State,
                                       edges: seq<Edge>)
    requires IsStored(p, decision, feedback, q, to, edges)
    ensures q.state == to
  {
  }
}
