// The main results about the workflow: safety over whole runs with crashes, failures, retries and owner
// decisions at any point, and termination of autonomous work.
module WorkflowSafety {
  import opened Text
  import opened States
  import opened Records
  import opened Workflow
  import opened WorkflowProofs
  import opened JobSafety
  import Lineage
  import Gate
  import Delivery

  // ---- Actions that are not autonomous work ----

  lemma {:induction false} ErrorKeepsInvariant(cfg: Config, p: Project)
    requires Inv(cfg, p)
    ensures Inv(cfg, p.(error := true))
  {
    assert p.(error := true).(error := false) == p.(error := false);
  }

  lemma {:induction false} FailureKeepsInvariant(cfg: Config, p: Project)
    requires Inv(cfg, p)
    ensures forall q :: q in RecordFailure(p).saves ==> Inv(cfg, q) && Delivery.Evolves(p.deliveries, q.deliveries)
    ensures RecordFailure(p).outcome.Ok?
  {
    ErrorKeepsInvariant(cfg, p);
    EvolvesIsReflexive(p.deliveries);
    if IsActive(p.state) { WalkExtends(p.history, p.state, Failed); }
  }

  // A completed run, in the sense of resumeTargetAfterFailure, is exactly one that has a result.
  lemma {:induction false} CompletedIffFinished(cfg: Config, p: Project)
    requires RunsOk(p.cursorRuns, p.iteration)
    ensures CompletedRun(p).Some? <==> Finished(p.cursorRuns)
  {
  }

  // Resuming after a failure always follows a legal edge, and to a state whose handler can start there.
  lemma {:induction false} ResumeTargetFits(cfg: Config, p: Project)
    requires Inv(cfg, p) && p.state == Failed
    ensures var to := ResumeTarget(p);
            && Legal(Failed, to) && IsActive(to) && RunsFit(p.cursorRuns, to)
            && (to != CouncilDiscovery ==> HasValidSpec(p))
            && (to == ProjectProvisioning ==> MustProvision(p))
            && (MustProvision(p) ==> to in {CouncilDiscovery, ProjectProvisioning})
  {
    CompletedIffFinished(cfg, p);
  }

  lemma {:induction false} RetryKeepsInvariant(cfg: Config, p: Project)
    requires Inv(cfg, p)
    ensures forall q :: q in Retry(p).saves ==> Inv(cfg, q) && Delivery.Evolves(p.deliveries, q.deliveries)
    ensures Retry(p).outcome != Threw(InvalidTransition)
  {
    hide ResumeTarget;
    if p.state == Failed {
      ResumeTargetFits(cfg, p);
      EvolvesIsReflexive(p.deliveries);
      ResumedKeepsInvariant(cfg, p, ResumeTarget(p));
    }
  }

  lemma {:induction false} ResumedKeepsInvariant(cfg: Config, p: Project, to: State)
    requires Inv(cfg, p) && p.state == Failed
    requires Legal(Failed, to) && IsActive(to) && RunsFit(p.cursorRuns, to)
    requires to != CouncilDiscovery ==> HasValidSpec(p)
    requires to == ProjectProvisioning ==> MustProvision(p)
    requires MustProvision(p) ==> to in {CouncilDiscovery, ProjectProvisioning}
    ensures Inv(cfg, Moved(p.(error := false), to))
  {
    hide Cert, Delivery.LedgerOk, Delivery.Evolves, EnteredThroughGate;
    WalkExtends(p.history, Failed, to);
  }

  // Leaving READY_FOR_OWNER_REVIEW by an owner decision.
  lemma {:induction false} DecidedKeepsInvariant(cfg: Config, p: Project, q: Project, to: State)
    requires Flow(cfg, p) && p.state in {ReadyForOwnerReview, OwnerApproved, OwnerChangesRequested}
    requires Legal(p.state, to) && Delivery.LedgerOk(q.deliveries, q.ownerReviews)
    requires q == p.(deliveries := q.deliveries, ownerReviews := q.ownerReviews, pendingFeedback := q.pendingFeedback)
    ensures Inv(cfg, Moved(q, to))
  {
    hide Cert, Delivery.LedgerOk, Delivery.Evolves, EnteredThroughGate;
    WalkExtends(p.history, p.state, to);
  }

  lemma {:induction false} TwoTransitions(p: Project, first: State, second: State)
    requires Legal(p.state, first) && Legal(first, second)
    ensures var r := Moved(p, first);
            TransitionTwice(p, first, second) == Exec([r, Moved(r, second)], Moved(r, second), Ok)
  {
  }

  lemma {:induction false} ClosingTransitions(cfg: Config, p: Project, q: Project, first: State, second: State)
    requires Flow(cfg, p) && p.state == ReadyForOwnerReview && Delivery.LedgerOk(q.deliveries, q.ownerReviews)
    requires q == p.(deliveries := q.deliveries, ownerReviews := q.ownerReviews, pendingFeedback := q.pendingFeedback)
    requires first in {OwnerApproved, OwnerChangesRequested} && Legal(first, second) && second != Failed
    ensures var e := TransitionTwice(q, first, second);
            && (forall r :: r in e.saves ==> Inv(cfg, r) && r.deliveries == q.deliveries)
            && e.outcome.Ok?
  {
    hide Delivery.LedgerOk, RunsOk, Walk, Cert, TransitionTwice;
    DecidedKeepsInvariant(cfg, p, q, first);
    var r := Moved(q, first);
    DecidedKeepsInvariant(cfg, r, r, second);
    TwoTransitions(q, first, second);
  }

  lemma {:induction false} ConcludeKeepsInvariant(cfg: Config, p: Project, d: Delivery.Decided,
                                                  decision: OwnerDecision, feedback: string)
    requires Flow(cfg, p) && p.state == ReadyForOwnerReview
    requires Delivery.LedgerOk(d.deliveries, d.ownerReviews)
    ensures var e := Conclude(p, d, decision, feedback);
            && (forall q :: q in e.saves ==> Inv(cfg, q) && q.deliveries == d.deliveries)
            && e.outcome != Threw(InvalidTransition)
  {
    hide Walk, Cert, Delivery.LedgerOk, Delivery.Evolves, EnteredThroughGate, Remaining, RunsOk;
    hide TransitionTwice;
    if d.error.None? {
      var q := p.(deliveries := d.deliveries, ownerReviews := d.ownerReviews);
      if decision == OwnerApproves {
        ClosingTransitions(cfg, p, q, OwnerApproved, Done);
      } else {
        ClosingTransitions(cfg, p, q.(pendingFeedback := Some(Trim(feedback))), OwnerChangesRequested, CouncilDiscovery);
      }
    }
  }

  lemma {:induction false} DecisionKeepsInvariant(cfg: Config, p: Project, decision: OwnerDecision, feedback: string)
    requires Inv(cfg, p)
    ensures var e := OwnerDecides(p, decision, feedback);
            && (forall q :: q in e.saves ==> Inv(cfg, q) && Delivery.Evolves(p.deliveries, q.deliveries))
            && e.outcome != Threw(InvalidTransition)
  {
    hide Conclude;
    Delivery.DecideKeepsLedger(p, decision, feedback);
    if p.state == ReadyForOwnerReview {
      ConcludeKeepsInvariant(cfg, p, Delivery.Decide(p, decision, feedback), decision, feedback);
    }
  }

  lemma {:induction false} BootKeepsInvariant(cfg: Config, world: World, p: Project)
    requires Inv(cfg, p)
    ensures var e := BootDelivery(cfg, world, p);
            && (forall q :: q in e.saves ==> Inv(cfg, q) && Delivery.Evolves(p.deliveries, q.deliveries))
            && e.outcome.Ok?
  {
    hide Walk, Cert, Delivery.LedgerOk, Delivery.Evolves, EnteredThroughGate, Remaining, RunsOk;
    hide FinishDelivery;
    if p.state == DeliveryPreparation {
      FinishDeliveryProgress(cfg, world, p);
      ErrorKeepsInvariant(cfg, FinishDelivery(cfg, world, p).last);
    }
  }

  // ---- Every action keeps the invariant ----

  lemma {:induction false} ActionIsSound(cfg: Config, world: World, p: Project, a: Action)
    requires Inv(cfg, p) && ProvisionsOrThrows(world)
    ensures var e := Run(cfg, world, p, a);
            forall q :: q in e.saves ==> Inv(cfg, q) && Delivery.Evolves(p.deliveries, q.deliveries)
  {
    hide BootDelivery, Job, LoopPass, OwnerDecides, RecordFailure, Retry;
    match a {
      case PassAction => if IsActive(p.state) && !cfg.queue { LoopPassProgress(cfg, world, p); }
      case JobAction(job) => if cfg.queue { EveryJobIsSound(cfg, world, p, job); }
      case FailAction => FailureKeepsInvariant(cfg, p);
      case RetryAction => RetryKeepsInvariant(cfg, p);
      case BootAction => BootKeepsInvariant(cfg, world, p);
      case DecideAction(decision, feedback) => DecisionKeepsInvariant(cfg, p, decision, feedback);
    }
  }

  // An illegal edge is requested exactly by a job that goes astray; passes, retries, owner decisions, failures and
  // the boot procedure never do.
  lemma {:induction false} ActionIsIllegalIffAstray(cfg: Config, world: World, p: Project, a: Action)
    requires Inv(cfg, p) && ProvisionsOrThrows(world)
    ensures Run(cfg, world, p, a).outcome == Threw(InvalidTransition)
            <==> cfg.queue && a.JobAction? && GoesAstray(cfg, world, p, a.job)
  {
    hide BootDelivery, Job, LoopPass, OwnerDecides, RecordFailure, Retry;
    match a {
      case PassAction => if IsActive(p.state) && !cfg.queue { LoopPassProgress(cfg, world, p); }
      case JobAction(job) => if cfg.queue { JobIsIllegalIffAstray(cfg, world, p, job); }
      case FailAction => FailureKeepsInvariant(cfg, p);
      case RetryAction => RetryKeepsInvariant(cfg, p);
      case BootAction => BootKeepsInvariant(cfg, world, p);
      case DecideAction(decision, feedback) => DecisionKeepsInvariant(cfg, p, decision, feedback);
    }
  }

  lemma {:induction false} InitialIsSound(cfg: Config, id: string, demo: bool, existing: bool, baseline: string)
    ensures Inv(cfg, Initial(id, demo, existing, baseline))
  {
  }

  // A run: the stored snapshots of one project, from its creation, through any sequence of durable steps.
  ghost predicate Trace(cfg: Config, t: seq<Project>) {
    && t != []
    && t[0] == Initial(t[0].id, t[0].demo, t[0].existingRepository, t[0].repositoryBaseline)
    && forall i, j :: 0 <= i < j < |t| && j == i + 1 ==> DurableStep(cfg, t[i], t[j])
  }

  lemma {:induction false} DurableStepIsSound(cfg: Config, p: Project, q: Project)
    requires Inv(cfg, p) && DurableStep(cfg, p, q)
    ensures Inv(cfg, q) && Delivery.Evolves(p.deliveries, q.deliveries)
  {
    hide Run;
    var world: World, a: Action :| ProvisionsOrThrows(world) && q in Run(cfg, world, p, a).saves;
    ActionIsSound(cfg, world, p, a);
  }

  lemma {:induction false} TraceIsSound(cfg: Config, t: seq<Project>, i: nat)
    requires Trace(cfg, t) && i < |t|
    ensures Inv(cfg, t[i])
  {
    if i == 0 {
      InitialIsSound(cfg, t[0].id, t[0].demo, t[0].existingRepository, t[0].repositoryBaseline);
    } else {
      TraceIsSound(cfg, t, i - 1);
      DurableStepIsSound(cfg, t[i - 1], t[i]);
    }
  }

  // ---- Safety of READY_FOR_OWNER_REVIEW ----

  predicate Confirms(recorded: string, checkpoint: string) {
    recorded == "" || recorded == checkpoint
  }

  predicate DeliversVerifiedCheckpoint(p: Project) {
    var checkpoint := FinalCheckpoint(p);
    var d := Lineage.CurrentDelivery(p);
    var v := LatestVerification(p, RunIteration(p));
    var r := LatestRuntime(p, RunIteration(p));
    var w := LatestVisual(p, RunIteration(p));
    && Lineage.IsGitObjectId(checkpoint) && !Lineage.IsSyntheticCheckpoint(checkpoint)
    && d.Some? && d.value.status == Ready && d.value.checkpointSha == checkpoint && Lineage.DeliveryIsCurrent(p, d.value)
    && v.Some? && (v.value.checkpointSha == "none" || Confirms(v.value.checkpointSha, checkpoint))
    && (r.Some? ==> Confirms(r.value.checkpointSha, checkpoint)
                    && forall s :: s in r.value.screenshots ==> Confirms(s.checkpointSha, checkpoint))
    && (w.Some? ==> Confirms(w.value.checkpointSha, checkpoint))
  }

  predicate CouncilAccepted(p: Project) {
    && p.cursorRuns != []
    && RunIteration(p) in p.reviews && p.reviews[RunIteration(p)] == Complete
    && p.final.Some? && p.final.value.decision == Complete
  }

  // What stays true while a real project waits for its owner. Whether the security gate is still clear is the
  // environment's to say, so that verdict is part of the entry only (EveryEntryIsCertified).
  ghost predicate OwnerReviewCertificate(cfg: Config, p: Project) {
    && Gate.GateOk(p.(error := false), Gate.Settings(cfg.maxIterations, true))
    && CouncilAccepted(p)
    && DeliversVerifiedCheckpoint(p)
  }

  lemma {:induction false} GateMeansAccepted(p: Project, settings: Gate.Settings)
    requires Gate.GateOk(p, settings)
    ensures CouncilAccepted(p) && !p.error && (!p.demo ==> p.verificationRuns != [])
  {
    assert !Gate.Rejects(p, settings, Gate.ReviewNotComplete);
    assert !Gate.Rejects(p, settings, Gate.FinalNotComplete);
    assert !Gate.Rejects(p, settings, Gate.UnresolvedError);
    assert !Gate.Rejects(p, settings, Gate.VerificationNotRun);
  }

  lemma {:induction false} CurrentMeansDelivered(p: Project, settings: Gate.Settings)
    requires Gate.ReadyOk(p, settings)
    ensures var d := Lineage.CurrentDelivery(p);
            d.Some? && d.value.status == Ready && Lineage.DeliveryIsCurrent(p, d.value)
  {
    assert !Gate.DeliveryRejects(p, Gate.MissingDeliverySnapshot);
    assert !Gate.DeliveryRejects(p, Gate.StaleDeliveryLineage);
  }

  lemma {:induction false} LineageMeansConfirmed(p: Project)
    requires Lineage.LineageOk(p) && !p.demo
    ensures var checkpoint := FinalCheckpoint(p);
            var v := LatestVerification(p, RunIteration(p));
            var r := LatestRuntime(p, RunIteration(p));
            var w := LatestVisual(p, RunIteration(p));
            && Lineage.IsGitObjectId(checkpoint) && !Lineage.IsSyntheticCheckpoint(checkpoint)
            && (v.Some? ==> v.value.checkpointSha == "none" || Confirms(v.value.checkpointSha, checkpoint))
            && (r.Some? ==> Confirms(r.value.checkpointSha, checkpoint)
                            && forall s :: s in r.value.screenshots ==> Confirms(s.checkpointSha, checkpoint))
            && (w.Some? ==> Confirms(w.value.checkpointSha, checkpoint))
  {
    var checkpoint := FinalCheckpoint(p);
    assert !Lineage.LineageRejects(p, checkpoint, Lineage.MockCheckpointUsed);
    assert !Lineage.LineageRejects(p, checkpoint, Lineage.MissingFinalCheckpoint);
    assert !Lineage.LineageRejects(p, checkpoint, Lineage.StalePlatformVerification);
    assert !Lineage.LineageRejects(p, checkpoint, Lineage.StaleRuntimeEvidence);
    assert !Lineage.LineageRejects(p, checkpoint, Lineage.StaleVisualEvidence);
    assert !Lineage.LineageRejects(p, checkpoint, Lineage.StaleScreenshotEvidence);
  }

  lemma {:induction false} CertMeans(cfg: Config, p: Project)
    requires Cert(cfg, p) && !p.demo
    ensures OwnerReviewCertificate(cfg, p)
  {
    var q := p.(error := false);
    var settings := Gate.Settings(cfg.maxIterations, true);
    GateMeansAccepted(q, settings);
    CurrentMeansDelivered(q, settings);
    LineageMeansConfirmed(q);
    assert DeliversVerifiedCheckpoint(q);
    ErrorIsNotEvidence(p);
  }

  lemma {:induction false} ErrorIsNotEvidence(p: Project)
    ensures DeliversVerifiedCheckpoint(p.(error := false)) == DeliversVerifiedCheckpoint(p)
    ensures CouncilAccepted(p.(error := false)) == CouncilAccepted(p)
  {
    var q := p.(error := false);
    LookupsIgnoreError(p);
    EvidenceSetIgnoresError(p);
    var d := Lineage.CurrentDelivery(p);
    assert d.Some? ==> Lineage.DeliveryIsCurrent(q, d.value) == Lineage.DeliveryIsCurrent(p, d.value);
  }

  lemma {:induction false} LookupsIgnoreError(p: Project)
    ensures var q := p.(error := false);
            && RunIteration(q) == RunIteration(p)
            && LatestVerification(q, RunIteration(p)) == LatestVerification(p, RunIteration(p))
            && LatestRuntime(q, RunIteration(p)) == LatestRuntime(p, RunIteration(p))
            && LatestVisual(q, RunIteration(p)) == LatestVisual(p, RunIteration(p))
            && Lineage.CurrentDelivery(q) == Lineage.CurrentDelivery(p)
  {
  }

  lemma {:induction false} EvidenceSetIgnoresError(p: Project)
    ensures var q := p.(error := false);
            Lineage.EvidenceSetOf(q) == Lineage.EvidenceSetOf(p) && FinalCheckpoint(q) == FinalCheckpoint(p)
  {
  }

  // In every run, whenever a real project is in READY_FOR_OWNER_REVIEW it is certified.
  lemma {:induction false} ReadyIsAlwaysCertified(cfg: Config, t: seq<Project>, i: nat)
    requires Trace(cfg, t) && i < |t| && t[i].state == ReadyForOwnerReview && !t[i].demo
    ensures OwnerReviewCertificate(cfg, t[i])
  {
    TraceIsSound(cfg, t, i);
    CertMeans(cfg, t[i]);
  }

  // A failing delivery stays in DELIVERY_PREPARATION, so the error that the boot procedure records on it does
  // not reach READY_FOR_OWNER_REVIEW.
  lemma {:induction false} BootEntersThroughGate(cfg: Config, world: World, p: Project, q: Project)
    requires Inv(cfg, p) && p.state == DeliveryPreparation && q in BootDelivery(cfg, world, p).saves
    requires q.state == ReadyForOwnerReview
    ensures EnteredThroughGate(cfg, world, p, q)
  {
    hide FinishDelivery;
    FinishDeliveryProgress(cfg, world, p);
    FailedDeliveryStays(cfg, world, p);
  }

  lemma {:induction false} FailedDeliveryStays(cfg: Config, world: World, p: Project)
    requires p.state == DeliveryPreparation
    ensures var e := FinishDelivery(cfg, world, p);
            e.outcome.Threw? ==> e.saves == [] && e.last.state == DeliveryPreparation
  {
    hide Delivery.Prepare, Gate.ReadyOk, SettingsFor, Lineage.MergedEvidence;
    assert Legal(DeliveryPreparation, ReadyForOwnerReview);
  }

  lemma {:induction false} OnlyThroughGate(cfg: Config, world: World, p: Project, a: Action, q: Project)
    requires Inv(cfg, p) && ProvisionsOrThrows(world) && q in Run(cfg, world, p, a).saves
    requires q.state == ReadyForOwnerReview && p.state != ReadyForOwnerReview
    ensures EnteredThroughGate(cfg, world, p, q)
  {
    hide Walk, Cert, Delivery.LedgerOk, Delivery.Evolves, EnteredThroughGate, Remaining, RunsOk;
    hide Job, LoopPass;
    match a {
      case PassAction => LoopPassProgress(cfg, world, p);
      case JobAction(job) => EveryJobIsSound(cfg, world, p, job);
      case BootAction => BootEntersThroughGate(cfg, world, p, q);
      case FailAction =>
      case RetryAction =>
      case DecideAction(decision, feedback) =>
    }
  }

  // Every entry of a real project into READY_FOR_OWNER_REVIEW was made by an action on which the whole gate was
  // open, the error check and the security verdict of that moment included, even when a retry skipped a stage.
  lemma {:induction false} EveryEntryIsCertified(cfg: Config, t: seq<Project>, i: nat)
    requires Trace(cfg, t) && i + 1 < |t| && !t[i + 1].demo
    requires t[i].state != ReadyForOwnerReview && t[i + 1].state == ReadyForOwnerReview
    ensures exists world: World, a: Action ::
              t[i + 1] in Run(cfg, world, t[i], a).saves && EnteredThroughGate(cfg, world, t[i], t[i + 1])
    ensures OwnerReviewCertificate(cfg, t[i + 1])
  {
    TraceIsSound(cfg, t, i);
    EntryIsThroughGate(cfg, t[i], t[i + 1]);
    ReadyIsAlwaysCertified(cfg, t, i + 1);
  }

  lemma {:induction false} EntryIsThroughGate(cfg: Config, p: Project, q: Project)
    requires Inv(cfg, p) && DurableStep(cfg, p, q)
    requires q.state == ReadyForOwnerReview && p.state != ReadyForOwnerReview
    ensures exists world: World, a: Action :: q in Run(cfg, world, p, a).saves && EnteredThroughGate(cfg, world, p, q)
  {
    var world: World, a: Action :| ProvisionsOrThrows(world) && q in Run(cfg, world, p, a).saves;
    OnlyThroughGate(cfg, world, p, a, q);
  }

  lemma {:induction false} OpenGateIsClear(q: Project, settings: Gate.Settings)
    requires Gate.ReadyOk(q, settings) && !q.demo
    ensures settings.securityClear
  {
    assert !Gate.Rejects(q, settings, Gate.SecurityRejected);
  }

  // For a real project the open gate includes a clear verdict of the world on security.
  lemma {:induction false} EntryNeedsSecurityClear(cfg: Config, world: World, p: Project, q: Project)
    requires EnteredThroughGate(cfg, world, p, q) && !q.demo
    ensures exists x: Project :: Prepared(world, p, x, q) && world(x).securityClear
  {
    hide Prepared, Gate.ReadyOk;
    var x: Project :| Prepared(world, p, x, q) && Gate.ReadyOk(q, SettingsFor(cfg, world, x));
    OpenGateIsClear(q, SettingsFor(cfg, world, x));
  }

  // orchestrator.fail may still be called on a project that is already READY: afterwards the gate would reject
  // it, but for the recorded error only.
  lemma {:induction false} FailureOnReadyBreaksOnlyTheErrorCheck(cfg: Config, p: Project, x: Gate.Reason)
    requires Inv(cfg, p) && p.state == ReadyForOwnerReview
    ensures var q := RecordFailure(p).last;
            var settings := Gate.Settings(cfg.maxIterations, true);
            q.state == ReadyForOwnerReview && (Gate.Rejects(q, settings, x) <==> x == Gate.UnresolvedError)
  {
    var q := RecordFailure(p).last;
    var settings := Gate.Settings(cfg.maxIterations, true);
    assert !Gate.Rejects(p.(error := false), settings, x);
    OnlyUnresolvedErrorReadsError(p, q, settings, x);
  }

  lemma {:induction false} OnlyUnresolvedErrorReadsError(p: Project, q: Project, settings: Gate.Settings, x: Gate.Reason)
    requires q == p.(error := true)
    ensures x != Gate.UnresolvedError ==> Gate.Rejects(q, settings, x) == Gate.Rejects(p.(error := false), settings, x)
  {
    hide Gate.RuntimeRejects, Gate.VisualRejects, Lineage.HasMockEvidence, Lineage.HasMockCheckpoint, LatestAt;
    RuntimeFrame(p.(error := false), q, x);
    VisualFrame(p.(error := false), q, x);
    MockPolicyIgnoresError(p.(error := false), q);
  }

  lemma {:induction false} MockPolicyIgnoresError(p: Project, q: Project)
    requires q == p.(error := q.error)
    ensures Lineage.HasMockEvidence(q) == Lineage.HasMockEvidence(p)
    ensures Lineage.HasMockCheckpoint(q) == Lineage.HasMockCheckpoint(p)
  {
  }

  // ---- The Cursor ledger and the iteration cap ----

  lemma {:induction false} CursorLedgerIsSound(cfg: Config, t: seq<Project>, i: nat)
    requires Trace(cfg, t) && i < |t|
    ensures var p := t[i];
            && p.iteration <= (if cfg.maxIterations > 1 then cfg.maxIterations else 1)
            && (forall a, b :: 0 <= a < b < |p.cursorRuns| ==> p.cursorRuns[a].iteration < p.cursorRuns[b].iteration)
            && (forall a :: 0 <= a < |p.cursorRuns| ==> 1 <= p.cursorRuns[a].iteration <= p.iteration)
            && (forall a :: 0 <= a < |p.cursorRuns| && !p.cursorRuns[a].hasResult ==> a == |p.cursorRuns| - 1)
  {
    TraceIsSound(cfg, t, i);
  }

  // The recorded history is a walk along legal edges from IDEA_SUBMITTED to the current state.
  lemma {:induction false} HistoryIsALegalWalk(cfg: Config, t: seq<Project>, i: nat)
    requires Trace(cfg, t) && i < |t|
    ensures Walk(t[i].history, t[i].state)
  {
    TraceIsSound(cfg, t, i);
  }

  // ---- The delivery ledger over whole runs ----

  lemma {:induction false} StepAges(cfg: Config, t: seq<Project>, j: nat)
    requires Trace(cfg, t) && 0 < j < |t|
    ensures Delivery.Evolves(t[j - 1].deliveries, t[j].deliveries)
  {
    TraceIsSound(cfg, t, j - 1);
    DurableStepIsSound(cfg, t[j - 1], t[j]);
  }

  lemma {:induction false} EvolvesAlong(t: seq<Project>, i: nat, j: nat)
    requires i <= j < |t|
    requires forall a, b :: 0 <= a < b < |t| && b == a + 1 ==> Delivery.Evolves(t[a].deliveries, t[b].deliveries)
    ensures Delivery.Evolves(t[i].deliveries, t[j].deliveries)
  {
    if i == j {
      EvolvesIsReflexive(t[i].deliveries);
    } else {
      EvolvesAlong(t, i, j - 1);
      Delivery.EvolvesTransitively(t[i].deliveries, t[j - 1].deliveries, t[j].deliveries);
    }
  }

  // At most one delivery is current, READY implies current, versions strictly increase, each delivery has at
  // most one owner review, and over time a delivery only ages.
  lemma {:induction false} DeliveriesOnlyAge(cfg: Config, t: seq<Project>, i: nat, j: nat)
    requires Trace(cfg, t) && i <= j < |t|
    ensures Delivery.LedgerOk(t[j].deliveries, t[j].ownerReviews)
    ensures Delivery.Evolves(t[i].deliveries, t[j].deliveries)
  {
    TraceIsSound(cfg, t, j);
    forall a, b | 0 <= a < b < |t| && b == a + 1 ensures Delivery.Evolves(t[a].deliveries, t[b].deliveries) {
      StepAges(cfg, t, b);
    }
    EvolvesAlong(t, i, j);
  }

  // ---- Autonomous work is bounded ----

  // Everything but a retry and an owner decision.
  ghost predicate AutonomousStep(cfg: Config, p: Project, q: Project) {
    exists world: World, a: Action ::
      ProvisionsOrThrows(world) && !a.RetryAction? && !a.DecideAction? && q in Run(cfg, world, p, a).saves
  }

  lemma {:induction false} FailureSpends(cfg: Config, p: Project, q: Project)
    requires Inv(cfg, p) && q in RecordFailure(p).saves
    ensures p.history <= q.history && q.iteration <= Cap(cfg)
    ensures |q.history| + Remaining(cfg, q) <= |p.history| + Remaining(cfg, p)
  {
    hide RunsOk, RunsFit, SpecFits, ProvisionsFirst, Walk, Cert, Delivery.LedgerOk;
  }

  lemma {:induction false} BootSpends(cfg: Config, world: World, p: Project, q: Project)
    requires Inv(cfg, p) && q in BootDelivery(cfg, world, p).saves
    ensures p.history <= q.history && q.iteration <= Cap(cfg)
    ensures |q.history| + Remaining(cfg, q) <= |p.history| + Remaining(cfg, p)
  {
    hide FinishDelivery;
    FinishDeliveryProgress(cfg, world, p);
  }

  lemma {:induction false} AutonomousActionSpends(cfg: Config, world: World, p: Project, a: Action, q: Project)
    requires Inv(cfg, p) && ProvisionsOrThrows(world)
    requires !a.RetryAction? && !a.DecideAction? && q in Run(cfg, world, p, a).saves
    ensures Inv(cfg, q) && p.history <= q.history
    ensures |q.history| + Remaining(cfg, q) <= |p.history| + Remaining(cfg, p)
  {
    hide Walk, Cert, Delivery.LedgerOk, Delivery.Evolves, EnteredThroughGate, Remaining, RunsOk;
    ActionIsSound(cfg, world, p, a);
    match a {
      case PassAction => LoopPassProgress(cfg, world, p);
      case JobAction(job) => EveryJobIsSound(cfg, world, p, job);
      case FailAction => FailureSpends(cfg, p, q);
      case BootAction => BootSpends(cfg, world, p, q);
    }
  }

  ghost predicate Spends(cfg: Config, p: Project, q: Project) {
    Inv(cfg, p) ==>
      && Inv(cfg, q) && p.history <= q.history
      && |q.history| + Remaining(cfg, q) <= |p.history| + Remaining(cfg, p)
  }

  lemma {:induction false} AutonomousStepSpends(cfg: Config, p: Project, q: Project)
    requires AutonomousStep(cfg, p, q)
    ensures Spends(cfg, p, q)
  {
    if Inv(cfg, p) {
      var world: World, a: Action :|
        ProvisionsOrThrows(world) && !a.RetryAction? && !a.DecideAction? && q in Run(cfg, world, p, a).saves;
      AutonomousActionSpends(cfg, world, p, a, q);
    }
  }

  lemma {:induction false} SpendsAlong(cfg: Config, t: seq<Project>)
    requires t != [] && Inv(cfg, t[0])
    requires forall i, j :: 0 <= i < j < |t| && j == i + 1 ==> Spends(cfg, t[i], t[j])
    ensures Inv(cfg, t[|t| - 1]) && t[0].history <= t[|t| - 1].history
    ensures |t[|t| - 1].history| + Remaining(cfg, t[|t| - 1]) <= |t[0].history| + Remaining(cfg, t[0])
  {
    if |t| > 1 {
      var n := |t| - 1;
      SpendsAlong(cfg, t[..n]);
      assert Spends(cfg, t[n - 1], t[n]);
    }
  }

  // Between owner decisions and retries, a project makes at most Remaining(p) further transitions, whatever
  // fails, crashes or is replayed.
  lemma {:induction false} AutonomousWorkIsBounded(cfg: Config, t: seq<Project>)
    requires t != [] && Inv(cfg, t[0])
    requires forall i, j :: 0 <= i < j < |t| && j == i + 1 ==> AutonomousStep(cfg, t[i], t[j])
    ensures Inv(cfg, t[|t| - 1]) && t[0].history <= t[|t| - 1].history
    ensures |t[|t| - 1].history| + Remaining(cfg, t[|t| - 1]) <= |t[0].history| + Remaining(cfg, t[0])
  {
    forall i, j | 0 <= i < j < |t| && j == i + 1 ensures Spends(cfg, t[i], t[j]) {
      AutonomousStepSpends(cfg, t[i], t[j]);
    }
    SpendsAlong(cfg, t);
  }

  // A fresh project reaches an owner-terminal or FAILED state within 14 * max(1, maxIterations) + 12 transitions.
  lemma {:induction false} FreshProjectBound(cfg: Config, id: string, demo: bool, existing: bool, baseline: string)
    ensures Remaining(cfg, Initial(id, demo, existing, baseline)) == 14 * Cap(cfg) + 12
  {
  }

  // A pass that does not throw spends at least one of the remaining transitions, so the in-process loop ends.
  lemma {:induction false} PassSpendsATransition(cfg: Config, world: World, p: Project)
    requires Inv(cfg, p) && IsActive(p.state) && !cfg.queue && ProvisionsOrThrows(world)
    requires LoopPass(cfg, world, p).outcome.Ok?
    ensures var q := LoopPass(cfg, world, p).last;
            Stored(p, LoopPass(cfg, world, p)) == q && Inv(cfg, q) && Remaining(cfg, q) < Remaining(cfg, p)
  {
    LoopPassProgress(cfg, world, p);
  }

  // ---- A job that outlives its stage ----

  // What an accepted request for changes leaves in the store.
  predicate Reopened(p: Project, q: Project) {
    q == p.(state := CouncilDiscovery, history := q.history, deliveries := q.deliveries,
            ownerReviews := q.ownerReviews, pendingFeedback := q.pendingFeedback)
  }

  lemma {:induction false} RequestReopens(p: Project, feedback: string)
    requires p.state == ReadyForOwnerReview && OwnerDecides(p, OwnerRequestsChanges, feedback).outcome.Ok?
    ensures OwnerDecides(p, OwnerRequestsChanges, feedback).saves != []
    ensures Reopened(p, Stored(p, OwnerDecides(p, OwnerRequestsChanges, feedback)))
  {
  }

  lemma {:induction false} GateSurvivesReopening(p: Project, q: Project, settings: Gate.Settings, x: Gate.Reason)
    requires Reopened(p, q) && LastSha(p) != ""
    ensures Gate.Rejects(q, settings, x) == Gate.Rejects(p, settings, x)
  {
    hide Lineage.HasMockEvidence, Lineage.PolicyCheckpoint, LatestAt, Gate.RuntimeRejects, Gate.VisualRejects;
    MockPolicyReopens(p, q);
    RuntimeReopens(p, q, x);
    VisualReopens(p, q, x);
  }

  lemma {:induction false} MockPolicyReopens(p: Project, q: Project)
    requires Reopened(p, q) && LastSha(p) != ""
    ensures Lineage.HasMockEvidence(q) == Lineage.HasMockEvidence(p)
    ensures Lineage.HasMockCheckpoint(q) == Lineage.HasMockCheckpoint(p)
  {
  }

  lemma {:induction false} RuntimeReopens(p: Project, q: Project, x: Gate.Reason)
    requires Reopened(p, q)
    ensures Gate.RuntimeRejects(q, x) == Gate.RuntimeRejects(p, x)
  {
  }

  lemma {:induction false} VisualReopens(p: Project, q: Project, x: Gate.Reason)
    requires Reopened(p, q)
    ensures Gate.VisualRejects(q, x) == Gate.VisualRejects(p, x)
  {
  }

  // The FINAL_VERIFICATION job brings a project to READY_FOR_OWNER_REVIEW and its worker dies before the handoff. The
  // owner requests changes, and the recovered job is executed again: it finds the final decision and the open
  // gate, asks for DELIVERY_PREPARATION from COUNCIL_DISCOVERY, and that terminal error fails the project.
  lemma {:induction false} LateFinalJobFailsTheFeedbackCycle(cfg: Config, world: World, p: Project, feedback: string)
    requires Inv(cfg, p) && cfg.queue && p.state == ReadyForOwnerReview && !p.error
    requires p.final.Some? && p.final.value.cursorCount == |p.cursorRuns| && LastSha(p) != ""
    requires OwnerDecides(p, OwnerRequestsChanges, feedback).outcome.Ok?
    requires world(Stored(p, OwnerDecides(p, OwnerRequestsChanges, feedback))).securityClear
    ensures var q := Stored(p, OwnerDecides(p, OwnerRequestsChanges, feedback));
            && GoesAstray(cfg, world, q, FinalJob)
            && Job(cfg, world, q, FinalJob).outcome == Threw(InvalidTransition)
  {
    var e := OwnerDecides(p, OwnerRequestsChanges, feedback);
    RequestReopens(p, feedback);
    DecisionKeepsInvariant(cfg, p, OwnerRequestsChanges, feedback);
    ReopenedGoesAstray(cfg, world, p, Stored(p, e));
    FinalJobIsIllegalIff(cfg, world, Stored(p, e));
  }

  lemma {:induction false} ReopenedGoesAstray(cfg: Config, world: World, p: Project, q: Project)
    requires Cert(cfg, p) && !p.error && Reopened(p, q)
    requires p.final.Some? && p.final.value.cursorCount == |p.cursorRuns| && LastSha(p) != ""
    requires world(q).securityClear
    ensures GoesAstray(cfg, world, q, FinalJob)
  {
    assert p.(error := false) == p;
    GateMeansAccepted(p, Gate.Settings(cfg.maxIterations, true));
    GateReopens(cfg, world, p, q);
    assert AskFinal(world, q) == Silent(q);
  }

  lemma {:induction false} GateReopens(cfg: Config, world: World, p: Project, q: Project)
    requires Gate.GateOk(p, Gate.Settings(cfg.maxIterations, true)) && Reopened(p, q) && LastSha(p) != ""
    requires world(q).securityClear
    ensures Gate.GateOk(q, SettingsFor(cfg, world, q))
  {
    forall x ensures !Gate.Rejects(q, SettingsFor(cfg, world, q), x) {
      GateSurvivesReopening(p, q, SettingsFor(cfg, world, q), x);
      assert !Gate.Rejects(p, Gate.Settings(cfg.maxIterations, true), x);
    }
  }
}
