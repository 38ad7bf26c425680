// What each reason of the gate tells the owner and the next Cursor run, on the records alone: a reason is given exactly
// when it is true of the run that is read (src/orchestrator/gate.js:34-141, src/delivery/lineage.js:49-100).
module GateReasons {
  import opened Text
  import opened Records
  import opened Gate
  import opened Lookups
  import opened OpenGate
  import Lineage

  // ---- Evidence and platform verification ----

  lemma {:induction false} EvidenceReasonsMean(p: Project, settings: Settings)
    ensures Rejects(p, settings, MockEvidence) <==> !p.demo && !IsGenuine(p)
    ensures Rejects(p, settings, MockCheckpoint) <==> !p.demo && !CheckpointIsReal(p)
    ensures Rejects(p, settings, MissingSpecification) <==> !HasSpec(p)
    ensures Rejects(p, settings, NoCursorExecution) <==> p.cursorRuns == []
    ensures Rejects(p, settings, MissingEvidence) <==>
            p.evidence.None? && (p.cursorRuns != [] ==> p.cursorRuns[|p.cursorRuns| - 1].evidence.None?)
    ensures forall e :: Speaks(p, e) ==> (Rejects(p, settings, ExecutionFailed) <==> e.execution.status == Fail)
  {
    MockMeans(p);
    RealMeans(p);
    SpecIsValid(p);
    hide Lineage.HasMockEvidence, Lineage.HasMockCheckpoint, IsGenuine, CheckpointIsReal, HasSpec, HasValidSpec, LatestAt;
    hide RuntimeRejects, VisualRejects;
  }

  // What the evidence e says of a check of the given level.
  predicate IsToldOf(a: Aspect, level: PolicyLevel, failed: bool, notRun: bool, unknown: bool) {
    && (failed <==> level == Required && a.status == Fail)
    && (notRun <==> level == Required && a.status == NotRun)
    && (unknown <==> level == Required && a.status == Unknown)
  }

  lemma {:induction false} CheckReasonsMean(p: Project, settings: Settings, v: VerificationRun, e: Evidence)
    requires !p.demo && ReadsVerification(p, AskedIteration(p), v) && Speaks(p, e)
    ensures IsToldOf(e.build, v.policy.build, Rejects(p, settings, AspectFailed(BuildCheck)),
                     Rejects(p, settings, AspectNotRun(BuildCheck)), Rejects(p, settings, AspectUnknown(BuildCheck)))
    ensures IsToldOf(e.tests, v.policy.tests, Rejects(p, settings, AspectFailed(TestsCheck)),
                     Rejects(p, settings, AspectNotRun(TestsCheck)), Rejects(p, settings, AspectUnknown(TestsCheck)))
    ensures IsToldOf(e.lint, v.policy.lint, Rejects(p, settings, AspectFailed(LintCheck)),
                     Rejects(p, settings, AspectNotRun(LintCheck)), Rejects(p, settings, AspectUnknown(LintCheck)))
  {
    assert AskedIteration(p) == RunIteration(p);
    VerificationIsRead(p, AskedIteration(p));
    hide LatestVerification, ReadsVerification, AskedIteration, RunIteration, RuntimeRejects, VisualRejects;
    assert Lineage.MergedEvidence(p) == Some(e);
  }

  // ---- Provisioning ----

  // The provisioning that counts: the project's own, or else its last run.
  predicate Counts(p: Project, r: ProvisioningRun) {
    if p.provisioning.Some? then p.provisioning == Some(r)
    else p.provisioningRuns != [] && p.provisioningRuns[|p.provisioningRuns| - 1] == r
  }

  lemma {:induction false} ProvisioningReasonsMean(p: Project, settings: Settings)
    ensures Rejects(p, settings, UnprovisionedProject) <==> !p.demo && p.unprovisionedRepository
    ensures p.demo || p.existingRepository ==>
              !Rejects(p, settings, ProvisioningNotRun) && !Rejects(p, settings, ProvisioningFailed)
              && !Rejects(p, settings, MissingProvisioningBaseline)
    ensures !p.demo && !p.existingRepository && p.provisioning.None? && p.provisioningRuns == [] ==>
              Rejects(p, settings, ProvisioningNotRun) && !Rejects(p, settings, ProvisioningFailed)
              && !Rejects(p, settings, MissingProvisioningBaseline)
    ensures forall r :: !p.demo && !p.existingRepository && Counts(p, r) ==>
              && (Rejects(p, settings, ProvisioningNotRun) <==>
                    r.status != ProvPass && r.status != ProvFail && r.status != ProvNotApplicable)
              && (Rejects(p, settings, ProvisioningFailed) <==> r.status == ProvFail)
              && (Rejects(p, settings, MissingProvisioningBaseline) <==>
                    r.status == ProvPass && r.baselineSha == "" && p.provisioningBaseline == "")
  {
    hide LatestAt, Lineage.HasMockEvidence, Lineage.HasMockCheckpoint, HasValidSpec, Lineage.MergedEvidence;
    hide RuntimeRejects, VisualRejects;
  }

  // ---- Runtime and visual verification ----

  // Of the runtime run that is read, at most one of three things is said: that it is stale, was not run, or failed.
  lemma {:induction false} RuntimeReasonsMean(p: Project)
    ensures !RuntimeIsRequired(p) ==> forall x :: !RuntimeRejects(p, x)
    ensures RuntimeIsRequired(p) && p.runtimeRuns == [] ==> forall x :: RuntimeRejects(p, x) <==> x == RuntimeNotRun
    ensures RuntimeIsRequired(p) ==> forall r :: ReadsRuntime(p, AskedIteration(p), r) ==>
              && (RuntimeRejects(p, StaleRuntime) <==> !Agree(r.checkpointSha, StageCheckpoint(p)))
              && (RuntimeRejects(p, RuntimeNotRun) <==>
                    Agree(r.checkpointSha, StageCheckpoint(p)) && r.status == RunNotRun)
              && (RuntimeRejects(p, RuntimeFailed) <==>
                    Agree(r.checkpointSha, StageCheckpoint(p)) && r.status == RunFail)
              && (RuntimeRejects(p, AccessibilityFailed) <==>
                    r.policy.accessibility == Required && r.accessibilityBlocked)
  {
    RequirementsMean(p);
    RuntimeIsRead(p, AskedIteration(p));
    hide LatestRuntime, ReadsRuntime, RequiresRuntime, RuntimeIsRequired, StageCheckpoint;
  }

  // The visual run is of this checkpoint and of the runtime runs there are.
  predicate IsOfThese(p: Project, w: VisualRun) {
    && (p.cursorRuns != [] ==> Agree(w.checkpointSha, p.cursorRuns[|p.cursorRuns| - 1].checkpointSha))
    && (forall r :: r in p.runtimeRuns && ReadsRuntime(p, p.iteration, r) ==> Agree(w.runtimeRunId, r.id))
    && (forall r :: r in p.runtimeRuns && ReadsRuntime(p, AskedIteration(p), r) ==> Agree(w.checkpointSha, r.checkpointSha))
  }

  predicate WasNotRun(w: VisualRun) {
    w.status == RunNotRun || w.decision == VisualNotRun
  }

  predicate Blocks(w: VisualRun) {
    w.decision == VisualChangesRequired || w.blockingFindings != []
  }

  lemma {:induction false} StaleIsNotOfThese(p: Project, w: VisualRun)
    ensures ScreenshotsStale(p, w) <==> !IsOfThese(p, w)
  {
    StaleMeans(p, w);
    hide ScreenshotsStale, ReadsRuntime;
  }

  lemma {:induction false} ReviewReasonsMean(p: Project, w: VisualRun)
    requires RequiresVisual(p) && LatestVisual(p, RunIteration(p)) == Some(w)
    ensures VisualRejects(p, StaleScreenshots) <==> ScreenshotsStale(p, w)
    ensures VisualRejects(p, VisualNotRunYet) <==> !ScreenshotsStale(p, w) && WasNotRun(w)
    ensures VisualRejects(p, BlockingVisualFinding) <==> !ScreenshotsStale(p, w) && !WasNotRun(w) && Blocks(w)
    ensures VisualRejects(p, VisualFailed) <==>
            !ScreenshotsStale(p, w) && !WasNotRun(w) && !Blocks(w) && w.status == RunFail
  {
    hide LatestVisual, RequiresVisual, ScreenshotsStale, RunIteration;
  }

  // Of the visual run that is read, at most one of four things: it is stale, was not run, blocks, or failed.
  lemma {:induction false} VisualReasonsMean(p: Project, w: VisualRun)
    requires VisualIsRequired(p) && ReadsVisual(p, AskedIteration(p), w)
    ensures VisualRejects(p, StaleScreenshots) <==> !IsOfThese(p, w)
    ensures VisualRejects(p, VisualNotRunYet) <==> IsOfThese(p, w) && WasNotRun(w)
    ensures VisualRejects(p, BlockingVisualFinding) <==> IsOfThese(p, w) && !WasNotRun(w) && Blocks(w)
    ensures VisualRejects(p, VisualFailed) <==> IsOfThese(p, w) && !WasNotRun(w) && !Blocks(w) && w.status == RunFail
  {
    assert AskedIteration(p) == RunIteration(p);
    hide VisualRejects, LatestVisual, IsOfThese, ReadsVisual, RequiresVisual, VisualIsRequired, ScreenshotsStale;
    hide WasNotRun, Blocks;
    RequirementsMean(p);
    VisualIsRead(p, AskedIteration(p));
    StaleIsNotOfThese(p, w);
    ReviewReasonsMean(p, w);
  }

  lemma {:induction false} NoVisualReasonsMean(p: Project)
    ensures !VisualIsRequired(p) ==> forall x :: !VisualRejects(p, x)
    ensures VisualIsRequired(p) && p.visualRuns == [] ==> forall x :: VisualRejects(p, x) <==> x == VisualNotRunYet
  {
    RequirementsMean(p);
    VisualIsRead(p, AskedIteration(p));
    VisualIsRead(p, p.iteration);
    hide LatestVisual, ReadsVisual, RequiresVisual, VisualIsRequired, ScreenshotsStale;
  }

  // ---- The delivery and its lineage ----

  lemma {:induction false} DeliveryReasonsMean(p: Project, d: Delivery)
    requires Stands(p.deliveries, d)
    ensures d.status != Ready ==> forall x :: DeliveryRejects(p, x) <==> x == MissingDeliverySnapshot
    ensures d.status == Ready ==>
              && !DeliveryRejects(p, MissingDeliverySnapshot)
              && (DeliveryRejects(p, NoFinalCheckpoint) <==> d.checkpointSha == "")
              && (DeliveryRejects(p, StaleDeliveryLineage) <==>
                    d.checkpointSha != FinalCheckpoint(p) || d.evidenceSet != Lineage.EvidenceSetOf(p))
              && (DeliveryRejects(p, MissingManifest) <==> d.package.None? || !d.package.value.manifestHash)
              && (DeliveryRejects(p, MissingOwnerReport) <==> d.package.None? || !d.package.value.ownerReport)
              && (DeliveryRejects(p, MissingVerificationReport) <==>
                    d.package.None? || !d.package.value.verificationReport)
              && (DeliveryRejects(p, MissingSourceArchive) <==> d.package.None? || !d.package.value.sourceArtifact)
  {
    CurrentDeliveryStands(p, d);
    hide Lineage.CurrentDelivery, Stands, FinalCheckpoint, Lineage.EvidenceSetOf;
  }

  lemma {:induction false} NoDeliveryReasonsMean(p: Project)
    requires p.deliveries == []
    ensures forall x :: DeliveryRejects(p, x) <==> x == MissingDeliverySnapshot
  {
    NoDeliveryNoCheckpoint(p);
    hide Lineage.CurrentDelivery, Lineage.DeliveryIsCurrent;
  }

  lemma {:induction false} LineageReasonsMean(p: Project, checkpoint: string)
    ensures Lineage.LineageRejects(p, checkpoint, Lineage.MockEvidenceUsed) <==> !p.demo && !IsGenuine(p)
    ensures Lineage.LineageRejects(p, checkpoint, Lineage.MockCheckpointUsed) <==>
            !p.demo && (!CheckpointIsReal(p) || IsMade(checkpoint) || !Lineage.IsGitObjectId(checkpoint))
    ensures Lineage.LineageRejects(p, checkpoint, Lineage.MissingAuthoritativeSpec) <==>
            (p.spec.Some? ==> p.spec.value.cursorPrompt == "")
    ensures Lineage.LineageRejects(p, checkpoint, Lineage.MissingBaseline) <==> !p.demo && !BaselineIsThere(p)
    ensures Lineage.LineageRejects(p, checkpoint, Lineage.MissingFinalCheckpoint) <==> checkpoint == ""
    ensures Lineage.LineageRejects(p, checkpoint, Lineage.MissingFinalReview) <==> p.final.None?
  {
    MockMeans(p);
    RealMeans(p);
    hide Lineage.HasMockEvidence, Lineage.HasMockCheckpoint, IsGenuine, CheckpointIsReal, Lineage.IsGitObjectId, LatestAt;
  }

  // Of the runs that are read, each stale reason names the stage whose run or screenshot is of another checkpoint.
  lemma {:induction false} StaleReasonsMean(p: Project, checkpoint: string)
    requires !p.demo && checkpoint != ""
    ensures forall r :: ReadsRuntime(p, AskedIteration(p), r) ==>
              && (Lineage.LineageRejects(p, checkpoint, Lineage.StaleRuntimeEvidence) <==> !Names(r.checkpointSha, checkpoint))
              && (Lineage.LineageRejects(p, checkpoint, Lineage.StaleScreenshotEvidence) <==>
                    exists s :: s in r.screenshots && !Names(s.checkpointSha, checkpoint))
    ensures forall v :: ReadsVerification(p, AskedIteration(p), v) ==>
              (Lineage.LineageRejects(p, checkpoint, Lineage.StalePlatformVerification) <==>
                 v.checkpointSha != "none" && !Names(v.checkpointSha, checkpoint))
    ensures forall w :: ReadsVisual(p, AskedIteration(p), w) ==>
              (Lineage.LineageRejects(p, checkpoint, Lineage.StaleVisualEvidence) <==> !Names(w.checkpointSha, checkpoint))
  {
    assert AskedIteration(p) == RunIteration(p);
    VerificationIsRead(p, RunIteration(p));
    RuntimeIsRead(p, RunIteration(p));
    VisualIsRead(p, RunIteration(p));
    hide LatestVerification, LatestRuntime, LatestVisual, ReadsVerification, ReadsRuntime, ReadsVisual;
    hide RunIteration, AskedIteration;
  }
}
