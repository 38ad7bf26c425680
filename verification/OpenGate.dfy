// What an open gate means, on the records alone: which specification, evidence, runs and decisions a project must
// have, and that nothing else is asked of it (src/orchestrator/gate.js:34-141, src/orchestrator/mock-policy.js:47-84).
module OpenGate {
  import opened Text
  import opened States
  import opened Records
  import opened Gate
  import opened Lookups
  import Lineage
  import Workflow
  import WorkflowSafety

  // ---- Evidence ----

  // The project's own evidence, or else that of its last Cursor run.
  predicate Speaks(p: Project, e: Evidence) {
    if p.evidence.Some? then e == p.evidence.value
    else p.cursorRuns != [] && p.cursorRuns[|p.cursorRuns| - 1].evidence == Some(e)
  }

  predicate NoAspectIsMock(e: Evidence) {
    && e.execution.provenance != MockReported && e.git.provenance != MockReported
    && e.build.provenance != MockReported && e.tests.provenance != MockReported
    && e.lint.provenance != MockReported && e.runtime.provenance != MockReported
    && e.functional.provenance != MockReported && e.accessibility.provenance != MockReported
    && e.visual.provenance != MockReported && e.security.provenance != MockReported
    && e.provisioning.provenance != MockReported
  }

  // Nothing on record was mocked.
  predicate IsGenuine(p: Project) {
    && p.verificationLevel != Some(MockLevel) && p.sandboxMode != "MOCK"
    && (p.evidence.Some? ==> p.evidence.value.level != MockLevel && NoAspectIsMock(p.evidence.value))
    && (p.cursorRuns != [] ==>
          var last := p.cursorRuns[|p.cursorRuns| - 1];
          && !last.mockMode
          && (p.evidence.None? && last.evidence.Some? ==>
                last.evidence.value.level != MockLevel && NoAspectIsMock(last.evidence.value)))
    && (p.verificationRuns != [] ==> !p.verificationRuns[|p.verificationRuns| - 1].mock)
    && (p.runtimeRuns != [] ==> !p.runtimeRuns[|p.runtimeRuns| - 1].mock)
    && (p.visualRuns != [] ==> !p.visualRuns[|p.visualRuns| - 1].mock)
  }

  predicate IsMade(sha: string) {
    "mock:" <= sha || "unverified:" <= sha
  }

  function RunNames(p: Project): seq<string> {
    if p.cursorRuns == [] then [] else CheckpointNames(p.cursorRuns[|p.cursorRuns| - 1])[..2]
  }

  // The checkpoint that the last Cursor run names, or else that of the delivery there is, is no made-up one.
  predicate CheckpointIsReal(p: Project) {
    var names := RunNames(p);
    if AllAbsent(names) then forall d :: d in p.deliveries && Stands(p.deliveries, d) ==> !IsMade(d.checkpointSha)
    else forall name :: name in names && FirstPresent(names, name) ==> !IsMade(name)
  }

  predicate EvidenceIsThere(p: Project) {
    && HasSpec(p) && p.cursorRuns != []
    && (p.evidence.Some? || p.cursorRuns[|p.cursorRuns| - 1].evidence.Some?)
    && (p.evidence.Some? ==> p.evidence.value.execution.status != Fail)
    && (p.evidence.None? ==> p.cursorRuns[|p.cursorRuns| - 1].evidence.value.execution.status != Fail)
    && (!p.demo ==> IsGenuine(p) && CheckpointIsReal(p))
  }

  lemma {:induction false} MockMeans(p: Project)
    ensures Lineage.HasMockEvidence(p) <==> !IsGenuine(p)
  {
    if p.evidence.Some? { AspectsMean(p.evidence.value); }
    else if p.cursorRuns != [] && p.cursorRuns[|p.cursorRuns| - 1].evidence.Some? {
      AspectsMean(p.cursorRuns[|p.cursorRuns| - 1].evidence.value);
    }
    hide Lineage.Aspects, NoAspectIsMock;
  }

  lemma {:induction false} AspectsMean(e: Evidence)
    ensures (exists a :: a in Lineage.Aspects(e) && a.provenance == MockReported) <==> !NoAspectIsMock(e)
  {
    var all := Lineage.Aspects(e);
    assert all[0] == e.execution && all[1] == e.git && all[2] == e.build && all[3] == e.tests && all[4] == e.lint;
    assert all[5] == e.runtime && all[6] == e.functional && all[7] == e.accessibility && all[8] == e.visual;
    assert all[9] == e.security && all[10] == e.provisioning && |all| == 11;
    assert forall a :: a in all ==> exists i :: 0 <= i < 11 && all[i] == a;
  }

  lemma {:induction false} PolicyNames(p: Project)
    ensures AllAbsent(RunNames(p)) ==>
              Lineage.PolicyCheckpoint(p) ==
                if Lineage.CurrentDelivery(p).Some? then Lineage.CurrentDelivery(p).value.checkpointSha else ""
    ensures !AllAbsent(RunNames(p)) ==>
              Lineage.PolicyCheckpoint(p) in RunNames(p) && FirstPresent(RunNames(p), Lineage.PolicyCheckpoint(p))
    ensures forall a, b :: FirstPresent(RunNames(p), a) && FirstPresent(RunNames(p), b) ==> a == b
  {
    hide Lineage.CurrentDelivery;
    var names := RunNames(p);
    if p.cursorRuns != [] {
      var r := p.cursorRuns[|p.cursorRuns| - 1];
      assert names == [r.checkpointSha, r.gitCheckpointSha];
      if AllAbsent(names) { assert names[0] == names[1] == ""; }
      else if names[0] != "" { assert FirstPresent(names, names[0]); }
      else { assert FirstPresent(names, names[1]); }
    }
  }

  lemma {:induction false} RealMeans(p: Project)
    ensures Lineage.HasMockCheckpoint(p) <==> !CheckpointIsReal(p)
  {
    forall d: Delivery ensures Lineage.CurrentDelivery(p) == Some(d) <==> Stands(p.deliveries, d) {
      CurrentDeliveryStands(p, d);
    }
    PolicyNames(p);
    NoDeliveryNoCheckpoint(p);
    hide Stands, FirstPresent, CheckpointNames, AllAbsent, Lineage.CurrentDelivery, Lineage.PolicyCheckpoint;
  }

  lemma {:induction false} NoDeliveryNoCheckpoint(p: Project)
    ensures Lineage.CurrentDelivery(p).None? <==> p.deliveries == []
    ensures Lineage.CurrentDelivery(p).Some? ==> Lineage.CurrentDelivery(p).value in p.deliveries
    ensures !Lineage.IsSyntheticCheckpoint("")
  {
  }

  lemma {:induction false} EvidenceGroup(p: Project, settings: Settings)
    ensures (forall x :: IsEvidenceReason(x) ==> !Rejects(p, settings, x)) <==> EvidenceIsThere(p)
  {
    MockMeans(p);
    RealMeans(p);
    SpecIsValid(p);
    hide Lineage.HasMockEvidence, Lineage.HasMockCheckpoint, IsGenuine, CheckpointIsReal, HasSpec, HasValidSpec, LatestAt;
    hide RuntimeRejects, VisualRejects;
    assert IsEvidenceReason(MockEvidence) && IsEvidenceReason(MockCheckpoint) && IsEvidenceReason(MissingSpecification);
    assert IsEvidenceReason(NoCursorExecution) && IsEvidenceReason(MissingEvidence) && IsEvidenceReason(ExecutionFailed);
  }

  // ---- Platform verification and provisioning ----

  predicate Passes(level: PolicyLevel, a: Aspect) {
    level == Required ==> a.status == Pass || a.status == NotApplicable
  }

  // The verification that is read for the last Cursor run's iteration, and what evidence e says of what it requires.
  predicate RequiredChecksPass(v: VerificationRun, e: Evidence) {
    Passes(v.policy.build, e.build) && Passes(v.policy.tests, e.tests) && Passes(v.policy.lint, e.lint)
  }

  predicate VerificationIsThere(p: Project) {
    p.demo || exists v :: v in p.verificationRuns && ReadsVerification(p, AskedIteration(p), v)
  }

  // Provided that there is evidence at all.
  predicate ChecksPass(p: Project) {
    p.demo || forall v :: v in p.verificationRuns && ReadsVerification(p, AskedIteration(p), v) ==>
      (p.evidence.Some? ==> RequiredChecksPass(v, p.evidence.value))
      && (p.evidence.None? && p.cursorRuns != [] && p.cursorRuns[|p.cursorRuns| - 1].evidence.Some? ==>
            RequiredChecksPass(v, p.cursorRuns[|p.cursorRuns| - 1].evidence.value))
  }

  // A new project has a foundation on record, or needs none; and its workspace is not an empty one.
  predicate FoundationIsThere(p: Project) {
    p.demo || (!p.unprovisionedRepository && (p.existingRepository || IsFounded(p)))
  }

  predicate IsFounded(p: Project) {
    if p.provisioning.Some? then Founds(p, p.provisioning.value)
    else p.provisioningRuns != [] && Founds(p, p.provisioningRuns[|p.provisioningRuns| - 1])
  }

  predicate Founds(p: Project, r: ProvisioningRun) {
    r.status == ProvNotApplicable || (r.status == ProvPass && (r.baselineSha != "" || p.provisioningBaseline != ""))
  }

  lemma {:induction false} CheckMeans(p: Project, settings: Settings, c: Check)
    requires !p.demo && Lineage.MergedEvidence(p).Some?
    ensures !Rejects(p, settings, AspectFailed(c)) && !Rejects(p, settings, AspectNotRun(c))
            && !Rejects(p, settings, AspectUnknown(c))
            <==> forall v :: LatestVerification(p, AskedIteration(p)) == Some(v) ==>
                   Passes(LevelFor(v.policy, c), AspectOf(Lineage.MergedEvidence(p).value, c))
  {
    hide LatestVerification, LevelFor, AspectOf;
  }

  lemma {:induction false} VerificationGroup(p: Project, settings: Settings)
    requires EvidenceIsThere(p)
    ensures (forall x :: IsVerificationReason(x) ==> !Rejects(p, settings, x)) <==> VerificationIsThere(p) && ChecksPass(p)
  {
    hide IsGenuine, CheckpointIsReal, HasSpec, RuntimeRejects, VisualRejects;
    if !p.demo {
      VerificationIsRead(p, AskedIteration(p));
      forall c: Check { CheckMeans(p, settings, c); }
      ChecksMean(p);
      hide LatestVerification, ReadsVerification, AspectOf, LevelFor, Passes, ChecksPass, Lineage.MergedEvidence, Rejects;
      VerificationNotRunMeans(p, settings);
      var v := LatestVerification(p, AskedIteration(p));
      assert v.Some? ==> ReadsVerification(p, AskedIteration(p), v.value);
    } else {
      hide LatestVerification, Lineage.MergedEvidence;
    }
  }

  lemma {:induction false} VerificationNotRunMeans(p: Project, settings: Settings)
    ensures !p.demo ==> (Rejects(p, settings, VerificationNotRun) <==> p.verificationRuns == [])
    ensures forall v :: v in p.verificationRuns ==> p.verificationRuns != []
    ensures forall v :: LatestVerification(p, AskedIteration(p)) == Some(v) ==> v in p.verificationRuns
  {
  }

  lemma {:induction false} ChecksMean(p: Project)
    requires !p.demo && EvidenceIsThere(p)
    ensures Lineage.MergedEvidence(p).Some?
    ensures ChecksPass(p) <==>
            forall c: Check, v :: LatestVerification(p, AskedIteration(p)) == Some(v) ==>
              Passes(LevelFor(v.policy, c), AspectOf(Lineage.MergedEvidence(p).value, c))
  {
    VerificationIsRead(p, AskedIteration(p));
    var e := Lineage.MergedEvidence(p).value;
    forall v: VerificationRun
      ensures RequiredChecksPass(v, e) <==> forall c: Check :: Passes(LevelFor(v.policy, c), AspectOf(e, c))
    {
      assert LevelFor(v.policy, BuildCheck) == v.policy.build && AspectOf(e, BuildCheck) == e.build;
      assert LevelFor(v.policy, TestsCheck) == v.policy.tests && AspectOf(e, TestsCheck) == e.tests;
      assert LevelFor(v.policy, LintCheck) == v.policy.lint && AspectOf(e, LintCheck) == e.lint;
    }
    hide LatestVerification, ReadsVerification, Passes, AspectOf, LevelFor, RequiredChecksPass, IsGenuine, CheckpointIsReal;
  }

  lemma {:induction false} ProvisioningGroup(p: Project, settings: Settings)
    ensures (forall x :: IsProvisioningReason(x) ==> !Rejects(p, settings, x)) <==> FoundationIsThere(p)
  {
    hide LatestAt, Lineage.HasMockEvidence, Lineage.HasMockCheckpoint, HasValidSpec, Lineage.MergedEvidence;
    hide RuntimeRejects, VisualRejects;
    assert IsProvisioningReason(UnprovisionedProject) && IsProvisioningReason(ProvisioningNotRun);
    assert IsProvisioningReason(ProvisioningFailed) && IsProvisioningReason(MissingProvisioningBaseline);
  }

  // ---- Runtime and visual verification ----

  // A policy on record asks for it: the project's, or that of the runtime run read for the project's iteration.
  predicate RuntimeIsRequired(p: Project) {
    !p.demo && ((p.runtimePolicy.Some? && p.runtimePolicy.value.runtime == Required)
                || exists r :: r in p.runtimeRuns && ReadsRuntime(p, p.iteration, r) && r.policy.runtime == Required)
  }

  predicate VisualIsRequired(p: Project) {
    !p.demo && ((p.runtimePolicy.Some? && p.runtimePolicy.value.visual == Required)
                || exists r :: r in p.runtimeRuns && ReadsRuntime(p, p.iteration, r) && r.policy.visual == Required)
  }

  // Neither is named, or both name the same.
  predicate Agree(a: string, b: string) {
    a == "" || b == "" || a == b
  }

  // The application ran, or did not have to; it ran from this checkpoint; and no accessibility failure blocks.
  predicate RuntimeHolds(p: Project, r: RuntimeRun) {
    && Agree(r.checkpointSha, StageCheckpoint(p))
    && (r.status == RunPass || r.status == RunPartial || r.status == RunNotApplicable)
    && (r.policy.accessibility == Required ==> !r.accessibilityBlocked)
  }

  predicate RuntimeIsThere(p: Project) {
    RuntimeIsRequired(p) ==>
      exists r :: r in p.runtimeRuns && ReadsRuntime(p, AskedIteration(p), r) && RuntimeHolds(p, r)
  }

  // The review of the screenshots was made, of this checkpoint and of these runtime runs, and found nothing that blocks.
  predicate VisualHolds(p: Project, w: VisualRun) {
    && (p.cursorRuns != [] ==> Agree(w.checkpointSha, p.cursorRuns[|p.cursorRuns| - 1].checkpointSha))
    && (forall r :: r in p.runtimeRuns && ReadsRuntime(p, p.iteration, r) ==> Agree(w.runtimeRunId, r.id))
    && (forall r :: r in p.runtimeRuns && ReadsRuntime(p, AskedIteration(p), r) ==> Agree(w.checkpointSha, r.checkpointSha))
    && (w.status == RunPass || w.status == RunPartial || w.status == RunNotApplicable)
    && (w.decision == VisualComplete || w.decision == VisualNotApplicable)
    && w.blockingFindings == []
  }

  // No heuristic stood in for the reviewers.
  predicate NoHeuristic(p: Project) {
    forall w :: w in p.visualRuns && ReadsVisual(p, p.iteration, w) && w.heuristic ==> w.decision == VisualNotApplicable
  }

  predicate VisualIsThere(p: Project) {
    VisualIsRequired(p) ==>
      && (exists w :: w in p.visualRuns && ReadsVisual(p, AskedIteration(p), w) && VisualHolds(p, w))
      && NoHeuristic(p)
  }

  lemma {:induction false} RequirementsMean(p: Project)
    ensures RequiresRuntime(p) <==> RuntimeIsRequired(p)
    ensures RequiresVisual(p) <==> VisualIsRequired(p)
  {
    RuntimeIsRead(p, p.iteration);
    hide LatestRuntime, ReadsRuntime;
    RuntimeReadIsRecorded(p, p.iteration);
  }

  lemma {:induction false} RuntimeReadIsRecorded(p: Project, n: nat)
    ensures forall r :: LatestRuntime(p, n) == Some(r) ==> r in p.runtimeRuns
  {
  }

  lemma {:induction false} VisualReadIsRecorded(p: Project, n: nat)
    ensures forall w :: LatestVisual(p, n) == Some(w) ==> w in p.visualRuns
  {
  }

  lemma {:induction false} RuntimeGroup(p: Project)
    ensures (forall x :: IsRuntimeReason(x) ==> !RuntimeRejects(p, x)) <==> RuntimeIsThere(p)
  {
    RequirementsMean(p);
    RuntimeIsRead(p, AskedIteration(p));
    RuntimeReadIsRecorded(p, AskedIteration(p));
    hide LatestRuntime, ReadsRuntime, RequiresRuntime, RuntimeIsRequired, StageCheckpoint;
    assert IsRuntimeReason(RuntimeNotRun) && IsRuntimeReason(StaleRuntime) && IsRuntimeReason(RuntimeFailed);
    assert IsRuntimeReason(AccessibilityFailed);
    var r := LatestRuntime(p, AskedIteration(p));
    if r.Some? { assert ReadsRuntime(p, AskedIteration(p), r.value); }
  }

  lemma {:induction false} StaleMeans(p: Project, w: VisualRun)
    ensures !ScreenshotsStale(p, w) <==>
            && (p.cursorRuns != [] ==> Agree(w.checkpointSha, p.cursorRuns[|p.cursorRuns| - 1].checkpointSha))
            && (forall r :: r in p.runtimeRuns && ReadsRuntime(p, p.iteration, r) ==> Agree(w.runtimeRunId, r.id))
            && (forall r :: r in p.runtimeRuns && ReadsRuntime(p, AskedIteration(p), r) ==>
                  Agree(w.checkpointSha, r.checkpointSha))
  {
    RuntimeIsRead(p, AskedIteration(p));
    RuntimeReadIsRecorded(p, AskedIteration(p));
    RuntimeIsRead(p, p.iteration);
    RuntimeReadIsRecorded(p, p.iteration);
    hide LatestRuntime, ReadsRuntime;
  }

  lemma {:induction false} HeuristicMeans(p: Project)
    ensures VisualIsRequired(p) ==> (VisualRejects(p, DeterministicVisual) <==> !NoHeuristic(p))
  {
    RequirementsMean(p);
    VisualIsRead(p, p.iteration);
    VisualReadIsRecorded(p, p.iteration);
    hide LatestVisual, ReadsVisual, RequiresVisual, VisualIsRequired;
  }

  predicate IsScreenshotReason(x: Reason) {
    x in {VisualNotRunYet, StaleScreenshots, BlockingVisualFinding, VisualFailed}
  }

  lemma {:induction false} ReviewMeans(p: Project, w: VisualRun)
    requires RequiresVisual(p) && LatestVisual(p, RunIteration(p)) == Some(w)
    ensures (forall x :: IsScreenshotReason(x) ==> !VisualRejects(p, x)) <==> VisualHolds(p, w)
  {
    StaleMeans(p, w);
    hide LatestVisual, ReadsRuntime, RequiresVisual, ScreenshotsStale, RunIteration;
    assert IsScreenshotReason(VisualNotRunYet) && IsScreenshotReason(StaleScreenshots);
    assert IsScreenshotReason(BlockingVisualFinding) && IsScreenshotReason(VisualFailed);
  }

  lemma {:induction false} NoReviewMeans(p: Project)
    requires RequiresVisual(p) && LatestVisual(p, RunIteration(p)).None?
    ensures VisualRejects(p, VisualNotRunYet) && IsScreenshotReason(VisualNotRunYet)
  {
    hide RequiresVisual, RunIteration;
  }

  lemma {:induction false} ScreenshotsMean(p: Project)
    requires VisualIsRequired(p)
    ensures (forall x :: IsScreenshotReason(x) ==> !VisualRejects(p, x)) <==>
            exists w :: w in p.visualRuns && ReadsVisual(p, AskedIteration(p), w) && VisualHolds(p, w)
  {
    assert AskedIteration(p) == RunIteration(p);
    RequirementsMean(p);
    VisualIsRead(p, AskedIteration(p));
    VisualReadIsRecorded(p, AskedIteration(p));
    hide LatestVisual, ReadsVisual, VisualIsRequired, VisualRejects, VisualHolds, RequiresVisual, IsScreenshotReason;
    var w := LatestVisual(p, RunIteration(p));
    if w.Some? {
      ReviewMeans(p, w.value);
      assert ReadsVisual(p, AskedIteration(p), w.value);
    } else {
      NoReviewMeans(p);
    }
  }

  lemma {:induction false} VisualGroup(p: Project)
    ensures (forall x :: IsVisualReason(x) ==> !VisualRejects(p, x)) <==> VisualIsThere(p)
  {
    RequirementsMean(p);
    if VisualIsRequired(p) {
      ScreenshotsMean(p);
      HeuristicMeans(p);
      hide VisualRejects, VisualIsRequired, VisualHolds, NoHeuristic, ReadsVisual;
      assert forall x :: IsVisualReason(x) <==> IsScreenshotReason(x) || x == DeterministicVisual;
    } else {
      hide VisualIsRequired, RequiresVisual;
    }
  }

  // ---- Outcomes, and the gate ----

  // The Council accepted the last Cursor run and the whole, security is clear, nothing failed since, and the
  // iterations are within their limit.
  predicate OutcomeIsGood(p: Project, settings: Settings) {
    && p.cursorRuns != [] && AskedIteration(p) in p.reviews && p.reviews[AskedIteration(p)] == Decision.Complete
    && p.final.Some? && p.final.value.decision == Decision.Complete
    && (!p.demo ==> settings.securityClear)
    && !p.error && p.iteration <= settings.maxIterations
  }

  lemma {:induction false} CouncilMeans(p: Project, settings: Settings)
    ensures !Rejects(p, settings, ReviewNotComplete) <==>
            p.cursorRuns != [] && AskedIteration(p) in p.reviews && p.reviews[AskedIteration(p)] == Decision.Complete
    ensures !Rejects(p, settings, FinalNotComplete) <==> p.final.Some? && p.final.value.decision == Decision.Complete
  {
    assert AskedIteration(p) == RunIteration(p);
    hide RunIteration, AskedIteration, Lineage.MergedEvidence;
  }

  lemma {:induction false} RestMeans(p: Project, settings: Settings)
    ensures !Rejects(p, settings, SecurityRejected) <==> (!p.demo ==> settings.securityClear)
    ensures !Rejects(p, settings, UnresolvedError) <==> !p.error
    ensures !Rejects(p, settings, IterationLimitExceeded) <==> p.iteration <= settings.maxIterations
  {
    hide Lineage.MergedEvidence;
  }

  lemma {:induction false} OutcomeGroup(p: Project, settings: Settings)
    ensures (forall x :: IsOutcomeReason(x) ==> !Rejects(p, settings, x)) <==> OutcomeIsGood(p, settings)
  {
    CouncilMeans(p, settings);
    RestMeans(p, settings);
    hide Rejects;
  }

  // Everything an accepted project has to show.
  predicate Acceptable(p: Project, settings: Settings) {
    && EvidenceIsThere(p) && VerificationIsThere(p) && ChecksPass(p) && FoundationIsThere(p)
    && RuntimeIsThere(p) && VisualIsThere(p) && OutcomeIsGood(p, settings)
  }

  // The gate is open exactly for acceptable projects.
  lemma {:induction false} OpenIffAcceptable(p: Project, settings: Settings)
    ensures GateOk(p, settings) <==> Acceptable(p, settings)
  {
    hide Rejects, EvidenceIsThere, VerificationIsThere, ChecksPass, FoundationIsThere, RuntimeIsThere, VisualIsThere;
    hide OutcomeIsGood, RuntimeRejects, VisualRejects;
    EvidenceGroup(p, settings);
    if EvidenceIsThere(p) { VerificationGroup(p, settings); }
    ProvisioningGroup(p, settings);
    RuntimeGroup(p);
    VisualGroup(p);
    OutcomeGroup(p, settings);
    forall x { EveryReasonHasAGroup(x); }
    forall x { GroupMeaning(p, settings, x); }
  }

  // ---- The delivery, and READY projects ----

  // The delivery the owner is shown is ready, complete, and of the final checkpoint and the evidence there is.
  predicate IsDeliverable(p: Project) {
    exists d :: d in p.deliveries && Stands(p.deliveries, d) && ShowsAll(p, d)
  }

  predicate ShowsAll(p: Project, d: Delivery) {
    && d.status == Ready && d.checkpointSha != ""
    && d.checkpointSha == FinalCheckpoint(p) && d.evidenceSet == Lineage.EvidenceSetOf(p)
    && d.package.Some? && d.package.value.manifestHash && d.package.value.ownerReport
    && d.package.value.verificationReport && d.package.value.sourceArtifact
  }

  lemma {:induction false} NoFaultMeans(p: Project, d: Delivery)
    requires Lineage.CurrentDelivery(p) == Some(d)
    ensures (forall x :: !DeliveryRejects(p, x)) <==> ShowsAll(p, d)
  {
    hide Lineage.EvidenceSetOf, FinalCheckpoint, Lineage.CurrentDelivery;
    if forall x :: !DeliveryRejects(p, x) {
      assert !DeliveryRejects(p, MissingDeliverySnapshot) && !DeliveryRejects(p, NoFinalCheckpoint);
      assert !DeliveryRejects(p, StaleDeliveryLineage) && !DeliveryRejects(p, MissingManifest);
      assert !DeliveryRejects(p, MissingOwnerReport) && !DeliveryRejects(p, MissingVerificationReport);
      assert !DeliveryRejects(p, MissingSourceArchive);
    }
  }

  // The owner is offered a project exactly when it is acceptable and deliverable.
  lemma {:induction false} OfferedIffDeliverable(p: Project, settings: Settings)
    ensures ReadyOk(p, settings) <==> Acceptable(p, settings) && IsDeliverable(p)
  {
    OpenIffAcceptable(p, settings);
    NoDeliveryNoCheckpoint(p);
    var d := Lineage.CurrentDelivery(p);
    forall x: Delivery ensures d == Some(x) <==> Stands(p.deliveries, x) { CurrentDeliveryStands(p, x); }
    if d.Some? {
      NoFaultMeans(p, d.value);
      assert d.value in p.deliveries && Stands(p.deliveries, d.value);
    } else {
      assert DeliveryRejects(p, MissingDeliverySnapshot);
    }
    hide GateOk, Acceptable, DeliveryRejects, ShowsAll, Stands, Lineage.CurrentDelivery;
  }

  // In every run, while a project is READY, whatever error was recorded on it since, it is acceptable and deliverable;
  // in particular, what is required of runtime, visual and platform verification and of provisioning is on record.
  lemma {:induction false} ReadyIsAcceptable(cfg: Workflow.Config, t: seq<Project>, i: nat)
    requires WorkflowSafety.Trace(cfg, t) && i < |t| && t[i].state == ReadyForOwnerReview
    ensures Acceptable(t[i].(error := false), Settings(cfg.maxIterations, true)) && IsDeliverable(t[i].(error := false))
    ensures RuntimeIsThere(t[i]) && VisualIsThere(t[i]) && FoundationIsThere(t[i])
    ensures VerificationIsThere(t[i]) && ChecksPass(t[i])
  {
    hide Acceptable, IsDeliverable, RuntimeIsThere, VisualIsThere, FoundationIsThere, VerificationIsThere, ChecksPass, ReadyOk;
    WorkflowSafety.TraceIsSound(cfg, t, i);
    OfferedIffDeliverable(t[i].(error := false), Settings(cfg.maxIterations, true));
    AcceptableParts(t[i].(error := false), Settings(cfg.maxIterations, true));
    PartsIgnoreErrors(t[i]);
  }

  lemma {:induction false} AcceptableParts(p: Project, settings: Settings)
    requires Acceptable(p, settings)
    ensures RuntimeIsThere(p) && VisualIsThere(p) && FoundationIsThere(p) && VerificationIsThere(p) && ChecksPass(p)
  {
  }

  lemma {:induction false} PartsIgnoreErrors(p: Project)
    ensures RuntimeIsThere(p.(error := false)) == RuntimeIsThere(p)
    ensures VisualIsThere(p.(error := false)) == VisualIsThere(p)
    ensures FoundationIsThere(p.(error := false)) == FoundationIsThere(p)
    ensures VerificationIsThere(p.(error := false)) == VerificationIsThere(p)
    ensures ChecksPass(p.(error := false)) == ChecksPass(p)
  {
    hide Reads, RequiredChecksPass;
  }

  // ---- The lineage of a delivery ----

  // Nothing is recorded, or this very checkpoint.
  predicate Names(recorded: string, checkpoint: string) {
    recorded == "" || recorded == checkpoint
  }

  // Every run that is read for the last Cursor run's iteration is of this checkpoint, and so is every screenshot.
  predicate RunsAreOf(p: Project, checkpoint: string) {
    && (forall v :: v in p.verificationRuns && ReadsVerification(p, AskedIteration(p), v) ==>
          v.checkpointSha == "none" || Names(v.checkpointSha, checkpoint))
    && (forall r :: r in p.runtimeRuns && ReadsRuntime(p, AskedIteration(p), r) ==>
          Names(r.checkpointSha, checkpoint) && forall s :: s in r.screenshots ==> Names(s.checkpointSha, checkpoint))
    && (forall w :: w in p.visualRuns && ReadsVisual(p, AskedIteration(p), w) ==> Names(w.checkpointSha, checkpoint))
  }

  // A passed provisioning has its baseline.
  predicate BaselineIsThere(p: Project) {
    && (p.provisioning.Some? && p.provisioning.value.status == ProvPass ==>
          p.provisioning.value.baselineSha != "" || p.provisioningBaseline != "")
    && (p.provisioning.None? && p.provisioningRuns != [] && p.provisioningRuns[|p.provisioningRuns| - 1].status == ProvPass ==>
          p.provisioningRuns[|p.provisioningRuns| - 1].baselineSha != "" || p.provisioningBaseline != "")
  }

  // What a delivery of the project can be traced back to.
  predicate IsTraceable(p: Project) {
    && p.spec.Some? && p.spec.value.cursorPrompt != "" && p.final.Some?
    && (!p.demo ==>
          && IsGenuine(p) && CheckpointIsReal(p) && BaselineIsThere(p)
          && !IsMade(FinalCheckpoint(p)) && Lineage.IsGitObjectId(FinalCheckpoint(p))
          && RunsAreOf(p, FinalCheckpoint(p)))
  }

  lemma {:induction false} FinalCheckpointIsThere(p: Project)
    ensures FinalCheckpoint(p) != ""
  {
    FinalCheckpointIsFirstNamed(p);
    hide FinalCheckpoint, CheckpointNames;
  }

  lemma {:induction false} StaleVerificationMeans(p: Project, checkpoint: string)
    requires !p.demo && checkpoint != ""
    ensures !Lineage.LineageRejects(p, checkpoint, Lineage.StalePlatformVerification) <==>
            forall v :: v in p.verificationRuns && ReadsVerification(p, AskedIteration(p), v) ==>
              v.checkpointSha == "none" || Names(v.checkpointSha, checkpoint)
  {
    assert AskedIteration(p) == RunIteration(p);
    VerificationIsRead(p, RunIteration(p));
    VerificationNotRunMeans(p, Settings(0, true));
    hide LatestVerification, LatestRuntime, LatestVisual, ReadsVerification, RunIteration, AskedIteration;
    var v := LatestVerification(p, RunIteration(p));
    if v.Some? { assert ReadsVerification(p, RunIteration(p), v.value); }
  }

  lemma {:induction false} StaleRuntimeMeans(p: Project, checkpoint: string)
    requires !p.demo && checkpoint != ""
    ensures !Lineage.LineageRejects(p, checkpoint, Lineage.StaleRuntimeEvidence)
            && !Lineage.LineageRejects(p, checkpoint, Lineage.StaleScreenshotEvidence) <==>
            forall r :: r in p.runtimeRuns && ReadsRuntime(p, AskedIteration(p), r) ==>
              Names(r.checkpointSha, checkpoint) && forall s :: s in r.screenshots ==> Names(s.checkpointSha, checkpoint)
  {
    assert AskedIteration(p) == RunIteration(p);
    RuntimeIsRead(p, RunIteration(p));
    RuntimeReadIsRecorded(p, RunIteration(p));
    hide LatestVerification, LatestRuntime, LatestVisual, ReadsRuntime, RunIteration, AskedIteration;
    var r := LatestRuntime(p, RunIteration(p));
    if r.Some? { assert ReadsRuntime(p, RunIteration(p), r.value); }
  }

  lemma {:induction false} StaleVisualMeans(p: Project, checkpoint: string)
    requires !p.demo && checkpoint != ""
    ensures !Lineage.LineageRejects(p, checkpoint, Lineage.StaleVisualEvidence) <==>
            forall w :: w in p.visualRuns && ReadsVisual(p, AskedIteration(p), w) ==> Names(w.checkpointSha, checkpoint)
  {
    assert AskedIteration(p) == RunIteration(p);
    VisualIsRead(p, RunIteration(p));
    VisualReadIsRecorded(p, RunIteration(p));
    hide LatestVerification, LatestRuntime, LatestVisual, ReadsVisual, RunIteration, AskedIteration;
    var w := LatestVisual(p, RunIteration(p));
    if w.Some? { assert ReadsVisual(p, RunIteration(p), w.value); }
  }

  lemma {:induction false} StaleMeansOther(p: Project, checkpoint: string)
    requires !p.demo && checkpoint != ""
    ensures !Lineage.LineageRejects(p, checkpoint, Lineage.StalePlatformVerification)
            && !Lineage.LineageRejects(p, checkpoint, Lineage.StaleRuntimeEvidence)
            && !Lineage.LineageRejects(p, checkpoint, Lineage.StaleScreenshotEvidence)
            && !Lineage.LineageRejects(p, checkpoint, Lineage.StaleVisualEvidence)
            <==> RunsAreOf(p, checkpoint)
  {
    hide Lineage.LineageRejects, ReadsVerification, ReadsRuntime, ReadsVisual, Names;
    StaleVerificationMeans(p, checkpoint);
    StaleRuntimeMeans(p, checkpoint);
    StaleVisualMeans(p, checkpoint);
  }

  lemma {:induction false} RestOfLineageMeans(p: Project, checkpoint: string)
    requires checkpoint != ""
    ensures !Lineage.LineageRejects(p, checkpoint, Lineage.MockEvidenceUsed)
            && !Lineage.LineageRejects(p, checkpoint, Lineage.MockCheckpointUsed)
            && !Lineage.LineageRejects(p, checkpoint, Lineage.MissingAuthoritativeSpec)
            && !Lineage.LineageRejects(p, checkpoint, Lineage.MissingBaseline)
            && !Lineage.LineageRejects(p, checkpoint, Lineage.MissingFinalCheckpoint)
            && !Lineage.LineageRejects(p, checkpoint, Lineage.MissingFinalReview)
            <==> && p.spec.Some? && p.spec.value.cursorPrompt != "" && p.final.Some?
                 && (!p.demo ==> IsGenuine(p) && CheckpointIsReal(p) && BaselineIsThere(p)
                                 && !IsMade(checkpoint) && Lineage.IsGitObjectId(checkpoint))
  {
    MockMeans(p);
    RealMeans(p);
    hide Lineage.HasMockEvidence, Lineage.HasMockCheckpoint, IsGenuine, CheckpointIsReal, Lineage.IsGitObjectId, LatestAt;
  }

  // The lineage of a delivery is sound exactly when it can be traced back.
  lemma {:induction false} SoundIffTraceable(p: Project)
    ensures Lineage.LineageOk(p) <==> IsTraceable(p)
  {
    hide Lineage.LineageRejects, FinalCheckpoint, RunsAreOf, IsGenuine, CheckpointIsReal, BaselineIsThere, IsMade;
    hide Lineage.IsGitObjectId;
    if !Lineage.LineageOk(p) {
      var x :| Lineage.LineageRejects(p, FinalCheckpoint(p), x);
      EveryLineageReason(x);
    }
    FinalCheckpointIsThere(p);
    RestOfLineageMeans(p, FinalCheckpoint(p));
    if !p.demo { StaleMeansOther(p, FinalCheckpoint(p)); } else { DemosAreNeverStale(p, FinalCheckpoint(p)); }
  }

  lemma {:induction false} EveryLineageReason(x: Lineage.LineageReason)
    ensures || x == Lineage.MockEvidenceUsed || x == Lineage.MockCheckpointUsed || x == Lineage.MissingAuthoritativeSpec
            || x == Lineage.MissingBaseline || x == Lineage.MissingFinalCheckpoint
            || x == Lineage.StalePlatformVerification || x == Lineage.StaleRuntimeEvidence
            || x == Lineage.StaleVisualEvidence || x == Lineage.StaleScreenshotEvidence || x == Lineage.MissingFinalReview
  {
    match x case _ =>
  }

  lemma {:induction false} DemosAreNeverStale(p: Project, checkpoint: string)
    requires p.demo
    ensures !Lineage.LineageRejects(p, checkpoint, Lineage.StalePlatformVerification)
            && !Lineage.LineageRejects(p, checkpoint, Lineage.StaleRuntimeEvidence)
            && !Lineage.LineageRejects(p, checkpoint, Lineage.StaleScreenshotEvidence)
            && !Lineage.LineageRejects(p, checkpoint, Lineage.StaleVisualEvidence)
  {
    hide LatestAt;
  }

  // A git object id is 7 to 64 hexadecimal digits, with white space around it or not; a made-up checkpoint is none.
  lemma {:induction false} MadeUpIsNoGitId(sha: string)
    ensures IsMade(sha) ==> !Lineage.IsGitObjectId(sha)
    ensures Trim(sha) == sha ==>
              (Lineage.IsGitObjectId(sha) <==>
                 6 < |sha| < 65 && forall i :: 0 <= i < |sha| ==> sha[i] in "0123456789abcdefABCDEF")
  {
    if IsMade(sha) {
      assert sha[0] == 'm' || sha[0] == 'u';
      assert TrimLeft(sha) == sha;
      TrimKeepsFirst(sha);
      assert Trim(sha)[0] in Trim(sha) && !Lineage.IsHex(Trim(sha)[0]);
    }
    forall c: char ensures Lineage.IsHex(c) <==> c in "0123456789abcdefABCDEF" { HexDigits(c); }
    hide Trim, Lineage.IsHex;
  }

  lemma {:induction false} HexDigits(c: char)
    ensures Lineage.IsHex(c) <==> c in "0123456789abcdefABCDEF"
  {
    if Lineage.IsHex(c) {
      var digits := "0123456789abcdefABCDEF";
      var i := if c <= '9' then c as int - '0' as int else if c <= 'F' then 16 + (c as int - 'A' as int)
               else 10 + (c as int - 'a' as int);
      assert digits[i] == c;
    }
  }

  lemma {:induction false} TrimKeepsFirst(s: string)
    requires s != "" && !IsSpace(s[0])
    ensures TrimRight(s) != "" && TrimRight(s)[0] == s[0]
  {
    if IsSpace(s[|s| - 1]) { TrimKeepsFirst(s[..|s| - 1]); }
  }
}
