// The deterministic completion gate of src/orchestrator/gate.js.
module Gate {
  import opened Text
  import opened Records
  import opened Lineage
  import Verification

  datatype Check = BuildCheck | TestsCheck | LintCheck

  datatype Reason =
    | MockEvidence | MockCheckpoint | MissingSpecification | NoCursorExecution | MissingEvidence
    | ExecutionFailed | VerificationNotRun | AspectFailed(check: Check) | AspectNotRun(check: Check)
    | AspectUnknown(check: Check) | UnprovisionedProject | ProvisioningNotRun | ProvisioningFailed
    | MissingProvisioningBaseline | RuntimeNotRun | StaleRuntime | RuntimeFailed | AccessibilityFailed
    | VisualNotRunYet | StaleScreenshots | BlockingVisualFinding | VisualFailed | DeterministicVisual
    | ReviewNotComplete | FinalNotComplete | SecurityRejected | UnresolvedError | IterationLimitExceeded

  // securityClear is the verdict of applySecurityGate, which reads the process environment.
  datatype Settings = Settings(maxIterations: nat, securityClear: bool)

  function AspectOf(e: Evidence, c: Check): Aspect {
    match c
    case BuildCheck => e.build
    case TestsCheck => e.tests
    case LintCheck => e.lint
  }

  function LevelFor(policy: Policy, c: Check): PolicyLevel {
    match c
    case BuildCheck => policy.build
    case TestsCheck => policy.tests
    case LintCheck => policy.lint
  }

  function KindsFor(c: Check): set<Kind> {
    match c
    case BuildCheck => Verification.BUILD_KINDS
    case TestsCheck => Verification.TEST_KINDS
    case LintCheck => Verification.LINT_KINDS
  }

  predicate ChecksAspect(p: Project, c: Check) {
    var v := LatestVerification(p, RunIteration(p));
    !p.demo && v.Some? && LevelFor(v.value.policy, c) == Required
  }

  predicate RequiresRuntime(p: Project) {
    && !p.demo
    && (|| (p.runtimePolicy.Some? && p.runtimePolicy.value.runtime == Required)
        || (LatestRuntime(p, p.iteration).Some? && LatestRuntime(p, p.iteration).value.policy.runtime == Required))
  }

  predicate RequiresVisual(p: Project) {
    && !p.demo
    && (|| (p.runtimePolicy.Some? && p.runtimePolicy.value.visual == Required)
        || (LatestRuntime(p, p.iteration).Some? && LatestRuntime(p, p.iteration).value.policy.visual == Required))
  }

  predicate IsRuntimeStale(p: Project, r: RuntimeRun) {
    Disagrees(r.checkpointSha, StageCheckpoint(p))
  }

  predicate IsVisualStale(p: Project, w: VisualRun) {
    var last := LatestCursorRun(p);
    var r := LatestRuntime(p, p.iteration);
    || (last.Some? && Disagrees(w.checkpointSha, last.value.checkpointSha))
    || (r.Some? && Disagrees(w.runtimeRunId, r.value.id))
  }

  predicate ScreenshotsStale(p: Project, w: VisualRun) {
    var r := LatestRuntime(p, RunIteration(p));
    IsVisualStale(p, w) || (r.Some? && Disagrees(w.checkpointSha, r.value.checkpointSha))
  }

  // What each reason means.
  predicate Rejects(p: Project, settings: Settings, reason: Reason) {
    var e := MergedEvidence(p);
    match reason
    case MockEvidence => !p.demo && HasMockEvidence(p)
    case MockCheckpoint => !p.demo && HasMockCheckpoint(p)
    case MissingSpecification => !HasValidSpec(p)
    case NoCursorExecution => p.cursorRuns == []
    case MissingEvidence => e.None?
    case ExecutionFailed => e.Some? && e.value.execution.status == Fail
    case VerificationNotRun => !p.demo && p.verificationRuns == []
    case AspectFailed(c) => ChecksAspect(p, c) && e.Some? && AspectOf(e.value, c).status == Fail
    case AspectNotRun(c) => ChecksAspect(p, c) && (e.None? || AspectOf(e.value, c).status == NotRun)
    case AspectUnknown(c) => ChecksAspect(p, c) && e.Some? && AspectOf(e.value, c).status == Unknown
    case UnprovisionedProject => !p.demo && p.unprovisionedRepository
    case ProvisioningNotRun =>
      && !p.demo && !p.existingRepository
      && (|| ProvisioningRecord(p).None?
          || ProvisioningRecord(p).value.status !in {ProvPass, ProvFail, ProvNotApplicable})
    case ProvisioningFailed =>
      && !p.demo && !p.existingRepository
      && ProvisioningRecord(p).Some? && ProvisioningRecord(p).value.status == ProvFail
    case MissingProvisioningBaseline =>
      && !p.demo && !p.existingRepository
      && ProvisioningRecord(p).Some? && ProvisioningRecord(p).value.status == ProvPass
      && ProvisioningRecord(p).value.baselineSha == "" && p.provisioningBaseline == ""
    case ReviewNotComplete =>
      p.cursorRuns == [] || RunIteration(p) !in p.reviews || p.reviews[RunIteration(p)] != Complete
    case FinalNotComplete => p.final.None? || p.final.value.decision != Complete
    case SecurityRejected => !p.demo && !settings.securityClear
    case UnresolvedError => p.error
    case IterationLimitExceeded => p.iteration > settings.maxIterations
    case _ => RuntimeRejects(p, reason) || VisualRejects(p, reason)
  }

  predicate RuntimeRejects(p: Project, reason: Reason) {
    var r := LatestRuntime(p, RunIteration(p));
    && RequiresRuntime(p)
    && match reason
       case RuntimeNotRun => r.None? || (!IsRuntimeStale(p, r.value) && r.value.status == RunNotRun)
       case StaleRuntime => r.Some? && IsRuntimeStale(p, r.value)
       case RuntimeFailed => r.Some? && !IsRuntimeStale(p, r.value) && r.value.status == RunFail
       case AccessibilityFailed =>
         r.Some? && r.value.policy.accessibility == Required && r.value.accessibilityBlocked
       case _ => false
  }

  predicate VisualRejects(p: Project, reason: Reason) {
    var w := LatestVisual(p, RunIteration(p));
    var shown := LatestVisual(p, p.iteration);
    && RequiresVisual(p)
    && match reason
       case VisualNotRunYet =>
         w.None? || (!ScreenshotsStale(p, w.value) && (w.value.status == RunNotRun || w.value.decision == VisualNotRun))
       case StaleScreenshots => w.Some? && ScreenshotsStale(p, w.value)
       case BlockingVisualFinding =>
         && w.Some? && !ScreenshotsStale(p, w.value)
         && w.value.status != RunNotRun && w.value.decision != VisualNotRun
         && (w.value.decision == VisualChangesRequired || w.value.blockingFindings != [])
       case VisualFailed =>
         && w.Some? && !ScreenshotsStale(p, w.value) && w.value.status == RunFail
         && w.value.decision !in {VisualNotRun, VisualChangesRequired} && w.value.blockingFindings == []
       case DeterministicVisual => shown.Some? && shown.value.decision != VisualNotApplicable && shown.value.heuristic
       case _ => false
  }

  ghost predicate GateOk(p: Project, settings: Settings) {
    forall reason :: !Rejects(p, settings, reason)
  }

  // ---- The code: reasons are pushed in branches ----

  predicate IsVerificationReason(x: Reason) {
    x.VerificationNotRun? || x.AspectFailed? || x.AspectNotRun? || x.AspectUnknown?
  }

  // gate.js:47-64
  method VerificationReasons(p: Project, settings: Settings) returns (reasons: seq<Reason>)
    requires !p.demo
    ensures forall x :: x in reasons <==> IsVerificationReason(x) && Rejects(p, settings, x)
  {
    reasons := [];
    var v := LatestVerification(p, RunIteration(p));
    if v.None? {
      assert p.verificationRuns == [];
      return [VerificationNotRun];
    }
    var evidence := MergedEvidence(p);
    var checks := [BuildCheck, TestsCheck, LintCheck];
    for i := 0 to 3
      invariant forall x :: x in reasons <==>
                  IsVerificationReason(x) && !x.VerificationNotRun? && x.check in checks[..i] && Rejects(p, settings, x)
    {
      var c := checks[i];
      assert checks[..i + 1] == checks[..i] + [c];
      if LevelFor(v.value.policy, c) == Required {
        if evidence.Some? && AspectOf(evidence.value, c).status == Fail {
          reasons := reasons + [AspectFailed(c)];
        } else if evidence.None? || AspectOf(evidence.value, c).status == NotRun {
          reasons := reasons + [AspectNotRun(c)];
        } else if AspectOf(evidence.value, c).status == Unknown {
          reasons := reasons + [AspectUnknown(c)];
        }
      }
    }
    assert forall c: Check :: c in checks[..3] by {
      forall c: Check ensures c in checks[..3] {
        assert checks[..3] == checks;
        match c {
          case BuildCheck => assert c == checks[0];
          case TestsCheck => assert c == checks[1];
          case LintCheck => assert c == checks[2];
        }
      }
    }
  }

  predicate IsProvisioningReason(x: Reason) {
    x in {UnprovisionedProject, ProvisioningNotRun, ProvisioningFailed, MissingProvisioningBaseline}
  }

  // gate.js:65-76
  method ProvisioningReasons(p: Project, settings: Settings) returns (reasons: seq<Reason>)
    requires !p.demo
    ensures forall x :: x in reasons <==> IsProvisioningReason(x) && Rejects(p, settings, x)
  {
    reasons := [];
    if p.unprovisionedRepository { reasons := reasons + [UnprovisionedProject]; }
    if !p.existingRepository {
      var record := ProvisioningRecord(p);
      if record.None? || record.value.status == ProvNotRun { reasons := reasons + [ProvisioningNotRun]; }
      else if record.value.status == ProvFail { reasons := reasons + [ProvisioningFailed]; }
      else if record.value.status != ProvPass && record.value.status != ProvNotApplicable {
        reasons := reasons + [ProvisioningNotRun];
      }
      if record.Some? && record.value.status == ProvPass && record.value.baselineSha == "" && p.provisioningBaseline == "" {
        reasons := reasons + [MissingProvisioningBaseline];
      }
    }
  }

  predicate IsRuntimeReason(x: Reason) {
    x in {RuntimeNotRun, StaleRuntime, RuntimeFailed, AccessibilityFailed}
  }

  // gate.js:79-89
  method RuntimeReasons(p: Project) returns (reasons: seq<Reason>)
    ensures forall x :: x in reasons <==> RuntimeRejects(p, x)
  {
    reasons := [];
    if !RequiresRuntime(p) { return; }
    var r := LatestRuntime(p, RunIteration(p));
    if r.None? { return [RuntimeNotRun]; }
    if IsRuntimeStale(p, r.value) { reasons := [StaleRuntime]; }
    else if r.value.status == RunFail { reasons := [RuntimeFailed]; }
    else if r.value.status == RunNotRun { reasons := [RuntimeNotRun]; }
    if r.value.policy.accessibility == Required && r.value.accessibilityBlocked {
      reasons := reasons + [AccessibilityFailed];
    }
  }

  predicate IsVisualReason(x: Reason) {
    x in {VisualNotRunYet, StaleScreenshots, BlockingVisualFinding, VisualFailed, DeterministicVisual}
  }

  // gate.js:91-101
  method VisualReasons(p: Project) returns (reasons: seq<Reason>)
    ensures forall x :: x in reasons <==> VisualRejects(p, x)
  {
    hide LatestVisual, LatestRuntime, LatestVerification, ScreenshotsStale, RunIteration;
    reasons := [];
    if !RequiresVisual(p) { return; }
    var w := LatestVisual(p, RunIteration(p));
    if w.None? { reasons := [VisualNotRunYet]; }
    else if ScreenshotsStale(p, w.value) { reasons := [StaleScreenshots]; }
    else if w.value.status == RunNotRun || w.value.decision == VisualNotRun { reasons := [VisualNotRunYet]; }
    else if w.value.decision == VisualChangesRequired || w.value.blockingFindings != [] { reasons := [BlockingVisualFinding]; }
    else if w.value.status == RunFail { reasons := [VisualFailed]; }
    var shown := LatestVisual(p, p.iteration);
    if shown.Some? && shown.value.decision != VisualNotApplicable && shown.value.heuristic {
      reasons := reasons + [DeterministicVisual];
    }
  }

  lemma {:induction false} OutcomesAreTheirOwn(p: Project, settings: Settings)
    ensures forall x :: IsOutcomeReason(x) ==> !RuntimeRejects(p, x) && !VisualRejects(p, x)
  {
    hide LatestVisual, LatestRuntime, RequiresRuntime, RequiresVisual;
  }

  predicate IsOutcomeReason(x: Reason) {
    x in {ReviewNotComplete, FinalNotComplete, SecurityRejected, UnresolvedError, IterationLimitExceeded}
  }

  // gate.js:103-110
  method OutcomeReasons(p: Project, settings: Settings) returns (reasons: seq<Reason>)
    ensures forall x :: x in reasons <==> IsOutcomeReason(x) && Rejects(p, settings, x)
  {
    hide RunIteration, HasMockEvidence, HasMockCheckpoint, MergedEvidence, HasValidSpec, ChecksAspect, ProvisioningRecord;
    hide RuntimeRejects, VisualRejects, LatestVerification, AspectOf;
    OutcomesAreTheirOwn(p, settings);
    reasons := [];
    if p.cursorRuns == [] || RunIteration(p) !in p.reviews || p.reviews[RunIteration(p)] != Complete {
      reasons := reasons + [ReviewNotComplete];
    }
    if p.final.None? || p.final.value.decision != Complete { reasons := reasons + [FinalNotComplete]; }
    if !p.demo && !settings.securityClear { reasons := reasons + [SecurityRejected]; }
    if p.error { reasons := reasons + [UnresolvedError]; }
    if p.iteration > settings.maxIterations { reasons := reasons + [IterationLimitExceeded]; }
  }

  predicate IsEvidenceReason(x: Reason) {
    x in {MockEvidence, MockCheckpoint, MissingSpecification, NoCursorExecution, MissingEvidence, ExecutionFailed}
  }

  // gate.js:34-45
  method EvidenceReasons(p: Project, settings: Settings) returns (reasons: seq<Reason>)
    ensures forall x :: x in reasons <==> IsEvidenceReason(x) && Rejects(p, settings, x)
  {
    hide HasMockEvidence, HasMockCheckpoint, MergedEvidence, HasValidSpec, LatestVerification, LatestRuntime, LatestVisual;
    reasons := [];
    var mock := CollectMockViolations(p);
    if MockEvidenceUsed in mock { reasons := reasons + [MockEvidence]; }
    if MockCheckpointUsed in mock { reasons := reasons + [MockCheckpoint]; }
    if !HasValidSpec(p) { reasons := reasons + [MissingSpecification]; }
    if LatestCursorRun(p).None? { reasons := reasons + [NoCursorExecution]; }
    var evidence := MergedEvidence(p);
    if evidence.None? { reasons := reasons + [MissingEvidence]; }
    if evidence.Some? && evidence.value.execution.status == Fail { reasons := reasons + [ExecutionFailed]; }
  }

  lemma {:induction false} EveryReasonHasAGroup(x: Reason)
    ensures || IsEvidenceReason(x) || IsVerificationReason(x) || IsProvisioningReason(x)
            || IsRuntimeReason(x) || IsVisualReason(x) || IsOutcomeReason(x)
  {
    match x case _ =>
  }

  lemma {:induction false} GroupMeaning(p: Project, settings: Settings, x: Reason)
    ensures RuntimeRejects(p, x) ==> IsRuntimeReason(x)
    ensures VisualRejects(p, x) ==> IsVisualReason(x)
    ensures IsRuntimeReason(x) ==> (Rejects(p, settings, x) <==> RuntimeRejects(p, x))
    ensures IsVisualReason(x) ==> (Rejects(p, settings, x) <==> VisualRejects(p, x))
    ensures p.demo && (IsVerificationReason(x) || IsProvisioningReason(x)) ==> !Rejects(p, settings, x)
  {
    hide LatestVisual, LatestRuntime, LatestVerification, ScreenshotsStale, RunIteration, RequiresRuntime, RequiresVisual;
    hide HasMockEvidence, HasMockCheckpoint, MergedEvidence, HasValidSpec, ProvisioningRecord, IsRuntimeStale;
  }

  // canCompleteAutonomousWork (gate.js:34-118): the list holds exactly the reasons that apply, so the gate is
  // open exactly when none does.
  method CanCompleteAutonomousWork(p: Project, settings: Settings) returns (ok: bool, reasons: seq<Reason>)
    ensures forall x :: x in reasons <==> Rejects(p, settings, x)
    ensures ok <==> GateOk(p, settings)
  {
    var evidence := EvidenceReasons(p, settings);
    var verification, provisioning: seq<Reason> := [], [];
    if !p.demo {
      verification := VerificationReasons(p, settings);
      provisioning := ProvisioningReasons(p, settings);
    }
    var runtime := RuntimeReasons(p);
    var visual := VisualReasons(p);
    var outcome := OutcomeReasons(p, settings);
    reasons := evidence + verification + provisioning + runtime + visual + outcome;
    ok := reasons == [];
    forall x ensures x in reasons <==> Rejects(p, settings, x) {
      EveryReasonHasAGroup(x);
      GroupMeaning(p, settings, x);
    }
    assert reasons != [] ==> reasons[0] in reasons;
  }

  datatype DeliveryReason =
    | MissingDeliverySnapshot | NoFinalCheckpoint | StaleDeliveryLineage | MissingManifest
    | MissingOwnerReport | MissingVerificationReport | MissingSourceArchive

  predicate DeliveryFault(d: Option<Delivery>, lineageCurrent: bool, x: DeliveryReason) {
    if d.None? || d.value.status != Ready then x == MissingDeliverySnapshot
    else
      || (x == NoFinalCheckpoint && d.value.checkpointSha == "")
      || (x == StaleDeliveryLineage && !lineageCurrent)
      || PackageFault(d.value.package, x)
  }

  predicate PackageFault(package: Option<Package>, x: DeliveryReason) {
    || (x == MissingManifest && (package.None? || !package.value.manifestHash))
    || (x == MissingOwnerReport && (package.None? || !package.value.ownerReport))
    || (x == MissingVerificationReport && (package.None? || !package.value.verificationReport))
    || (x == MissingSourceArchive && (package.None? || !package.value.sourceArtifact))
  }

  predicate DeliveryRejects(p: Project, x: DeliveryReason) {
    var d := CurrentDelivery(p);
    DeliveryFault(d, d.Some? && DeliveryIsCurrent(p, d.value), x)
  }

  ghost predicate ReadyOk(p: Project, settings: Settings) {
    GateOk(p, settings) && forall x :: !DeliveryRejects(p, x)
  }

  // gate.js:124-134
  method DeliveryReasons(d: Option<Delivery>, lineageCurrent: bool) returns (reasons: seq<DeliveryReason>)
    ensures forall x :: x in reasons <==> DeliveryFault(d, lineageCurrent, x)
  {
    if d.None? || d.value.status != Ready { return [MissingDeliverySnapshot]; }
    reasons := [];
    var package := d.value.package;
    if d.value.checkpointSha == "" { reasons := reasons + [NoFinalCheckpoint]; }
    if !lineageCurrent { reasons := reasons + [StaleDeliveryLineage]; }
    if package.None? || !package.value.manifestHash { reasons := reasons + [MissingManifest]; }
    if package.None? || !package.value.ownerReport { reasons := reasons + [MissingOwnerReport]; }
    if package.None? || !package.value.verificationReport { reasons := reasons + [MissingVerificationReport]; }
    if package.None? || !package.value.sourceArtifact { reasons := reasons + [MissingSourceArchive]; }
  }

  // canEnterOwnerReview (gate.js:120-141)
  method CanEnterOwnerReview(p: Project, settings: Settings)
    returns (ok: bool, reasons: seq<Reason>, deliveryReasons: seq<DeliveryReason>)
    ensures forall x :: x in reasons <==> Rejects(p, settings, x)
    ensures forall x :: x in deliveryReasons <==> DeliveryRejects(p, x)
    ensures ok <==> ReadyOk(p, settings)
  {
    var gateOk;
    gateOk, reasons := CanCompleteAutonomousWork(p, settings);
    var d := CurrentDelivery(p);
    deliveryReasons := DeliveryReasons(d, d.Some? && DeliveryIsCurrent(p, d.value));
    ok := gateOk && deliveryReasons == [];
    assert deliveryReasons != [] ==> deliveryReasons[0] in deliveryReasons;
  }

  // ---- Verification soundness, end to end ----

  // The project's evidence carries the technical aspects that `run` produced.
  predicate EvidenceCameFrom(p: Project, run: VerificationRun) {
    var e := MergedEvidence(p);
    e.Some? && forall c: Check ::
      AspectOf(e.value, c) == Verification.AspectFor(run.steps, KindsFor(c), LevelFor(run.policy, c))
  }

  // evidenceFromVerification establishes that link, and neither the runtime nor the visual stage breaks it.
  lemma {:induction false} EvidenceLinkIsEstablishedAndKept(p: Project, run: VerificationRun, security: Aspect,
                                         r: RuntimeRun, w: VisualRun)
    requires !p.demo && !run.mock && !r.mock && !w.mock
    ensures var p1 := p.(evidence := Some(Verification.EvidenceFromVerification(p, run, security)));
            var p2 := p1.(evidence := Some(Verification.EvidenceFromRuntime(p1, r)));
            var p3 := p2.(evidence := Some(Verification.EvidenceFromVisual(p2, w)));
            EvidenceCameFrom(p1, run) && EvidenceCameFrom(p2, run) && EvidenceCameFrom(p3, run)
  {
  }

  // If the gate accepts a real project whose evidence came from its latest verification run, then every aspect
  // that run's policy makes REQUIRED really had a matching step executed, and no matching step failed.
  lemma {:induction false} AcceptedMeansRequiredStepsRanAndPassed(p: Project, settings: Settings, run: VerificationRun, c: Check)
    requires !p.demo && GateOk(p, settings)
    requires LatestVerification(p, RunIteration(p)) == Some(run) && EvidenceCameFrom(p, run)
    requires LevelFor(run.policy, c) == Required
    ensures Verification.Ran(run.steps, KindsFor(c)) && !Verification.FailedIn(run.steps, KindsFor(c))
  {
    Verification.AspectTellsTheTruth(run.steps, KindsFor(c), Required);
    assert !Rejects(p, settings, AspectFailed(c)) && !Rejects(p, settings, AspectNotRun(c));
  }

  function PolicyAspectOf(c: Check): Verification.PolicyAspect {
    match c
    case BuildCheck => Verification.BuildPolicy
    case TestsCheck => Verification.TestsPolicy
    case LintCheck => Verification.LintPolicy
  }

  lemma {:induction false} NothingWasStopped(plan: seq<Verification.Planned>, policy: Policy,
                                             results: seq<Verification.Executed>, kinds: set<Kind>)
    requires |results| == |plan| && Verification.InOrder(plan) && DependencyInstall !in kinds
    requires Verification.Ran(Verification.StepsRun(plan, policy, results), kinds)
    ensures forall s :: s in Verification.StepsRun(plan, policy, results) ==> !Verification.Stops(s)
    ensures |Verification.StepsRun(plan, policy, results)| == |plan|
  {
    var steps := Verification.StepsRun(plan, policy, results);
    Verification.OnlyTheLastStepStops(plan, policy, results, |plan|);
    if Verification.Stops(steps[|steps| - 1]) {
      Verification.FailedInstallStopsEverything(plan, policy, results, |steps| - 1);
    }
  }

  // The same from the detected tool chains down to the command results: when one tool chain requires an
  // aspect and the gate accepts, some command of that kind was run from the sorted plan and all of them
  // exited cleanly, so no required installation had failed before.
  lemma {:induction false} RequiredByAToolchainAndAcceptedMeansItPassed(
    p: Project, settings: Settings, run: VerificationRun, c: Check,
    toolchains: seq<Policy>, planned: seq<Verification.Planned>, results: seq<Verification.Executed>)
    requires !p.demo && GateOk(p, settings)
    requires LatestVerification(p, RunIteration(p)) == Some(run) && EvidenceCameFrom(p, run)
    requires run.policy == Verification.MergePolicy(toolchains) && |results| == |planned|
    requires run.steps == Verification.StepsRun(Verification.SortSteps(planned), run.policy, results)
    requires Verification.SomeRequires(toolchains, PolicyAspectOf(c))
    ensures Verification.Ran(run.steps, KindsFor(c)) && !Verification.FailedIn(run.steps, KindsFor(c))
    ensures forall s :: s in run.steps ==> !Verification.Stops(s)
    ensures |run.steps| == |planned|
  {
    Verification.MergeRequiresIffSomeToolchainDoes(toolchains, PolicyAspectOf(c));
    AcceptedMeansRequiredStepsRanAndPassed(p, settings, run, c);
    Verification.SortStepsIsAStableSort(planned);
    NothingWasStopped(Verification.SortSteps(planned), run.policy, results, KindsFor(c));
  }
}
