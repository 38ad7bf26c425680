// The project record and everything that hangs off it. Absent text (null, undefined, "") is "".
module Records {
  import opened Text
  import opened States

  // ---- Evidence (src/orchestrator/evidence.js) ----
  datatype Status = Pass | Fail | NotRun | NotApplicable | Unknown
  datatype Provenance = CursorReported | PlatformVerified | AiReviewed | MockReported
  datatype Level = MockLevel | SelfReportedLevel | PlatformVerifiedLevel
  datatype Aspect = Aspect(status: Status, provenance: Provenance)

  datatype Evidence = Evidence(
    level: Level, execution: Aspect, git: Aspect, build: Aspect, tests: Aspect, lint: Aspect,
    runtime: Aspect, functional: Aspect, accessibility: Aspect, visual: Aspect, security: Aspect,
    provisioning: Aspect)

  // ---- Verification (src/verify) ----
  datatype Kind = DependencyInstall | Build | StaticAnalysis | Test | Lint | SecurityCheck
  datatype PolicyLevel = Required | Optional | Inapplicable
  datatype Policy = Policy(
    build: PolicyLevel, tests: PolicyLevel, lint: PolicyLevel, staticAnalysis: PolicyLevel,
    security: PolicyLevel)
  datatype RunStatus = RunPass | RunFail | RunPartial | RunNotRun | RunNotApplicable
  datatype Step = Step(id: string, kind: Kind, required: bool, failed: bool)

  datatype VerificationRun = VerificationRun(
    id: string, iteration: nat, checkpointSha: string, status: RunStatus, completed: bool, mock: bool,
    policy: Policy, steps: seq<Step>, blockingFailures: seq<string>, sandboxMode: string,
    evidencePatch: Option<Evidence>)

  // ---- Runtime and visual runs (src/runtime, src/visual) ----
  datatype RuntimePolicy = RuntimePolicy(runtime: PolicyLevel, visual: PolicyLevel, accessibility: PolicyLevel)
  datatype FailureCode = StartFailed | ReadinessTimeout | ProcessExited | ScenarioFailed | OtherFailure
  datatype Screenshot = Screenshot(id: string, sha256: string, checkpointSha: string)
  datatype RuntimeRun = RuntimeRun(
    id: string, iteration: nat, checkpointSha: string, status: RunStatus, completed: bool, mock: bool,
    policy: RuntimePolicy, blockingFailures: seq<FailureCode>, scenarioFailed: bool,
    accessibility: Option<bool>, accessibilityBlocked: bool,
    screenshots: seq<Screenshot>, screenshotSetHash: string, evidencePatch: Option<Evidence>)

  datatype VisualDecision = VisualComplete | VisualChangesRequired | VisualNotApplicable | VisualNotRun
  datatype VisualRun = VisualRun(
    id: string, iteration: nat, runtimeRunId: string, screenshotSetHash: string, checkpointSha: string,
    status: RunStatus, decision: VisualDecision, blockingFindings: seq<string>, completed: bool,
    mock: bool, heuristic: bool, evidencePatch: Option<Evidence>)

  // ---- Cursor runs (src/orchestrator/orchestrator.js:737-866) ----
  datatype CursorStatus = Started | CursorFailed | RecoveryRequired | Completed
  datatype CursorRun = CursorRun(
    iteration: nat, status: CursorStatus, hasResult: bool, checkpointSha: string, gitCheckpointSha: string,
    gitAfterSha: string, resultSha: string, resultGitSha: string, mockMode: bool, evidence: Option<Evidence>)

  // ---- Council ----
  datatype Spec = Spec(cursorPrompt: string, productName: string)
  datatype Decision = Complete | ChangesRequired | Undecided
  datatype FinalReview = FinalReview(decision: Decision, cursorCount: nat)

  // ---- Provisioning ----
  datatype ProvisioningStatus = ProvPass | ProvFail | ProvNotRun | ProvNotApplicable | ProvRecoveryRequired
  datatype ProvisioningRun = ProvisioningRun(id: string, status: ProvisioningStatus, baselineSha: string)

  // ---- Delivery (src/delivery) ----
  datatype DeliveryStatus = Preparing | Ready | Approved | Superseded | Stale
  // What verificationSetHash hashes; the hash is taken to be injective.
  datatype EvidenceSet = EvidenceSet(
    checkpoint: string, verifyId: string, verifyStatus: Option<RunStatus>, runtimeId: string,
    runtimeStatus: Option<RunStatus>, visualId: string, visualDecision: Option<VisualDecision>,
    sandboxMode: string, securityStatus: Option<Status>)
  datatype DeliveryKey = DeliveryKey(checkpoint: string, evidenceSet: EvidenceSet)
  datatype Package = Package(
    archive: bool, manifestHash: bool, ownerReport: bool, verificationReport: bool, sourceArtifact: bool,
    sourceHashMatches: bool)
  // The random id of a delivery is represented by its version, which LedgerOk keeps unique.
  datatype Delivery = Delivery(
    version: nat, key: DeliveryKey, checkpointSha: string, evidenceSet: EvidenceSet,
    status: DeliveryStatus, current: bool, package: Option<Package>)
  datatype OwnerDecision = OwnerApproves | OwnerRequestsChanges
  datatype OwnerReview = OwnerReview(deliveryVersion: nat, decision: OwnerDecision)

  datatype Operation =
    | NoOperation | DiscoveryOp | ProvisioningOp | CursorOp | VerificationOp | RuntimeOp | VisualOp
    | ReviewOp | FinalOp

  datatype Project = Project(
    id: string,
    demo: bool,
    existingRepository: bool,
    state: State,
    iteration: nat,
    history: seq<Edge>,
    spec: Option<Spec>,
    provisioning: Option<ProvisioningRun>,
    provisioningRuns: seq<ProvisioningRun>,
    repositoryBaseline: string,
    provisioningBaseline: string,
    unprovisionedRepository: bool,
    cursorRuns: seq<CursorRun>,
    verificationRuns: seq<VerificationRun>,
    runtimeRuns: seq<RuntimeRun>,
    visualRuns: seq<VisualRun>,
    runtimePolicy: Option<RuntimePolicy>,
    reviews: map<nat, Decision>,
    final: Option<FinalReview>,
    finalHistory: seq<FinalReview>,
    deliveries: seq<Delivery>,
    ownerReviews: seq<OwnerReview>,
    pendingFeedback: Option<string>,
    evidence: Option<Evidence>,
    verificationLevel: Option<Level>,
    sandboxMode: string,
    operation: Operation,
    error: bool)

  // ---- Reading the record ----

  // spec.cursorPrompt.trim() and a product name (gate.js:20-23)
  predicate HasValidSpec(p: Project) {
    p.spec.Some? && Trim(p.spec.value.cursorPrompt) != "" && p.spec.value.productName != ""
  }

  function LatestCursorRun(p: Project): Option<CursorRun> {
    if p.cursorRuns == [] then None else Some(p.cursorRuns[|p.cursorRuns| - 1])
  }

  // The last element that satisfies a test, or else the last element of all: the
  // lookup that verification, runtime and visual runs share.
  function LastIndexAt<T>(runs: seq<T>, iterationOf: T -> nat, iteration: nat): (r: Option<nat>)
    ensures r.Some? ==> r.value < |runs| && iterationOf(runs[r.value]) == iteration
    ensures r.Some? ==> forall j :: r.value < j < |runs| ==> iterationOf(runs[j]) != iteration
    ensures r.None? ==> forall j :: 0 <= j < |runs| ==> iterationOf(runs[j]) != iteration
  {
    if runs == [] then None
    else if iterationOf(runs[|runs| - 1]) == iteration then Some(|runs| - 1)
    else LastIndexAt(runs[..|runs| - 1], iterationOf, iteration)
  }

  function LatestAt<T>(runs: seq<T>, iterationOf: T -> nat, iteration: nat): Option<T> {
    match LastIndexAt(runs, iterationOf, iteration)
    case Some(i) => Some(runs[i])
    case None => if runs == [] then None else Some(runs[|runs| - 1])
  }

  function LatestVerification(p: Project, iteration: nat): Option<VerificationRun> {
    LatestAt(p.verificationRuns, (r: VerificationRun) => r.iteration, iteration)
  }

  function LatestRuntime(p: Project, iteration: nat): Option<RuntimeRun> {
    LatestAt(p.runtimeRuns, (r: RuntimeRun) => r.iteration, iteration)
  }

  function LatestVisual(p: Project, iteration: nat): Option<VisualRun> {
    LatestAt(p.visualRuns, (r: VisualRun) => r.iteration, iteration)
  }

  // The iteration the gate asks about: the latest run's, or without a run the project's own.
  function RunIteration(p: Project): nat {
    match LatestCursorRun(p)
    case Some(r) => r.iteration
    case None => p.iteration
  }

  // lineage.js:13-24
  function FinalCheckpoint(p: Project): string {
    var sha := match LatestCursorRun(p)
      case Some(r) => Or(r.checkpointSha, Or(r.gitCheckpointSha, Or(r.gitAfterSha, Or(r.resultSha, r.resultGitSha))))
      case None => "";
    if sha != "" then sha
    else if p.demo then "mock:" + p.id + ":" + Decimal(if p.iteration == 0 then 1 else p.iteration)
    else "unverified:" + p.id + ":" + Decimal(if RunIteration(p) == 0 then 1 else RunIteration(p))
  }

  // The shorter chain used by the verification and runtime stages (runtime/pipeline.js:28-44).
  function StageCheckpoint(p: Project): string {
    match LatestCursorRun(p)
    case Some(r) => Or(r.checkpointSha, Or(r.gitCheckpointSha, r.gitAfterSha))
    case None => ""
  }

  // provision/plan.js:77-100
  predicate ProvisioningSucceeded(p: Project) {
    && p.provisioningRuns != []
    && var run := p.provisioningRuns[|p.provisioningRuns| - 1];
    run.status == ProvPass && (run.baselineSha != "" || p.provisioningBaseline != "")
  }

  predicate NeedsProvisioning(p: Project) {
    && !p.existingRepository
    && !(p.provisioning.Some? && p.provisioning.value.status == ProvNotApplicable)
  }

  predicate MustProvision(p: Project) {
    NeedsProvisioning(p) && !ProvisioningSucceeded(p)
  }
}
