// Mock policy, evidence lineage and current delivery (src/orchestrator/mock-policy.js, src/delivery/lineage.js).
module Lineage {
  import opened Text
  import opened Records
  import Verification

  // ---- mock-policy.js ----

  predicate IsHex(c: char) {
    '0' <= c <= '9' || 'a' <= c <= 'f' || 'A' <= c <= 'F'
  }

  predicate IsGitObjectId(sha: string) {
    var s := Trim(sha);
    7 <= |s| <= 64 && forall c :: c in s ==> IsHex(c)
  }

  predicate IsMockCheckpoint(sha: string) {
    StartsWith(sha, "mock:")
  }

  predicate IsSyntheticCheckpoint(sha: string) {
    StartsWith(sha, "mock:") || StartsWith(sha, "unverified:")
  }

  function Aspects(e: Evidence): seq<Aspect> {
    [e.execution, e.git, e.build, e.tests, e.lint, e.runtime, e.functional, e.accessibility, e.visual,
     e.security, e.provisioning]
  }

  // Every stored evidence record is canonical and carries all aspects, so merging the
  // run's record with the project's gives the project's own whenever there is one.
  function MergedEvidence(p: Project): Option<Evidence> {
    Verification.PreviousEvidence(p)
  }

  predicate HasMockEvidence(p: Project) {
    var e := MergedEvidence(p);
    || (e.Some? && e.value.level == MockLevel)
    || p.verificationLevel == Some(MockLevel)
    || (e.Some? && exists a :: a in Aspects(e.value) && a.provenance == MockReported)
    || (p.cursorRuns != [] && p.cursorRuns[|p.cursorRuns| - 1].mockMode)
    || (p.runtimeRuns != [] && p.runtimeRuns[|p.runtimeRuns| - 1].mock)
    || (p.visualRuns != [] && p.visualRuns[|p.visualRuns| - 1].mock)
    || (p.verificationRuns != [] && p.verificationRuns[|p.verificationRuns| - 1].mock)
    || p.sandboxMode == "MOCK"
  }

  function PolicyCheckpoint(p: Project): string {
    var run := LatestCursorRun(p);
    var d := CurrentDelivery(p);
    Or(if run.Some? then Or(run.value.checkpointSha, run.value.gitCheckpointSha) else "",
       if d.Some? then d.value.checkpointSha else "")
  }

  predicate HasMockCheckpoint(p: Project) {
    IsSyntheticCheckpoint(PolicyCheckpoint(p))
  }

  // ---- lineage.js ----

  function FirstCurrent(ds: seq<Delivery>): (r: Option<nat>)
    ensures r.Some? ==> r.value < |ds| && ds[r.value].current && forall j :: 0 <= j < r.value ==> !ds[j].current
    ensures r.None? ==> forall j :: 0 <= j < |ds| ==> !ds[j].current
  {
    if ds == [] then None
    else if ds[0].current then Some(0)
    else match FirstCurrent(ds[1..]) case Some(i) => Some(i + 1) case None => None
  }

  function CurrentIndex(ds: seq<Delivery>): (r: Option<nat>)
    ensures r.Some? ==> r.value < |ds|
    ensures r.None? <==> ds == []
  {
    match FirstCurrent(ds)
    case Some(i) => Some(i)
    case None => if ds == [] then None else Some(|ds| - 1)
  }

  function CurrentDelivery(p: Project): Option<Delivery> {
    match CurrentIndex(p.deliveries)
    case Some(i) => Some(p.deliveries[i])
    case None => None
  }

  function EvidenceSetOf(p: Project): EvidenceSet {
    var v := LatestVerification(p, RunIteration(p));
    var r := LatestRuntime(p, RunIteration(p));
    var w := LatestVisual(p, RunIteration(p));
    EvidenceSet(
      FinalCheckpoint(p),
      if v.Some? then v.value.id else "none", if v.Some? then Some(v.value.status) else None,
      if r.Some? then r.value.id else "none", if r.Some? then Some(r.value.status) else None,
      if w.Some? then w.value.id else "none", if w.Some? then Some(w.value.decision) else None,
      p.sandboxMode,
      if p.sandboxMode == "" && p.evidence.Some? then Some(p.evidence.value.security.status) else None)
  }

  function DeliveryKeyOf(p: Project): DeliveryKey {
    DeliveryKey(FinalCheckpoint(p), EvidenceSetOf(p))
  }

  predicate DeliveryIsCurrent(p: Project, d: Delivery) {
    && d.status != Stale && d.status != Superseded
    && d.checkpointSha == FinalCheckpoint(p)
    && d.evidenceSet == EvidenceSetOf(p)
  }

  datatype LineageReason =
    | MockEvidenceUsed | MockCheckpointUsed | MissingAuthoritativeSpec | MissingBaseline
    | MissingFinalCheckpoint | StalePlatformVerification | StaleRuntimeEvidence | StaleVisualEvidence
    | StaleScreenshotEvidence | MissingFinalReview

  // The provisioning record the checks read: project.provisioning, else the latest run.
  function ProvisioningRecord(p: Project): Option<ProvisioningRun> {
    if p.provisioning.Some? then p.provisioning
    else if p.provisioningRuns == [] then None
    else Some(p.provisioningRuns[|p.provisioningRuns| - 1])
  }

  predicate Disagrees(recorded: string, checkpoint: string) {
    recorded != "" && checkpoint != "" && recorded != checkpoint
  }

  // What each reason means.
  predicate LineageRejects(p: Project, checkpoint: string, reason: LineageReason) {
    var v := LatestVerification(p, RunIteration(p));
    var r := LatestRuntime(p, RunIteration(p));
    var w := LatestVisual(p, RunIteration(p));
    match reason
    case MockEvidenceUsed => !p.demo && HasMockEvidence(p)
    case MockCheckpointUsed =>
      !p.demo && (HasMockCheckpoint(p) || IsSyntheticCheckpoint(checkpoint) || !IsGitObjectId(checkpoint))
    case MissingAuthoritativeSpec => p.spec.None? || p.spec.value.cursorPrompt == ""
    case MissingBaseline =>
      && !p.demo && ProvisioningRecord(p).Some? && ProvisioningRecord(p).value.status == ProvPass
      && ProvisioningRecord(p).value.baselineSha == "" && p.provisioningBaseline == ""
    case MissingFinalCheckpoint => checkpoint == ""
    case StalePlatformVerification =>
      !p.demo && v.Some? && v.value.checkpointSha != "none" && Disagrees(v.value.checkpointSha, checkpoint)
    case StaleRuntimeEvidence => !p.demo && r.Some? && Disagrees(r.value.checkpointSha, checkpoint)
    case StaleVisualEvidence => !p.demo && w.Some? && Disagrees(w.value.checkpointSha, checkpoint)
    case StaleScreenshotEvidence =>
      && !p.demo && r.Some?
      && exists s :: s in r.value.screenshots && s.checkpointSha != "" && s.checkpointSha != checkpoint
    case MissingFinalReview => p.final.None?
  }

  ghost predicate LineageOk(p: Project) {
    forall reason :: !LineageRejects(p, FinalCheckpoint(p), reason)
  }

  // collectRealProjectMockViolations (mock-policy.js:47-84)
  method CollectMockViolations(p: Project) returns (reasons: seq<LineageReason>)
    ensures forall x :: x in reasons <==>
              !p.demo && ((x == MockEvidenceUsed && HasMockEvidence(p)) || (x == MockCheckpointUsed && HasMockCheckpoint(p)))
  {
    reasons := [];
    if p.demo { return; }
    if HasMockEvidence(p) { reasons := reasons + [MockEvidenceUsed]; }
    if HasMockCheckpoint(p) { reasons := reasons + [MockCheckpointUsed]; }
  }

  // validateEvidenceLineage (lineage.js:49-100): the list holds exactly the reasons that apply.
  method ValidateEvidenceLineage(p: Project, checkpoint: string) returns (reasons: seq<LineageReason>)
    ensures forall x :: x in reasons <==> LineageRejects(p, checkpoint, x)
  {
    reasons := CollectMockViolations(p);
    if p.spec.None? || p.spec.value.cursorPrompt == "" { reasons := reasons + [MissingAuthoritativeSpec]; }
    var provisioning := ProvisioningRecord(p);
    if !p.demo && provisioning.Some? && provisioning.value.status == ProvPass {
      if Or(provisioning.value.baselineSha, p.provisioningBaseline) == "" { reasons := reasons + [MissingBaseline]; }
    }
    if checkpoint == "" { reasons := reasons + [MissingFinalCheckpoint]; }
    if !p.demo && (IsMockCheckpoint(checkpoint) || IsSyntheticCheckpoint(checkpoint) || !IsGitObjectId(checkpoint)) {
      reasons := reasons + [MockCheckpointUsed];
    }
    if !p.demo {
      var stale := StaleReasons(p, checkpoint);
      reasons := reasons + stale;
    }
    if p.final.None? { reasons := reasons + [MissingFinalReview]; }
  }

  method StaleReasons(p: Project, checkpoint: string) returns (reasons: seq<LineageReason>)
    requires !p.demo
    ensures forall x :: x in reasons <==>
              && x in {StalePlatformVerification, StaleRuntimeEvidence, StaleVisualEvidence, StaleScreenshotEvidence}
              && LineageRejects(p, checkpoint, x)
  {
    var v := LatestVerification(p, RunIteration(p));
    var r := LatestRuntime(p, RunIteration(p));
    var w := LatestVisual(p, RunIteration(p));
    reasons := [];
    if v.Some? && v.value.checkpointSha != "none" && Disagrees(v.value.checkpointSha, checkpoint) {
      reasons := reasons + [StalePlatformVerification];
    }
    if r.Some? && Disagrees(r.value.checkpointSha, checkpoint) { reasons := reasons + [StaleRuntimeEvidence]; }
    if w.Some? && Disagrees(w.value.checkpointSha, checkpoint) { reasons := reasons + [StaleVisualEvidence]; }
    if r.Some? && exists s :: s in r.value.screenshots && s.checkpointSha != "" && s.checkpointSha != checkpoint {
      reasons := reasons + [StaleScreenshotEvidence];
    }
  }
}
