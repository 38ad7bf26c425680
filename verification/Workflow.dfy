// The workflow engine of src/orchestrator/orchestrator.js as a function of the stored project and of what the
// outside world answers. Every `store.save` is one element of `saves`; a handler that throws loses what it
// changed in memory since its last save; a crash is a truncation of `saves`.
module Workflow {
  import opened Text
  import opened States
  import opened Records
  import opened Lineage
  import Gate
  import Delivery
  import Verification

  datatype Config = Config(maxIterations: nat, demo: bool, queue: bool)

  // ---- What the outside world answers ----

  datatype Discovery = DiscoveryFails | DiscoveryGives(spec: Spec, planFails: bool)
  datatype CursorResult = CursorResult(
    checkpointSha: string, gitCheckpointSha: string, gitAfterSha: string, resultSha: string,
    resultGitSha: string, mockMode: bool, evidence: Evidence)
  datatype CursorAnswer = CursorThrows | CursorGives(result: CursorResult) | CursorSaveFails(result: CursorResult)
  datatype GitSnapshot = GitSnapshot(sha: string, dirty: bool)

  datatype Answers = Answers(
    discovery: Discovery,
    feedbackPrompt: string,
    provisioning: Option<ProvisioningRun>,
    workspacePrepared: bool,
    git: Option<GitSnapshot>,
    cursor: CursorAnswer,
    verification: Option<VerificationRun>,
    security: Aspect,
    runtime: Option<RuntimeRun>,
    visual: Option<VisualRun>,
    review: Option<Decision>,
    final: Option<Decision>,
    packaged: Option<Package>,
    securityClear: bool)

  // The world answers each question in view of the project as it stands when the question is put.
  type World = Project -> Answers

  // ---- Executions ----

  datatype Code =
    | InvalidTransition | MaxIterationsReached | ProvisioningMissing | StageFailed | GateRejected
    | LineageInvalid | RecoveryFailed | DecisionRejected(error: Delivery.DecisionError) | RetryNotEligible
  datatype Outcome = Ok | Threw(code: Code)
  datatype Exec = Exec(saves: seq<Project>, last: Project, outcome: Outcome)

  function Silent(p: Project): Exec { Exec([], p, Ok) }
  function Save(p: Project): Exec { Exec([p], p, Ok) }
  function Raise(p: Project, c: Code): Exec { Exec([], p, Threw(c)) }

  // One after the other; the second is not reached when the first throws.
  function Seq(first: Exec, second: Exec): Exec {
    if first.outcome.Ok? then Exec(first.saves + second.saves, second.last, second.outcome) else first
  }

  // A handler that saves what it has so far before it passes the error on.
  function SaveOnThrow(e: Exec): Exec {
    if e.outcome.Threw? then Exec(e.saves + [e.last], e.last, e.outcome) else e
  }

  // What store.get returns afterwards.
  function Stored(p: Project, e: Exec): Project {
    if e.saves == [] then p else e.saves[|e.saves| - 1]
  }

  // ---- Small helpers ----

  function Transition(p: Project, to: State): Exec {
    if Legal(p.state, to) then Save(p.(state := to, history := p.history + [Edge(p.state, to)]))
    else Raise(p, InvalidTransition)
  }

  function Enter(p: Project, to: State): Exec {
    if p.state != to then Transition(p, to) else Silent(p)
  }

  function StageIteration(p: Project): nat { if p.iteration == 0 then 1 else p.iteration }

  function LastSha(p: Project): string {
    match LatestCursorRun(p) case Some(r) => r.checkpointSha case None => ""
  }

  // A recorded checkpoint is current unless the latest Cursor run names another one.
  predicate StillCurrent(p: Project, checkpoint: string) {
    LastSha(p) == "" || checkpoint == LastSha(p)
  }

  function WithLastEvidence(p: Project, e: Option<Evidence>): Project {
    if p.cursorRuns == [] || e.None? then p
    else p.(cursorRuns := p.cursorRuns[|p.cursorRuns| - 1 := p.cursorRuns[|p.cursorRuns| - 1].(evidence := e)])
  }

  function FirstOf(a: Option<Evidence>, b: Option<Evidence>): Option<Evidence> {
    if a.Some? then a else b
  }

  // Adding a run replaces the one with its id and puts it last.
  function Without<T>(runs: seq<T>, id: T -> string, drop: string): seq<T> {
    if runs == [] then []
    else (if id(runs[0]) == drop then [] else [runs[0]]) + Without(runs[1..], id, drop)
  }

  function AddVerification(runs: seq<VerificationRun>, run: VerificationRun): seq<VerificationRun> {
    Without(runs, (r: VerificationRun) => r.id, run.id) + [run]
  }

  function AddRuntime(runs: seq<RuntimeRun>, run: RuntimeRun): seq<RuntimeRun> {
    Without(runs, (r: RuntimeRun) => r.id, run.id) + [run]
  }

  function AddVisual(runs: seq<VisualRun>, run: VisualRun): seq<VisualRun> {
    Without(runs, (r: VisualRun) => r.id, run.id) + [run]
  }

  function AddProvisioning(runs: seq<ProvisioningRun>, run: ProvisioningRun): seq<ProvisioningRun> {
    Without(runs, (r: ProvisioningRun) => r.id, run.id) + [run]
  }

  // The first element that passes a test: Array.prototype.find.
  function Find<T>(xs: seq<T>, test: T -> bool): Option<T> {
    if xs == [] then None else if test(xs[0]) then Some(xs[0]) else Find(xs[1..], test)
  }

  // ---- Visual verification (orchestrator.js:658-710) ----

  function FindReusableVisual(p: Project): Option<VisualRun> {
    var runtime := LatestRuntime(p, p.iteration);
    if runtime.None? then None
    else Find(p.visualRuns, (w: VisualRun) =>
      w.runtimeRunId == runtime.value.id && w.screenshotSetHash == runtime.value.screenshotSetHash
      && w.decision == VisualComplete && w.completed)
  }

  function FinishVisual(cfg: Config, world: World, p: Project): Exec {
    var reused := FindReusableVisual(p);
    var existing := LatestVisual(p, p.iteration);
    if reused.Some? then
      var q := p.(evidence := FirstOf(reused.value.evidencePatch, p.evidence),
                  visualRuns := AddVisual(p.visualRuns, reused.value));
      Seq(Save(q), Transition(q, CouncilReview))
    else if existing.Some? && existing.value.completed && StillCurrent(p, existing.value.checkpointSha) then
      Transition(p, CouncilReview)
    else PerformVisual(world, p)
  }

  function PerformVisual(world: World, p: Project): Exec {
    var q := p.(operation := VisualOp);
    Seq(Save(q),
      match world(q).visual
      case None => SaveOnThrow(Raise(q, StageFailed))
      case Some(run) => var r := RecordVisual(q, run); Seq(Save(r), SaveOnThrow(Transition(r, CouncilReview))))
  }

  function RecordVisual(p: Project, run: VisualRun): Project {
    var patch := Some(Verification.EvidenceFromVisual(p, run));
    var done := run.(iteration := StageIteration(p), completed := true, evidencePatch := patch);
    WithLastEvidence(p.(visualRuns := AddVisual(p.visualRuns, done), evidence := patch), patch)
  }

  function EnterVisual(cfg: Config, world: World, p: Project): Exec {
    var e := Enter(p, VisualVerification);
    if cfg.queue then e else Seq(e, FinishVisual(cfg, world, e.last))
  }

  // ---- Runtime verification (orchestrator.js:594-656) ----

  predicate ShouldSkipVisual(p: Project, runtime: Option<RuntimeRun>) {
    || p.demo
    || runtime.None?
    || runtime.value.policy.visual == Inapplicable
    || (runtime.value.status == RunFail
        && exists c :: c in runtime.value.blockingFailures && c in {StartFailed, ReadinessTimeout, ProcessExited})
  }

  function FindReusableRuntime(p: Project): Option<RuntimeRun> {
    Find(p.runtimeRuns, (r: RuntimeRun) =>
      r.iteration == p.iteration && r.checkpointSha == StageCheckpoint(p) && r.status == RunPass && r.completed)
  }

  function AfterRuntime(cfg: Config, world: World, p: Project, run: RuntimeRun): Exec {
    if run.blockingFailures != [] || ShouldSkipVisual(p, Some(run)) then Transition(p, CouncilReview)
    else EnterVisual(cfg, world, p)
  }

  function RecordRuntime(p: Project, run: RuntimeRun): (Project, RuntimeRun) {
    var patch := Some(Verification.EvidenceFromRuntime(p, run));
    var done := run.(iteration := StageIteration(p), completed := true, evidencePatch := patch);
    (WithLastEvidence(p.(runtimeRuns := AddRuntime(p.runtimeRuns, done), evidence := patch), patch), done)
  }

  function FinishRuntime(cfg: Config, world: World, p: Project): Exec {
    var reused := FindReusableRuntime(p);
    var existing := LatestRuntime(p, p.iteration);
    if reused.Some? then
      var q := p.(evidence := FirstOf(reused.value.evidencePatch, p.evidence),
                  runtimeRuns := AddRuntime(p.runtimeRuns, reused.value));
      Seq(Save(q), AfterRuntime(cfg, world, q, reused.value))
    else if existing.Some? && existing.value.completed && StillCurrent(p, existing.value.checkpointSha) then
      AfterRuntime(cfg, world, p, existing.value)
    else PerformRuntime(cfg, world, p)
  }

  function PerformRuntime(cfg: Config, world: World, p: Project): Exec {
    var q := p.(operation := RuntimeOp);
    Seq(Save(q),
      match world(q).runtime
      case None => SaveOnThrow(Raise(q, StageFailed))
      case Some(run) =>
        var (r, done) := RecordRuntime(q, run);
        Seq(Save(r), AfterRuntime(cfg, world, r, done)))
  }

  function EnterRuntime(cfg: Config, world: World, p: Project): Exec {
    var e := Enter(p, RuntimeVerification);
    if cfg.queue then e else Seq(e, FinishRuntime(cfg, world, e.last))
  }

  // ---- Platform verification (orchestrator.js:499-592) ----

  predicate ShouldSkipRuntime(p: Project, verification: Option<VerificationRun>) {
    || p.demo
    || (p.evidence.Some? && p.evidence.value.level == MockLevel)
    || (verification.Some? && (verification.value.mock || verification.value.blockingFailures != []))
  }

  function FindReusableVerification(p: Project): Option<VerificationRun> {
    var sha := Or(StageCheckpoint(p), Or(p.repositoryBaseline, "none"));
    var same := Find(p.verificationRuns, (v: VerificationRun) =>
      v.iteration == p.iteration && v.checkpointSha == sha && v.status == RunPass && v.completed);
    if same.Some? || sha == "none" then same
    else Find(p.verificationRuns, (v: VerificationRun) => v.checkpointSha == sha && v.status == RunPass && v.completed)
  }

  function AfterPlatform(cfg: Config, world: World, p: Project, run: VerificationRun): Exec {
    if ShouldSkipRuntime(p, Some(run)) then Transition(p, CouncilReview) else EnterRuntime(cfg, world, p)
  }

  function RecordVerification(p: Project, run: VerificationRun, security: Aspect): (Project, VerificationRun) {
    var patch := Verification.EvidenceFromVerification(p, run, security);
    var done := run.(iteration := StageIteration(p), completed := true, evidencePatch := Some(patch));
    var q := p.(verificationRuns := AddVerification(p.verificationRuns, done),
                sandboxMode := Or(run.sandboxMode, p.sandboxMode),
                evidence := Some(patch),
                verificationLevel := if !run.mock && patch.level != MockLevel then Some(patch.level) else p.verificationLevel);
    (WithLastEvidence(q, Some(patch)), done)
  }

  function ReusedEvidence(p: Project, run: VerificationRun, security: Aspect): Evidence {
    if run.evidencePatch.Some? then run.evidencePatch.value else Verification.EvidenceFromVerification(p, run, security)
  }

  function ReuseVerification(p: Project, run: VerificationRun, security: Aspect): Project {
    var patch := ReusedEvidence(p, run, security);
    var level := if patch.level != MockLevel && run.evidencePatch.Some? then Some(patch.level) else p.verificationLevel;
    WithLastEvidence(p.(evidence := Some(patch), verificationLevel := level), Some(patch))
  }

  function FinishPlatform(cfg: Config, world: World, p: Project): Exec {
    var reused := FindReusableVerification(p);
    var existing := LatestVerification(p, p.iteration);
    if reused.Some? then
      var q := ReuseVerification(p, reused.value, world(p).security);
      Seq(Save(q), AfterPlatform(cfg, world, q, reused.value))
    else if existing.Some? && existing.value.completed && StillCurrent(p, existing.value.checkpointSha) then
      var q := WithLastEvidence(p, FirstOf(existing.value.evidencePatch, p.evidence));
      AfterPlatform(cfg, world, q, existing.value)
    else PerformVerification(cfg, world, p)
  }

  function PerformVerification(cfg: Config, world: World, p: Project): Exec {
    var q := p.(operation := VerificationOp);
    Seq(Save(q),
      match world(q).verification
      case None => SaveOnThrow(Raise(q, StageFailed))
      case Some(run) =>
        var (r, done) := RecordVerification(q, run, world(q).security);
        Seq(Save(r), SaveOnThrow(AfterPlatform(cfg, world, r, done))))
  }

  function EnterPlatform(cfg: Config, world: World, p: Project): Exec {
    var e := Enter(p, PlatformVerification);
    if cfg.queue then e else Seq(e, FinishPlatform(cfg, world, e.last))
  }

  // ---- Cursor (orchestrator.js:449-497, 712-866) ----

  function FindStarted(runs: seq<CursorRun>, iteration: nat): (r: Option<nat>)
    ensures r.Some? ==> r.value < |runs| && runs[r.value].iteration == iteration && !runs[r.value].hasResult
    ensures r.None? ==> forall i :: 0 <= i < |runs| ==> runs[i].iteration == iteration ==> runs[i].hasResult
  {
    if runs == [] then None
    else if runs[0].iteration == iteration && !runs[0].hasResult then Some(0)
    else match FindStarted(runs[1..], iteration) case Some(i) => Some(i + 1) case None => None
  }

  function FreshRun(iteration: nat): CursorRun {
    CursorRun(iteration, Started, false, "", "", "", "", "", false, None)
  }

  function FinishedRun(iteration: nat, r: CursorResult): CursorRun {
    CursorRun(iteration, Completed, true, r.checkpointSha, r.gitCheckpointSha, r.gitAfterSha, r.resultSha,
              r.resultGitSha, r.mockMode, Some(r.evidence))
  }

  // The runs with the one to execute marked as started, and its index.
  function StartRun(runs: seq<CursorRun>, iteration: nat): (r: (nat, seq<CursorRun>))
    ensures r.0 < |r.1|
  {
    match FindStarted(runs, iteration)
    case Some(i) => (i, runs[i := runs[i].(status := Started)])
    case None => (|runs|, runs + [FreshRun(iteration)])
  }

  function FinishRun(p: Project, i: nat, run: CursorRun): Project
    requires i < |p.cursorRuns|
  {
    p.(cursorRuns := p.cursorRuns[i := run], evidence := run.evidence,
       verificationLevel := if run.evidence.Some? then Some(run.evidence.value.level) else p.verificationLevel)
  }

  function ExecuteCursor(world: World, p: Project): Exec {
    var (i, runs) := StartRun(p.cursorRuns, p.iteration);
    var q := p.(operation := CursorOp, cursorRuns := runs);
    Seq(Save(q), ReportCursor(world, i, q))
  }

  function ReportCursor(world: World, i: nat, q: Project): Exec
    requires i < |q.cursorRuns|
  {
    var answer := world(q).cursor;
    if answer.CursorThrows? || answer.result.evidence.execution.status == Fail then
      var failed := q.(cursorRuns := q.cursorRuns[i := q.cursorRuns[i].(status := CursorFailed)]);
      Seq(Save(failed), Raise(failed, StageFailed))
    else
      var run := FinishedRun(q.iteration, answer.result);
      if answer.CursorSaveFails? then
        var r := FinishRun(q, i, run.(status := RecoveryRequired));
        Seq(Save(r), Raise(r, StageFailed))
      else Save(FinishRun(q, i, run))
  }

  function RunCursor(cfg: Config, world: World, p: Project): Exec {
    var e := ExecuteCursor(world, p);
    Seq(e, EnterPlatform(cfg, world, e.last))
  }

  function OpenIteration(p: Project): Exec {
    var q := p.(iteration := p.iteration + 1);
    if q.state != CursorExecuting then Transition(q, CursorExecuting) else Save(q)
  }

  // requestCursorRun({ increment: true, execute })
  function RequestCursorRun(cfg: Config, world: World, p: Project, execute: bool): Exec {
    if MustProvision(p) then Raise(p, ProvisioningMissing)
    else if p.iteration >= cfg.maxIterations then Raise(p, MaxIterationsReached)
    else
      var e := OpenIteration(p);
      if execute then Seq(e, RunCursor(cfg, world, e.last)) else e
  }

  function PrepareInterruptedCursor(world: World, p: Project): Exec {
    var last := LatestCursorRun(p);
    var git := world(p).git;
    if last.None? || last.value.hasResult || git.None? then Silent(p)
    else
      var i := |p.cursorRuns| - 1;
      if last.value.checkpointSha != "" && last.value.checkpointSha == git.value.sha && !git.value.dirty then
        Save(p.(cursorRuns := p.cursorRuns[i :=
                  last.value.(status := Completed, hasResult := true, resultGitSha := last.value.checkpointSha)]))
      else if git.value.dirty then
        Save(p.(cursorRuns := p.cursorRuns[i := last.value.(status := RecoveryRequired)]))
      else Silent(p)
  }

  predicate HasResultForIteration(p: Project) {
    && LatestCursorRun(p).Some?
    && LatestCursorRun(p).value.iteration == p.iteration
    && LatestCursorRun(p).value.hasResult
  }

  function FinishOrReplayCursor(cfg: Config, world: World, p: Project): Exec {
    if HasResultForIteration(p) then EnterPlatform(cfg, world, p)
    else
      var e := PrepareInterruptedCursor(world, p.(iteration := StageIteration(p)));
      Seq(e,
        if HasResultForIteration(e.last) && LatestCursorRun(e.last).value.status == Completed
        then EnterPlatform(cfg, world, e.last)
        else RunCursor(cfg, world, e.last))
  }

  // ---- Provisioning (orchestrator.js:386-447, provision/pipeline.js:255-292) ----

  function ApplyProvisioning(p: Project, run: ProvisioningRun): Project {
    p.(provisioningRuns := AddProvisioning(p.provisioningRuns, run),
       provisioning := Some(run),
       provisioningBaseline := Or(run.baselineSha, p.provisioningBaseline),
       repositoryBaseline := Or(p.repositoryBaseline, run.baselineSha),
       unprovisionedRepository := p.unprovisionedRepository && run.baselineSha == "",
       evidence := if p.evidence.None? then None
                   else Some(p.evidence.value.(provisioning :=
                     Aspect(if run.status == ProvPass then Pass else Fail, PlatformVerified))))
  }

  // A provisioning that throws may already have created the empty workspace (provision/pipeline.js:114-115).
  function PrepareWorkspace(p: Project, prepared: bool): Project {
    p.(unprovisionedRepository := p.unprovisionedRepository || prepared)
  }

  function FinishProvisioning(cfg: Config, world: World, p: Project): Exec {
    if ProvisioningSucceeded(p) then
      if p.state == ProjectProvisioning || p.state == SpecificationReady then
        if cfg.queue then Transition(p, CursorExecuting) else RequestCursorRun(cfg, world, p, true)
      else Silent(p)
    else if p.state == SpecificationReady then
      var e := Transition(p, ProjectProvisioning);
      Seq(e, PerformProvisioning(cfg, world, e.last))
    else PerformProvisioning(cfg, world, p)
  }

  function PerformProvisioning(cfg: Config, world: World, p: Project): Exec {
    var q := p.(operation := ProvisioningOp);
    Seq(Save(q),
      match world(q).provisioning
      case None => SaveOnThrow(Raise(PrepareWorkspace(q, world(q).workspacePrepared), StageFailed))
      case Some(run) =>
        var r := ApplyProvisioning(q, run);
        Seq(Save(r),
          if cfg.queue then SaveOnThrow(Transition(r, CursorExecuting)) else RequestCursorRun(cfg, world, r, true)))
  }

  function EnterProvisioning(cfg: Config, world: World, p: Project): Exec {
    var e := Enter(p, ProjectProvisioning);
    if cfg.queue then e else Seq(e, FinishProvisioning(cfg, world, e.last))
  }

  // ---- Discovery (orchestrator.js:328-384, 1047-1073) ----

  function ApplyOwnerFeedback(world: World, p: Project): Exec
    requires p.spec.Some?
  {
    if p.pendingFeedback.None? then Silent(p)
    else
      var current := p.spec.value.cursorPrompt;
      // The specification schema refuses blank prompts, so a blank answer stands for a discovery that failed.
      var prompt := if Trim(world(p).feedbackPrompt) != "" then world(p).feedbackPrompt
                    else current + "\n\nOwner feedback: " + p.pendingFeedback.value;
      Save(p.(spec := Some(p.spec.value.(cursorPrompt := prompt)), pendingFeedback := None))
  }

  function EnsureDiscovery(world: World, p: Project): Exec {
    if p.state == IdeaSubmitted then
      var e := Transition(p, CouncilDiscovery);
      Seq(e, DiscoverFrom(world, e.last))
    else DiscoverFrom(world, p)
  }

  function DiscoverFrom(world: World, p: Project): Exec {
    if HasValidSpec(p) then
      var e := ApplyOwnerFeedback(world, p);
      Seq(e, if e.last.state == CouncilDiscovery then Transition(e.last, SpecificationReady) else Silent(e.last))
    else PerformDiscovery(world, p)
  }

  function PerformDiscovery(world: World, p: Project): Exec {
    var q := p.(operation := DiscoveryOp);
    Seq(Save(q),
      match world(q).discovery
      case DiscoveryFails => SaveOnThrow(Raise(q, StageFailed))
      case DiscoveryGives(spec, planFails) =>
        var r := q.(spec := Some(spec));
        SaveOnThrow(
          if !HasValidSpec(r) || (NeedsProvisioning(r) && planFails) then Raise(r, StageFailed)
          else Transition(r, SpecificationReady)))
  }

  // ---- Review, final verification and delivery (orchestrator.js:868-1045) ----

  predicate EvidenceBlocks(p: Project) {
    var v := LatestVerification(p, p.iteration);
    var r := LatestRuntime(p, p.iteration);
    var w := LatestVisual(p, p.iteration);
    || (v.Some? && v.value.blockingFailures != [])
    || (r.Some? && r.value.blockingFailures != [])
    || (w.Some? && (w.value.blockingFindings != [] || w.value.decision == VisualChangesRequired))
  }

  function AskReview(world: World, p: Project): Exec {
    if p.iteration in p.reviews then Silent(p)
    else if p.cursorRuns == [] then Raise(p, RecoveryFailed)
    else PerformReview(world, p.(operation := ReviewOp))
  }

  function PerformReview(world: World, q: Project): Exec {
    Seq(Save(q),
      match world(q).review
      case None => SaveOnThrow(Raise(q, StageFailed))
      case Some(d) => Save(q.(reviews := q.reviews[q.iteration := d])))
  }

  function ReviewDecision(p: Project): Decision {
    if p.iteration in p.reviews then p.reviews[p.iteration] else Undecided
  }

  // Blocking evidence overrules a COMPLETE decision.
  predicate Overruled(cfg: Config, p: Project) {
    ReviewDecision(p) == Complete && !p.demo && !cfg.demo && EvidenceBlocks(p)
  }

  function ActOnReview(cfg: Config, world: World, p: Project): Exec {
    FollowReview(cfg, world, p, Overruled(cfg, p))
  }

  function FollowReview(cfg: Config, world: World, p: Project, overruled: bool): Exec {
    if overruled then RequestChanges(cfg, world, p.(reviews := p.reviews[p.iteration := ChangesRequired]))
    else if ReviewDecision(p) == ChangesRequired then RequestChanges(cfg, world, p)
    else Transition(p, FinalVerification)
  }

  function RequestChanges(cfg: Config, world: World, p: Project): Exec {
    RequestCursorRun(cfg, world, p, !cfg.queue)
  }

  function FinishReview(cfg: Config, world: World, p: Project): Exec {
    var e := AskReview(world, p);
    Seq(e, ActOnReview(cfg, world, e.last))
  }

  function AskFinal(world: World, p: Project): Exec {
    if p.final.Some? && p.final.value.cursorCount == |p.cursorRuns| then Silent(p)
    else PerformFinal(world, p.(operation := FinalOp))
  }

  function PerformFinal(world: World, q: Project): Exec {
    Seq(Save(q),
      match world(q).final
      case None => SaveOnThrow(Raise(q, StageFailed))
      case Some(d) => Save(q.(final := Some(FinalReview(d, |q.cursorRuns|)))))
  }

  ghost function ActOnFinal(cfg: Config, world: World, p: Project): Exec {
    if p.final.Some? && p.final.value.decision == ChangesRequired then
      var q := p.(finalHistory := p.finalHistory + [p.final.value], final := None);
      RequestChanges(cfg, world, q)
    else EnterDelivery(cfg, world, p)
  }

  ghost function FinishFinal(cfg: Config, world: World, p: Project): Exec {
    var e := AskFinal(world, p);
    Seq(e, ActOnFinal(cfg, world, e.last))
  }

  function SettingsFor(cfg: Config, world: World, p: Project): Gate.Settings {
    Gate.Settings(cfg.maxIterations, world(p).securityClear)
  }

  ghost function EnterDelivery(cfg: Config, world: World, p: Project): Exec {
    if !Gate.GateOk(p, SettingsFor(cfg, world, p)) then Raise(p, GateRejected)
    else
      var e := Enter(p, DeliveryPreparation);
      Seq(e, FinishDelivery(cfg, world, e.last))
  }

  ghost function FinishDelivery(cfg: Config, world: World, p: Project): Exec {
    var prepared := Delivery.Prepare(p, world(p).packaged);
    var q := p.(deliveries := prepared.deliveries);
    if !prepared.ok then Raise(q, LineageInvalid)
    else if !Gate.ReadyOk(q, SettingsFor(cfg, world, p)) then Raise(q, GateRejected)
    else
      var r := q.(verificationLevel := if MergedEvidence(q).Some? then Some(MergedEvidence(q).value.level) else None);
      if r.state != ReadyForOwnerReview then Transition(r, ReadyForOwnerReview) else Save(r)
  }

  // ---- Failure, retry and owner decisions (orchestrator.js:128-148, 313-326, 1075-1154) ----

  function RecordFailure(p: Project): Exec {
    var q := p.(error := true);
    if IsActive(p.state) then Transition(q, Failed) else Save(q)
  }

  function CompletedRun(p: Project): Option<CursorRun> {
    match LatestCursorRun(p)
    case Some(r) =>
      if r.hasResult || r.evidence.Some? || r.status == Completed || r.checkpointSha != "" then Some(r) else None
    case None => None
  }

  function ResumeTarget(p: Project): State {
    var done := CompletedRun(p);
    if !HasValidSpec(p) then CouncilDiscovery
    else if MustProvision(p) then ProjectProvisioning
    else if done.None? then
      if p.iteration > 0 || p.cursorRuns != [] || p.operation == CursorOp
         || (p.history != [] && p.history[|p.history| - 1].from == CursorExecuting)
      then CursorExecuting else SpecificationReady
    else
      var iteration := done.value.iteration;
      var v := LatestVerification(p, iteration);
      var r := LatestRuntime(p, iteration);
      var w := LatestVisual(p, iteration);
      if v.None? || !v.value.completed then PlatformVerification
      else if !ShouldSkipRuntime(p, v) && (r.None? || !r.value.completed) then RuntimeVerification
      else if r.Some? && r.value.completed && !ShouldSkipVisual(p, r) && (w.None? || !w.value.completed) then VisualVerification
      else if iteration !in p.reviews then CouncilReview
      else if p.reviews[iteration] == Complete && p.final.None? then FinalVerification
      else if p.final.Some? && p.final.value.decision == Complete && p.deliveries == [] then DeliveryPreparation
      else SpecificationReady
  }

  function Retry(p: Project): Exec {
    if p.state != Failed then Raise(p, RetryNotEligible)
    else Transition(p.(error := false), ResumeTarget(p))
  }

  function OwnerDecides(p: Project, decision: OwnerDecision, feedback: string): Exec {
    if p.state != ReadyForOwnerReview then Raise(p, DecisionRejected(Delivery.DecisionConflict))
    else Conclude(p, Delivery.Decide(p, decision, feedback), decision, feedback)
  }

  function Conclude(p: Project, d: Delivery.Decided, decision: OwnerDecision, feedback: string): Exec {
    var q := p.(deliveries := d.deliveries, ownerReviews := d.ownerReviews);
    if d.error.Some? then Raise(q, DecisionRejected(d.error.value))
    else if decision == OwnerApproves then TransitionTwice(q, OwnerApproved, Done)
    else TransitionTwice(q.(pendingFeedback := Some(Trim(feedback))), OwnerChangesRequested, CouncilDiscovery)
  }

  function TransitionTwice(p: Project, first: State, second: State): Exec {
    var e := Transition(p, first);
    Seq(e, Transition(e.last, second))
  }

  // recoverOnBoot's attempt to finish a delivery; unlike the drivers it saves what a throwing handler left behind.
  ghost function BootDelivery(cfg: Config, world: World, p: Project): Exec {
    if p.state != DeliveryPreparation then Silent(p)
    else
      var e := FinishDelivery(cfg, world, p);
      if e.outcome.Ok? then e else Exec(e.saves + [e.last.(error := true)], e.last.(error := true), Ok)
  }

  // ---- The two drivers ----

  // One pass of the in-process loop (orchestrator.js:240-307).
  ghost function LoopPass(cfg: Config, world: World, p: Project): Exec
    requires IsActive(p.state)
  {
    if p.iteration > cfg.maxIterations then Raise(p, MaxIterationsReached)
    else match p.state
      case IdeaSubmitted | CouncilDiscovery => EnsureDiscovery(world, p)
      case SpecificationReady =>
        if MustProvision(p) then EnterProvisioning(cfg, world, p) else RequestCursorRun(cfg, world, p, true)
      case ProjectProvisioning => FinishProvisioning(cfg, world, p)
      case CursorExecuting => FinishOrReplayCursor(cfg, world, p)
      case PlatformVerification => FinishPlatform(cfg, world, p)
      case RuntimeVerification => FinishRuntime(cfg, world, p)
      case VisualVerification => FinishVisual(cfg, world, p)
      case CouncilReview => FinishReview(cfg, world, p)
      case FinalVerification => FinishFinal(cfg, world, p)
      case DeliveryPreparation => FinishDelivery(cfg, world, p)
      case OwnerChangesRequested => Transition(p, CouncilDiscovery)
      case _ => Raise(p, RecoveryFailed)
  }

  datatype JobType =
    | DiscoveryJob | ProvisioningJob | CursorJob | VerificationJob | RuntimeJob | VisualJob | ReviewJob
    | FinalJob | DeliveryJob

  // jobs/types.js:27-44
  function NextJob(p: Project): Option<JobType> {
    match p.state
    case IdeaSubmitted | CouncilDiscovery | OwnerChangesRequested => Some(DiscoveryJob)
    case SpecificationReady => Some(if MustProvision(p) then ProvisioningJob else CursorJob)
    case ProjectProvisioning => Some(ProvisioningJob)
    case CursorExecuting => Some(CursorJob)
    case PlatformVerification => Some(VerificationJob)
    case RuntimeVerification => Some(RuntimeJob)
    case VisualVerification => Some(VisualJob)
    case CouncilReview => Some(ReviewJob)
    case FinalVerification => Some(FinalJob)
    case DeliveryPreparation => Some(DeliveryJob)
    case _ => None
  }

  // A job that first finishes the stage before its own goes on when the stored project has reached its stage.
  function ThenPlatform(cfg: Config, world: World, p: Project, early: Exec): Exec {
    var q := Stored(p, early);
    Seq(early, if q.state == PlatformVerification then FinishPlatform(cfg, world, q) else Silent(q))
  }

  function ThenRuntime(cfg: Config, world: World, p: Project, early: Exec): Exec {
    var q := Stored(p, early);
    Seq(early, if q.state == RuntimeVerification then FinishRuntime(cfg, world, q) else Silent(q))
  }

  function ThenVisual(cfg: Config, world: World, p: Project, early: Exec): Exec {
    var q := Stored(p, early);
    Seq(early, if q.state == VisualVerification then FinishVisual(cfg, world, q) else Silent(q))
  }

  ghost function ThenDelivery(cfg: Config, world: World, p: Project, early: Exec): Exec {
    var q := Stored(p, early);
    Seq(early, if q.state == DeliveryPreparation then FinishDelivery(cfg, world, q) else Silent(q))
  }

  // executeJob (orchestrator.js:150-234). Each `store.get` re-reads the stored project.
  ghost function Job(cfg: Config, world: World, p: Project, job: JobType): Exec {
    if !IsActive(p.state) then Silent(p)
    else match job
      case DiscoveryJob =>
        if p.state == SpecificationReady || p.state == ProjectProvisioning then Silent(p)
        else if p.state == OwnerChangesRequested then
          var e := Transition(p, CouncilDiscovery);
          Seq(e, EnsureDiscovery(world, Stored(p, e)))
        else EnsureDiscovery(world, p)
      case ProvisioningJob =>
        if p.state == SpecificationReady || p.state == ProjectProvisioning then FinishProvisioning(cfg, world, p)
        else Silent(p)
      case CursorJob =>
        if p.state == SpecificationReady && MustProvision(p) then FinishProvisioning(cfg, world, p)
        else if p.state == SpecificationReady then RequestCursorRun(cfg, world, p, true)
        else if p.state == ProjectProvisioning then FinishProvisioning(cfg, world, p)
        else if p.state == CursorExecuting then FinishOrReplayCursor(cfg, world, p)
        else Silent(p)
      case VerificationJob =>
        if p.state == CursorExecuting then
          ThenPlatform(cfg, world, p, FinishOrReplayCursor(cfg, world, p))
        else if p.state == PlatformVerification then FinishPlatform(cfg, world, p)
        else Silent(p)
      case RuntimeJob =>
        if p.state == PlatformVerification then
          ThenRuntime(cfg, world, p, FinishPlatform(cfg, world, p))
        else if p.state == RuntimeVerification then FinishRuntime(cfg, world, p)
        else Silent(p)
      case VisualJob =>
        if p.state == RuntimeVerification then
          ThenVisual(cfg, world, p, FinishRuntime(cfg, world, p))
        else if p.state == VisualVerification then FinishVisual(cfg, world, p)
        else Silent(p)
      case ReviewJob =>
        if p.state in {FinalVerification, DeliveryPreparation, CursorExecuting, PlatformVerification,
                       RuntimeVerification, VisualVerification} then Silent(p)
        else FinishReview(cfg, world, p)
      case FinalJob =>
        if p.state == CursorExecuting then Silent(p)
        else if p.state == DeliveryPreparation then FinishDelivery(cfg, world, p)
        else FinishFinal(cfg, world, p)
      case DeliveryJob =>
        if p.state == FinalVerification then
          ThenDelivery(cfg, world, p, FinishFinal(cfg, world, p))
        else if p.state == DeliveryPreparation then FinishDelivery(cfg, world, p)
        else Silent(p)
  }

  // ---- Everything that can happen to a stored project ----

  datatype Action =
    | PassAction | JobAction(job: JobType) | FailAction | RetryAction | BootAction
    | DecideAction(decision: OwnerDecision, feedback: string)

  ghost function Run(cfg: Config, world: World, p: Project, a: Action): Exec {
    match a
    case PassAction => if IsActive(p.state) && !cfg.queue then LoopPass(cfg, world, p) else Silent(p)
    case JobAction(job) => if cfg.queue then Job(cfg, world, p, job) else Silent(p)
    case FailAction => RecordFailure(p)
    case RetryAction => Retry(p)
    case BootAction => BootDelivery(cfg, world, p)
    case DecideAction(decision, feedback) => OwnerDecides(p, decision, feedback)
  }

  // Every provisioner of the repository can be restarted (provision/provisioners/base.js:75), so provisioning either
  // throws or answers with a foundation that passed and its baseline (provision/pipeline.js:104-252).
  ghost predicate ProvisionsOrThrows(world: World) {
    forall p :: world(p).provisioning.Some? ==>
                  world(p).provisioning.value.status == ProvPass && world(p).provisioning.value.baselineSha != ""
  }

  // One durable step: any of the snapshots an action writes may be the last one before a crash, so each of them
  // is a possible next stored project.
  ghost predicate DurableStep(cfg: Config, p: Project, q: Project) {
    exists world: World, a: Action :: ProvisionsOrThrows(world) && q in Run(cfg, world, p, a).saves
  }

  // A new project; an existing repository comes with the commit it starts from.
  function Initial(id: string, demo: bool, existing: bool, baseline: string): Project {
    Project(id, demo, existing, IdeaSubmitted, 0, [], None, None, [], baseline, "", false, [], [], [], [], None, map[],
            None, [], [], [], None, None, if demo then Some(MockLevel) else None, "", NoOperation, false)
  }
}
