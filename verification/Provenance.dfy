// Where everything on a project's record comes from, over whole runs: each review, final decision, Cursor result,
// verification, runtime and visual run, provisioning and specification is what the outside world answered, in some
// action of that run, when it was asked about a record the action passed through; and nothing on record is lost
// (src/orchestrator/orchestrator.js:328-1007).
module Provenance {
  import opened Text
  import opened States
  import opened Records
  import opened Workflow
  import opened Updates
  import CouncilDecisions
  import Delivery
  import EvidenceRuns
  import Lineage
  import Verification
  import WorkflowSafety

  datatype Record =
    | ReviewRecord(iteration: nat, decision: Decision)
    | FinalRecord(final: FinalReview)
    | CursorRecord(cursor: CursorRun)
    | VerificationRecord(verification: VerificationRun)
    | RuntimeRecord(runtime: RuntimeRun)
    | VisualRecord(visual: VisualRun)
    | ProvisioningRecord(provisioning: ProvisioningRun)
    | SpecRecord(spec: Spec)

  // What a finished run reports; its status and the evidence kept with it change later.
  function Plain(c: CursorRun): CursorRun {
    c.(status := Completed, evidence := None)
  }

  predicate OnRecord(p: Project, x: Record) {
    match x
    case ReviewRecord(n, d) => n in p.reviews && p.reviews[n] == d
    case FinalRecord(f) => p.final == Some(f) || f in p.finalHistory
    case CursorRecord(c) => exists i :: 0 <= i < |p.cursorRuns| && p.cursorRuns[i].hasResult && Plain(p.cursorRuns[i]) == c
    case VerificationRecord(v) => v in p.verificationRuns
    case RuntimeRecord(r) => r in p.runtimeRuns
    case VisualRecord(w) => w in p.visualRuns
    case ProvisioningRecord(r) => r in p.provisioningRuns || p.provisioning == Some(r)
    case SpecRecord(s) => p.spec == Some(s)
  }

  // A stage completes the run it is given: the iteration it was asked for, the mark of completion and the evidence are
  // its own; everything else is the answer.
  predicate AnswersVerification(world: World, s: Project, v: VerificationRun) {
    && s.operation == VerificationOp && world(s).verification.Some?
    && v == world(s).verification.value.(iteration := v.iteration, completed := true, evidencePatch := v.evidencePatch)
    && v.evidencePatch.Some? && v.iteration == (if s.iteration > 1 then s.iteration else 1)
  }

  predicate AnswersRuntime(world: World, s: Project, r: RuntimeRun) {
    && s.operation == RuntimeOp && world(s).runtime.Some?
    && r == world(s).runtime.value.(iteration := r.iteration, completed := true, evidencePatch := r.evidencePatch)
    && r.evidencePatch.Some? && r.iteration == (if s.iteration > 1 then s.iteration else 1)
  }

  predicate AnswersVisual(world: World, s: Project, w: VisualRun) {
    && s.operation == VisualOp && world(s).visual.Some?
    && w == world(s).visual.value.(iteration := w.iteration, completed := true, evidencePatch := w.evidencePatch)
    && w.evidencePatch.Some? && w.iteration == (if s.iteration > 1 then s.iteration else 1)
  }

  predicate AnswersCursor(world: World, s: Project, c: CursorRun) {
    && s.operation == CursorOp && !world(s).cursor.CursorThrows?
    && var result := world(s).cursor.result;
       && result.evidence.execution.status != Status.Fail
       && c.iteration == s.iteration && c.hasResult && c.mockMode == result.mockMode
       && c.checkpointSha == result.checkpointSha && c.gitCheckpointSha == result.gitCheckpointSha
       && c.gitAfterSha == result.gitAfterSha && c.resultSha == result.resultSha && c.resultGitSha == result.resultGitSha
  }

  // A review is asked for once in an iteration; it is the answer, unless blocking evidence turned a COMPLETE one into
  // CHANGES_REQUIRED.
  predicate AnswersReview(cfg: Config, world: World, s: Project, n: nat, d: Decision) {
    && s.iteration == n
    && (|| (s.operation == ReviewOp && n !in s.reviews && s.cursorRuns != [] && world(s).review == Some(d))
        || (d == ChangesRequired && n in s.reviews && s.reviews[n] == Complete && CouncilDecisions.OverrulesComplete(cfg, s)))
  }

  predicate AnswersFinal(world: World, s: Project, f: FinalReview) {
    s.operation == FinalOp && world(s).final == Some(f.decision) && f.cursorCount == |s.cursorRuns|
  }

  // A specification is discovered; later the owner's feedback may replace its prompt, by the answer to it or, when
  // that is blank, by the prompt there was and the feedback.
  predicate AnswersSpec(world: World, s: Project, spec: Spec) {
    || (&& s.operation == DiscoveryOp && world(s).discovery.DiscoveryGives? && world(s).discovery.spec == spec)
    || (&& s.pendingFeedback.Some? && s.spec.Some? && spec.productName == s.spec.value.productName
        && spec.cursorPrompt == if Blank(world(s).feedbackPrompt)
                                then s.spec.value.cursorPrompt + "\n\nOwner feedback: " + s.pendingFeedback.value
                                else world(s).feedbackPrompt)
  }

  predicate Answers(cfg: Config, world: World, s: Project, x: Record) {
    match x
    case ReviewRecord(n, d) => AnswersReview(cfg, world, s, n, d)
    case FinalRecord(f) => AnswersFinal(world, s, f)
    case CursorRecord(c) => AnswersCursor(world, s, c)
    case VerificationRecord(v) => AnswersVerification(world, s, v)
    case RuntimeRecord(r) => AnswersRuntime(world, s, r)
    case VisualRecord(w) => AnswersVisual(world, s, w)
    case ProvisioningRecord(r) => s.operation == ProvisioningOp && world(s).provisioning == Some(r)
    case SpecRecord(spec) => AnswersSpec(world, s, spec)
  }

  // A run without a result names no checkpoint.
  predicate NoLooseCheckpoint(p: Project) {
    forall i :: 0 <= i < |p.cursorRuns| ==> p.cursorRuns[i].hasResult || p.cursorRuns[i].checkpointSha == ""
  }

  // ---- One update ----

  predicate TouchesRuns(u: Update) {
    EvidenceRuns.IsStageUpdate(u) || EvidenceRuns.IsWorkUpdate(u)
  }

  // Only the evidence, the level and the Cursor ledger differ, and what a stage records about its own work.
  predicate IsApart(p: Project, u: Update, q: Project) {
    && q.id == p.id && q.demo == p.demo && q.existingRepository == p.existingRepository && q.spec == p.spec
    && q.reviews == p.reviews && q.final == p.final && q.finalHistory == p.finalHistory
    && (!u.Verify? ==> q.verificationRuns == p.verificationRuns)
    && (!u.Exercise? && !u.ReuseExercised? ==> q.runtimeRuns == p.runtimeRuns)
    && (!u.Inspect? && !u.ReuseInspected? ==> q.visualRuns == p.visualRuns)
    && (!u.Provision? ==> q.provisioningRuns == p.provisioningRuns && q.provisioning == p.provisioning)
    && (u.Provision? || u.ReuseExercised? || u.ReuseInspected? ==> q.cursorRuns == p.cursorRuns)
  }

  lemma {:induction false} EvidenceIsApart(p: Project, e: Option<Evidence>)
    ensures WithLastEvidence(p, e) == p.(cursorRuns := WithLastEvidence(p, e).cursorRuns)
  {
  }

  lemma {:induction false} RecordingIsApart(p: Project, run: VerificationRun, security: Aspect)
    ensures IsApart(p, Verify(run), RecordVerification(p, run, security).0)
  {
    hide AddVerification, WithLastEvidence, Verification.EvidenceFromVerification;
    forall r: Project, e
      ensures WithLastEvidence(r, e) == r.(cursorRuns := WithLastEvidence(r, e).cursorRuns)
    {
      EvidenceIsApart(r, e);
    }
  }

  lemma {:induction false} ReuseIsApart(p: Project, run: VerificationRun, security: Aspect)
    ensures IsApart(p, ReuseVerified(run), ReuseVerification(p, run, security))
  {
    hide ReusedEvidence, WithLastEvidence;
    forall r: Project, e
      ensures WithLastEvidence(r, e) == r.(cursorRuns := WithLastEvidence(r, e).cursorRuns)
    {
      EvidenceIsApart(r, e);
    }
  }

  lemma {:induction false} PlatformIsApart(cfg: Config, world: World, p: Project, u: Update)
    requires Applies(cfg, world, p, u) && (u.Verify? || u.ReuseVerified? || u.FindVerified?)
    ensures IsApart(p, u, Apply(cfg, world, p, u))
  {
    hide Applies, RecordVerification, ReuseVerification, WithLastEvidence, FirstOf;
    match u {
      case Verify(run) => RecordingIsApart(p, run, world(p).security);
      case ReuseVerified(run) => ReuseIsApart(p, run, world(p).security);
      case FindVerified(run) => EvidenceIsApart(p, FirstOf(run.evidencePatch, p.evidence));
    }
  }

  lemma {:induction false} RuntimeIsApart(cfg: Config, world: World, p: Project, u: Update)
    requires Applies(cfg, world, p, u) && (u.Exercise? || u.ReuseExercised?)
    ensures IsApart(p, u, Apply(cfg, world, p, u))
  {
    hide Applies, AddRuntime, WithLastEvidence, FirstOf, Verification.EvidenceFromRuntime;
    forall r: Project, e
      ensures WithLastEvidence(r, e) == r.(cursorRuns := WithLastEvidence(r, e).cursorRuns)
    {
      EvidenceIsApart(r, e);
    }
  }

  lemma {:induction false} VisualIsApart(cfg: Config, world: World, p: Project, u: Update)
    requires Applies(cfg, world, p, u) && (u.Inspect? || u.ReuseInspected?)
    ensures IsApart(p, u, Apply(cfg, world, p, u))
  {
    hide Applies, AddVisual, WithLastEvidence, FirstOf, Verification.EvidenceFromVisual;
    forall r: Project, e
      ensures WithLastEvidence(r, e) == r.(cursorRuns := WithLastEvidence(r, e).cursorRuns)
    {
      EvidenceIsApart(r, e);
    }
  }

  lemma {:induction false} WorkIsApart(cfg: Config, world: World, p: Project, u: Update)
    requires Applies(cfg, world, p, u) && EvidenceRuns.IsWorkUpdate(u)
    ensures IsApart(p, u, Apply(cfg, world, p, u))
  {
    hide AddProvisioning, StartedIndex, StartRun, FinishedRun;
  }

  // What a stage puts on record leaves the records of the other stages and the rest of the project alone.
  lemma {:induction false} RunsAreApart(cfg: Config, world: World, p: Project, u: Update)
    requires Applies(cfg, world, p, u) && TouchesRuns(u)
    ensures IsApart(p, u, Apply(cfg, world, p, u))
  {
    hide Applies, Apply, IsApart;
    if u.Verify? || u.ReuseVerified? || u.FindVerified? {
      PlatformIsApart(cfg, world, p, u);
    } else if u.Exercise? || u.ReuseExercised? {
      RuntimeIsApart(cfg, world, p, u);
    } else if u.Inspect? || u.ReuseInspected? {
      VisualIsApart(cfg, world, p, u);
    } else {
      WorkIsApart(cfg, world, p, u);
    }
  }

  lemma {:induction false} ReviewOrigin(cfg: Config, world: World, p: Project, u: Update, n: nat)
    requires Applies(cfg, world, p, u) && n in Apply(cfg, world, p, u).reviews
    ensures var d := Apply(cfg, world, p, u).reviews[n];
            (n in p.reviews && p.reviews[n] == d) || AnswersReview(cfg, world, p, n, d)
  {
    hide EvidenceBlocks, CouncilDecisions.Blocked, Delivery.Prepare, Delivery.Decide, HasValidSpec, MustProvision, Trim, Lineage.MergedEvidence;
    hide RecordVerification, RecordRuntime, RecordVisual, ReuseVerification, WithLastEvidence, AddRuntime, AddVisual;
    hide StartRun, StartedIndex, FinishRun, FinishedRun, ApplyProvisioning, LatestVerification;
    hide FindReusableVerification, FindReusableRuntime, FindReusableVisual;
    if TouchesRuns(u) { RunsAreApart(cfg, world, p, u); }
    if u.Overrule? { CouncilDecisions.EvidenceBlocksIffBlocked(p); }
    if u.TakeFeedback? { ValidSpecIsThere(p); }
  }

  lemma {:induction false} FinalOrigin(cfg: Config, world: World, p: Project, u: Update, f: FinalReview)
    requires Applies(cfg, world, p, u) && OnRecord(Apply(cfg, world, p, u), FinalRecord(f))
    ensures OnRecord(p, FinalRecord(f)) || AnswersFinal(world, p, f)
  {
    hide EvidenceBlocks, Delivery.Prepare, Delivery.Decide, HasValidSpec, MustProvision, Trim, Lineage.MergedEvidence;
    hide RecordVerification, RecordRuntime, RecordVisual, ReuseVerification, WithLastEvidence, AddRuntime, AddVisual;
    hide StartRun, StartedIndex, FinishRun, FinishedRun, ApplyProvisioning, LatestVerification;
    hide FindReusableVerification, FindReusableRuntime, FindReusableVisual;
    if TouchesRuns(u) { RunsAreApart(cfg, world, p, u); }
    if u.TakeFeedback? { ValidSpecIsThere(p); }
  }

  lemma {:induction false} VerificationsUntouched(cfg: Config, world: World, p: Project, u: Update)
    requires Applies(cfg, world, p, u) && !u.Verify?
    ensures Apply(cfg, world, p, u).verificationRuns == p.verificationRuns
  {
    hide Applies, Apply;
    if TouchesRuns(u) { RunsAreApart(cfg, world, p, u); } else { EvidenceRuns.OthersKeepRecords(cfg, world, p, u); }
  }

  lemma {:induction false} VerificationIsAdded(runs: seq<VerificationRun>, done: VerificationRun)
    ensures forall r :: r in AddVerification(runs, done) ==> r in runs || r == done
    ensures done in AddVerification(runs, done)
    ensures forall r :: r in runs ==> exists s :: s in AddVerification(runs, done) && s.id == r.id
  {
    EvidenceRuns.WithoutTakes(runs, (r: VerificationRun) => r.id, done.id);
    var all := AddVerification(runs, done);
    assert all[|all| - 1] == done;
    forall r | r in runs ensures exists s :: s in all && s.id == r.id {
      if r.id == done.id { assert done in all && done.id == r.id; } else { assert r in all && r.id == r.id; }
    }
  }

  lemma {:induction false} VerificationOrigin(cfg: Config, world: World, p: Project, u: Update, v: VerificationRun)
    requires Applies(cfg, world, p, u) && v in Apply(cfg, world, p, u).verificationRuns
    ensures v in p.verificationRuns || AnswersVerification(world, p, v)
  {
    if u.Verify? {
      VerificationIsAdded(p.verificationRuns, RecordVerification(p, u.verification, world(p).security).1);
    } else {
      VerificationsUntouched(cfg, world, p, u);
    }
  }

  lemma {:induction false} RuntimesUntouched(cfg: Config, world: World, p: Project, u: Update)
    requires Applies(cfg, world, p, u) && !u.Exercise? && !u.ReuseExercised?
    ensures Apply(cfg, world, p, u).runtimeRuns == p.runtimeRuns
  {
    hide Applies, Apply;
    if TouchesRuns(u) { RunsAreApart(cfg, world, p, u); } else { EvidenceRuns.OthersKeepRecords(cfg, world, p, u); }
  }

  lemma {:induction false} RuntimeIsAdded(runs: seq<RuntimeRun>, done: RuntimeRun)
    ensures forall r :: r in AddRuntime(runs, done) ==> r in runs || r == done
    ensures done in AddRuntime(runs, done)
    ensures forall r :: r in runs ==> exists s :: s in AddRuntime(runs, done) && s.id == r.id
  {
    EvidenceRuns.WithoutTakes(runs, (r: RuntimeRun) => r.id, done.id);
    var all := AddRuntime(runs, done);
    assert all[|all| - 1] == done;
    forall r | r in runs ensures exists s :: s in all && s.id == r.id {
      if r.id == done.id { assert done in all && done.id == r.id; } else { assert r in all && r.id == r.id; }
    }
  }

  lemma {:induction false} ReusableRuntimeIsRecorded(p: Project, run: RuntimeRun)
    requires FindReusableRuntime(p) == Some(run)
    ensures run in p.runtimeRuns
  {
    EvidenceRuns.FoundIsRecorded(p.runtimeRuns, (r: RuntimeRun) =>
      r.iteration == p.iteration && r.checkpointSha == StageCheckpoint(p) && r.status == RunPass && r.completed);
  }

  lemma {:induction false} RuntimeOrigin(cfg: Config, world: World, p: Project, u: Update, r: RuntimeRun)
    requires Applies(cfg, world, p, u) && r in Apply(cfg, world, p, u).runtimeRuns
    ensures r in p.runtimeRuns || AnswersRuntime(world, p, r)
  {
    hide FindReusableRuntime;
    if u.Exercise? {
      RuntimeIsAdded(p.runtimeRuns, RecordRuntime(p, u.runtime).1);
    } else if u.ReuseExercised? {
      ReusableRuntimeIsRecorded(p, u.runtime);
      RuntimeIsAdded(p.runtimeRuns, u.runtime);
    } else {
      RuntimesUntouched(cfg, world, p, u);
    }
  }

  lemma {:induction false} VisualsUntouched(cfg: Config, world: World, p: Project, u: Update)
    requires Applies(cfg, world, p, u) && !u.Inspect? && !u.ReuseInspected?
    ensures Apply(cfg, world, p, u).visualRuns == p.visualRuns
  {
    hide Applies, Apply;
    if TouchesRuns(u) { RunsAreApart(cfg, world, p, u); } else { EvidenceRuns.OthersKeepRecords(cfg, world, p, u); }
  }

  lemma {:induction false} VisualIsAdded(runs: seq<VisualRun>, done: VisualRun)
    ensures forall r :: r in AddVisual(runs, done) ==> r in runs || r == done
    ensures done in AddVisual(runs, done)
    ensures forall r :: r in runs ==> exists s :: s in AddVisual(runs, done) && s.id == r.id
  {
    EvidenceRuns.WithoutTakes(runs, (r: VisualRun) => r.id, done.id);
    var all := AddVisual(runs, done);
    assert all[|all| - 1] == done;
    forall r | r in runs ensures exists s :: s in all && s.id == r.id {
      if r.id == done.id { assert done in all && done.id == r.id; } else { assert r in all && r.id == r.id; }
    }
  }

  lemma {:induction false} ReusableVisualIsRecorded(p: Project, run: VisualRun)
    requires FindReusableVisual(p) == Some(run)
    ensures run in p.visualRuns
  {
    var runtime := LatestRuntime(p, p.iteration);
    EvidenceRuns.FoundIsRecorded(p.visualRuns, (w: VisualRun) =>
      w.runtimeRunId == runtime.value.id && w.screenshotSetHash == runtime.value.screenshotSetHash
      && w.decision == VisualComplete && w.completed);
  }

  lemma {:induction false} VisualOrigin(cfg: Config, world: World, p: Project, u: Update, w: VisualRun)
    requires Applies(cfg, world, p, u) && w in Apply(cfg, world, p, u).visualRuns
    ensures w in p.visualRuns || AnswersVisual(world, p, w)
  {
    hide FindReusableVisual;
    if u.Inspect? {
      var patch := Some(Verification.EvidenceFromVisual(p, u.visual));
      VisualIsAdded(p.visualRuns, u.visual.(iteration := StageIteration(p), completed := true, evidencePatch := patch));
    } else if u.ReuseInspected? {
      ReusableVisualIsRecorded(p, u.visual);
      VisualIsAdded(p.visualRuns, u.visual);
    } else {
      VisualsUntouched(cfg, world, p, u);
    }
  }

  lemma {:induction false} AppliedOrigin(p: Project, run: ProvisioningRun, r: ProvisioningRun)
    requires OnRecord(ApplyProvisioning(p, run), ProvisioningRecord(r))
    ensures OnRecord(p, ProvisioningRecord(r)) || r == run
  {
    EvidenceRuns.WithoutTakes(p.provisioningRuns, (r: ProvisioningRun) => r.id, run.id);
  }

  lemma {:induction false} ProvisioningOrigin(cfg: Config, world: World, p: Project, u: Update, r: ProvisioningRun)
    requires Applies(cfg, world, p, u) && OnRecord(Apply(cfg, world, p, u), ProvisioningRecord(r))
    ensures OnRecord(p, ProvisioningRecord(r)) || Answers(cfg, world, p, ProvisioningRecord(r))
  {
    hide EvidenceBlocks, Delivery.Prepare, Delivery.Decide, HasValidSpec, MustProvision, Trim, Lineage.MergedEvidence;
    hide RecordVerification, RecordRuntime, RecordVisual, ReuseVerification, WithLastEvidence, AddRuntime, AddVisual;
    hide StartRun, StartedIndex, FinishRun, FinishedRun, ApplyProvisioning, LatestVerification;
    hide FindReusableVerification, FindReusableRuntime, FindReusableVisual;
    if u.Provision? {
      AppliedOrigin(p, u.provisioning, r);
    } else if TouchesRuns(u) {
      RunsAreApart(cfg, world, p, u);
    }
  }

  lemma {:induction false} SpecOrigin(cfg: Config, world: World, p: Project, u: Update, spec: Spec)
    requires Applies(cfg, world, p, u) && Apply(cfg, world, p, u).spec == Some(spec)
    ensures p.spec == Some(spec) || AnswersSpec(world, p, spec)
  {
    hide EvidenceBlocks, Delivery.Prepare, Delivery.Decide, HasValidSpec, MustProvision, Trim, Lineage.MergedEvidence;
    hide RecordVerification, RecordRuntime, RecordVisual, ReuseVerification, WithLastEvidence, AddRuntime, AddVisual;
    hide StartRun, StartedIndex, FinishRun, FinishedRun, ApplyProvisioning, LatestVerification;
    hide FindReusableVerification, FindReusableRuntime, FindReusableVisual;
    if TouchesRuns(u) { RunsAreApart(cfg, world, p, u); }
    if u.TakeFeedback? {
      ValidSpecIsThere(p);
      TrimIsEmptyIffBlank(world(p).feedbackPrompt);
    }
  }

  // ---- One update and the Cursor ledger ----

  predicate TouchesCursor(u: Update) {
    u.StartCursor? || u.FailCursor? || u.FinishCursor? || u.AdoptCursor? || u.FlagCursor?
  }

  // The runs differ in the evidence of the last one only.
  predicate SameResults(a: seq<CursorRun>, b: seq<CursorRun>) {
    |a| == |b| && forall i :: 0 <= i < |a| ==> b[i].(evidence := None) == a[i].(evidence := None)
  }

  lemma {:induction false} LastChangesEvidence(runs: seq<CursorRun>, e: Option<Evidence>)
    requires runs != []
    ensures SameResults(runs, runs[|runs| - 1 := runs[|runs| - 1].(evidence := e)])
  {
    var changed := runs[|runs| - 1 := runs[|runs| - 1].(evidence := e)];
    forall i | 0 <= i < |runs| ensures changed[i].(evidence := None) == runs[i].(evidence := None) {
      assert i < |runs| - 1 ==> changed[i] == runs[i];
    }
  }

  lemma {:induction false} EvidenceTouchesNoResult(p: Project, e: Option<Evidence>)
    ensures SameResults(p.cursorRuns, WithLastEvidence(p, e).cursorRuns)
  {
    if p.cursorRuns != [] && e.Some? {
      LastChangesEvidence(p.cursorRuns, e);
      hide SameResults;
    }
  }

  predicate AddsEvidence(u: Update) {
    u.Verify? || u.ReuseVerified? || u.FindVerified? || u.Exercise? || u.Inspect?
  }

  lemma {:induction false} CursorUntouched(cfg: Config, world: World, p: Project, u: Update)
    requires Applies(cfg, world, p, u) && !TouchesCursor(u)
    ensures SameResults(p.cursorRuns, Apply(cfg, world, p, u).cursorRuns)
  {
    if AddsEvidence(u) {
      CursorKeepsResults(cfg, world, p, u);
    } else {
      CursorIsTheSame(cfg, world, p, u);
    }
  }

  lemma {:induction false} PlatformKeepsResults(cfg: Config, world: World, p: Project, u: Update)
    requires Applies(cfg, world, p, u) && (u.Verify? || u.ReuseVerified? || u.FindVerified?)
    ensures SameResults(p.cursorRuns, Apply(cfg, world, p, u).cursorRuns)
  {
    hide Applies, AddVerification, ReusedEvidence, FirstOf, Verification.EvidenceFromVerification, SameResults, WithLastEvidence;
    forall r: Project, e | r.cursorRuns == p.cursorRuns
      ensures SameResults(p.cursorRuns, WithLastEvidence(r, e).cursorRuns)
    {
      EvidenceTouchesNoResult(r, e);
    }
  }

  lemma {:induction false} CursorKeepsResults(cfg: Config, world: World, p: Project, u: Update)
    requires Applies(cfg, world, p, u) && AddsEvidence(u)
    ensures SameResults(p.cursorRuns, Apply(cfg, world, p, u).cursorRuns)
  {
    hide Apply, SameResults;
    if u.Exercise? || u.Inspect? { ExercisesKeepResults(cfg, world, p, u); } else { PlatformKeepsResults(cfg, world, p, u); }
  }

  lemma {:induction false} ExercisesKeepResults(cfg: Config, world: World, p: Project, u: Update)
    requires Applies(cfg, world, p, u) && (u.Exercise? || u.Inspect?)
    ensures SameResults(p.cursorRuns, Apply(cfg, world, p, u).cursorRuns)
  {
    hide Applies, AddRuntime, AddVisual, Verification.EvidenceFromRuntime, Verification.EvidenceFromVisual, SameResults, WithLastEvidence;
    forall r: Project, e | r.cursorRuns == p.cursorRuns
      ensures SameResults(p.cursorRuns, WithLastEvidence(r, e).cursorRuns)
    {
      EvidenceTouchesNoResult(r, e);
    }
  }

  lemma {:induction false} CursorIsTheSame(cfg: Config, world: World, p: Project, u: Update)
    requires Applies(cfg, world, p, u) && !TouchesCursor(u) && !AddsEvidence(u)
    ensures Apply(cfg, world, p, u).cursorRuns == p.cursorRuns
  {
    hide Applies, Apply;
    if TouchesRuns(u) { RunsAreApart(cfg, world, p, u); } else { EvidenceRuns.OthersKeepRecords(cfg, world, p, u); }
  }

  // Run i of q is run i of p, with or without another status; or a new one without a result; or the run of the
  // iteration, with the result that Cursor gave.
  predicate CursorRunOrigin(world: World, p: Project, q: Project, i: nat)
    requires i < |q.cursorRuns|
  {
    var c := q.cursorRuns[i];
    || (i < |p.cursorRuns| && Plain(c) == Plain(p.cursorRuns[i]))
    || (!c.hasResult && c.checkpointSha == "" && i == |p.cursorRuns| && c.iteration == p.iteration)
    || (AnswersCursor(world, p, c) && i < |p.cursorRuns| && !p.cursorRuns[i].hasResult
        && p.cursorRuns[i].iteration == c.iteration)
  }

  predicate CursorOrigins(world: World, p: Project, q: Project) {
    && NoLooseCheckpoint(q) && |p.cursorRuns| <= |q.cursorRuns|
    && forall i :: 0 <= i < |q.cursorRuns| ==> CursorRunOrigin(world, p, q, i)
  }

  lemma {:induction false} CursorOrigin(cfg: Config, world: World, p: Project, u: Update)
    requires Applies(cfg, world, p, u) && NoLooseCheckpoint(p)
    ensures CursorOrigins(world, p, Apply(cfg, world, p, u))
  {
    hide Applies, Apply, CursorOrigins, SameResults, NoLooseCheckpoint;
    if u.StartCursor? {
      StartedOrigin(cfg, world, p, u);
    } else if u.FinishCursor? {
      FinishedOrigin(cfg, world, p, u);
    } else if TouchesCursor(u) {
      MarkedOrigin(cfg, world, p, u);
    } else {
      CursorUntouched(cfg, world, p, u);
      SameOrigin(world, p, Apply(cfg, world, p, u));
    }
  }

  lemma {:induction false} SameOrigin(world: World, p: Project, q: Project)
    requires SameResults(p.cursorRuns, q.cursorRuns) && NoLooseCheckpoint(p)
    ensures CursorOrigins(world, p, q)
  {
    hide AnswersCursor;
    forall i | 0 <= i < |q.cursorRuns|
      ensures Plain(q.cursorRuns[i]) == Plain(p.cursorRuns[i])
      ensures q.cursorRuns[i].hasResult == p.cursorRuns[i].hasResult
      ensures q.cursorRuns[i].checkpointSha == p.cursorRuns[i].checkpointSha
    {
      var a, b := q.cursorRuns[i].(evidence := None), p.cursorRuns[i].(evidence := None);
      assert a == b && a.hasResult == q.cursorRuns[i].hasResult && b.hasResult == p.cursorRuns[i].hasResult;
      assert Plain(q.cursorRuns[i]) == a.(status := Completed) && Plain(p.cursorRuns[i]) == b.(status := Completed);
    }
  }

  lemma {:induction false} StartedOrigin(cfg: Config, world: World, p: Project, u: Update)
    requires Applies(cfg, world, p, u) && NoLooseCheckpoint(p) && u.StartCursor?
    ensures CursorOrigins(world, p, Apply(cfg, world, p, u))
  {
    hide AnswersCursor;
  }

  lemma {:induction false} FinishedOrigin(cfg: Config, world: World, p: Project, u: Update)
    requires Applies(cfg, world, p, u) && NoLooseCheckpoint(p) && u.FinishCursor?
    ensures CursorOrigins(world, p, Apply(cfg, world, p, u))
  {
  }

  lemma {:induction false} MarkedOrigin(cfg: Config, world: World, p: Project, u: Update)
    requires Applies(cfg, world, p, u) && NoLooseCheckpoint(p) && TouchesCursor(u) && !u.StartCursor? && !u.FinishCursor?
    ensures CursorOrigins(world, p, Apply(cfg, world, p, u))
  {
    hide AnswersCursor;
  }

  lemma {:induction false} CursorRecordOrigin(cfg: Config, world: World, p: Project, u: Update, c: CursorRun)
    requires Applies(cfg, world, p, u) && NoLooseCheckpoint(p)
    requires OnRecord(Apply(cfg, world, p, u), CursorRecord(c))
    ensures OnRecord(p, CursorRecord(c)) || AnswersCursor(world, p, c)
  {
    hide Apply, Applies, NoLooseCheckpoint;
    CursorOrigin(cfg, world, p, u);
    ResultOrigin(world, p, Apply(cfg, world, p, u), c);
  }

  lemma {:induction false} ResultOrigin(world: World, p: Project, q: Project, c: CursorRun)
    requires forall i :: 0 <= i < |q.cursorRuns| ==> CursorRunOrigin(world, p, q, i)
    requires OnRecord(q, CursorRecord(c))
    ensures OnRecord(p, CursorRecord(c)) || AnswersCursor(world, p, c)
  {
    var i :| 0 <= i < |q.cursorRuns| && q.cursorRuns[i].hasResult && Plain(q.cursorRuns[i]) == c;
    assert CursorRunOrigin(world, p, q, i);
  }

  lemma {:induction false} UpdateOrigin(cfg: Config, world: World, p: Project, q: Project, x: Record)
    requires Updated(cfg, world, p, q) && NoLooseCheckpoint(p)
    ensures NoLooseCheckpoint(q)
    ensures OnRecord(q, x) ==> OnRecord(p, x) || Answers(cfg, world, p, x)
  {
    hide Apply, Applies;
    var u :| Applies(cfg, world, p, u) && q == Apply(cfg, world, p, u);
    CursorOrigin(cfg, world, p, u);
    hide NoLooseCheckpoint, AnswersReview, AnswersFinal, AnswersCursor, AnswersVerification, AnswersRuntime, AnswersVisual;
    if OnRecord(q, x) {
      match x {
        case ReviewRecord(n, d) => ReviewOrigin(cfg, world, p, u, n);
        case FinalRecord(f) => FinalOrigin(cfg, world, p, u, f);
        case CursorRecord(c) => CursorRecordOrigin(cfg, world, p, u, c);
        case VerificationRecord(v) => VerificationOrigin(cfg, world, p, u, v);
        case RuntimeRecord(r) => RuntimeOrigin(cfg, world, p, u, r);
        case VisualRecord(w) => VisualOrigin(cfg, world, p, u, w);
        case ProvisioningRecord(r) => ProvisioningOrigin(cfg, world, p, u, r);
        case SpecRecord(spec) => SpecOrigin(cfg, world, p, u, spec);
      }
    }
  }

  // ---- One action ----

  lemma {:induction false} PathOrigin(cfg: Config, world: World, path: seq<Project>, k: nat, x: Record)
    requires Path(cfg, world, path) && k < |path| && NoLooseCheckpoint(path[0])
    ensures NoLooseCheckpoint(path[k])
    ensures OnRecord(path[k], x) ==> OnRecord(path[0], x) || exists j :: 0 <= j < k && Answers(cfg, world, path[j], x)
  {
    hide Updated, NoLooseCheckpoint, OnRecord, Answers;
    if k > 0 {
      PathOrigin(cfg, world, path, k - 1, x);
      assert Updated(cfg, world, path[k - 1], path[k]);
      UpdateOrigin(cfg, world, path[k - 1], path[k], x);
    }
  }

  // On the way from p to q the world was asked about a record s, and x is what it answered.
  ghost predicate AnsweredBetween(cfg: Config, world: World, p: Project, q: Project, x: Record) {
    exists s :: Reaches(cfg, world, p, s) && Reaches(cfg, world, s, q) && Answers(cfg, world, s, x)
  }

  lemma {:induction false} SuffixReaches(cfg: Config, world: World, path: seq<Project>, j: nat)
    requires Path(cfg, world, path) && j < |path|
    ensures Reaches(cfg, world, path[j], path[|path| - 1])
  {
    hide Updated;
    var suffix := path[j..];
    assert Path(cfg, world, suffix) by {
      forall a, b | 0 <= a < b < |suffix| && b == a + 1 ensures Updated(cfg, world, suffix[a], suffix[b]) {
        assert suffix[a] == path[j + a] && suffix[b] == path[j + b];
      }
    }
    assert Connects(cfg, world, suffix, path[j], path[|path| - 1]);
  }

  lemma {:induction false} PrefixReaches(cfg: Config, world: World, path: seq<Project>, j: nat)
    requires Path(cfg, world, path) && j < |path|
    ensures Reaches(cfg, world, path[0], path[j]) && Reaches(cfg, world, path[j], path[|path| - 1])
  {
    hide Updated;
    SuffixReaches(cfg, world, path, j);
    var prefix := path[..j + 1];
    assert Path(cfg, world, prefix) by {
      forall a, b | 0 <= a < b < |prefix| && b == a + 1 ensures Updated(cfg, world, prefix[a], prefix[b]) {
        assert prefix[a] == path[a] && prefix[b] == path[b];
      }
    }
    assert Connects(cfg, world, prefix, path[0], path[j]);
  }

  lemma {:induction false} ReachedOrigin(cfg: Config, world: World, p: Project, q: Project, x: Record)
    requires Reaches(cfg, world, p, q) && NoLooseCheckpoint(p)
    ensures NoLooseCheckpoint(q)
    ensures OnRecord(q, x) ==> OnRecord(p, x) || AnsweredBetween(cfg, world, p, q, x)
  {
    hide Path, NoLooseCheckpoint, OnRecord, Answers;
    var path :| Connects(cfg, world, path, p, q);
    ConnectedAreLong(cfg, world, path, p, q);
    PathOrigin(cfg, world, path, |path| - 1, x);
    if j :| 0 <= j < |path| - 1 && Answers(cfg, world, path[j], x) {
      PrefixReaches(cfg, world, path, j);
    }
  }

  // ---- Whole runs ----

  // A run with the world and the action of each of its steps.
  ghost predicate MadeBy(cfg: Config, t: seq<Project>, worlds: seq<World>, actions: seq<Action>) {
    && t != [] && |worlds| == |actions| == |t| - 1
    && t[0] == Initial(t[0].id, t[0].demo, t[0].existingRepository, t[0].repositoryBaseline)
    && forall i :: 0 <= i < |worlds| ==> StepBy(cfg, worlds[i], t[i], actions[i], t[i + 1])
  }

  ghost predicate StepBy(cfg: Config, world: World, p: Project, a: Action, q: Project) {
    ProvisionsOrThrows(world) && q in Run(cfg, world, p, a).saves
  }

  // Every run has such worlds and actions.
  lemma {:induction false} EveryTraceIsMade(cfg: Config, t: seq<Project>)
    requires WorkflowSafety.Trace(cfg, t)
    ensures exists worlds, actions :: MadeBy(cfg, t, worlds, actions)
  {
    hide Run;
    if |t| == 1 {
      assert MadeBy(cfg, t, [], []);
    } else {
      var n := |t| - 1;
      EveryTraceIsMade(cfg, t[..n]);
      var worlds, actions :| MadeBy(cfg, t[..n], worlds, actions);
      assert DurableStep(cfg, t[n - 1], t[n]);
      var world, a :| ProvisionsOrThrows(world) && t[n] in Run(cfg, world, t[n - 1], a).saves;
      StepIsAdded(cfg, t, worlds, actions, world, a);
    }
  }

  lemma {:induction false} StepIsAdded(cfg: Config, t: seq<Project>, worlds: seq<World>, actions: seq<Action>,
                                       world: World, a: Action)
    requires |t| > 1 && MadeBy(cfg, t[..|t| - 1], worlds, actions) && StepBy(cfg, world, t[|t| - 2], a, t[|t| - 1])
    ensures MadeBy(cfg, t, worlds + [world], actions + [a])
  {
    hide StepBy;
    var n := |t| - 1;
    forall i | 0 <= i < n
      ensures StepBy(cfg, (worlds + [world])[i], t[i], (actions + [a])[i], t[i + 1])
    {
      if i < n - 1 {
        assert StepBy(cfg, worlds[i], t[..n][i], actions[i], t[..n][i + 1]);
      }
    }
  }

  lemma {:induction false} InitialIsEmpty(id: string, demo: bool, existing: bool, baseline: string, x: Record)
    ensures NoLooseCheckpoint(Initial(id, demo, existing, baseline))
    ensures !OnRecord(Initial(id, demo, existing, baseline), x)
  {
  }

  // Nothing on record is invented: in every run, whatever is on the project's record at some moment is what the world
  // answered in an earlier step, asked about a record which the action of that step passed through.
  lemma {:induction false} RecordsAreAnswers(cfg: Config, t: seq<Project>, worlds: seq<World>, actions: seq<Action>,
                                             i: nat, x: Record)
    requires MadeBy(cfg, t, worlds, actions) && i < |t|
    ensures NoLooseCheckpoint(t[i])
    ensures OnRecord(t[i], x) ==> exists j :: 0 <= j < i && AnsweredBetween(cfg, worlds[j], t[j], t[j + 1], x)
  {
    hide Run, NoLooseCheckpoint, OnRecord, Reaches, AnsweredBetween;
    if i == 0 {
      InitialIsEmpty(t[0].id, t[0].demo, t[0].existingRepository, t[0].repositoryBaseline, x);
    } else {
      RecordsAreAnswers(cfg, t, worlds, actions, i - 1, x);
      assert StepBy(cfg, worlds[i - 1], t[i - 1], actions[i - 1], t[i]);
      ActionIsUpdates(cfg, worlds[i - 1], t[i - 1], actions[i - 1], t[i]);
      ReachedOrigin(cfg, worlds[i - 1], t[i - 1], t[i], x);
    }
  }

  // The Council answered COMPLETE when it was asked to review the iteration.
  ghost predicate ReviewAccepted(cfg: Config, world: World, p: Project, q: Project, n: nat) {
    exists s :: Reaches(cfg, world, p, s) && Reaches(cfg, world, s, q)
                && s.operation == ReviewOp && s.iteration == n && n !in s.reviews && world(s).review == Some(Complete)
  }

  // The Council answered COMPLETE when it was asked for a final decision on this number of Cursor runs.
  ghost predicate FinalAccepted(cfg: Config, world: World, p: Project, q: Project, runs: nat) {
    exists s :: Reaches(cfg, world, p, s) && Reaches(cfg, world, s, q)
                && s.operation == FinalOp && |s.cursorRuns| == runs && world(s).final == Some(Complete)
  }

  // Every COMPLETE review on record was a COMPLETE answer, for its iteration, at an earlier step.
  lemma {:induction false} CompleteReviewsWereAnswered(cfg: Config, t: seq<Project>, worlds: seq<World>,
                                                       actions: seq<Action>, i: nat, n: nat)
    requires MadeBy(cfg, t, worlds, actions) && i < |t| && n in t[i].reviews && t[i].reviews[n] == Complete
    ensures exists j :: 0 <= j < i && ReviewAccepted(cfg, worlds[j], t[j], t[j + 1], n)
  {
    hide MadeBy, Reaches;
    RecordsAreAnswers(cfg, t, worlds, actions, i, ReviewRecord(n, Complete));
    MadeIsLong(cfg, t, worlds, actions);
    var j :| 0 <= j < i && AnsweredBetween(cfg, worlds[j], t[j], t[j + 1], ReviewRecord(n, Complete));
    assert ReviewAccepted(cfg, worlds[j], t[j], t[j + 1], n);
  }

  lemma {:induction false} MadeIsLong(cfg: Config, t: seq<Project>, worlds: seq<World>, actions: seq<Action>)
    requires MadeBy(cfg, t, worlds, actions)
    ensures |worlds| == |actions| == |t| - 1
  {
  }

  lemma {:induction false} MadeIsTrace(cfg: Config, t: seq<Project>, worlds: seq<World>, actions: seq<Action>)
    requires MadeBy(cfg, t, worlds, actions)
    ensures WorkflowSafety.Trace(cfg, t)
  {
    hide Run;
    forall i, j | 0 <= i < j < |t| && j == i + 1 ensures DurableStep(cfg, t[i], t[j]) {
      assert StepBy(cfg, worlds[i], t[i], actions[i], t[i + 1]);
    }
  }

  // No project is READY unless the Council accepted it: in every run, while a real project is READY, the Council had
  // answered COMPLETE to the review of its last Cursor run and to the final decision on record.
  lemma {:induction false} ReadyWasAccepted(cfg: Config, t: seq<Project>, worlds: seq<World>, actions: seq<Action>, i: nat)
    requires MadeBy(cfg, t, worlds, actions) && i < |t| && t[i].state == ReadyForOwnerReview && !t[i].demo
    ensures t[i].cursorRuns != [] && t[i].final.Some?
    ensures var n := t[i].cursorRuns[|t[i].cursorRuns| - 1].iteration;
            exists j :: 0 <= j < i && ReviewAccepted(cfg, worlds[j], t[j], t[j + 1], n)
    ensures exists j :: 0 <= j < i && FinalAccepted(cfg, worlds[j], t[j], t[j + 1], t[i].final.value.cursorCount)
  {
    hide MadeBy, Reaches, WorkflowSafety.OwnerReviewCertificate, WorkflowSafety.Trace, ReviewAccepted, OnRecord;
    MadeIsTrace(cfg, t, worlds, actions);
    WorkflowSafety.ReadyIsAlwaysCertified(cfg, t, i);
    var p := t[i];
    AcceptedOnRecord(cfg, p);
    CompleteReviewsWereAnswered(cfg, t, worlds, actions, i, p.cursorRuns[|p.cursorRuns| - 1].iteration);
    RecordsAreAnswers(cfg, t, worlds, actions, i, FinalRecord(p.final.value));
    MadeIsLong(cfg, t, worlds, actions);
    var j :| 0 <= j < i && AnsweredBetween(cfg, worlds[j], t[j], t[j + 1], FinalRecord(p.final.value));
    assert FinalAccepted(cfg, worlds[j], t[j], t[j + 1], p.final.value.cursorCount);
  }

  lemma {:induction false} AcceptedOnRecord(cfg: Config, p: Project)
    requires WorkflowSafety.OwnerReviewCertificate(cfg, p)
    ensures p.cursorRuns != [] && p.final.Some? && p.final.value.decision == Complete
    ensures OnRecord(p, FinalRecord(p.final.value))
    ensures var n := p.cursorRuns[|p.cursorRuns| - 1].iteration; n in p.reviews && p.reviews[n] == Complete
  {
  }

  // ---- Nothing is lost ----

  predicate HasVerification(p: Project, id: string) {
    exists v :: v in p.verificationRuns && v.id == id
  }

  predicate HasRuntime(p: Project, id: string) {
    exists r :: r in p.runtimeRuns && r.id == id
  }

  predicate HasVisual(p: Project, id: string) {
    exists w :: w in p.visualRuns && w.id == id
  }

  // A later record of the same project: reviews stay, finished Cursor runs keep their results, no run of a stage
  // disappears without one of its id, and past finals stay.
  ghost predicate Retains(p: Project, q: Project) {
    && q.id == p.id && q.demo == p.demo && q.existingRepository == p.existingRepository
    && (forall n :: n in p.reviews ==> n in q.reviews)
    && |p.cursorRuns| <= |q.cursorRuns|
    && (forall i :: 0 <= i < |p.cursorRuns| ==>
          q.cursorRuns[i].iteration == p.cursorRuns[i].iteration
          && (p.cursorRuns[i].hasResult ==> Plain(q.cursorRuns[i]) == Plain(p.cursorRuns[i])))
    && (forall id :: HasVerification(p, id) ==> HasVerification(q, id))
    && (forall id :: HasRuntime(p, id) ==> HasRuntime(q, id))
    && (forall id :: HasVisual(p, id) ==> HasVisual(q, id))
    && p.finalHistory <= q.finalHistory
  }

  lemma {:induction false} RunsRetained(cfg: Config, world: World, p: Project, u: Update)
    requires Applies(cfg, world, p, u)
    ensures var q := Apply(cfg, world, p, u);
            && (forall id :: HasVerification(p, id) ==> HasVerification(q, id))
            && (forall id :: HasRuntime(p, id) ==> HasRuntime(q, id))
            && (forall id :: HasVisual(p, id) ==> HasVisual(q, id))
  {
    VerificationsRetained(cfg, world, p, u);
    RuntimesRetained(cfg, world, p, u);
    VisualsRetained(cfg, world, p, u);
  }

  lemma {:induction false} VerificationsRetained(cfg: Config, world: World, p: Project, u: Update)
    requires Applies(cfg, world, p, u)
    ensures forall id :: HasVerification(p, id) ==> HasVerification(Apply(cfg, world, p, u), id)
  {
    if u.Verify? {
      VerificationIsAdded(p.verificationRuns, RecordVerification(p, u.verification, world(p).security).1);
    } else {
      VerificationsUntouched(cfg, world, p, u);
      hide Applies, Apply;
    }
  }

  lemma {:induction false} RuntimesRetained(cfg: Config, world: World, p: Project, u: Update)
    requires Applies(cfg, world, p, u)
    ensures forall id :: HasRuntime(p, id) ==> HasRuntime(Apply(cfg, world, p, u), id)
  {
    if u.Exercise? {
      RuntimeIsAdded(p.runtimeRuns, RecordRuntime(p, u.runtime).1);
    } else if u.ReuseExercised? {
      RuntimeIsAdded(p.runtimeRuns, u.runtime);
    } else {
      RuntimesUntouched(cfg, world, p, u);
      hide Applies, Apply;
    }
  }

  lemma {:induction false} VisualsRetained(cfg: Config, world: World, p: Project, u: Update)
    requires Applies(cfg, world, p, u)
    ensures forall id :: HasVisual(p, id) ==> HasVisual(Apply(cfg, world, p, u), id)
  {
    if u.Inspect? {
      var patch := Some(Verification.EvidenceFromVisual(p, u.visual));
      VisualIsAdded(p.visualRuns, u.visual.(iteration := StageIteration(p), completed := true, evidencePatch := patch));
    } else if u.ReuseInspected? {
      VisualIsAdded(p.visualRuns, u.visual);
    } else {
      VisualsUntouched(cfg, world, p, u);
      hide Applies, Apply;
    }
  }

  lemma {:induction false} BasicsRetained(cfg: Config, world: World, p: Project, u: Update)
    requires Applies(cfg, world, p, u)
    ensures var q := Apply(cfg, world, p, u);
            && q.id == p.id && q.demo == p.demo && q.existingRepository == p.existingRepository
            && (forall n :: n in p.reviews ==> n in q.reviews) && p.finalHistory <= q.finalHistory
  {
    IdentityRetained(cfg, world, p, u);
    CouncilRetained(cfg, world, p, u);
    hide Applies, Apply;
  }

  lemma {:induction false} IdentityRetained(cfg: Config, world: World, p: Project, u: Update)
    requires Applies(cfg, world, p, u)
    ensures var q := Apply(cfg, world, p, u);
            q.id == p.id && q.demo == p.demo && q.existingRepository == p.existingRepository
  {
    hide EvidenceBlocks, Delivery.Prepare, Delivery.Decide, HasValidSpec, MustProvision, Trim, Lineage.MergedEvidence;
    hide RecordVerification, RecordRuntime, RecordVisual, ReuseVerification, WithLastEvidence, AddRuntime, AddVisual;
    hide StartRun, StartedIndex, FinishRun, FinishedRun, ApplyProvisioning, LatestVerification;
    hide FindReusableVerification, FindReusableRuntime, FindReusableVisual;
    if TouchesRuns(u) { RunsAreApart(cfg, world, p, u); }
    if u.TakeFeedback? { ValidSpecIsThere(p); }
  }

  lemma {:induction false} CouncilRetained(cfg: Config, world: World, p: Project, u: Update)
    requires Applies(cfg, world, p, u)
    ensures var q := Apply(cfg, world, p, u);
            (forall n :: n in p.reviews ==> n in q.reviews) && p.finalHistory <= q.finalHistory
  {
    hide EvidenceBlocks, Delivery.Prepare, Delivery.Decide, HasValidSpec, MustProvision, Trim, Lineage.MergedEvidence;
    hide RecordVerification, RecordRuntime, RecordVisual, ReuseVerification, WithLastEvidence, AddRuntime, AddVisual;
    hide StartRun, StartedIndex, FinishRun, FinishedRun, ApplyProvisioning, LatestVerification;
    hide FindReusableVerification, FindReusableRuntime, FindReusableVisual;
    if TouchesRuns(u) { RunsAreApart(cfg, world, p, u); }
    if u.TakeFeedback? { ValidSpecIsThere(p); }
  }

  lemma {:induction false} UpdateRetains(cfg: Config, world: World, p: Project, q: Project)
    requires Updated(cfg, world, p, q) && NoLooseCheckpoint(p)
    ensures Retains(p, q) && NoLooseCheckpoint(q)
  {
    hide Apply, Applies, NoLooseCheckpoint;
    var u :| Applies(cfg, world, p, u) && q == Apply(cfg, world, p, u);
    CursorOrigin(cfg, world, p, u);
    RunsRetained(cfg, world, p, u);
    BasicsRetained(cfg, world, p, u);
    hide HasVerification, HasRuntime, HasVisual;
    forall i | 0 <= i < |p.cursorRuns|
      ensures q.cursorRuns[i].iteration == p.cursorRuns[i].iteration
      ensures p.cursorRuns[i].hasResult ==> Plain(q.cursorRuns[i]) == Plain(p.cursorRuns[i])
    {
      assert CursorRunOrigin(world, p, q, i);
      assert Plain(q.cursorRuns[i]).iteration == q.cursorRuns[i].iteration;
    }
  }

  lemma {:induction false} RetainsTransitively(p: Project, q: Project, r: Project)
    requires Retains(p, q) && Retains(q, r)
    ensures Retains(p, r)
  {
    forall i | 0 <= i < |p.cursorRuns|
      ensures r.cursorRuns[i].iteration == p.cursorRuns[i].iteration
      ensures p.cursorRuns[i].hasResult ==> Plain(r.cursorRuns[i]) == Plain(p.cursorRuns[i])
    {
      assert q.cursorRuns[i].iteration == p.cursorRuns[i].iteration;
    }
  }

  lemma {:induction false} RetainsItself(p: Project)
    ensures Retains(p, p)
  {
  }

  lemma {:induction false} PathRetains(cfg: Config, world: World, path: seq<Project>, k: nat)
    requires Path(cfg, world, path) && k < |path| && NoLooseCheckpoint(path[0])
    ensures Retains(path[0], path[k]) && NoLooseCheckpoint(path[k])
  {
    hide Updated, NoLooseCheckpoint, Retains;
    if k == 0 {
      RetainsItself(path[0]);
    } else {
      PathRetains(cfg, world, path, k - 1);
      assert Updated(cfg, world, path[k - 1], path[k]);
      UpdateRetains(cfg, world, path[k - 1], path[k]);
      RetainsTransitively(path[0], path[k - 1], path[k]);
    }
  }

  lemma {:induction false} ReachedRetains(cfg: Config, world: World, p: Project, q: Project)
    requires Reaches(cfg, world, p, q) && NoLooseCheckpoint(p)
    ensures Retains(p, q)
  {
    hide Path, NoLooseCheckpoint, Retains;
    var path :| Connects(cfg, world, path, p, q);
    ConnectedAreLong(cfg, world, path, p, q);
    PathRetains(cfg, world, path, |path| - 1);
  }

  // In every run, whatever fails, crashes or is replayed, nothing that was put on record is lost.
  lemma {:induction false} NothingIsForgotten(cfg: Config, t: seq<Project>, worlds: seq<World>, actions: seq<Action>,
                                              i: nat, k: nat)
    requires MadeBy(cfg, t, worlds, actions) && i <= k < |t|
    ensures Retains(t[i], t[k])
    decreases k
  {
    hide MadeBy, Retains;
    MadeIsLong(cfg, t, worlds, actions);
    if i == k {
      RetainsItself(t[i]);
    } else {
      NothingIsForgotten(cfg, t, worlds, actions, i, k - 1);
      StepRetains(cfg, t, worlds, actions, k - 1);
      RetainsTransitively(t[i], t[k - 1], t[k]);
    }
  }

  lemma {:induction false} StepRetains(cfg: Config, t: seq<Project>, worlds: seq<World>, actions: seq<Action>, i: nat)
    requires MadeBy(cfg, t, worlds, actions) && i < |worlds|
    ensures Retains(t[i], t[i + 1])
  {
    hide Run, Reaches, Retains, NoLooseCheckpoint, AnsweredBetween, OnRecord;
    RecordsAreAnswers(cfg, t, worlds, actions, i, FinalRecord(FinalReview(Undecided, 0)));
    assert StepBy(cfg, worlds[i], t[i], actions[i], t[i + 1]);
    ActionIsUpdates(cfg, worlds[i], t[i], actions[i], t[i + 1]);
    ReachedRetains(cfg, worlds[i], t[i], t[i + 1]);
  }
}
