// Where the technical evidence of a project comes from, over whole runs: whatever stage recorded, reused, found or
// overwrote it, every build, tests and lint aspect that says more than NOT_RUN is what the steps of some verification
// run that is still recorded say (orchestrator.js:499-710, 712-866).
module EvidenceRuns {
  import opened Text
  import opened States
  import opened Records
  import opened Workflow
  import opened Gate
  import opened EvidenceLink
  import opened Updates
  import Delivery
  import Lineage
  import Verification
  import WorkflowSafety

  // ---- Support ----

  predicate BackedBy(run: VerificationRun, e: Evidence, c: Check) {
    AspectOf(e, c) == Verification.AspectFor(run.steps, KindsFor(c), LevelFor(run.policy, c))
  }

  predicate CheckSupported(runs: seq<VerificationRun>, e: Evidence, c: Check) {
    AspectOf(e, c).status == NotRun || exists run :: run in runs && BackedBy(run, e, c)
  }

  predicate Supported(runs: seq<VerificationRun>, e: Option<Evidence>) {
    e.Some? ==> forall c: Check :: CheckSupported(runs, e.value, c)
  }

  // All evidence on record, also what was kept with earlier stages and may be brought back by them.
  predicate RecordsOk(evidence: Option<Evidence>, cursorRuns: seq<CursorRun>, runs: seq<VerificationRun>,
                      runtimeRuns: seq<RuntimeRun>, visualRuns: seq<VisualRun>)
  {
    && Supported(runs, evidence)
    && (forall r :: r in cursorRuns ==> Supported(runs, r.evidence))
    && (forall r :: r in runs ==> Supported(runs, r.evidencePatch))
    && (forall r :: r in runtimeRuns ==> Supported(runs, r.evidencePatch))
    && (forall r :: r in visualRuns ==> Supported(runs, r.evidencePatch))
  }

  predicate IsSupported(p: Project) {
    RecordsOk(p.evidence, p.cursorRuns, p.verificationRuns, p.runtimeRuns, p.visualRuns)
  }

  // Cursor's clients leave the technical aspects to the platform (orchestrator/evidence.js:127-142,
  // cursor/postflight.js:73-79), and the ids of verification runs are new.
  ghost predicate LeavesChecksToPlatform(world: World) {
    && (forall p: Project :: !world(p).cursor.CursorThrows? ==> SelfReport(world(p).cursor.result.evidence))
    && (forall p: Project, r: VerificationRun ::
          world(p).verification.Some? && r in p.verificationRuns ==> r.id != world(p).verification.value.id)
  }

  // ---- Records that grow ----

  lemma {:induction false} SupportGrows(runs: seq<VerificationRun>, more: seq<VerificationRun>, e: Option<Evidence>)
    requires Supported(runs, e) && forall r :: r in runs ==> r in more
    ensures Supported(more, e)
  {
    hide BackedBy;
    if e.Some? {
      forall c: Check ensures CheckSupported(more, e.value, c) {
        assert CheckSupported(runs, e.value, c);
      }
    }
  }

  lemma {:induction false} WithoutTakes<T>(runs: seq<T>, id: T -> string, drop: string)
    ensures forall r :: r in Without(runs, id, drop) ==> r in runs
    ensures forall r :: r in runs && id(r) != drop ==> r in Without(runs, id, drop)
  {
    if runs != [] { WithoutTakes(runs[1..], id, drop); }
  }

  lemma {:induction false} NewVerificationIsAdded(runs: seq<VerificationRun>, done: VerificationRun)
    requires forall r :: r in runs ==> r.id != done.id
    ensures forall r :: r in AddVerification(runs, done) <==> r in runs || r == done
  {
    WithoutTakes(runs, (r: VerificationRun) => r.id, done.id);
  }

  lemma {:induction false} RuntimeIsAdded(runs: seq<RuntimeRun>, done: RuntimeRun)
    ensures forall r :: r in AddRuntime(runs, done) ==> r in runs || r == done
  {
    WithoutTakes(runs, (r: RuntimeRun) => r.id, done.id);
  }

  lemma {:induction false} VisualIsAdded(runs: seq<VisualRun>, done: VisualRun)
    ensures forall r :: r in AddVisual(runs, done) ==> r in runs || r == done
  {
    WithoutTakes(runs, (r: VisualRun) => r.id, done.id);
  }

  lemma {:induction false} FoundIsRecorded<T>(xs: seq<T>, test: T -> bool)
    ensures Find(xs, test).Some? ==> Find(xs, test).value in xs
  {
    if xs != [] { FoundIsRecorded(xs[1..], test); }
  }

  // ---- Evidence that stages compute ----

  lemma {:induction false} BlankIsSupported(runs: seq<VerificationRun>)
    ensures Supported(runs, Some(Verification.BLANK_EVIDENCE)) && Supported(runs, Some(Verification.MOCK_EVIDENCE))
  {
  }

  lemma {:induction false} PreviousIsSupported(p: Project)
    requires IsSupported(p)
    ensures Supported(p.verificationRuns, Verification.PreviousEvidence(p))
  {
    hide Supported;
    if p.cursorRuns != [] { assert p.cursorRuns[|p.cursorRuns| - 1] in p.cursorRuns; }
    assert p.evidence.None? && p.cursorRuns == [] ==> Verification.PreviousEvidence(p) == None;
    NothingIsSupported(p.verificationRuns);
  }

  lemma {:induction false} NothingIsSupported(runs: seq<VerificationRun>)
    ensures Supported(runs, None)
  {
  }

  lemma {:induction false} SameChecksSupported(runs: seq<VerificationRun>, a: Evidence, b: Evidence)
    requires Supported(runs, Some(a)) && forall c: Check :: AspectOf(b, c) == AspectOf(a, c)
    ensures Supported(runs, Some(b))
  {
    forall c: Check ensures CheckSupported(runs, b, c) {
      assert CheckSupported(runs, a, c);
      if AspectOf(a, c).status != NotRun {
        var run :| run in runs && BackedBy(run, a, c);
        assert BackedBy(run, b, c);
      }
    }
  }

  function BaseEvidence(p: Project): Evidence {
    if Verification.PreviousEvidence(p).Some? then Verification.PreviousEvidence(p).value else Verification.BLANK_EVIDENCE
  }

  lemma {:induction false} RuntimeEvidenceIsSupported(p: Project, run: RuntimeRun)
    requires IsSupported(p)
    ensures Supported(p.verificationRuns, Some(Verification.EvidenceFromRuntime(p, run)))
  {
    hide Supported, RecordsOk;
    BlankIsSupported(p.verificationRuns);
    PreviousIsSupported(p);
    if !p.demo && !run.mock {
      RuntimeKeepsChecks(p, run);
      SameChecksSupported(p.verificationRuns, BaseEvidence(p), Verification.EvidenceFromRuntime(p, run));
    }
  }

  lemma {:induction false} RuntimeKeepsChecks(p: Project, run: RuntimeRun)
    requires !p.demo && !run.mock
    ensures forall c: Check :: AspectOf(Verification.EvidenceFromRuntime(p, run), c) == AspectOf(BaseEvidence(p), c)
  {
  }

  lemma {:induction false} VisualEvidenceIsSupported(p: Project, run: VisualRun)
    requires IsSupported(p)
    ensures Supported(p.verificationRuns, Some(Verification.EvidenceFromVisual(p, run)))
  {
    hide Supported, RecordsOk;
    BlankIsSupported(p.verificationRuns);
    PreviousIsSupported(p);
    if !p.demo && !run.mock {
      VisualKeepsChecks(p, run);
      SameChecksSupported(p.verificationRuns, BaseEvidence(p), Verification.EvidenceFromVisual(p, run));
    }
  }

  lemma {:induction false} VisualKeepsChecks(p: Project, run: VisualRun)
    requires !p.demo && !run.mock
    ensures forall c: Check :: AspectOf(Verification.EvidenceFromVisual(p, run), c) == AspectOf(BaseEvidence(p), c)
  {
  }

  lemma {:induction false} VerificationEvidenceIsSupported(p: Project, run: VerificationRun, security: Aspect,
                                                           runs: seq<VerificationRun>, done: VerificationRun)
    requires done in runs && done.steps == run.steps && done.policy == run.policy
    ensures Supported(runs, Some(Verification.EvidenceFromVerification(p, run, security)))
  {
    BlankIsSupported(runs);
    if !p.demo && !run.mock {
      var e := Verification.EvidenceFromVerification(p, run, security);
      forall c: Check ensures CheckSupported(runs, e, c) {
        VerificationSetsCheck(p, run, security, c);
        assert BackedBy(done, e, c);
      }
    }
  }

  lemma {:induction false} VerificationSetsCheck(p: Project, run: VerificationRun, security: Aspect, c: Check)
    requires !p.demo && !run.mock
    ensures BackedBy(run, Verification.EvidenceFromVerification(p, run, security), c)
  {
  }

  // ---- What a stage records ----

  lemma {:induction false} LastEvidenceSupported(p: Project, e: Option<Evidence>)
    requires IsSupported(p) && Supported(p.verificationRuns, e)
    ensures IsSupported(WithLastEvidence(p, e))
  {
    hide Supported;
  }

  lemma {:induction false} EvidenceSupported(p: Project, e: Option<Evidence>)
    requires IsSupported(p) && Supported(p.verificationRuns, e)
    ensures IsSupported(p.(evidence := FirstOf(e, p.evidence))) && IsSupported(p.(evidence := e))
  {
    hide Supported;
  }

  lemma {:induction false} RecordedVisualSupported(p: Project, run: VisualRun)
    requires IsSupported(p)
    ensures IsSupported(RecordVisual(p, run))
  {
    var patch := Some(Verification.EvidenceFromVisual(p, run));
    var done := run.(iteration := StageIteration(p), completed := true, evidencePatch := patch);
    VisualEvidenceIsSupported(p, run);
    VisualIsAdded(p.visualRuns, done);
    var q := p.(visualRuns := AddVisual(p.visualRuns, done), evidence := patch);
    hide Supported, AddVisual, WithLastEvidence;
    assert IsSupported(q);
    LastEvidenceSupported(q, patch);
  }

  lemma {:induction false} RecordedRuntimeSupported(p: Project, run: RuntimeRun)
    requires IsSupported(p)
    ensures IsSupported(RecordRuntime(p, run).0)
  {
    var patch := Some(Verification.EvidenceFromRuntime(p, run));
    var done := run.(iteration := StageIteration(p), completed := true, evidencePatch := patch);
    RuntimeEvidenceIsSupported(p, run);
    RuntimeIsAdded(p.runtimeRuns, done);
    var q := p.(runtimeRuns := AddRuntime(p.runtimeRuns, done), evidence := patch);
    hide Supported, AddRuntime, WithLastEvidence;
    assert IsSupported(q);
    LastEvidenceSupported(q, patch);
  }

  // Every record stays supported by more verification runs.
  lemma {:induction false} RecordsGrow(p: Project, runs: seq<VerificationRun>)
    requires IsSupported(p) && forall r :: r in p.verificationRuns ==> r in runs
    requires forall r :: r in runs && r !in p.verificationRuns ==> Supported(runs, r.evidencePatch)
    ensures IsSupported(p.(verificationRuns := runs))
  {
    hide Supported;
    SupportGrows(p.verificationRuns, runs, p.evidence);
    forall r | r in p.cursorRuns ensures Supported(runs, r.evidence) { SupportGrows(p.verificationRuns, runs, r.evidence); }
    forall r | r in p.verificationRuns ensures Supported(runs, r.evidencePatch) {
      SupportGrows(p.verificationRuns, runs, r.evidencePatch);
    }
    forall r | r in p.runtimeRuns ensures Supported(runs, r.evidencePatch) {
      SupportGrows(p.verificationRuns, runs, r.evidencePatch);
    }
    forall r | r in p.visualRuns ensures Supported(runs, r.evidencePatch) {
      SupportGrows(p.verificationRuns, runs, r.evidencePatch);
    }
  }

  lemma {:induction false} RecordedVerificationSupported(p: Project, run: VerificationRun, security: Aspect)
    requires IsSupported(p) && forall r :: r in p.verificationRuns ==> r.id != run.id
    ensures IsSupported(RecordVerification(p, run, security).0)
  {
    hide Supported, AddVerification, WithLastEvidence, RecordsOk;
    var done := RecordVerification(p, run, security).1;
    var runs := AddVerification(p.verificationRuns, done);
    NewVerificationIsAdded(p.verificationRuns, done);
    VerificationEvidenceIsSupported(p, run, security, runs, done);
    RecordsGrow(p, runs);
    EvidenceSupported(p.(verificationRuns := runs), done.evidencePatch);
    var patch := done.evidencePatch.value;
    var level := if !run.mock && patch.level != MockLevel then Some(patch.level) else p.verificationLevel;
    var q := p.(verificationRuns := runs, sandboxMode := Or(run.sandboxMode, p.sandboxMode), evidence := Some(patch),
                verificationLevel := level);
    LastEvidenceSupported(q, Some(patch));
  }

  lemma {:induction false} ReusedVerificationSupported(p: Project, run: VerificationRun, security: Aspect)
    requires IsSupported(p) && run in p.verificationRuns
    ensures IsSupported(ReuseVerification(p, run, security))
  {
    var patch := Some(ReusedEvidence(p, run, security));
    VerificationEvidenceIsSupported(p, run, security, p.verificationRuns, run);
    assert Supported(p.verificationRuns, run.evidencePatch);
    hide Supported, WithLastEvidence, RecordsOk, ReusedEvidence;
    EvidenceSupported(p, patch);
    var level := if patch.value.level != MockLevel && run.evidencePatch.Some? then Some(patch.value.level)
                 else p.verificationLevel;
    LastEvidenceSupported(p.(evidence := patch, verificationLevel := level), patch);
  }

  lemma {:induction false} ReusedVisualSupported(p: Project, run: VisualRun)
    requires IsSupported(p) && FindReusableVisual(p) == Some(run)
    ensures IsSupported(p.(evidence := FirstOf(run.evidencePatch, p.evidence), visualRuns := AddVisual(p.visualRuns, run)))
  {
    var runtime := LatestRuntime(p, p.iteration);
    FoundIsRecorded(p.visualRuns, (w: VisualRun) =>
      w.runtimeRunId == runtime.value.id && w.screenshotSetHash == runtime.value.screenshotSetHash
      && w.decision == VisualComplete && w.completed);
    VisualIsAdded(p.visualRuns, run);
    hide Supported, AddVisual;
    EvidenceSupported(p, run.evidencePatch);
  }

  lemma {:induction false} ReusedRuntimeSupported(p: Project, run: RuntimeRun)
    requires IsSupported(p) && FindReusableRuntime(p) == Some(run)
    ensures IsSupported(p.(evidence := FirstOf(run.evidencePatch, p.evidence), runtimeRuns := AddRuntime(p.runtimeRuns, run)))
  {
    FoundIsRecorded(p.runtimeRuns, (r: RuntimeRun) =>
      r.iteration == p.iteration && r.checkpointSha == StageCheckpoint(p) && r.status == RunPass && r.completed);
    RuntimeIsAdded(p.runtimeRuns, run);
    hide Supported, AddRuntime;
    EvidenceSupported(p, run.evidencePatch);
  }

  lemma {:induction false} ReusableIsRecorded(p: Project)
    ensures FindReusableVerification(p).Some? ==> FindReusableVerification(p).value in p.verificationRuns
  {
    var sha := Or(StageCheckpoint(p), Or(p.repositoryBaseline, "none"));
    FoundIsRecorded(p.verificationRuns, (v: VerificationRun) =>
      v.iteration == p.iteration && v.checkpointSha == sha && v.status == RunPass && v.completed);
    FoundIsRecorded(p.verificationRuns, (v: VerificationRun) =>
      v.checkpointSha == sha && v.status == RunPass && v.completed);
  }

  lemma {:induction false} LatestIsRecorded(p: Project, iteration: nat)
    ensures LatestVerification(p, iteration).Some? ==> LatestVerification(p, iteration).value in p.verificationRuns
  {
  }

  lemma {:induction false} FoundVerificationSupported(p: Project, run: VerificationRun)
    requires IsSupported(p) && run in p.verificationRuns
    ensures IsSupported(WithLastEvidence(p, FirstOf(run.evidencePatch, p.evidence)))
  {
    assert Supported(p.verificationRuns, FirstOf(run.evidencePatch, p.evidence));
    hide Supported, WithLastEvidence;
    LastEvidenceSupported(p, FirstOf(run.evidencePatch, p.evidence));
  }

  // ---- Cursor ----

  lemma {:induction false} SelfReportIsSupported(runs: seq<VerificationRun>, e: Evidence)
    requires SelfReport(e)
    ensures Supported(runs, Some(e))
  {
  }

  lemma {:induction false} RunsSupported(p: Project, runs: seq<CursorRun>)
    requires IsSupported(p) && forall r :: r in runs ==> r in p.cursorRuns || Supported(p.verificationRuns, r.evidence)
    ensures IsSupported(p.(cursorRuns := runs))
  {
    hide Supported;
  }

  lemma {:induction false} ChangedRunSupported(p: Project, i: nat, run: CursorRun)
    requires IsSupported(p) && i < |p.cursorRuns| && Supported(p.verificationRuns, run.evidence)
    ensures IsSupported(p.(cursorRuns := p.cursorRuns[i := run]))
  {
    hide Supported, RecordsOk;
    RunsSupported(p, p.cursorRuns[i := run]);
  }

  lemma {:induction false} StatusSupported(p: Project, i: nat, status: CursorStatus)
    requires IsSupported(p) && i < |p.cursorRuns|
    ensures IsSupported(p.(cursorRuns := p.cursorRuns[i := p.cursorRuns[i].(status := status)]))
  {
    hide Supported;
    ChangedRunSupported(p, i, p.cursorRuns[i].(status := status));
  }

  lemma {:induction false} StartedSupported(p: Project)
    requires IsSupported(p)
    ensures IsSupported(p.(operation := CursorOp, cursorRuns := StartRun(p.cursorRuns, p.iteration).1))
  {
    NothingIsSupported(p.verificationRuns);
    hide Supported, RecordsOk;
    var runs := StartRun(p.cursorRuns, p.iteration).1;
    forall r | r in runs ensures r in p.cursorRuns || Supported(p.verificationRuns, r.evidence) {
      StartedRunSupported(p, r);
    }
    RunsSupported(p, runs);
  }

  lemma {:induction false} StartedRunSupported(p: Project, r: CursorRun)
    requires IsSupported(p) && r in StartRun(p.cursorRuns, p.iteration).1
    ensures r in p.cursorRuns || Supported(p.verificationRuns, r.evidence)
  {
    NothingIsSupported(p.verificationRuns);
    hide Supported;
    var found := FindStarted(p.cursorRuns, p.iteration);
    if found.Some? { assert p.cursorRuns[found.value] in p.cursorRuns; }
  }

  lemma {:induction false} FinishedSupported(p: Project, i: nat, run: CursorRun)
    requires IsSupported(p) && i < |p.cursorRuns| && run.evidence.Some? && SelfReport(run.evidence.value)
    ensures IsSupported(FinishRun(p, i, run))
  {
    SelfReportIsSupported(p.verificationRuns, run.evidence.value);
    hide Supported, RecordsOk;
    ChangedRunSupported(p, i, run);
    EvidenceSupported(p.(cursorRuns := p.cursorRuns[i := run]), run.evidence);
  }

  lemma {:induction false} AdoptedSupported(p: Project, i: nat)
    requires IsSupported(p) && i < |p.cursorRuns|
    ensures IsSupported(p.(cursorRuns := p.cursorRuns[i :=
              p.cursorRuns[i].(status := Completed, hasResult := true, resultGitSha := p.cursorRuns[i].checkpointSha)]))
  {
    hide Supported;
    ChangedRunSupported(p, i,
      p.cursorRuns[i].(status := Completed, hasResult := true, resultGitSha := p.cursorRuns[i].checkpointSha));
  }

  // ---- Provisioning, discovery, Council, delivery ----

  lemma {:induction false} AppliedSupported(p: Project, run: ProvisioningRun)
    requires IsSupported(p)
    ensures IsSupported(ApplyProvisioning(p, run))
  {
    if p.evidence.Some? {
      var e := ApplyProvisioning(p, run).evidence.value;
      SameChecksSupported(p.verificationRuns, p.evidence.value, e);
      hide Supported, AddProvisioning;
      EvidenceSupported(p, Some(e));
    }
  }

  // ---- Updates and actions ----

  // What the update leaves of the evidence and the runs is what was there.
  predicate KeepsRecords(p: Project, q: Project) {
    && q.evidence == p.evidence && q.cursorRuns == p.cursorRuns && q.verificationRuns == p.verificationRuns
    && q.runtimeRuns == p.runtimeRuns && q.visualRuns == p.visualRuns
  }

  predicate IsStageUpdate(u: Update) {
    || u.Verify? || u.ReuseVerified? || u.FindVerified? || u.Exercise? || u.ReuseExercised? || u.Inspect?
    || u.ReuseInspected?
  }

  predicate IsWorkUpdate(u: Update) {
    u.StartCursor? || u.FailCursor? || u.FinishCursor? || u.AdoptCursor? || u.FlagCursor? || u.Provision?
  }

  lemma {:induction false} OthersKeepRecords(cfg: Config, world: World, p: Project, u: Update)
    requires Applies(cfg, world, p, u) && !IsStageUpdate(u) && !IsWorkUpdate(u)
    ensures KeepsRecords(p, Apply(cfg, world, p, u))
  {
    hide EvidenceBlocks, Delivery.Prepare, Delivery.Decide, HasValidSpec, MustProvision, Trim, Lineage.MergedEvidence;
    if u.TakeFeedback? { ValidSpecIsThere(p); }
  }

  lemma {:induction false} KeptIsSupported(p: Project, q: Project)
    requires IsSupported(p) && KeepsRecords(p, q)
    ensures IsSupported(q)
  {
    hide RecordsOk;
  }

  lemma {:induction false} StageUpholds(cfg: Config, world: World, p: Project, u: Update)
    requires IsSupported(p) && LeavesChecksToPlatform(world) && Applies(cfg, world, p, u) && IsStageUpdate(u)
    ensures IsSupported(Apply(cfg, world, p, u))
  {
    hide RecordsOk, RecordVerification, RecordRuntime, RecordVisual, ReuseVerification, WithLastEvidence;
    hide AddRuntime, AddVisual, FindReusableVerification, FindReusableRuntime, FindReusableVisual, LatestVerification;
    match u {
      case Verify(run) => RecordedVerificationSupported(p, run, world(p).security);
      case ReuseVerified(run) =>
        ReusableIsRecorded(p);
        ReusedVerificationSupported(p, run, world(p).security);
      case FindVerified(run) =>
        LatestIsRecorded(p, p.iteration);
        FoundVerificationSupported(p, run);
      case Exercise(run) => RecordedRuntimeSupported(p, run);
      case ReuseExercised(run) => ReusedRuntimeSupported(p, run);
      case Inspect(run) => RecordedVisualSupported(p, run);
      case ReuseInspected(run) => ReusedVisualSupported(p, run);
    }
  }

  lemma {:induction false} WorkUpholds(cfg: Config, world: World, p: Project, u: Update)
    requires IsSupported(p) && LeavesChecksToPlatform(world) && Applies(cfg, world, p, u) && IsWorkUpdate(u)
    ensures IsSupported(Apply(cfg, world, p, u))
  {
    hide RecordsOk, StartRun, FinishRun, ApplyProvisioning;
    match u {
      case StartCursor => StartedSupported(p);
      case FailCursor => StatusSupported(p, StartedIndex(p).value, CursorFailed);
      case FinishCursor(result, saved) =>
        var run := FinishedRun(p.iteration, result);
        FinishedSupported(p, StartedIndex(p).value, if saved then run else run.(status := RecoveryRequired));
      case AdoptCursor => AdoptedSupported(p, |p.cursorRuns| - 1);
      case FlagCursor => StatusSupported(p, |p.cursorRuns| - 1, RecoveryRequired);
      case Provision(run) => AppliedSupported(p, run);
    }
  }

  lemma {:induction false} UpdateUpholds(cfg: Config, world: World, p: Project, q: Project)
    requires IsSupported(p) && LeavesChecksToPlatform(world) && Updated(cfg, world, p, q)
    ensures IsSupported(q)
  {
    hide Applies, Apply, IsSupported;
    var u :| Applies(cfg, world, p, u) && q == Apply(cfg, world, p, u);
    if IsStageUpdate(u) {
      StageUpholds(cfg, world, p, u);
    } else if IsWorkUpdate(u) {
      WorkUpholds(cfg, world, p, u);
    } else {
      OthersKeepRecords(cfg, world, p, u);
      KeptIsSupported(p, q);
    }
  }

  lemma {:induction false} PathUpholds(cfg: Config, world: World, path: seq<Project>, k: nat)
    requires Path(cfg, world, path) && k < |path| && IsSupported(path[0]) && LeavesChecksToPlatform(world)
    ensures IsSupported(path[k])
  {
    hide Updated, IsSupported;
    if k > 0 {
      PathUpholds(cfg, world, path, k - 1);
      assert Updated(cfg, world, path[k - 1], path[k]);
      UpdateUpholds(cfg, world, path[k - 1], path[k]);
    }
  }

  lemma {:induction false} ActionUpholds(cfg: Config, world: World, p: Project, a: Action, q: Project)
    requires IsSupported(p) && LeavesChecksToPlatform(world) && q in Run(cfg, world, p, a).saves
    ensures IsSupported(q)
  {
    hide Run, Path, IsSupported;
    ActionIsUpdates(cfg, world, p, a, q);
    var path :| Connects(cfg, world, path, p, q);
    ConnectedAreLong(cfg, world, path, p, q);
    PathUpholds(cfg, world, path, |path| - 1);
  }

  // ---- Whole runs ----

  ghost predicate HonestStep(cfg: Config, p: Project, q: Project) {
    exists world: World, a: Action ::
      ProvisionsOrThrows(world) && LeavesChecksToPlatform(world) && q in Run(cfg, world, p, a).saves
  }

  // A run in which Cursor leaves the checks to the platform.
  ghost predicate HonestTrace(cfg: Config, t: seq<Project>) {
    && WorkflowSafety.Trace(cfg, t)
    && forall i, j :: 0 <= i < j < |t| && j == i + 1 ==> HonestStep(cfg, t[i], t[j])
  }

  lemma {:induction false} HonestStepUpholds(cfg: Config, p: Project, q: Project)
    requires IsSupported(p) && HonestStep(cfg, p, q)
    ensures IsSupported(q)
  {
    hide Run, IsSupported;
    var world: World, a: Action :|
      ProvisionsOrThrows(world) && LeavesChecksToPlatform(world) && q in Run(cfg, world, p, a).saves;
    ActionUpholds(cfg, world, p, a, q);
  }

  lemma {:induction false} InitialIsSupported(id: string, demo: bool, existing: bool, baseline: string)
    ensures IsSupported(Initial(id, demo, existing, baseline))
  {
  }

  lemma {:induction false} EverythingIsSupported(cfg: Config, t: seq<Project>, i: nat)
    requires HonestTrace(cfg, t) && i < |t|
    ensures IsSupported(t[i])
  {
    hide HonestStep, IsSupported, DurableStep;
    if i == 0 {
      InitialIsSupported(t[0].id, t[0].demo, t[0].existingRepository, t[0].repositoryBaseline);
    } else {
      EverythingIsSupported(cfg, t, i - 1);
      HonestStepUpholds(cfg, t[i - 1], t[i]);
    }
  }

  // Some recorded run executed steps of the check's kinds, and none of them failed.
  predicate PassedSomewhere(p: Project, c: Check) {
    exists run :: run in p.verificationRuns && Passed(run, c)
  }

  predicate Passed(run: VerificationRun, c: Check) {
    Verification.Ran(run.steps, KindsFor(c)) && !Verification.FailedIn(run.steps, KindsFor(c))
  }

  // Some recorded run called the check inapplicable and executed nothing of its kinds.
  predicate WaivedSomewhere(p: Project, c: Check) {
    exists run :: run in p.verificationRuns && Waived(run, c)
  }

  predicate Waived(run: VerificationRun, c: Check) {
    LevelFor(run.policy, c) == Inapplicable && !Verification.Ran(run.steps, KindsFor(c))
  }

  lemma {:induction false} BackedMeans(run: VerificationRun, e: Evidence, c: Check)
    requires BackedBy(run, e, c) && AspectOf(e, c).status !in {Fail, NotRun, Unknown}
    ensures Passed(run, c) || Waived(run, c)
  {
    Verification.AspectTellsTheTruth(run.steps, KindsFor(c), LevelFor(run.policy, c));
  }

  // The gate itself: with supported evidence, a check that the latest run requires gets through only if it passed in
  // a recorded run, or one waived it.
  lemma {:induction false} OpenGateIsBacked(p: Project, settings: Settings, c: Check)
    requires IsSupported(p) && !p.demo && GateOk(p, settings)
    requires var v := LatestVerification(p, RunIteration(p)); v.Some? && LevelFor(v.value.policy, c) == Required
    ensures PassedSomewhere(p, c) || WaivedSomewhere(p, c)
  {
    hide GateOk, RecordsOk, AspectOf, LevelFor, KindsFor;
    PreviousIsSupported(p);
    RequiredCheckSpeaks(p, settings, c);
    var e := Lineage.MergedEvidence(p).value;
    assert CheckSupported(p.verificationRuns, e, c);
    var run :| run in p.verificationRuns && BackedBy(run, e, c);
    BackedMeans(run, e, c);
  }

  lemma {:induction false} RequiredCheckSpeaks(p: Project, settings: Settings, c: Check)
    requires !p.demo && GateOk(p, settings)
    requires var v := LatestVerification(p, RunIteration(p)); v.Some? && LevelFor(v.value.policy, c) == Required
    ensures Lineage.MergedEvidence(p).Some?
    ensures AspectOf(Lineage.MergedEvidence(p).value, c).status !in {Fail, NotRun, Unknown}
  {
    assert !Rejects(p, settings, MissingEvidence);
    assert !Rejects(p, settings, AspectFailed(c));
    assert !Rejects(p, settings, AspectNotRun(c));
    assert !Rejects(p, settings, AspectUnknown(c));
  }

  // In every run in which Cursor leaves the checks to the platform, whatever was reused, found complete, skipped by a
  // retry or replayed: while a real project is READY, every build, tests or lint check that its latest verification
  // requires passed in a verification run that is on record, unless one on record waived it.
  lemma {:induction false} ReadyChecksAreBacked(cfg: Config, t: seq<Project>, i: nat, c: Check)
    requires HonestTrace(cfg, t) && i < |t| && t[i].state == ReadyForOwnerReview && !t[i].demo
    requires var v := LatestVerification(t[i], RunIteration(t[i])); v.Some? && LevelFor(v.value.policy, c) == Required
    ensures PassedSomewhere(t[i], c) || WaivedSomewhere(t[i], c)
  {
    hide GateOk, RecordsOk, HonestStep, DurableStep, PassedSomewhere, WaivedSomewhere;
    EverythingIsSupported(cfg, t, i);
    WorkflowSafety.ReadyIsAlwaysCertified(cfg, t, i);
    OpenGateIsBacked(t[i].(error := false), Settings(cfg.maxIterations, true), c);
    SameRuns(t[i], c);
  }

  lemma {:induction false} SameRuns(p: Project, c: Check)
    ensures PassedSomewhere(p.(error := false), c) == PassedSomewhere(p, c)
    ensures WaivedSomewhere(p.(error := false), c) == WaivedSomewhere(p, c)
  {
  }

  // When no recorded run waives the check, it passed.
  lemma {:induction false} ReadyMeansPassed(cfg: Config, t: seq<Project>, i: nat, c: Check)
    requires HonestTrace(cfg, t) && i < |t| && t[i].state == ReadyForOwnerReview && !t[i].demo
    requires var v := LatestVerification(t[i], RunIteration(t[i])); v.Some? && LevelFor(v.value.policy, c) == Required
    requires forall run :: run in t[i].verificationRuns ==> LevelFor(run.policy, c) != Inapplicable
    ensures PassedSomewhere(t[i], c)
  {
    hide HonestTrace, Passed, LevelFor, KindsFor;
    ReadyChecksAreBacked(cfg, t, i, c);
  }

  // The exception is real: evidence of a run that waived the check gets it past the gate, whatever the latest run
  // requires.
  lemma {:induction false} WaiverOpensTheCheck(p: Project, settings: Settings, run: VerificationRun, c: Check)
    requires Lineage.MergedEvidence(p).Some? && BackedBy(run, Lineage.MergedEvidence(p).value, c) && Waived(run, c)
    ensures !Rejects(p, settings, AspectFailed(c)) && !Rejects(p, settings, AspectNotRun(c))
    ensures !Rejects(p, settings, AspectUnknown(c))
  {
    Verification.AspectTellsTheTruth(run.steps, KindsFor(c), LevelFor(run.policy, c));
  }

  // A project where it happens: a clean verification without any test is reused for the checkpoint it was made for,
  // although a later one of the same checkpoint requires tests, and ran none.
  lemma {:induction false} AReusedVerificationWaivesTheTests(settings: Settings, security: Aspect)
    ensures exists p: Project, u: VerificationRun, v: VerificationRun ::
              && FindReusableVerification(p) == Some(u) && Waived(u, TestsCheck)
              && LatestVerification(p, RunIteration(p)) == Some(v) && LevelFor(v.policy, TestsCheck) == Required
              && !Verification.Ran(v.steps, KindsFor(TestsCheck))
              && var q := ReuseVerification(p, u, security);
                 !Rejects(q, settings, AspectFailed(TestsCheck)) && !Rejects(q, settings, AspectNotRun(TestsCheck))
                 && !Rejects(q, settings, AspectUnknown(TestsCheck))
  {
    var none := Policy(Optional, Inapplicable, Optional, Optional, Optional);
    var tests := none.(tests := Required);
    var u := VerificationRun("u", 1, "abc", RunPass, true, false, none, [], [], "", None);
    var v := VerificationRun("v", 2, "abc", RunPartial, true, false, tests, [], [], "", None);
    var run := CursorRun(2, Completed, true, "abc", "", "", "", "", false, Some(Verification.BLANK_EVIDENCE));
    var p := Initial("p", false, true, "").(iteration := 2, cursorRuns := [run], verificationRuns := [u, v],
                                             evidence := run.evidence);
    CleanOneIsReused(p, u, v);
    var q := ReuseVerification(p, u, security);
    VerificationSetsCheck(p, u, security, TestsCheck);
    assert Lineage.MergedEvidence(q) == Some(Verification.EvidenceFromVerification(p, u, security));
    WaiverOpensTheCheck(q, settings, u, TestsCheck);
  }

  lemma {:induction false} CleanOneIsReused(p: Project, u: VerificationRun, v: VerificationRun)
    requires p.verificationRuns == [u, v] && StageCheckpoint(p) == u.checkpointSha != "" && u.checkpointSha != "none"
    requires u.status == RunPass && u.completed && u.iteration != p.iteration
    requires v.status == RunPartial && v.iteration == p.iteration
    ensures FindReusableVerification(p) == Some(u) && LatestVerification(p, p.iteration) == Some(v)
  {
    var sha := u.checkpointSha;
    var same := (v: VerificationRun) =>
      v.iteration == p.iteration && v.checkpointSha == sha && v.status == RunPass && v.completed;
    var any := (v: VerificationRun) => v.checkpointSha == sha && v.status == RunPass && v.completed;
    FindInTwo(u, v, same);
    FindInTwo(u, v, any);
    assert Or(StageCheckpoint(p), Or(p.repositoryBaseline, "none")) == sha;
  }

  lemma {:induction false} FindInTwo<T>(x: T, y: T, test: T -> bool)
    ensures Find([x, y], test) == if test(x) then Some(x) else if test(y) then Some(y) else None
  {
    assert [x, y][1..] == [y];
    FindInOne(y, test);
  }
}
