// A run that ends in READY_FOR_OWNER_REVIEW: a real project on an existing repository, in queue mode, for which every
// job succeeds at once. It shows that what is proved about READY projects is about something.
module ReadyRun {
  import opened Text
  import opened States
  import opened Records
  import opened Workflow
  import opened WorkflowProofs
  import opened WorkflowSafety
  import opened EvidenceRuns
  import Delivery
  import Gate
  import Lineage
  import Verification

  const CONFIG := Config(12, false, true)
  const SHA := "abcdef1"
  const CLEAN := Aspect(Pass, PlatformVerified)

  const REPORT := Verification.BLANK_EVIDENCE.(execution := Aspect(Pass, CursorReported))
  const CHECKS := VerificationRun(
      "v", 1, SHA, RunPass, true, false, Policy(Required, Required, Required, Optional, Optional),
      [Step("b", Build, true, false), Step("t", Test, true, false), Step("l", Lint, true, false)], [], "", None)
  const RUNTIME := RuntimeRun(
      "r", 1, SHA, RunPass, true, false, RuntimePolicy(Required, Inapplicable, Inapplicable), [], false, None, false,
      [], "", None)
  const PACKAGE := Package(true, true, true, true, true, true)

  const ANSWERS := Answers(
      DiscoveryGives(Spec("build it", "app"), false), "", None, false, None,
      CursorGives(CursorResult(SHA, "", "", "", "", false, REPORT)), Some(CHECKS.(id := "")), CLEAN, Some(RUNTIME), None,
      Some(Complete), Some(Complete), Some(PACKAGE), true)

  // The id of a new verification run is longer than those on record.
  function NewId(runs: seq<VerificationRun>): string {
    if runs == [] then "v" else runs[0].id + NewId(runs[1..])
  }

  function LuckyWorld(): World {
    (p: Project) => ANSWERS.(verification := Some(CHECKS.(id := NewId(p.verificationRuns))))
  }

  lemma {:induction false} IdsAreNew(runs: seq<VerificationRun>)
    ensures forall r :: r in runs ==> |r.id| < |NewId(runs)|
  {
    if runs != [] { IdsAreNew(runs[1..]); }
  }

  lemma {:induction false} TheWorldIsFair()
    ensures ProvisionsOrThrows(LuckyWorld()) && LeavesChecksToPlatform(LuckyWorld())
  {
    forall p: Project, r: VerificationRun | r in p.verificationRuns
      ensures r.id != LuckyWorld()(p).verification.value.id
    {
      IdsAreNew(p.verificationRuns);
    }
  }

  // ---- The snapshots after each job ----

  function S0(): Project { Initial("p", false, true, "") }

  function S1(): Project {
    S0().(state := SpecificationReady, operation := DiscoveryOp, spec := Some(Spec("build it", "app")),
          history := [Edge(IdeaSubmitted, CouncilDiscovery), Edge(CouncilDiscovery, SpecificationReady)])
  }

  function Implemented(): CursorRun {
    CursorRun(1, Completed, true, SHA, "", "", "", "", false, Some(REPORT))
  }

  function S2(): Project {
    var p := Moved(S1().(iteration := 1), CursorExecuting);
    Moved(p.(operation := CursorOp, cursorRuns := [Implemented()], evidence := Some(REPORT),
             verificationLevel := Some(SelfReportedLevel)), PlatformVerification)
  }

  function Checked(): VerificationRun {
    RecordVerification(S2().(operation := VerificationOp), CHECKS, CLEAN).1
  }

  function S3(): Project {
    Moved(RecordVerification(S2().(operation := VerificationOp), CHECKS, CLEAN).0, RuntimeVerification)
  }

  function S4(): Project {
    Moved(RecordRuntime(S3().(operation := RuntimeOp), RUNTIME).0, CouncilReview)
  }

  function S5(): Project {
    Moved(S4().(operation := ReviewOp, reviews := map[1 := Complete]), FinalVerification)
  }

  function Judged(): Project {
    S5().(operation := FinalOp, final := Some(FinalReview(Complete, 1)))
  }

  ghost function S6(): Project {
    Offered(LuckyWorld(), Moved(Judged(), DeliveryPreparation))
  }

  ghost predicate JobMakes(p: Project, job: JobType, q: Project) {
    q in Run(CONFIG, LuckyWorld(), p, JobAction(job)).saves
  }

  // Which handler each job of the run comes to.
  lemma {:induction false} JobIsHandler(p: Project)
    ensures p.state == IdeaSubmitted ==> Job(CONFIG, LuckyWorld(), p, DiscoveryJob) == EnsureDiscovery(LuckyWorld(), p)
    ensures p.state == SpecificationReady && !MustProvision(p) ==>
              Job(CONFIG, LuckyWorld(), p, CursorJob) == RequestCursorRun(CONFIG, LuckyWorld(), p, true)
    ensures p.state == PlatformVerification ==>
              Job(CONFIG, LuckyWorld(), p, VerificationJob) == FinishPlatform(CONFIG, LuckyWorld(), p)
    ensures p.state == RuntimeVerification ==>
              Job(CONFIG, LuckyWorld(), p, RuntimeJob) == FinishRuntime(CONFIG, LuckyWorld(), p)
    ensures p.state == CouncilReview ==>
              Job(CONFIG, LuckyWorld(), p, ReviewJob) == FinishReview(CONFIG, LuckyWorld(), p)
    ensures p.state == FinalVerification ==>
              Job(CONFIG, LuckyWorld(), p, FinalJob) == FinishFinal(CONFIG, LuckyWorld(), p)
  {
    hide EnsureDiscovery, RequestCursorRun, FinishPlatform, FinishRuntime, FinishReview, FinishFinal, MustProvision;
    hide FinishProvisioning, FinishOrReplayCursor, FinishVisual, FinishDelivery, LuckyWorld;
  }

  lemma {:induction false} MadeBy(p: Project, job: JobType, e: Exec, q: Project)
    requires Job(CONFIG, LuckyWorld(), p, job) == e && q in e.saves
    ensures JobMakes(p, job, q)
  {
    hide Job, LuckyWorld;
  }

  lemma {:induction false} DiscoveryGivesSpec(p: Project)
    requires p.spec.None? && p.existingRepository && p.state == CouncilDiscovery
    ensures var r := p.(operation := DiscoveryOp, spec := Some(Spec("build it", "app")));
            && !HasValidSpec(p)
            && PerformDiscovery(LuckyWorld(), p).saves == [p.(operation := DiscoveryOp), Moved(r, SpecificationReady)]
  {
    TrimmedPrompt();
    hide Trim;
  }

  lemma {:induction false} Discovered()
    ensures JobMakes(S0(), DiscoveryJob, S1())
  {
    hide Job, JobMakes;
    JobIsHandler(S0());
    var p := Moved(S0(), CouncilDiscovery);
    var r := p.(operation := DiscoveryOp, spec := Some(Spec("build it", "app")));
    assert S1() == Moved(r, SpecificationReady) && p.spec.None? && p.existingRepository && p.state == CouncilDiscovery;
    DiscoveryGivesSpec(p);
    assert Transition(S0(), CouncilDiscovery) == Save(p);
    hide S0, S1, PerformDiscovery, HasValidSpec;
    assert EnsureDiscovery(LuckyWorld(), S0()).saves == [p] + [p.(operation := DiscoveryOp), Moved(r, SpecificationReady)];
    assert S1() in [p] + [p.(operation := DiscoveryOp), Moved(r, SpecificationReady)];
    MadeBy(S0(), DiscoveryJob, EnsureDiscovery(LuckyWorld(), S0()), S1());
  }

  lemma {:induction false} TrimmedPrompt()
    ensures Trim("build it") == "build it"
  {
  }

  lemma {:induction false} CursorFinishes(p: Project)
    requires p.state == CursorExecuting && p.iteration == 1 && p.cursorRuns == []
    ensures var q := p.(operation := CursorOp, cursorRuns := [FreshRun(1)]);
            var r := p.(operation := CursorOp, cursorRuns := [Implemented()], evidence := Some(REPORT),
                        verificationLevel := Some(SelfReportedLevel));
            RunCursor(CONFIG, LuckyWorld(), p) == Exec([q, r, Moved(r, PlatformVerification)], Moved(r, PlatformVerification), Ok)
  {
    hide FinishPlatform, FinishRuntime, LatestAt;
    var q := p.(operation := CursorOp, cursorRuns := [FreshRun(1)]);
    var r := p.(operation := CursorOp, cursorRuns := [Implemented()], evidence := Some(REPORT),
                verificationLevel := Some(SelfReportedLevel));
    assert p.cursorRuns + [FreshRun(1)] == [FreshRun(1)];
    assert StartRun(p.cursorRuns, 1) == (0, [FreshRun(1)]);
    assert [FreshRun(1)][0 := Implemented()] == [Implemented()];
    assert ReportCursor(LuckyWorld(), 0, q) == Save(r);
    hide ReportCursor;
    assert ExecuteCursor(LuckyWorld(), p) == Exec([q, r], r, Ok);
    assert EnterPlatform(CONFIG, LuckyWorld(), r) == Save(Moved(r, PlatformVerification));
  }

  lemma {:induction false} ImplementedStep()
    ensures JobMakes(S1(), CursorJob, S2())
  {
    hide Job, JobMakes, RunCursor;
    var p := Moved(S1().(iteration := 1), CursorExecuting);
    assert !MustProvision(S1());
    hide MustProvision;
    JobIsHandler(S1());
    CursorFinishes(p);
    assert OpenIteration(S1()) == Save(p);
    assert RequestCursorRun(CONFIG, LuckyWorld(), S1(), true).last == S2();
    assert S2() in RequestCursorRun(CONFIG, LuckyWorld(), S1(), true).saves;
    MadeBy(S1(), CursorJob, RequestCursorRun(CONFIG, LuckyWorld(), S1(), true), S2());
  }

  // The evidence of the verification, and that the run goes on to the runtime stage.
  lemma {:induction false} VerifiedEvidence(p: Project)
    requires !p.demo && p.evidence == Some(REPORT)
    ensures Verification.EvidenceFromVerification(p, CHECKS, CLEAN)
            == REPORT.(level := PlatformVerifiedLevel, build := CLEAN, tests := CLEAN, lint := CLEAN, security := CLEAN)
  {
    var steps := CHECKS.steps;
    assert Verification.Matching(steps, {Build}) == [steps[0]] by { MatchingThree(steps, {Build}); }
    assert Verification.Matching(steps, {Test}) == [steps[1]] by { MatchingThree(steps, {Test}); }
    assert Verification.Matching(steps, {Lint, StaticAnalysis}) == [steps[2]] by {
      MatchingThree(steps, {Lint, StaticAnalysis});
    }
    assert CLEAN in {CLEAN} && CLEAN.status == Pass;
  }

  lemma {:induction false} MatchingThree(steps: seq<Step>, kinds: set<Kind>)
    requires |steps| == 3
    ensures Verification.Matching(steps, kinds)
            == (if steps[0].kind in kinds then [steps[0]] else []) + (if steps[1].kind in kinds then [steps[1]] else [])
               + (if steps[2].kind in kinds then [steps[2]] else [])
  {
    assert steps[1..][1..] == [steps[2]] && [steps[2]][1..] == [];
    assert Verification.Matching([steps[2]], kinds) == if steps[2].kind in kinds then [steps[2]] else [];
    assert Verification.Matching(steps[1..], kinds)
           == (if steps[1].kind in kinds then [steps[1]] else []) + Verification.Matching([steps[2]], kinds);
  }

  function Verified(): Evidence {
    REPORT.(level := PlatformVerifiedLevel, build := CLEAN, tests := CLEAN, lint := CLEAN, security := CLEAN)
  }

  // S3 written out.
  lemma {:induction false} WhatIsVerified()
    ensures Checked() == CHECKS.(evidencePatch := Some(Verified()))
    ensures S3() == Moved(S2().(operation := VerificationOp, verificationRuns := [Checked()],
                                evidence := Some(Verified()), verificationLevel := Some(PlatformVerifiedLevel),
                                cursorRuns := [Implemented().(evidence := Some(Verified()))]), RuntimeVerification)
  {
    hide Verification.EvidenceFromVerification;
    VerifiedEvidence(S2().(operation := VerificationOp));
    assert AddVerification([], Checked()) == [Checked()];
    assert [Implemented()][0 := Implemented().(evidence := Some(Verified()))]
           == [Implemented().(evidence := Some(Verified()))];
  }

  lemma {:induction false} VerifiedStep()
    ensures JobMakes(S2(), VerificationJob, S3())
  {
    hide RecordVerification, Verified, Implemented, Job, JobMakes;
    WhatIsVerified();
    VerifiedStays();
    JobIsHandler(S2());
    var q := S2().(operation := VerificationOp);
    var (r, done) := RecordVerification(q, CHECKS, CLEAN);
    hide S2, S3, Checked;
    assert LuckyWorld()(q).verification == Some(CHECKS) && LuckyWorld()(q).security == CLEAN;
    assert AfterPlatform(CONFIG, LuckyWorld(), r, done) == Save(S3());
    assert FinishPlatform(CONFIG, LuckyWorld(), S2()) == PerformVerification(CONFIG, LuckyWorld(), S2());
    assert PerformVerification(CONFIG, LuckyWorld(), S2()).saves == [q, r, S3()];
    MadeBy(S2(), VerificationJob, PerformVerification(CONFIG, LuckyWorld(), S2()), S3());
  }

  lemma {:induction false} VerifiedStays()
    ensures S2().state == PlatformVerification && S2().verificationRuns == []
    ensures var (r, done) := RecordVerification(S2().(operation := VerificationOp), CHECKS, CLEAN);
            && Moved(r, RuntimeVerification) == S3() && r.state == PlatformVerification
            && !ShouldSkipRuntime(r, Some(done))
    ensures var q := S2().(operation := VerificationOp); LuckyWorld()(q).verification == Some(CHECKS)
  {
    hide Verification.EvidenceFromVerification;
    VerifiedEvidence(S2().(operation := VerificationOp));
  }

  // S4 written out: the runtime stage changes the runtime aspects only.
  function Exercised(): Evidence {
    Verified().(runtime := CLEAN, functional := CLEAN, accessibility := Aspect(NotApplicable, PlatformVerified))
  }

  function Running(): RuntimeRun { RUNTIME.(evidencePatch := Some(Exercised())) }

  lemma {:induction false} RuntimeRecordWritten(p: Project, run: RuntimeRun, c: CursorRun, e: Evidence)
    requires p.runtimeRuns == [] && p.cursorRuns == [c] && p.iteration == run.iteration > 0 && run.completed
    requires Verification.EvidenceFromRuntime(p, run) == e
    ensures RecordRuntime(p, run).0 == p.(runtimeRuns := [run.(evidencePatch := Some(e))], evidence := Some(e),
                                          cursorRuns := [c.(evidence := Some(e))])
  {
    hide Verification.EvidenceFromRuntime;
    assert AddRuntime([], run.(evidencePatch := Some(e))) == [run.(evidencePatch := Some(e))];
    assert [c][0 := c.(evidence := Some(e))] == [c.(evidence := Some(e))];
  }

  lemma {:induction false} RuntimeEvidence(p: Project)
    requires !p.demo && p.evidence == Some(Verified())
    ensures Verification.EvidenceFromRuntime(p, RUNTIME) == Exercised()
  {
    hide Verified;
  }

  lemma {:induction false} WhatIsExercised()
    ensures S4() == Moved(S3().(operation := RuntimeOp, runtimeRuns := [Running()], evidence := Some(Exercised()),
                                cursorRuns := [Implemented().(evidence := Some(Exercised()))]), CouncilReview)
  {
    WhatIsVerified();
    hide Verified, Implemented, Checked, Exercised, RecordVerification, RecordRuntime;
    var p := S3().(operation := RuntimeOp);
    RuntimeEvidence(p);
    RuntimeRecordWritten(p, RUNTIME, Implemented().(evidence := Some(Verified())), Exercised());
  }

  lemma {:induction false} ExercisedStep()
    ensures JobMakes(S3(), RuntimeJob, S4())
  {
    hide RecordRuntime, Job, JobMakes;
    var q := S3().(operation := RuntimeOp);
    var (r, done) := RecordRuntime(q, RUNTIME);
    ExercisedStays();
    JobIsHandler(S3());
    hide S3, S4;
    assert AfterRuntime(CONFIG, LuckyWorld(), r, done) == Save(S4());
    assert FinishRuntime(CONFIG, LuckyWorld(), S3()) == PerformRuntime(CONFIG, LuckyWorld(), S3());
    assert PerformRuntime(CONFIG, LuckyWorld(), S3()).saves == [q, r, S4()];
    MadeBy(S3(), RuntimeJob, PerformRuntime(CONFIG, LuckyWorld(), S3()), S4());
  }

  lemma {:induction false} ExercisedStays()
    ensures S3().state == RuntimeVerification && S3().runtimeRuns == []
    ensures var (r, done) := RecordRuntime(S3().(operation := RuntimeOp), RUNTIME);
            && Moved(r, CouncilReview) == S4() && r.state == RuntimeVerification
            && ShouldSkipVisual(r, Some(done))
  {
    WhatIsVerified();
  }

  // What the Council and the gate look at from here on.
  lemma {:induction false} WhatIsReviewed(p: Project)
    requires p in {S4(), S5(), Judged()}
    ensures p.iteration == 1 && !p.demo && !p.error && p.cursorRuns == [Implemented().(evidence := Some(Exercised()))]
    ensures p.verificationRuns == [Checked()] && p.runtimeRuns == [Running()] && p.visualRuns == []
    ensures p.evidence == Some(Exercised()) && p.verificationLevel == Some(PlatformVerifiedLevel)
    ensures p.spec == Some(Spec("build it", "app")) && p.existingRepository && !p.unprovisionedRepository
    ensures p.deliveries == [] && p.ownerReviews == [] && p.sandboxMode == "" && p.runtimePolicy.None?
    ensures p.provisioning.None? && p.provisioningRuns == []
  {
    WhatIsExercised();
    WhatIsVerified();
    hide Verified, Exercised, Implemented, Checked, Running;
  }

  lemma {:induction false} ReviewAccepts(p: Project)
    requires p.state == CouncilReview && p.iteration == 1 && p.cursorRuns != [] && p.reviews == map[] && !EvidenceBlocks(p)
    ensures var r := p.(operation := ReviewOp, reviews := map[1 := Complete]);
            JobMakes(p, ReviewJob, Moved(r, FinalVerification))
  {
    var q := p.(operation := ReviewOp);
    var r := q.(reviews := map[1 := Complete]);
    assert q.reviews[1 := Complete] == map[1 := Complete];
    assert EvidenceBlocks(r) == EvidenceBlocks(p);
    hide EvidenceBlocks, Job, JobMakes;
    JobIsHandler(p);
    assert PerformReview(LuckyWorld(), q) == Exec([q, r], r, Ok);
    assert ActOnReview(CONFIG, LuckyWorld(), r) == Save(Moved(r, FinalVerification));
    hide Seq, Moved;
    InSeq(AskReview(LuckyWorld(), p), ActOnReview(CONFIG, LuckyWorld(), r), Moved(r, FinalVerification));
    MadeBy(p, ReviewJob, FinishReview(CONFIG, LuckyWorld(), p), Moved(r, FinalVerification));
  }

  lemma {:induction false} ReviewedStep()
    ensures JobMakes(S4(), ReviewJob, S5())
  {
    WhatIsReviewed(S4());
    WaitsForReview();
    NothingBlocks(S4());
    hide S4, Implemented, Checked, Running, Exercised, EvidenceBlocks, JobMakes;
    ReviewAccepts(S4());
  }

  lemma {:induction false} WaitsForReview()
    ensures S4().state == CouncilReview && S4().reviews == map[] && S4().final.None? && S4().finalHistory == []
  {
    WhatIsExercised();
    WhatIsVerified();
    hide Verified, Exercised, Implemented, Checked, Running, RecordVerification, RecordRuntime;
  }

  lemma {:induction false} NothingBlocks(p: Project)
    requires p.verificationRuns == [Checked()] && p.runtimeRuns == [Running()] && p.visualRuns == []
    ensures !EvidenceBlocks(p)
  {
    hide EvidenceBlocks;
    assert Checked().blockingFailures == [] && Running().blockingFailures == [];
    NoBlockers(p, Checked(), Running());
  }

  lemma {:induction false} NoBlockers(p: Project, v: VerificationRun, r: RuntimeRun)
    requires p.verificationRuns == [v] && p.runtimeRuns == [r] && p.visualRuns == []
    requires v.blockingFailures == [] && r.blockingFailures == []
    ensures !EvidenceBlocks(p)
  {
  }

  // ---- The gate ----

  lemma {:induction false} LooksUp(p: Project)
    requires p.cursorRuns == [Implemented().(evidence := Some(Exercised()))] && p.iteration == 1
    requires p.verificationRuns == [Checked()] && p.runtimeRuns == [Running()] && p.visualRuns == []
    ensures RunIteration(p) == 1 && LatestVerification(p, 1) == Some(Checked()) && LatestRuntime(p, 1) == Some(Running())
    ensures LatestVisual(p, 1).None? && FinalCheckpoint(p) == SHA && StageCheckpoint(p) == SHA
    ensures Checked().checkpointSha == SHA && Checked().policy == CHECKS.policy && !Checked().mock && Checked().iteration == 1
  {
  }

  lemma {:induction false} ShaIsACommit()
    ensures Lineage.IsGitObjectId(SHA) && !Lineage.IsSyntheticCheckpoint(SHA)
  {
    assert Trim(SHA) == SHA;
  }

  predicate Reviewed(p: Project) {
    && p.iteration == 1 && !p.demo && !p.error && p.cursorRuns == [Implemented().(evidence := Some(Exercised()))]
    && p.verificationRuns == [Checked()] && p.runtimeRuns == [Running()] && p.visualRuns == []
    && p.evidence == Some(Exercised()) && p.verificationLevel == Some(PlatformVerifiedLevel)
    && p.spec == Some(Spec("build it", "app")) && p.existingRepository && !p.unprovisionedRepository
    && p.sandboxMode == "" && p.runtimePolicy.None? && p.provisioning.None? && p.provisioningRuns == []
    && p.reviews == map[1 := Complete] && p.final == Some(FinalReview(Complete, 1))
    && (Lineage.CurrentDelivery(p).Some? ==> Lineage.CurrentDelivery(p).value.checkpointSha == SHA)
  }

  lemma {:induction false} NothingIsMock(p: Project, run: CursorRun, v: VerificationRun, r: RuntimeRun, e: Evidence)
    requires Lineage.MergedEvidence(p) == Some(e) && e.level != MockLevel && p.verificationLevel != Some(MockLevel)
    requires forall a :: a in Lineage.Aspects(e) ==> a.provenance != MockReported
    requires p.cursorRuns == [run] && p.verificationRuns == [v] && p.runtimeRuns == [r] && p.visualRuns == []
    requires !run.mockMode && !v.mock && !r.mock && p.sandboxMode == ""
    requires run.checkpointSha != "" && !Lineage.IsSyntheticCheckpoint(run.checkpointSha)
    ensures !Lineage.HasMockEvidence(p) && !Lineage.HasMockCheckpoint(p)
  {
    hide Lineage.MergedEvidence, Lineage.Aspects, Lineage.IsSyntheticCheckpoint, Lineage.CurrentDelivery;
  }

  lemma {:induction false} NoMock(p: Project)
    requires Reviewed(p)
    ensures !Lineage.HasMockEvidence(p) && !Lineage.HasMockCheckpoint(p)
  {
    ShaIsACommit();
    NoAspectIsMock(Exercised());
    MockFlags();
    assert Lineage.MergedEvidence(p) == Some(Exercised());
    hide Exercised, Checked, Running, Implemented, Lineage.Aspects, Lineage.IsSyntheticCheckpoint, Lineage.CurrentDelivery;
    hide Lineage.HasMockEvidence, Lineage.HasMockCheckpoint, Lineage.MergedEvidence;
    NothingIsMock(p, Implemented().(evidence := Some(Exercised())), Checked(), Running(), Exercised());
  }

  lemma {:induction false} MockFlags()
    ensures !Checked().mock && !Running().mock && !Implemented().mockMode && Exercised().level != MockLevel
    ensures Implemented().checkpointSha == SHA
  {
  }

  lemma {:induction false} NoAspectIsMock(e: Evidence)
    requires e == Exercised()
    ensures forall a :: a in Lineage.Aspects(e) ==> a.provenance != MockReported
  {
    forall a | a in Lineage.Aspects(e) ensures a.provenance != MockReported {
      assert a in {e.execution, e.git, e.build, e.tests, e.lint, e.runtime, e.functional, e.accessibility, e.visual,
                   e.security, e.provisioning};
    }
  }

  lemma {:induction false} RuntimeIsFine(p: Project, x: Gate.Reason)
    requires Reviewed(p)
    ensures !Gate.RuntimeRejects(p, x) && !Gate.VisualRejects(p, x)
  {
    LooksUp(p);
    hide LatestRuntime, LatestVisual, LatestVerification;
    assert !Gate.RequiresVisual(p);
    assert !Gate.IsRuntimeStale(p, Running());
  }

  lemma {:induction false} ChecksAreFine(p: Project, settings: Gate.Settings, c: Gate.Check)
    requires Reviewed(p)
    ensures !Gate.Rejects(p, settings, Gate.AspectFailed(c)) && !Gate.Rejects(p, settings, Gate.AspectNotRun(c))
    ensures !Gate.Rejects(p, settings, Gate.AspectUnknown(c))
  {
    assert Gate.AspectOf(Exercised(), c) == CLEAN;
    assert Lineage.MergedEvidence(p) == Some(Exercised());
    hide Reviewed, Exercised, Lineage.MergedEvidence;
    PassingAspect(p, settings, c);
  }

  lemma {:induction false} PassingAspect(p: Project, settings: Gate.Settings, c: Gate.Check)
    requires Lineage.MergedEvidence(p).Some? && Gate.AspectOf(Lineage.MergedEvidence(p).value, c).status == Pass
    ensures !Gate.Rejects(p, settings, Gate.AspectFailed(c)) && !Gate.Rejects(p, settings, Gate.AspectNotRun(c))
    ensures !Gate.Rejects(p, settings, Gate.AspectUnknown(c))
  {
    hide Lineage.MergedEvidence, Gate.ChecksAspect;
  }

  // What the gate's other reasons come to.
  lemma {:induction false} NothingElseRejects(p: Project, settings: Gate.Settings, x: Gate.Reason)
    requires !p.error && p.iteration <= settings.maxIterations && settings.securityClear
    requires !Lineage.HasMockEvidence(p) && !Lineage.HasMockCheckpoint(p) && HasValidSpec(p)
    requires CouncilAccepted(p) && p.verificationRuns != [] && p.existingRepository && !p.unprovisionedRepository
    requires Lineage.MergedEvidence(p).Some? && Lineage.MergedEvidence(p).value.execution.status != Fail
    ensures Gate.IsEvidenceReason(x) || Gate.IsProvisioningReason(x) || Gate.IsOutcomeReason(x) || x.VerificationNotRun? ==>
              !Gate.Rejects(p, settings, x)
  {
    hide Lineage.HasMockEvidence, Lineage.HasMockCheckpoint, HasValidSpec, Lineage.MergedEvidence;
  }

  lemma {:induction false} IsAccepted(p: Project)
    requires Reviewed(p)
    ensures HasValidSpec(p) && CouncilAccepted(p)
    ensures Lineage.MergedEvidence(p).Some? && Lineage.MergedEvidence(p).value.execution.status == Pass
  {
    TrimmedPrompt();
    assert RunIteration(p) == 1;
    assert Exercised().execution.status == Pass;
    hide Exercised, Implemented, Checked, Running, Lineage.CurrentDelivery, Trim;
  }

  lemma {:induction false} GateIsOpen(p: Project)
    requires Reviewed(p)
    ensures Gate.GateOk(p, Gate.Settings(12, true))
  {
    var settings := Gate.Settings(12, true);
    NoMock(p);
    IsAccepted(p);
    ReviewedBasics(p);
    forall x ensures !Gate.Rejects(p, settings, x) {
      hide Gate.RuntimeRejects, Gate.VisualRejects, Reviewed, Gate.Rejects, CouncilAccepted, HasValidSpec;
      hide Lineage.HasMockEvidence, Lineage.HasMockCheckpoint, Lineage.MergedEvidence;
      Gate.EveryReasonHasAGroup(x);
      Gate.GroupMeaning(p, settings, x);
      RuntimeIsFine(p, x);
      if Gate.IsVerificationReason(x) {
        if x.AspectFailed? || x.AspectNotRun? || x.AspectUnknown? { ChecksAreFine(p, settings, x.check); }
      }
      NothingElseRejects(p, settings, x);
    }
  }

  lemma {:induction false} ReviewedBasics(p: Project)
    requires Reviewed(p)
    ensures !p.error && p.iteration == 1 && !p.demo && p.verificationRuns != [] && p.existingRepository
    ensures !p.unprovisionedRepository && p.final.Some?
  {
    hide Exercised, Implemented, Checked, Running, Lineage.CurrentDelivery;
  }

  // What the lineage's reasons come to.
  lemma {:induction false} NothingBreaksTheLineage(p: Project, v: VerificationRun, r: RuntimeRun)
    requires !Lineage.HasMockEvidence(p) && !Lineage.HasMockCheckpoint(p) && HasValidSpec(p) && p.final.Some?
    requires Lineage.IsGitObjectId(FinalCheckpoint(p)) && !Lineage.IsSyntheticCheckpoint(FinalCheckpoint(p))
    requires FinalCheckpoint(p) != "" && Lineage.ProvisioningRecord(p).None?
    requires LatestVerification(p, RunIteration(p)) == Some(v) && v.checkpointSha == FinalCheckpoint(p)
    requires LatestRuntime(p, RunIteration(p)) == Some(r) && r.checkpointSha == FinalCheckpoint(p) && r.screenshots == []
    requires LatestVisual(p, RunIteration(p)).None?
    ensures Lineage.LineageOk(p)
  {
    SpecHasPrompt(p);
    hide Lineage.HasMockEvidence, Lineage.HasMockCheckpoint, HasValidSpec, Lineage.IsGitObjectId;
    hide Lineage.IsSyntheticCheckpoint, LatestVerification, LatestRuntime, LatestVisual, FinalCheckpoint, RunIteration;
  }

  lemma {:induction false} SpecHasPrompt(p: Project)
    requires HasValidSpec(p)
    ensures p.spec.Some? && p.spec.value.cursorPrompt != ""
  {
  }

  lemma {:induction false} LineageIsFine(p: Project)
    requires Reviewed(p)
    ensures Lineage.LineageOk(p)
  {
    NoMock(p);
    IsAccepted(p);
    LooksUp(p);
    ShaIsACommit();
    ReviewedBasics(p);
    RunningIsPlain();
    NeverProvisioned(p);
    hide Reviewed, Lineage.HasMockEvidence, Lineage.HasMockCheckpoint, HasValidSpec, Lineage.IsGitObjectId, Checked, Running;
    hide Lineage.IsSyntheticCheckpoint, LatestVerification, LatestRuntime, LatestVisual, FinalCheckpoint, RunIteration;
    hide Lineage.LineageOk, Lineage.ProvisioningRecord, CouncilAccepted, Lineage.MergedEvidence;
    NothingBreaksTheLineage(p, Checked(), Running());
  }

  lemma {:induction false} NeverProvisioned(p: Project)
    requires Reviewed(p)
    ensures Lineage.ProvisioningRecord(p).None?
  {
    hide Exercised, Implemented, Checked, Running, Lineage.CurrentDelivery;
  }

  lemma {:induction false} RunningIsPlain()
    ensures Running().screenshots == [] && Running().checkpointSha == SHA
  {
  }

  // ---- The delivery ----

  function Delivering(): Project { Moved(Judged(), DeliveryPreparation) }

  lemma {:induction false} DeliveringIsReviewed()
    ensures Reviewed(Delivering()) && Delivering().deliveries == [] && Delivering().ownerReviews == []
    ensures Reviewed(Judged()) && Delivering().state == DeliveryPreparation && Judged().state == FinalVerification
  {
    WhatIsReviewed(Judged());
    assert Judged().reviews == map[1 := Complete] && Judged().final == Some(FinalReview(Complete, 1));
    hide S5, Exercised, Implemented, Checked, Running;
  }

  lemma {:induction false} PackageIsPublished(p: Project)
    requires Lineage.LineageOk(p) && p.deliveries == [] && p.ownerReviews == []
    ensures Delivery.LedgerOk(p.deliveries, p.ownerReviews) && Delivery.Prepare(p, Some(PACKAGE)).ok
    ensures var ds := Delivery.Prepare(p, Some(PACKAGE)).deliveries; |ds| == 1 && ds[0].package == Some(PACKAGE)
  {
    hide Lineage.LineageOk, Lineage.DeliveryKeyOf;
  }

  // The delivery that was prepared is acceptable to the gate.
  lemma {:induction false} DeliveryIsAcceptable(p: Project, q: Project)
    requires Lineage.LineageOk(p) && p.deliveries == [] && p.ownerReviews == [] && FinalCheckpoint(p) != ""
    requires q == p.(deliveries := Delivery.Prepare(p, Some(PACKAGE)).deliveries)
    ensures Lineage.CurrentDelivery(q).Some? && Lineage.CurrentDelivery(q).value.checkpointSha == FinalCheckpoint(p)
    ensures Lineage.CurrentDelivery(q).value.status == Ready
    ensures Lineage.DeliveryIsCurrent(q, Lineage.CurrentDelivery(q).value)
    ensures forall x :: !Gate.DeliveryRejects(q, x)
  {
    PackageIsPublished(p);
    Delivery.PreparedDeliveryIsCurrent(p, Some(PACKAGE));
    hide Delivery.Prepare, Lineage.LineageOk;
    Delivery.KeyIgnoresDeliveries(p, q.deliveries);
    hide Lineage.EvidenceSetOf, FinalCheckpoint;
  }

  lemma {:induction false} NothingObjects(p: Project)
    requires p.state == DeliveryPreparation && Delivery.Prepare(p, Some(PACKAGE)).ok
    requires Gate.ReadyOk(Delivered(LuckyWorld(), p), Gate.Settings(12, true))
    ensures FinishDelivery(CONFIG, LuckyWorld(), p) == Save(Offered(LuckyWorld(), p))
    ensures Offered(LuckyWorld(), p).state == ReadyForOwnerReview
  {
    hide Delivery.Prepare, Gate.ReadyOk, Lineage.MergedEvidence;
    assert LuckyWorld()(p).packaged == Some(PACKAGE) && SettingsFor(CONFIG, LuckyWorld(), p) == Gate.Settings(12, true);
    assert Legal(DeliveryPreparation, ReadyForOwnerReview);
  }

  lemma {:induction false} DeliveryIsOffered(p: Project)
    requires Reviewed(p) && p.state == DeliveryPreparation && p.deliveries == [] && p.ownerReviews == []
    ensures FinishDelivery(CONFIG, LuckyWorld(), p) == Save(Offered(LuckyWorld(), p))
    ensures Offered(LuckyWorld(), p).state == ReadyForOwnerReview
    ensures var q := Delivered(LuckyWorld(), p);
            && Lineage.CurrentDelivery(q).Some? && Lineage.CurrentDelivery(q).value.status == Ready
            && Lineage.DeliveryIsCurrent(q, Lineage.CurrentDelivery(q).value)
  {
    hide Delivery.Prepare, Lineage.LineageOk, Lineage.DeliveryIsCurrent, Gate.DeliveryRejects, FinalCheckpoint, Reviewed;
    hide Lineage.CurrentDelivery, Gate.GateOk, Offered, FinishDelivery, Running, Checked;
    LineageIsFine(p);
    CheckpointIsSha(p);
    var q := Delivered(LuckyWorld(), p);
    assert q == p.(deliveries := Delivery.Prepare(p, Some(PACKAGE)).deliveries);
    PackageIsPublished(p);
    DeliveryIsAcceptable(p, q);
    StillReviewed(p, q);
    GateIsOpen(q);
    NothingObjects(p);
  }

  lemma {:induction false} CheckpointIsSha(p: Project)
    requires Reviewed(p)
    ensures FinalCheckpoint(p) == SHA
  {
    LooksUp(p);
  }

  lemma {:induction false} StillReviewed(p: Project, q: Project)
    requires Reviewed(p) && q == p.(deliveries := q.deliveries)
    requires Lineage.CurrentDelivery(q).Some? ==> Lineage.CurrentDelivery(q).value.checkpointSha == SHA
    ensures Reviewed(q)
  {
    hide Exercised, Implemented, Checked, Running, Lineage.CurrentDelivery;
  }

  lemma {:induction false} FinalAccepts(p: Project, r: Project, last: Project)
    requires p.state == FinalVerification && |p.cursorRuns| == 1 && p.final.None?
    requires r == p.(operation := FinalOp, final := Some(FinalReview(Complete, 1)))
    requires last in EnterDelivery(CONFIG, LuckyWorld(), r).saves
    ensures JobMakes(p, FinalJob, last)
  {
    hide EnterDelivery, Job, JobMakes, AskFinal, ActOnFinal, Seq;
    JobIsHandler(p);
    CouncilJudges(p);
    GoesToDelivery(r);
    InSeq(AskFinal(LuckyWorld(), p), ActOnFinal(CONFIG, LuckyWorld(), r), last);
    MadeBy(p, FinalJob, FinishFinal(CONFIG, LuckyWorld(), p), last);
  }

  lemma {:induction false} InSeq(first: Exec, second: Exec, q: Project)
    requires first.outcome.Ok? && q in second.saves
    ensures q in Seq(first, second).saves
  {
  }

  lemma {:induction false} CouncilJudges(p: Project)
    requires |p.cursorRuns| == 1 && p.final.None?
    ensures var q := p.(operation := FinalOp);
            var r := q.(final := Some(FinalReview(Complete, 1)));
            AskFinal(LuckyWorld(), p) == Exec([q, r], r, Ok)
  {
  }

  lemma {:induction false} GoesToDelivery(r: Project)
    requires r.final == Some(FinalReview(Complete, 1))
    ensures ActOnFinal(CONFIG, LuckyWorld(), r) == EnterDelivery(CONFIG, LuckyWorld(), r)
  {
    hide EnterDelivery;
  }

  lemma {:induction false} GateLetsIn(r: Project, last: Project)
    requires r.state == FinalVerification && Gate.GateOk(r, Gate.Settings(12, true))
    requires FinishDelivery(CONFIG, LuckyWorld(), Moved(r, DeliveryPreparation)) == Save(last)
    ensures EnterDelivery(CONFIG, LuckyWorld(), r) == Exec([Moved(r, DeliveryPreparation), last], last, Ok)
  {
    hide FinishDelivery, Gate.GateOk;
    assert SettingsFor(CONFIG, LuckyWorld(), r) == Gate.Settings(12, true);
    assert Enter(r, DeliveryPreparation) == Save(Moved(r, DeliveryPreparation));
  }

  lemma {:induction false} WaitsForFinal()
    ensures S5().final.None? && S5().state == FinalVerification && |S5().cursorRuns| == 1
  {
    WaitsForReview();
    WhatIsReviewed(S5());
    hide S4, Exercised, Implemented, Checked, Running;
  }

  lemma {:induction false} JudgedIsOffered()
    ensures S6() in EnterDelivery(CONFIG, LuckyWorld(), Judged()).saves
  {
    DeliveringIsReviewed();
    assert Delivering() == Moved(Judged(), DeliveryPreparation);
    hide Judged, Delivering, Reviewed, Gate.GateOk, FinishDelivery, EnterDelivery, Offered, Moved;
    GateIsOpen(Judged());
    DeliveryIsOffered(Delivering());
    GateLetsIn(Judged(), S6());
  }

  lemma {:induction false} FinalStep()
    ensures JobMakes(S5(), FinalJob, S6())
  {
    hide S5, S6, EnterDelivery, JobMakes;
    WaitsForFinal();
    JudgedIsOffered();
    FinalAccepts(S5(), Judged(), S6());
  }

  // ---- The run ----

  ghost predicate Steps(p: Project, q: Project) {
    DurableStep(CONFIG, p, q) && HonestStep(CONFIG, p, q)
  }

  lemma {:induction false} JobSteps(p: Project, job: JobType, q: Project)
    requires JobMakes(p, job, q)
    ensures Steps(p, q)
  {
    TheWorldIsFair();
    hide Run, ProvisionsOrThrows, LeavesChecksToPlatform, LuckyWorld;
    var a := JobAction(job);
    assert ProvisionsOrThrows(LuckyWorld()) && LeavesChecksToPlatform(LuckyWorld())
           && q in Run(CONFIG, LuckyWorld(), p, a).saves;
  }

  ghost function TheRun(): seq<Project> {
    [S0(), S1(), S2(), S3(), S4(), S5(), S6()]
  }

  // What was proved about READY projects is about this one too, and so is the witness of the late final job: the owner
  // may request changes.
  lemma {:induction false} AProjectBecomesReady()
    ensures HonestTrace(CONFIG, TheRun()) && TheRun()[6].state == ReadyForOwnerReview && !TheRun()[6].demo
    ensures Inv(CONFIG, TheRun()[6]) && !TheRun()[6].error && LastSha(TheRun()[6]) != ""
    ensures TheRun()[6].final.Some? && TheRun()[6].final.value.cursorCount == |TheRun()[6].cursorRuns|
    ensures OwnerDecides(TheRun()[6], OwnerRequestsChanges, "more").outcome.Ok?
  {
    EveryJobIsMade();
    TheLastSnapshot();
    hide S0, S1, S2, S3, S4, S5, S6, Steps, HonestStep, DurableStep, Inv, OwnerDecides, LastSha;
    var t := TheRun();
    assert t[0] == Initial("p", false, true, "") by { StartsNew(); }
    forall i, j | 0 <= i < j < |t| && j == i + 1 ensures Steps(t[i], t[j]) {
      assert i in {0, 1, 2, 3, 4, 5};
    }
    StepsMakeATrace(t);
    WorkflowSafety.TraceIsSound(CONFIG, t, 6);
  }

  lemma {:induction false} StartsNew()
    ensures S0() == Initial("p", false, true, "")
  {
  }

  lemma {:induction false} StepsMakeATrace(t: seq<Project>)
    requires t != [] && t[0] == Initial("p", false, true, "")
    requires forall i, j :: 0 <= i < j < |t| && j == i + 1 ==> Steps(t[i], t[j])
    ensures HonestTrace(CONFIG, t)
  {
    assert t[0].id == "p" && !t[0].demo && t[0].existingRepository && t[0].repositoryBaseline == "";
    hide DurableStep, HonestStep, Initial;
  }

  lemma {:induction false} EveryJobIsMade()
    ensures Steps(S0(), S1()) && Steps(S1(), S2()) && Steps(S2(), S3()) && Steps(S3(), S4()) && Steps(S4(), S5())
    ensures Steps(S5(), S6())
  {
    hide S0, S1, S2, S3, S4, S5, S6, Steps, JobMakes;
    Discovered();
    ImplementedStep();
    VerifiedStep();
    ExercisedStep();
    ReviewedStep();
    FinalStep();
    JobSteps(S0(), DiscoveryJob, S1());
    JobSteps(S1(), CursorJob, S2());
    JobSteps(S2(), VerificationJob, S3());
    JobSteps(S3(), RuntimeJob, S4());
    JobSteps(S4(), ReviewJob, S5());
    JobSteps(S5(), FinalJob, S6());
  }

  lemma {:induction false} OfferedKeeps(x: Project)
    ensures var q := Delivered(LuckyWorld(), x);
            var p := Offered(LuckyWorld(), x);
            && p == q.(state := ReadyForOwnerReview, history := p.history, verificationLevel := p.verificationLevel)
            && q == x.(deliveries := q.deliveries)
  {
    hide Delivery.Prepare;
    LevelComesFromEvidence(Delivered(LuckyWorld(), x));
    hide WithLevel;
  }

  lemma {:induction false} TheLastSnapshot()
    ensures var p := S6();
            && p.state == ReadyForOwnerReview && !p.demo && !p.error && LastSha(p) != ""
            && p.final.Some? && p.final.value.cursorCount == |p.cursorRuns|
            && OwnerDecides(p, OwnerRequestsChanges, "more").outcome.Ok?
  {
    assert S6() == Offered(LuckyWorld(), Delivering());
    hide Judged, Delivering, Reviewed, Lineage.CurrentDelivery, Lineage.DeliveryIsCurrent, Delivered, OwnerDecides;
    hide FinishDelivery, Offered, LastSha;
    DeliveringIsReviewed();
    var x := Delivering();
    DeliveringBasics();
    DeliveryIsOffered(x);
    OfferedKeeps(x);
    LastShaReadsRuns(x, S6());
    OwnerMayRequestChanges(Delivered(LuckyWorld(), x), S6());
  }

  lemma {:induction false} DeliveringBasics()
    ensures var x := Delivering();
            !x.demo && !x.error && LastSha(x) == SHA && x.final == Some(FinalReview(Complete, 1)) && |x.cursorRuns| == 1
  {
    DeliveringIsReviewed();
    hide Judged, Delivering, Exercised, Checked, Running;
  }

  lemma {:induction false} LastShaReadsRuns(p: Project, q: Project)
    requires q.cursorRuns == p.cursorRuns
    ensures LastSha(q) == LastSha(p)
  {
  }

  lemma {:induction false} OwnerMayRequestChanges(q: Project, p: Project)
    requires p == q.(state := p.state, history := p.history, verificationLevel := p.verificationLevel)
    requires p.state == ReadyForOwnerReview && q.ownerReviews == [] && Lineage.CurrentDelivery(q).Some?
    requires Lineage.CurrentDelivery(q).value.status == Ready
    requires Lineage.DeliveryIsCurrent(q, Lineage.CurrentDelivery(q).value)
    ensures OwnerDecides(p, OwnerRequestsChanges, "more").outcome.Ok?
  {
    DecisionIsFree(q, p);
    hide Delivery.Decide, Trim;
    var d := Delivery.Decide(p, OwnerRequestsChanges, "more");
    TwoTransitions(p.(deliveries := d.deliveries, ownerReviews := d.ownerReviews, pendingFeedback := Some(Trim("more"))),
                   OwnerChangesRequested, CouncilDiscovery);
    hide TransitionTwice;
  }

  lemma {:induction false} DecisionIsFree(q: Project, p: Project)
    requires p == q.(state := p.state, history := p.history, verificationLevel := p.verificationLevel)
    requires q.ownerReviews == [] && Lineage.CurrentDelivery(q).Some?
    requires Lineage.CurrentDelivery(q).value.status == Ready
    requires Lineage.DeliveryIsCurrent(q, Lineage.CurrentDelivery(q).value)
    ensures Delivery.Decide(p, OwnerRequestsChanges, "more").error.None?
  {
    EvidenceSetFrame(q, p);
    assert Trim("more") == "more";
    hide Lineage.EvidenceSetOf, FinalCheckpoint, Trim;
  }
}
