// When the project's evidence is that of its latest verification run, the link that the verification soundness of
// module Gate starts from. Only two branches of the platform stage make it (orchestrator.js:507-572), the end of a
// Cursor run overwrites it with Cursor's own report, and the third branch keeps whatever was there.
module EvidenceLink {
  import opened Text
  import opened Records
  import opened Workflow
  import opened Gate
  import Verification

  // What was recorded with a run is what its steps say.
  predicate PatchIsHonest(run: VerificationRun) {
    run.evidencePatch.Some? ==>
      forall c: Check :: AspectOf(run.evidencePatch.value, c)
                         == Verification.AspectFor(run.steps, KindsFor(c), LevelFor(run.policy, c))
  }

  lemma {:induction false} LastRecordedIsLatest(runs: seq<VerificationRun>, done: VerificationRun)
    ensures LatestAt(AddVerification(runs, done), (r: VerificationRun) => r.iteration, done.iteration) == Some(done)
  {
    var all := AddVerification(runs, done);
    assert all[|all| - 1] == done;
  }

  // A verification that was executed makes the link to the run it records, and that run is the latest one.
  lemma {:induction false} ExecutedVerificationLinks(p: Project, run: VerificationRun, security: Aspect)
    requires !p.demo && !run.mock
    ensures var (q, done) := RecordVerification(p, run, security);
            && EvidenceCameFrom(q, done) && PatchIsHonest(done)
            && LatestVerification(q, StageIteration(p)) == Some(done)
  {
    var (q, done) := RecordVerification(p, run, security);
    LastRecordedIsLatest(p.verificationRuns, done);
    assert q.evidence == done.evidencePatch == Some(Verification.EvidenceFromVerification(p, run, security));
  }

  // A reused verification makes the link to the run that is reused.
  lemma {:induction false} ReusedVerificationLinks(p: Project, run: VerificationRun, security: Aspect)
    requires !p.demo && !run.mock && PatchIsHonest(run)
    ensures EvidenceCameFrom(ReuseVerification(p, run, security), run)
  {
    assert ReuseVerification(p, run, security).evidence == Some(ReusedEvidence(p, run, security));
  }

  // The run that is not reused, but found complete for an unchanged checkpoint.
  predicate FoundComplete(p: Project) {
    && FindReusableVerification(p).None?
    && LatestVerification(p, p.iteration).Some?
    && LatestVerification(p, p.iteration).value.completed
    && StillCurrent(p, LatestVerification(p, p.iteration).value.checkpointSha)
  }

  // In queue mode the end of the platform stage moves the project on and changes nothing else.
  lemma {:induction false} AfterPlatformMovesOnly(cfg: Config, world: World, p: Project, run: VerificationRun, q: Project)
    requires cfg.queue && q in AfterPlatform(cfg, world, p, run).saves
    ensures q == p.(state := q.state, history := q.history)
  {
    hide ShouldSkipRuntime;
  }

  lemma {:induction false} LinkReadsEvidence(p: Project, q: Project, v: VerificationRun)
    requires p.evidence.Some? && q.evidence == p.evidence
    ensures EvidenceCameFrom(q, v) <==> EvidenceCameFrom(p, v)
  {
    hide AspectOf, LevelFor, KindsFor, Verification.AspectFor;
  }

  lemma {:induction false} LastEvidenceOnly(p: Project, e: Option<Evidence>)
    ensures var q := WithLastEvidence(p, e);
            q == p.(cursorRuns := q.cursorRuns) && RunIteration(q) == RunIteration(p)
  {
  }

  // A verification that is only found complete leaves the project's own evidence alone. In both modes the stage goes
  // on with a project whose evidence is linked to exactly the runs it was linked to before, and in queue mode, where
  // it stops there, so is every snapshot.
  lemma {:induction false} FoundVerificationKeepsTheLink(cfg: Config, world: World, p: Project, v: VerificationRun)
    requires FoundComplete(p) && p.evidence.Some?
    ensures exists r: Project ::
              && FinishPlatform(cfg, world, p) == AfterPlatform(cfg, world, r, LatestVerification(p, p.iteration).value)
              && SameChecks(p, r) && (EvidenceCameFrom(r, v) <==> EvidenceCameFrom(p, v))
    ensures forall q :: cfg.queue && q in FinishPlatform(cfg, world, p).saves ==>
              SameChecks(p, q) && (EvidenceCameFrom(q, v) <==> EvidenceCameFrom(p, v))
  {
    hide AfterPlatform, FindReusableVerification, StillCurrent, LatestVerification, EvidenceCameFrom, WithLastEvidence;
    var run := LatestVerification(p, p.iteration).value;
    var r := WithLastEvidence(p, FirstOf(run.evidencePatch, p.evidence));
    LastEvidenceOnly(p, FirstOf(run.evidencePatch, p.evidence));
    LinkReadsEvidence(p, r, v);
    assert FinishPlatform(cfg, world, p) == AfterPlatform(cfg, world, r, run);
    forall q | cfg.queue && q in FinishPlatform(cfg, world, p).saves
      ensures SameChecks(p, q) && (EvidenceCameFrom(q, v) <==> EvidenceCameFrom(p, v))
    {
      AfterPlatformMovesOnly(cfg, world, r, run, q);
      LinkReadsEvidence(p, q, v);
    }
  }

  // What the gate reads about build, tests and lint.
  predicate SameChecks(p: Project, q: Project) {
    && q.demo == p.demo && q.evidence == p.evidence && q.verificationRuns == p.verificationRuns
    && RunIteration(q) == RunIteration(p)
  }

  // What a report says that leaves the technical aspects to the platform (orchestrator/evidence.js:127-142,
  // cursor/postflight.js:73-79).
  predicate SelfReport(e: Evidence) {
    forall c: Check :: AspectOf(e, c).status == NotRun
  }

  // As long as such a report is the project's evidence, the gate is shut on every aspect the latest run requires.
  lemma {:induction false} SelfReportShutsTheGate(p: Project, settings: Settings, c: Check)
    requires p.evidence.Some? && SelfReport(p.evidence.value) && !p.demo
    requires var v := LatestVerification(p, RunIteration(p)); v.Some? && LevelFor(v.value.policy, c) == Required
    ensures !GateOk(p, settings)
  {
    assert Lineage.MergedEvidence(p) == p.evidence;
    assert Rejects(p, settings, AspectNotRun(c));
  }

  // So it is when Cursor has finished, and it still is when the platform stage only found a verification complete.
  lemma {:induction false} FoundVerificationLeavesTheGateShut(cfg: Config, world: World, p: Project, i: nat, run: CursorRun,
                                                              settings: Settings, c: Check)
    requires i < |p.cursorRuns| && run.evidence.Some? && SelfReport(run.evidence.value) && !p.demo
    requires var v := LatestVerification(FinishRun(p, i, run), RunIteration(FinishRun(p, i, run)));
             v.Some? && LevelFor(v.value.policy, c) == Required
    ensures !GateOk(FinishRun(p, i, run), settings)
    ensures FoundComplete(FinishRun(p, i, run)) ==>
              exists r: Project ::
                && FinishPlatform(cfg, world, FinishRun(p, i, run))
                   == AfterPlatform(cfg, world, r, LatestVerification(FinishRun(p, i, run), p.iteration).value)
                && !GateOk(r, settings)
    ensures FoundComplete(FinishRun(p, i, run)) && cfg.queue ==>
              forall q :: q in FinishPlatform(cfg, world, FinishRun(p, i, run)).saves ==> !GateOk(q, settings)
  {
    var q := FinishRun(p, i, run);
    assert q.evidence == run.evidence && q.demo == p.demo && q.iteration == p.iteration;
    hide FinishRun, GateOk, FinishPlatform, AfterPlatform, EvidenceCameFrom, FoundComplete, LatestVerification;
    SelfReportShutsTheGate(q, settings, c);
    if FoundComplete(q) {
      var v := LatestVerification(q, RunIteration(q)).value;
      FoundVerificationKeepsTheLink(cfg, world, q, v);
      ShutForAllLikeIt(q, settings, c);
    }
  }

  lemma {:induction false} ShutForAllLikeIt(p: Project, settings: Settings, c: Check)
    requires p.evidence.Some? && SelfReport(p.evidence.value) && !p.demo
    requires var v := LatestVerification(p, RunIteration(p)); v.Some? && LevelFor(v.value.policy, c) == Required
    ensures forall q :: SameChecks(p, q) ==> !GateOk(q, settings)
  {
    hide GateOk;
    forall q | SameChecks(p, q) ensures !GateOk(q, settings) {
      assert LatestVerification(q, RunIteration(q)) == LatestVerification(p, RunIteration(p));
      SelfReportShutsTheGate(q, settings, c);
    }
  }

  // A project where it happens: the one verification is partial, since an optional check failed, and requires tests
  // of which none ran; the next Cursor run changed nothing and reported nothing.
  lemma {:induction false} AFoundVerificationWithoutTheLink()
    ensures exists p: Project, v: VerificationRun ::
              && FoundComplete(p) && p.evidence.Some? && SelfReport(p.evidence.value)
              && LatestVerification(p, RunIteration(p)) == Some(v) && LevelFor(v.policy, TestsCheck) == Required
              && !EvidenceCameFrom(p, v)
  {
    var policy := Policy(Optional, Required, Optional, Optional, Optional);
    var v := VerificationRun("v", 1, "abc", RunPartial, true, false, policy, [Step("b", Build, false, true)], [], "", None);
    var report := Verification.BLANK_EVIDENCE;
    var run := CursorRun(2, Completed, true, "abc", "", "", "", "", false, Some(report));
    var p := Initial("p", false, true, "").(iteration := 2, cursorRuns := [run], verificationRuns := [v],
                                             evidence := Some(report));
    LookUpOne(p, v, 2);
    assert AspectOf(report, BuildCheck).status == NotRun;
    assert Verification.Matching(v.steps, KindsFor(BuildCheck)) == [v.steps[0]] by {
      assert v.steps[1..] == [];
    }
    assert v.steps[0] in [v.steps[0]] && v.steps[0].failed;
    assert Verification.AspectFor(v.steps, KindsFor(BuildCheck), Optional).status == Fail;
    assert Lineage.MergedEvidence(p) == Some(report);
    assert !EvidenceCameFrom(p, v);
  }

  lemma {:induction false} FindInOne<T>(x: T, test: T -> bool)
    ensures Find([x], test) == if test(x) then Some(x) else None
  {
    assert [x][1..] == [];
  }

  lemma {:induction false} LookUpOne(p: Project, v: VerificationRun, iteration: nat)
    requires p.verificationRuns == [v] && v.status == RunPartial
    ensures FindReusableVerification(p).None?
    ensures LatestVerification(p, iteration) == Some(v)
  {
    var sha := Or(StageCheckpoint(p), Or(p.repositoryBaseline, "none"));
    FindInOne(v, (v: VerificationRun) =>
      v.iteration == p.iteration && v.checkpointSha == sha && v.status == RunPass && v.completed);
    FindInOne(v, (v: VerificationRun) => v.checkpointSha == sha && v.status == RunPass && v.completed);
  }
}
