// What the verification stages leave on record and where they lead: when a run is reused instead of asked for, what a
// run becomes when it is recorded, what its evidence says, and which of it a delivery is made of
// (src/orchestrator/orchestrator.js:499-710, src/verify/pipeline.js:22-49, 276-313, src/runtime/pipeline.js:16-44,
// 269-308, src/visual/pipeline.js:16-45, 210-290, src/delivery/lineage.js:26-47).
module StageRecords {
  import opened Text
  import opened Records
  import opened Workflow
  import opened Lookups
  import EvidenceRuns
  import Lineage
  import Verification

  // ---- What evidence says ----

  function EvidenceBefore(p: Project): Evidence {
    if p.evidence.Some? then p.evidence.value
    else if p.cursorRuns != [] && p.cursorRuns[|p.cursorRuns| - 1].evidence.Some?
    then p.cursorRuns[|p.cursorRuns| - 1].evidence.value
    else Verification.BLANK_EVIDENCE
  }

  predicate SomeStepRan(run: VerificationRun) {
    exists s :: s in run.steps && s.kind in {Build, Test, Lint, StaticAnalysis}
  }

  // The evidence of a real verification says what its steps did and keeps the rest; it counts as verified by the
  // platform exactly when a build, test or lint step ran, or earlier evidence did.
  lemma {:induction false} VerificationEvidenceTellsTheTruth(p: Project, run: VerificationRun, security: Aspect)
    requires !p.demo && !run.mock
    ensures var e, before := Verification.EvidenceFromVerification(p, run, security), EvidenceBefore(p);
            && e.build == Verification.AspectFor(run.steps, {Build}, run.policy.build)
            && e.tests == Verification.AspectFor(run.steps, {Test}, run.policy.tests)
            && e.lint == Verification.AspectFor(run.steps, {Lint, StaticAnalysis}, run.policy.lint)
            && e.security == security
            && (e.level == PlatformVerifiedLevel <==> SomeStepRan(run) || before.level == PlatformVerifiedLevel)
            && (e.level == MockLevel <==> !SomeStepRan(run) && before.level == MockLevel)
            && e == before.(level := e.level, execution := e.execution, build := e.build, tests := e.tests,
                            lint := e.lint, security := security)
            && (e.execution == before.execution || (before == Verification.BLANK_EVIDENCE && e.execution.status == Unknown))
  {
    Verification.AspectTellsTheTruth(run.steps, {Build}, run.policy.build);
    Verification.AspectTellsTheTruth(run.steps, {Test}, run.policy.tests);
    Verification.AspectTellsTheTruth(run.steps, {Lint, StaticAnalysis}, run.policy.lint);
    hide Verification.AspectFor;
    var build := Verification.AspectFor(run.steps, {Build}, run.policy.build);
    var tests := Verification.AspectFor(run.steps, {Test}, run.policy.tests);
    var lint := Verification.AspectFor(run.steps, {Lint, StaticAnalysis}, run.policy.lint);
    assert (exists a :: a in {build, tests, lint} && a.status in {Pass, Fail}) <==> SomeStepRan(run) by {
      assert build in {build, tests, lint} && tests in {build, tests, lint} && lint in {build, tests, lint};
      assert SomeStepRan(run) <==> Verification.Ran(run.steps, {Build}) || Verification.Ran(run.steps, {Test})
                                   || Verification.Ran(run.steps, {Lint, StaticAnalysis});
    }
  }

  // The evidence of a real runtime run: the application passed, was not run or was not applicable exactly as the run
  // says, and anything else is a failure; a failed scenario fails the function; accessibility is what the automated
  // checks found, if there were any. The rest is kept.
  lemma {:induction false} RuntimeEvidenceTellsTheTruth(p: Project, run: RuntimeRun)
    requires !p.demo && !run.mock
    ensures var e := Verification.EvidenceFromRuntime(p, run);
            && (e.runtime.status == Pass <==> run.status == RunPass)
            && (e.runtime.status == NotRun <==> run.status == RunNotRun)
            && (e.runtime.status == NotApplicable <==> run.status == RunNotApplicable)
            && (e.runtime.status == Fail <==> run.status == RunFail || run.status == RunPartial)
            && (run.scenarioFailed ==> e.functional.status == Fail)
            && (!run.scenarioFailed ==> e.functional.status == e.runtime.status)
            && (e.accessibility.status == Fail <==> run.accessibility == Some(true))
            && (e.accessibility.status == Pass <==> run.accessibility == Some(false))
            && (e.accessibility.status == NotApplicable <==>
                  run.accessibility.None? && run.policy.accessibility == Inapplicable)
            && e.accessibility.status != Unknown
            && e.runtime.provenance == e.functional.provenance == e.accessibility.provenance == PlatformVerified
            && e == EvidenceBefore(p).(runtime := e.runtime, functional := e.functional, accessibility := e.accessibility)
  {
  }

  // The evidence of a real visual run passes only if reviewers, and no heuristic in their place, found it complete and
  // nothing blocks.
  lemma {:induction false} VisualEvidenceTellsTheTruth(p: Project, run: VisualRun)
    requires !p.demo && !run.mock
    ensures var e := Verification.EvidenceFromVisual(p, run);
            && (e.visual.status == NotApplicable <==> run.decision == VisualNotApplicable)
            && (e.visual.status == Fail <==> run.decision != VisualNotApplicable
                                             && (run.blockingFindings != [] || run.decision == VisualChangesRequired))
            && (e.visual.status == Pass <==> run.decision == VisualComplete && run.blockingFindings == [] && !run.heuristic)
            && e.visual.status != Unknown
            && (e.visual.provenance == AiReviewed <==> run.decision != VisualNotApplicable && !run.heuristic)
            && (e.visual.provenance == PlatformVerified <==> run.decision == VisualNotApplicable || run.heuristic)
            && e == EvidenceBefore(p).(visual := e.visual)
  {
  }

  // A demo, and a mocked run, leave evidence that says so, whatever was found.
  lemma {:induction false} MockEvidenceSaysSo(p: Project, v: VerificationRun, security: Aspect, r: RuntimeRun, w: VisualRun)
    ensures p.demo || v.mock ==> Verification.EvidenceFromVerification(p, v, security).level == MockLevel
    ensures p.demo || r.mock ==> Verification.EvidenceFromRuntime(p, r).level == MockLevel
    ensures p.demo || w.mock ==> Verification.EvidenceFromVisual(p, w).level == MockLevel
  {
  }

  // ---- What a delivery is made of ----

  // The evidence set names the final checkpoint and, of each stage, the run that is read for the last Cursor run's
  // iteration with its outcome; and the sandbox, or without one the status of the security check.
  lemma {:induction false} EvidenceSetIsWhatIsRead(p: Project)
    ensures var s, n := Lineage.EvidenceSetOf(p), AskedIteration(p);
            && s.checkpoint == FinalCheckpoint(p)
            && (p.verificationRuns == [] ==> s.verifyId == "none" && s.verifyStatus.None?)
            && (forall v :: ReadsVerification(p, n, v) ==> s.verifyId == v.id && s.verifyStatus == Some(v.status))
            && (p.runtimeRuns == [] ==> s.runtimeId == "none" && s.runtimeStatus.None?)
            && (forall r :: ReadsRuntime(p, n, r) ==> s.runtimeId == r.id && s.runtimeStatus == Some(r.status))
            && (p.visualRuns == [] ==> s.visualId == "none" && s.visualDecision.None?)
            && (forall w :: ReadsVisual(p, n, w) ==> s.visualId == w.id && s.visualDecision == Some(w.decision))
            && s.sandboxMode == p.sandboxMode
            && (s.securityStatus.Some? <==> p.sandboxMode == "" && p.evidence.Some?)
            && (s.securityStatus.Some? ==> s.securityStatus.value == p.evidence.value.security.status)
  {
    assert AskedIteration(p) == RunIteration(p);
    VerificationIsRead(p, RunIteration(p));
    RuntimeIsRead(p, RunIteration(p));
    VisualIsRead(p, RunIteration(p));
    hide LatestVerification, LatestRuntime, LatestVisual, ReadsVerification, ReadsRuntime, ReadsVisual, FinalCheckpoint;
    hide RunIteration, AskedIteration;
  }

  // ---- Reuse ----

  lemma {:induction false} FindFindsTheFirst<T>(xs: seq<T>, test: T -> bool)
    ensures Find(xs, test).None? <==> forall i :: 0 <= i < |xs| ==> !test(xs[i])
    ensures Find(xs, test).Some? ==>
              exists i :: 0 <= i < |xs| && xs[i] == Find(xs, test).value && test(xs[i]) && forall j :: 0 <= j < i ==> !test(xs[j])
  {
    if xs != [] {
      FindFindsTheFirst(xs[1..], test);
      assert xs == [xs[0]] + xs[1..];
      if !test(xs[0]) && Find(xs[1..], test).Some? {
        var i :| 0 <= i < |xs[1..]| && xs[1..][i] == Find(xs[1..], test).value && test(xs[1..][i])
                 && forall j :: 0 <= j < i ==> !test(xs[1..][j]);
        assert xs[i + 1] == xs[1..][i];
        forall j | 0 <= j < i + 1 ensures !test(xs[j]) {
          if j > 0 { assert xs[j] == xs[1..][j - 1]; }
        }
      }
    }
  }

  // The checkpoint that a stage works for.
  predicate IsStageCheckpoint(p: Project, sha: string) {
    if p.cursorRuns == [] || AllAbsent(CheckpointNames(p.cursorRuns[|p.cursorRuns| - 1])[..3]) then sha == ""
    else FirstPresent(CheckpointNames(p.cursorRuns[|p.cursorRuns| - 1])[..3], sha)
  }

  // A clean runtime run of this iteration and of the checkpoint there is.
  predicate IsCleanRuntime(p: Project, r: RuntimeRun) {
    r.iteration == p.iteration && r.status == RunPass && r.completed && IsStageCheckpoint(p, r.checkpointSha)
  }

  lemma {:induction false} StageCheckpointIsOne(p: Project, sha: string)
    ensures IsStageCheckpoint(p, sha) <==> sha == StageCheckpoint(p)
  {
    StageCheckpointIsFirstNamed(p);
    hide StageCheckpoint, CheckpointNames;
  }

  // A runtime run is reused exactly when there is a clean one, and then it is the first.
  lemma {:induction false} RuntimeIsReusedIffClean(p: Project)
    ensures FindReusableRuntime(p).None? <==> forall r :: r in p.runtimeRuns ==> !IsCleanRuntime(p, r)
    ensures FindReusableRuntime(p).Some? ==>
              FindReusableRuntime(p).value in p.runtimeRuns && IsCleanRuntime(p, FindReusableRuntime(p).value)
  {
    var test := (r: RuntimeRun) =>
      r.iteration == p.iteration && r.checkpointSha == StageCheckpoint(p) && r.status == RunPass && r.completed;
    FindFindsTheFirst(p.runtimeRuns, test);
    forall r: RuntimeRun ensures test(r) <==> IsCleanRuntime(p, r) { StageCheckpointIsOne(p, r.checkpointSha); }
    hide IsStageCheckpoint, StageCheckpoint;
  }

  // The checkpoint a verification is for: the one a stage works for, or the commit an existing repository starts from,
  // or "none".
  function VerifiedCheckpoint(p: Project): string {
    if StageCheckpoint(p) != "" then StageCheckpoint(p)
    else if p.repositoryBaseline != "" then p.repositoryBaseline else "none"
  }

  predicate IsCleanVerification(p: Project, v: VerificationRun) {
    v.status == RunPass && v.completed && v.checkpointSha == VerifiedCheckpoint(p)
  }

  // A verification is reused exactly when there is a clean one of this checkpoint, which without any checkpoint must be
  // of this iteration; one of this iteration comes first.
  lemma {:induction false} VerificationIsReusedIffClean(p: Project)
    ensures FindReusableVerification(p).Some? <==>
              exists v :: v in p.verificationRuns && IsCleanVerification(p, v)
                          && (VerifiedCheckpoint(p) == "none" ==> v.iteration == p.iteration)
    ensures FindReusableVerification(p).Some? ==>
              var u := FindReusableVerification(p).value;
              && u in p.verificationRuns && IsCleanVerification(p, u)
              && (u.iteration != p.iteration ==>
                    forall v :: v in p.verificationRuns && IsCleanVerification(p, v) ==> v.iteration != p.iteration)
  {
    var sha := Or(StageCheckpoint(p), Or(p.repositoryBaseline, "none"));
    assert sha == VerifiedCheckpoint(p);
    FindFindsTheFirst(p.verificationRuns, (v: VerificationRun) =>
      v.iteration == p.iteration && v.checkpointSha == sha && v.status == RunPass && v.completed);
    FindFindsTheFirst(p.verificationRuns, (v: VerificationRun) =>
      v.checkpointSha == sha && v.status == RunPass && v.completed);
    hide StageCheckpoint, VerifiedCheckpoint;
  }

  // A visual run is reused exactly when there is a complete one of the screenshots of the runtime run that is read.
  predicate IsCleanVisual(p: Project, w: VisualRun) {
    && w.decision == VisualComplete && w.completed
    && exists r :: r in p.runtimeRuns && ReadsRuntime(p, p.iteration, r)
                   && w.runtimeRunId == r.id && w.screenshotSetHash == r.screenshotSetHash
  }

  lemma {:induction false} VisualIsReusedIffClean(p: Project)
    ensures FindReusableVisual(p).None? <==> forall w :: w in p.visualRuns ==> !IsCleanVisual(p, w)
    ensures FindReusableVisual(p).Some? ==>
              FindReusableVisual(p).value in p.visualRuns && IsCleanVisual(p, FindReusableVisual(p).value)
  {
    RuntimeIsRead(p, p.iteration);
    var r := LatestRuntime(p, p.iteration);
    if r.Some? {
      var test := (w: VisualRun) =>
        w.runtimeRunId == r.value.id && w.screenshotSetHash == r.value.screenshotSetHash
        && w.decision == VisualComplete && w.completed;
      FindFindsTheFirst(p.visualRuns, test);
      assert r.value in p.runtimeRuns && ReadsRuntime(p, p.iteration, r.value);
      forall w: VisualRun ensures test(w) <==> IsCleanVisual(p, w) {
        hide ReadsRuntime, LatestRuntime;
      }
    }
    hide LatestRuntime, ReadsRuntime;
  }

  // ---- What is recorded ----

  // The run was put last, in the place of one with its id.
  predicate IsPutLast<T(==)>(before: seq<T>, after: seq<T>, id: T -> string, done: T) {
    && after != [] && after[|after| - 1] == done
    && (forall r :: r in after ==> r == done || (r in before && id(r) != id(done)))
    && (forall r :: r in before && id(r) != id(done) ==> r in after)
    && ((forall r :: r in before ==> id(r) != id(done)) ==> after == before + [done])
  }

  lemma {:induction false} WithoutNone<T>(runs: seq<T>, id: T -> string, drop: string)
    requires forall r :: r in runs ==> id(r) != drop
    ensures Without(runs, id, drop) == runs
  {
    if runs != [] {
      assert runs[0] in runs;
      WithoutNone(runs[1..], id, drop);
      assert runs == [runs[0]] + runs[1..];
    }
  }

  lemma {:induction false} WithoutDrops<T>(runs: seq<T>, id: T -> string, drop: string)
    ensures forall r :: r in Without(runs, id, drop) ==> id(r) != drop
  {
    if runs != [] { WithoutDrops(runs[1..], id, drop); }
  }

  lemma {:induction false} AddingPutsLast<T>(runs: seq<T>, id: T -> string, done: T)
    ensures IsPutLast(runs, Without(runs, id, id(done)) + [done], id, done)
  {
    EvidenceRuns.WithoutTakes(runs, id, id(done));
    WithoutDrops(runs, id, id(done));
    if forall r :: r in runs ==> id(r) != id(done) { WithoutNone(runs, id, id(done)); }
  }

  // The project is as before, but for the evidence, also that kept with its last Cursor run, and the fields named.
  predicate KeepsCursor(p: Project, q: Project, e: Option<Evidence>) {
    && |q.cursorRuns| == |p.cursorRuns|
    && (forall i :: 0 <= i < |p.cursorRuns| - 1 ==> q.cursorRuns[i] == p.cursorRuns[i])
    && (p.cursorRuns != [] ==>
          var last := p.cursorRuns[|p.cursorRuns| - 1];
          q.cursorRuns[|q.cursorRuns| - 1] == if e.Some? then last.(evidence := e) else last)
  }

  function AtLeastOne(n: nat): nat { if n == 0 then 1 else n }

  // A verification is recorded as it was answered, for the iteration and complete; its evidence becomes the project's
  // and the last Cursor run's; its sandbox and, for a real run, the level of its evidence are noted.
  lemma {:induction false} VerificationIsRecorded(p: Project, run: VerificationRun, security: Aspect)
    ensures var (q, done) := RecordVerification(p, run, security);
            var e := Verification.EvidenceFromVerification(p, run, security);
            && done == run.(iteration := AtLeastOne(p.iteration), completed := true, evidencePatch := Some(e))
            && IsPutLast(p.verificationRuns, q.verificationRuns, (r: VerificationRun) => r.id, done)
            && KeepsCursor(p, q, Some(e)) && q.evidence == Some(e)
            && q.sandboxMode == (if run.sandboxMode != "" then run.sandboxMode else p.sandboxMode)
            && q.verificationLevel == (if run.mock || e.level == MockLevel then p.verificationLevel else Some(e.level))
            && q == p.(verificationRuns := q.verificationRuns, cursorRuns := q.cursorRuns, evidence := q.evidence,
                       sandboxMode := q.sandboxMode, verificationLevel := q.verificationLevel)
  {
    hide Verification.EvidenceFromVerification;
    AddingPutsLast(p.verificationRuns, (r: VerificationRun) => r.id, RecordVerification(p, run, security).1);
    hide IsPutLast;
  }

  lemma {:induction false} RuntimeIsRecorded(p: Project, run: RuntimeRun)
    ensures var (q, done) := RecordRuntime(p, run);
            var e := Verification.EvidenceFromRuntime(p, run);
            && done == run.(iteration := AtLeastOne(p.iteration), completed := true, evidencePatch := Some(e))
            && IsPutLast(p.runtimeRuns, q.runtimeRuns, (r: RuntimeRun) => r.id, done)
            && KeepsCursor(p, q, Some(e)) && q.evidence == Some(e)
            && q == p.(runtimeRuns := q.runtimeRuns, cursorRuns := q.cursorRuns, evidence := q.evidence)
  {
    hide Verification.EvidenceFromRuntime;
    AddingPutsLast(p.runtimeRuns, (r: RuntimeRun) => r.id, RecordRuntime(p, run).1);
    hide IsPutLast;
  }

  lemma {:induction false} VisualIsRecorded(p: Project, run: VisualRun)
    ensures var q := RecordVisual(p, run);
            var e := Verification.EvidenceFromVisual(p, run);
            var done := run.(iteration := AtLeastOne(p.iteration), completed := true, evidencePatch := Some(e));
            && IsPutLast(p.visualRuns, q.visualRuns, (r: VisualRun) => r.id, done)
            && KeepsCursor(p, q, Some(e)) && q.evidence == Some(e)
            && q == p.(visualRuns := q.visualRuns, cursorRuns := q.cursorRuns, evidence := q.evidence)
  {
    hide Verification.EvidenceFromVisual;
    var e := Verification.EvidenceFromVisual(p, run);
    AddingPutsLast(p.visualRuns, (r: VisualRun) => r.id,
                   run.(iteration := AtLeastOne(p.iteration), completed := true, evidencePatch := Some(e)));
    hide IsPutLast;
  }

  // A reused verification gives its evidence again, or has it made anew when none was kept.
  lemma {:induction false} ReusedVerificationIsNoted(p: Project, run: VerificationRun, security: Aspect)
    ensures var q := ReuseVerification(p, run, security);
            && q.evidence.Some? && KeepsCursor(p, q, q.evidence)
            && (run.evidencePatch.Some? ==> q.evidence == run.evidencePatch)
            && (run.evidencePatch.None? ==>
                  q.evidence.value == Verification.EvidenceFromVerification(p, run, security))
            && q.verificationLevel == (if run.evidencePatch.None? || q.evidence.value.level == MockLevel
                                       then p.verificationLevel else Some(q.evidence.value.level))
            && q == p.(cursorRuns := q.cursorRuns, evidence := q.evidence, verificationLevel := q.verificationLevel)
  {
    hide Verification.EvidenceFromVerification;
  }
}
