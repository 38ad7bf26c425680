// What each stage stores and where it leads, in both modes: whether it asks the outside world at all, what it stores of
// the answer, and the stage it hands the project to (src/orchestrator/orchestrator.js:98-116, 313-866, 1009-1073).
module StagePaths {
  import opened Text
  import opened States
  import opened Records
  import opened Workflow
  import opened WorkflowProofs
  import opened Lookups
  import opened Resume
  import Delivery
  import Gate
  import StageRecords
  import Updates
  import Verification

  // ---- Executions ----

  // After the records of the list the project q moves on. In queue mode, and from a stage that hands over to the
  // Council, that is all; in-process the next stage goes on from there.
  predicate LeadsOn(cfg: Config, e: Exec, list: seq<Project>, q: Project, to: State) {
    && list + [Moved(q, to)] <= e.saves
    && (cfg.queue || to == CouncilReview ==> e == Exec(list + [Moved(q, to)], Moved(q, to), Ok))
  }

  // A stage that gets no answer stores what it was about to do, twice, and throws.
  predicate GivesUp(e: Exec, shown: Project) {
    e == Exec([shown, shown], shown, Threw(StageFailed))
  }

  lemma {:induction false} LeadsAfter(cfg: Config, list: seq<Project>, e: Exec, q: Project, to: State)
    requires LeadsOn(cfg, e, [], q, to)
    ensures forall last :: LeadsOn(cfg, Seq(Exec(list, last, Ok), e), list, q, to)
  {
    forall last ensures LeadsOn(cfg, Seq(Exec(list, last, Ok), e), list, q, to) {
      var all := Seq(Exec(list, last, Ok), e);
      assert all.saves == list + e.saves;
      assert [] + [Moved(q, to)] == [Moved(q, to)];
      assert list + [Moved(q, to)] <= list + e.saves;
    }
  }

  lemma {:induction false} LeadsStill(cfg: Config, e: Exec, list: seq<Project>, q: Project, to: State)
    requires LeadsOn(cfg, e, list, q, to)
    ensures LeadsOn(cfg, SaveOnThrow(e), list, q, to)
  {
  }

  lemma {:induction false} MoveLeads(cfg: Config, p: Project, to: State)
    requires Legal(p.state, to)
    ensures LeadsOn(cfg, Transition(p, to), [], p, to)
  {
  }

  lemma {:induction false} EnterLeads(cfg: Config, p: Project, to: State, rest: Exec)
    requires Legal(p.state, to) && p.state != to && to != CouncilReview
    ensures LeadsOn(cfg, if cfg.queue then Enter(p, to) else Seq(Enter(p, to), rest), [], p, to)
  {
    assert [] + [Moved(p, to)] == [Moved(p, to)];
  }

  // ---- Visual verification ----

  // The checkpoint of a run is not contradicted by the last Cursor run's.
  predicate IsOfLastRun(p: Project, checkpoint: string) {
    p.cursorRuns == [] || p.cursorRuns[|p.cursorRuns| - 1].checkpointSha == ""
    || p.cursorRuns[|p.cursorRuns| - 1].checkpointSha == checkpoint
  }

  lemma {:induction false} CurrentMeans(p: Project, checkpoint: string)
    ensures StillCurrent(p, checkpoint) <==> IsOfLastRun(p, checkpoint)
  {
  }

  // With a reusable run nobody is asked: its evidence counts again and it becomes the last. With a run that is read for
  // the iteration, complete and of this checkpoint, nothing is stored. Otherwise the reviewers are asked, and their
  // answer is recorded. It always leads to the Council.
  lemma {:induction false} VisualLeads(cfg: Config, world: World, p: Project)
    requires p.state == VisualVerification
    ensures var e, reused := FinishVisual(cfg, world, p), FindReusableVisual(p);
            var shown := p.(operation := VisualOp);
            var found := exists w :: w in p.visualRuns && Inspected(p, p.iteration, w) && IsOfLastRun(p, w.checkpointSha);
            && (reused.Some? ==>
                  var q := p.(evidence := if reused.value.evidencePatch.Some? then reused.value.evidencePatch else p.evidence,
                              visualRuns := AddVisual(p.visualRuns, reused.value));
                  LeadsOn(cfg, e, [q], q, CouncilReview))
            && (reused.None? && found ==> LeadsOn(cfg, e, [], p, CouncilReview))
            && (reused.None? && !found && world(shown).visual.None? ==> GivesUp(e, shown))
            && (reused.None? && !found && world(shown).visual.Some? ==>
                  var q := RecordVisual(shown, world(shown).visual.value);
                  LeadsOn(cfg, e, [shown, q], q, CouncilReview))
  {
    var reused, shown := FindReusableVisual(p), p.(operation := VisualOp);
    VisualIsRead(p, p.iteration);
    var w := LatestVisual(p, p.iteration);
    if w.Some? {
      CurrentMeans(p, w.value.checkpointSha);
      assert ReadsVisual(p, p.iteration, w.value) && w.value in p.visualRuns;
    }
    hide LatestVisual, ReadsVisual, StillCurrent, IsOfLastRun, FindReusableVisual, AddVisual, RecordVisual, LeadsOn, Transition;
    MoveLeads(cfg, p, CouncilReview);
    if reused.Some? {
      var q := p.(evidence := if reused.value.evidencePatch.Some? then reused.value.evidencePatch else p.evidence,
                  visualRuns := AddVisual(p.visualRuns, reused.value));
      MoveLeads(cfg, q, CouncilReview);
      LeadsAfter(cfg, [q], Transition(q, CouncilReview), q, CouncilReview);
    } else if world(shown).visual.Some? {
      VisualKeepsState(shown, world(shown).visual.value);
      var q := RecordVisual(shown, world(shown).visual.value);
      MoveLeads(cfg, q, CouncilReview);
      LeadsStill(cfg, Transition(q, CouncilReview), [], q, CouncilReview);
      LeadsAfter(cfg, [shown, q], SaveOnThrow(Transition(q, CouncilReview)), q, CouncilReview);
      TwoSaves(shown, q, SaveOnThrow(Transition(q, CouncilReview)));
    }
  }

  lemma {:induction false} VisualKeepsState(p: Project, run: VisualRun)
    ensures RecordVisual(p, run).state == p.state
  {
    hide Verification.EvidenceFromVisual;
  }

  // ---- Runtime verification ----

  function AfterRuntimeState(p: Project, r: RuntimeRun): State {
    if r.blockingFailures == [] && WantsVisual(p, r) then VisualVerification else CouncilReview
  }

  lemma {:induction false} AfterRuntimeLeads(cfg: Config, world: World, p: Project, r: RuntimeRun)
    requires p.state == RuntimeVerification
    ensures LeadsOn(cfg, AfterRuntime(cfg, world, p, r), [], p, AfterRuntimeState(p, r))
  {
    VisualIsWanted(p, r);
    hide ShouldSkipVisual, WantsVisual, FinishVisual, LeadsOn;
    MoveLeads(cfg, p, CouncilReview);
    EnterLeads(cfg, p, VisualVerification, FinishVisual(cfg, world, Enter(p, VisualVerification).last));
  }

  // The same for the runtime stage, which leads to the visual one if the application has something to show and nothing
  // blocks, and to the Council otherwise.
  lemma {:induction false} RuntimeLeads(cfg: Config, world: World, p: Project)
    requires p.state == RuntimeVerification
    ensures var e, reused := FinishRuntime(cfg, world, p), FindReusableRuntime(p);
            var shown := p.(operation := RuntimeOp);
            && (reused.Some? ==>
                  var q := p.(evidence := if reused.value.evidencePatch.Some? then reused.value.evidencePatch else p.evidence,
                              runtimeRuns := AddRuntime(p.runtimeRuns, reused.value));
                  LeadsOn(cfg, e, [q], q, AfterRuntimeState(q, reused.value)))
            && (reused.None? ==> forall r :: r in p.runtimeRuns && Exercised(p, p.iteration, r) && IsOfLastRun(p, r.checkpointSha) ==>
                  LeadsOn(cfg, e, [], p, AfterRuntimeState(p, r)))
            && (reused.None? && (forall r :: r in p.runtimeRuns && Exercised(p, p.iteration, r) ==> !IsOfLastRun(p, r.checkpointSha)) ==>
                  && (world(shown).runtime.None? ==> GivesUp(e, shown))
                  && (world(shown).runtime.Some? ==>
                        var (q, done) := RecordRuntime(shown, world(shown).runtime.value);
                        LeadsOn(cfg, e, [shown, q], q, AfterRuntimeState(q, done))))
  {
    var reused, shown := FindReusableRuntime(p), p.(operation := RuntimeOp);
    RuntimeIsRead(p, p.iteration);
    var r := LatestRuntime(p, p.iteration);
    if r.Some? {
      CurrentMeans(p, r.value.checkpointSha);
      assert ReadsRuntime(p, p.iteration, r.value) && r.value in p.runtimeRuns;
      AfterRuntimeLeads(cfg, world, p, r.value);
    }
    hide LatestRuntime, ReadsRuntime, StillCurrent, IsOfLastRun, FindReusableRuntime, AddRuntime, RecordRuntime, AfterRuntime;
    hide LeadsOn, AfterRuntimeState;
    if reused.Some? {
      var q := p.(evidence := if reused.value.evidencePatch.Some? then reused.value.evidencePatch else p.evidence,
                  runtimeRuns := AddRuntime(p.runtimeRuns, reused.value));
      AfterRuntimeLeads(cfg, world, q, reused.value);
      LeadsAfter(cfg, [q], AfterRuntime(cfg, world, q, reused.value), q, AfterRuntimeState(q, reused.value));
    } else if world(shown).runtime.Some? {
      RecordedKeepsState(shown, world(shown).runtime.value);
      var (q, done) := RecordRuntime(shown, world(shown).runtime.value);
      AfterRuntimeLeads(cfg, world, q, done);
      var rest := AfterRuntime(cfg, world, q, done);
      LeadsAfter(cfg, [shown, q], rest, q, AfterRuntimeState(q, done));
      assert Seq(Save(shown), Seq(Save(q), rest)) == Seq(Exec([shown, q], q, Ok), rest) by { TwoSaves(shown, q, rest); }
    }
  }

  lemma {:induction false} RecordedKeepsState(p: Project, run: RuntimeRun)
    ensures RecordRuntime(p, run).0.state == p.state
  {
  }

  lemma {:induction false} TwoSaves(a: Project, b: Project, rest: Exec)
    ensures Seq(Save(a), Seq(Save(b), rest)) == Seq(Exec([a, b], b, Ok), rest)
  {
    assert [a] + ([b] + rest.saves) == [a, b] + rest.saves;
  }

  // ---- Platform verification ----

  function AfterPlatformState(p: Project, v: VerificationRun): State {
    if WantsRuntime(p, v) then RuntimeVerification else CouncilReview
  }

  lemma {:induction false} AfterPlatformLeads(cfg: Config, world: World, p: Project, v: VerificationRun)
    requires p.state == PlatformVerification
    ensures LeadsOn(cfg, AfterPlatform(cfg, world, p, v), [], p, AfterPlatformState(p, v))
  {
    RuntimeIsWanted(p, v);
    hide ShouldSkipRuntime, WantsRuntime, FinishRuntime, LeadsOn;
    MoveLeads(cfg, p, CouncilReview);
    EnterLeads(cfg, p, RuntimeVerification, FinishRuntime(cfg, world, Enter(p, RuntimeVerification).last));
  }

  // And for the platform stage: with a verification that is found complete, its evidence, if it kept some, is that of
  // the last Cursor run, and nothing is stored before the project moves on.
  lemma {:induction false} PlatformLeads(cfg: Config, world: World, p: Project)
    requires p.state == PlatformVerification
    ensures var e, reused := FinishPlatform(cfg, world, p), FindReusableVerification(p);
            var shown := p.(operation := VerificationOp);
            && (reused.Some? ==>
                  var q := ReuseVerification(p, reused.value, world(p).security);
                  LeadsOn(cfg, e, [q], q, AfterPlatformState(q, reused.value)))
            && (reused.None? ==>
                  forall v :: v in p.verificationRuns && Verified(p, p.iteration, v) && IsOfLastRun(p, v.checkpointSha) ==>
                    var q := WithLastEvidence(p, if v.evidencePatch.Some? then v.evidencePatch else p.evidence);
                    LeadsOn(cfg, e, [], q, AfterPlatformState(q, v)))
            && (reused.None? && (forall v :: v in p.verificationRuns && Verified(p, p.iteration, v) ==> !IsOfLastRun(p, v.checkpointSha)) ==>
                  && (world(shown).verification.None? ==> GivesUp(e, shown))
                  && (world(shown).verification.Some? ==>
                        var (q, done) := RecordVerification(shown, world(shown).verification.value, world(shown).security);
                        LeadsOn(cfg, e, [shown, q], q, AfterPlatformState(q, done))))
  {
    var reused, shown := FindReusableVerification(p), p.(operation := VerificationOp);
    VerificationIsRead(p, p.iteration);
    var v := LatestVerification(p, p.iteration);
    if v.Some? {
      CurrentMeans(p, v.value.checkpointSha);
      assert ReadsVerification(p, p.iteration, v.value) && v.value in p.verificationRuns;
      var q := WithLastEvidence(p, FirstOf(v.value.evidencePatch, p.evidence));
      assert q.state == p.state;
      AfterPlatformLeads(cfg, world, q, v.value);
    }
    hide LatestVerification, ReadsVerification, StillCurrent, IsOfLastRun, FindReusableVerification, RecordVerification;
    hide LeadsOn, AfterPlatformState, AfterPlatform, ReuseVerification, WithLastEvidence;
    if reused.Some? {
      ReusedKeepsState(p, reused.value, world(p).security);
      var q := ReuseVerification(p, reused.value, world(p).security);
      AfterPlatformLeads(cfg, world, q, reused.value);
      LeadsAfter(cfg, [q], AfterPlatform(cfg, world, q, reused.value), q, AfterPlatformState(q, reused.value));
    } else if world(shown).verification.Some? {
      ReusedKeepsState(shown, world(shown).verification.value, world(shown).security);
      var (q, done) := RecordVerification(shown, world(shown).verification.value, world(shown).security);
      AfterPlatformLeads(cfg, world, q, done);
      var rest := AfterPlatform(cfg, world, q, done);
      LeadsStill(cfg, rest, [], q, AfterPlatformState(q, done));
      LeadsAfter(cfg, [shown, q], SaveOnThrow(rest), q, AfterPlatformState(q, done));
      TwoSaves(shown, q, SaveOnThrow(rest));
    }
  }

  lemma {:induction false} ReusedKeepsState(p: Project, run: VerificationRun, security: Aspect)
    ensures ReuseVerification(p, run, security).state == p.state
    ensures RecordVerification(p, run, security).0.state == p.state
  {
    hide Verification.EvidenceFromVerification;
  }

  // ---- Cursor ----

  // The run that is about to be executed is the last one, of this iteration and without a result; everything before it
  // stays.
  predicate IsStarted(p: Project, q: Project) {
    && q == p.(operation := CursorOp, cursorRuns := q.cursorRuns)
    && q.cursorRuns != []
    && var i := |q.cursorRuns| - 1;
       && (|p.cursorRuns| == i || |p.cursorRuns| == i + 1)
       && (forall j :: 0 <= j < i ==> q.cursorRuns[j] == p.cursorRuns[j])
       && q.cursorRuns[i].iteration == p.iteration && q.cursorRuns[i].status == Started
       && !q.cursorRuns[i].hasResult && q.cursorRuns[i].checkpointSha == ""
  }

  // The run as Cursor reported it.
  predicate IsReported(run: CursorRun, iteration: nat, result: CursorResult, status: CursorStatus) {
    && run.iteration == iteration && run.status == status && run.hasResult && run.evidence == Some(result.evidence)
    && run.checkpointSha == result.checkpointSha && run.gitCheckpointSha == result.gitCheckpointSha
    && run.gitAfterSha == result.gitAfterSha && run.resultSha == result.resultSha
    && run.resultGitSha == result.resultGitSha && run.mockMode == result.mockMode
  }

  // The result is on record: the run's, the project's evidence and its level; nothing else changed.
  predicate HasReport(s: Project, q: Project, result: CursorResult, status: CursorStatus) {
    && s.cursorRuns != [] && |q.cursorRuns| == |s.cursorRuns|
    && q.cursorRuns[..|s.cursorRuns| - 1] == s.cursorRuns[..|s.cursorRuns| - 1]
    && IsReported(q.cursorRuns[|s.cursorRuns| - 1], s.iteration, result, status)
    && q == s.(cursorRuns := q.cursorRuns, evidence := Some(result.evidence),
               verificationLevel := Some(result.evidence.level))
  }

  function LastMarked(s: Project, status: CursorStatus): Project
    requires s.cursorRuns != []
  {
    s.(cursorRuns := s.cursorRuns[|s.cursorRuns| - 1 := s.cursorRuns[|s.cursorRuns| - 1].(status := status)])
  }

  // What one execution stores after the record it started from: a failure to answer, or a failed execution, marks the
  // run and is thrown; a result that was reported, but whose record could not be stored at first, is kept and thrown;
  // any other is kept, and the project moves on to its platform verification.
  ghost predicate Follows(cfg: Config, world: World, s: Project, e: Exec)
    requires s.cursorRuns != []
  {
    var answer := world(s).cursor;
    if answer.CursorThrows? || answer.result.evidence.execution.status == Fail
    then e == Exec([LastMarked(s, CursorFailed)], LastMarked(s, CursorFailed), Threw(StageFailed))
    else if answer.CursorSaveFails?
    then exists q :: HasReport(s, q, answer.result, RecoveryRequired) && e == Exec([q], q, Threw(StageFailed))
    else exists q :: HasReport(s, q, answer.result, Completed) && LeadsOn(cfg, e, [q], q, PlatformVerification)
  }

  lemma {:induction false} ReportIsKept(s: Project, result: CursorResult, status: CursorStatus)
    requires s.cursorRuns != []
    ensures HasReport(s, FinishRun(s, |s.cursorRuns| - 1, FinishedRun(s.iteration, result).(status := status)), result, status)
  {
  }

  lemma {:induction false} StartingStarts(cfg: Config, p: Project)
    requires Inv(cfg, p) && CanRun(p)
    ensures var (i, runs) := StartRun(p.cursorRuns, p.iteration);
            runs != [] && i == |runs| - 1 && IsStarted(p, p.(operation := CursorOp, cursorRuns := runs))
  {
    hide Cert, Delivery.LedgerOk, Walk;
    StartedRun(p.cursorRuns, p.iteration);
  }

  lemma {:induction false} EnterPlatformLeads(cfg: Config, world: World, p: Project)
    requires p.state == CursorExecuting
    ensures LeadsOn(cfg, EnterPlatform(cfg, world, p), [], p, PlatformVerification)
  {
    hide FinishPlatform, LeadsOn;
    EnterLeads(cfg, p, PlatformVerification, FinishPlatform(cfg, world, Enter(p, PlatformVerification).last));
  }

  // One execution stores first what it is about to execute, and then what follows from Cursor's answer.
  lemma {:induction false} CursorFollowsTheAnswer(cfg: Config, world: World, p: Project)
    requires Inv(cfg, p) && CanRun(p)
    ensures var e := RunCursor(cfg, world, p);
            && e.saves != [] && IsStarted(p, e.saves[0])
            && Follows(cfg, world, e.saves[0], Exec(e.saves[1..], e.last, e.outcome))
  {
    StartingStarts(cfg, p);
    var (i, runs) := StartRun(p.cursorRuns, p.iteration);
    var s := p.(operation := CursorOp, cursorRuns := runs);
    ReportFollows(cfg, world, s);
    hide Inv, StartRun, IsStarted, Follows, ReportCursor, EnterPlatform;
    var report := ReportCursor(world, i, s);
    var rest := Seq(report, EnterPlatform(cfg, world, report.last));
    assert RunCursor(cfg, world, p) == Seq(Save(s), rest) by { SeqAssociates(s, report, EnterPlatform(cfg, world, report.last)); }
    assert ([s] + rest.saves)[1..] == rest.saves;
  }

  lemma {:induction false} SeqAssociates(s: Project, second: Exec, third: Exec)
    ensures Seq(Seq(Save(s), second), third) == Seq(Save(s), Seq(second, third))
  {
    assert [s] + second.saves + third.saves == [s] + (second.saves + third.saves);
  }

  lemma {:induction false} ReportFollows(cfg: Config, world: World, s: Project)
    requires s.cursorRuns != [] && s.state == CursorExecuting
    ensures var report := ReportCursor(world, |s.cursorRuns| - 1, s);
            Follows(cfg, world, s, Seq(report, EnterPlatform(cfg, world, report.last)))
  {
    hide EnterPlatform, LeadsOn, HasReport, FinishRun, FinishedRun;
    var answer, i := world(s).cursor, |s.cursorRuns| - 1;
    if !(answer.CursorThrows? || answer.result.evidence.execution.status == Fail) {
      var run := FinishedRun(s.iteration, answer.result);
      FinishedIsCompleted(s.iteration, answer.result);
      ReportIsKept(s, answer.result, RecoveryRequired);
      ReportIsKept(s, answer.result, Completed);
      if answer.CursorGives? {
        var q := FinishRun(s, i, run);
        ReportKeepsState(s, i, run);
        EnterPlatformLeads(cfg, world, q);
        LeadsAfter(cfg, [q], EnterPlatform(cfg, world, q), q, PlatformVerification);
      }
    }
  }

  lemma {:induction false} FinishedIsCompleted(iteration: nat, result: CursorResult)
    ensures FinishedRun(iteration, result).(status := Completed) == FinishedRun(iteration, result)
  {
  }

  lemma {:induction false} ReportKeepsState(s: Project, i: nat, run: CursorRun)
    requires i < |s.cursorRuns|
    ensures FinishRun(s, i, run).state == s.state
  {
  }

  predicate HasItsResult(p: Project) {
    Finished(p.cursorRuns) && p.cursorRuns[|p.cursorRuns| - 1].iteration == p.iteration
  }

  lemma {:induction false} ResultMeans(p: Project)
    ensures HasResultForIteration(p) <==> HasItsResult(p)
  {
  }

  // A project in CURSOR_EXECUTING whose iteration has its result moves on, and Cursor is not asked.
  lemma {:induction false} FinishedLeads(cfg: Config, world: World, p: Project)
    requires p.state == CursorExecuting && HasItsResult(p)
    ensures LeadsOn(cfg, FinishOrReplayCursor(cfg, world, p), [], p, PlatformVerification)
  {
    ResultMeans(p);
    hide HasResultForIteration, HasItsResult, EnterPlatform, LeadsOn, RunCursor, PrepareInterruptedCursor;
    EnterPlatformLeads(cfg, world, p);
  }

  // Otherwise its run is executed, in the first iteration if none was opened; and before that an unfinished run in a
  // dirty workspace is marked, which is stored.
  lemma {:induction false} ReplayLeads(cfg: Config, world: World, p: Project)
    requires Inv(cfg, p) && p.state == CursorExecuting && !HasItsResult(p)
    ensures var q := p.(iteration := StageRecords.AtLeastOne(p.iteration));
            var dirty := Unfinished(p.cursorRuns) && world(q).git.Some? && world(q).git.value.dirty;
            var r := if dirty then LastMarked(q, RecoveryRequired) else q;
            && Inv(cfg, r) && CanRun(r)
            && FinishOrReplayCursor(cfg, world, p)
               == if dirty then Seq(Save(r), RunCursor(cfg, world, r)) else RunCursor(cfg, world, r)
  {
    hide EnterPlatform, RunCursor, PrepareInterruptedCursor, Seq, HasItsResult, CanRun;
    hide Cert, Delivery.LedgerOk, Delivery.Evolves, Walk, RunsOk, RunsFit, SpecFits, ProvisionsFirst, EnteredThroughGate;
    ResultMeans(p);
    var q := p.(iteration := StageIteration(p));
    StageIterationStep(cfg, world, p);
    CanStart(p, q);
    PrepareInterruptedStep(cfg, world, q);
    PreparesOnlyDirty(cfg, world, q);
    var e := PrepareInterruptedCursor(world, q);
    StillNoResult(q, e.last);
    SilentSeq(q, RunCursor(cfg, world, q));
    hide HasResultForIteration;
  }

  lemma {:induction false} CanStart(p: Project, q: Project)
    requires p.state == CursorExecuting && q == p.(iteration := StageIteration(p)) && !HasItsResult(p)
    requires RunsOk(p.cursorRuns, p.iteration)
    ensures CanRun(q)
  {
  }

  lemma {:induction false} StillNoResult(p: Project, q: Project)
    requires CanRun(q)
    ensures !HasResultForIteration(q)
  {
  }

  lemma {:induction false} PreparesOnlyDirty(cfg: Config, world: World, q: Project)
    requires Inv(cfg, q) && q.state == CursorExecuting
    ensures var dirty := Unfinished(q.cursorRuns) && world(q).git.Some? && world(q).git.value.dirty;
            PrepareInterruptedCursor(world, q) == if dirty then Save(LastMarked(q, RecoveryRequired)) else Silent(q)
  {
    hide Cert, Delivery.LedgerOk, Walk;
  }

  // ---- Provisioning ----

  // The run is on record, and is the project's provisioning; its baseline counts as the provisioned one, and as the
  // commit the project starts from unless it has one; and the workspace is an empty one no longer if it has a baseline.
  lemma {:induction false} ProvisioningIsApplied(p: Project, run: ProvisioningRun)
    ensures var q := ApplyProvisioning(p, run);
            && StageRecords.IsPutLast(p.provisioningRuns, q.provisioningRuns, (r: ProvisioningRun) => r.id, run)
            && q.provisioning == Some(run)
            && q.provisioningBaseline == (if run.baselineSha != "" then run.baselineSha else p.provisioningBaseline)
            && q.repositoryBaseline == (if p.repositoryBaseline != "" then p.repositoryBaseline else run.baselineSha)
            && (q.unprovisionedRepository <==> p.unprovisionedRepository && run.baselineSha == "")
            && (q.evidence.None? <==> p.evidence.None?)
            && (p.evidence.Some? ==>
                  && q.evidence.value == p.evidence.value.(provisioning := q.evidence.value.provisioning)
                  && q.evidence.value.provisioning.provenance == PlatformVerified
                  && q.evidence.value.provisioning.status == if run.status == ProvPass then Pass else Fail)
            && q == p.(provisioningRuns := q.provisioningRuns, provisioning := q.provisioning,
                       provisioningBaseline := q.provisioningBaseline, repositoryBaseline := q.repositoryBaseline,
                       unprovisionedRepository := q.unprovisionedRepository, evidence := q.evidence)
  {
    StageRecords.AddingPutsLast(p.provisioningRuns, (r: ProvisioningRun) => r.id, run);
    hide StageRecords.IsPutLast;
  }

  // An execution that opens the next iteration of q, or refuses to: without a foundation, or without an iteration left.
  predicate Opens(cfg: Config, q: Project, e: Exec) {
    if LacksFoundation(q) then e == Exec([], q, Threw(ProvisioningMissing))
    else if q.iteration >= cfg.maxIterations then e == Exec([], q, Threw(MaxIterationsReached))
    else Moved(q.(iteration := q.iteration + 1), CursorExecuting) in e.saves
         && e.saves[0] == Moved(q.(iteration := q.iteration + 1), CursorExecuting)
  }

  lemma {:induction false} RequestOpens(cfg: Config, world: World, q: Project, execute: bool)
    requires Legal(q.state, CursorExecuting) && q.state != CursorExecuting
    ensures Opens(cfg, q, RequestCursorRun(cfg, world, q, execute))
  {
    FoundationIsLaid(q);
    hide LacksFoundation, MustProvision, RunCursor;
    var r := Moved(q.(iteration := q.iteration + 1), CursorExecuting);
    assert OpenIteration(q) == Save(r);
  }

  // Provisioning that fails stores the project as it was, and whether the empty workspace was prepared; one that
  // succeeds is applied and stored, and opens Cursor's work.
  lemma {:induction false} ProvisioningLeads(cfg: Config, world: World, p: Project)
    requires p.state == ProjectProvisioning && LacksFoundation(p)
    ensures var e, shown := FinishProvisioning(cfg, world, p), p.(operation := ProvisioningOp);
            var failed := shown.(unprovisionedRepository := p.unprovisionedRepository || world(shown).workspacePrepared);
            && (world(shown).provisioning.None? ==> e == Exec([shown, failed], failed, Threw(StageFailed)))
            && (world(shown).provisioning.Some? ==>
                  var q := ApplyProvisioning(shown, world(shown).provisioning.value);
                  && |e.saves| >= 2 && e.saves[0] == shown && e.saves[1] == q
                  && (cfg.queue ==> e == Exec([shown, q, Moved(q, CursorExecuting)], Moved(q, CursorExecuting), Ok))
                  && (!cfg.queue ==> Opens(cfg, q, Exec(e.saves[2..], e.last, e.outcome))))
  {
    FoundationIsLaid(p);
    assert !ProvisioningSucceeded(p);
    hide MustProvision, LacksFoundation, ApplyProvisioning, RequestCursorRun, ProvisioningSucceeded, Opens;
    var shown := p.(operation := ProvisioningOp);
    if world(shown).provisioning.Some? {
      var q := ApplyProvisioning(shown, world(shown).provisioning.value);
      AppliedKeepsState(shown, world(shown).provisioning.value);
      RequestOpens(cfg, world, q, true);
      var rest := if cfg.queue then SaveOnThrow(Transition(q, CursorExecuting)) else RequestCursorRun(cfg, world, q, true);
      TwoSaves(shown, q, rest);
      assert ([shown, q] + rest.saves)[2..] == rest.saves;
    }
  }

  lemma {:induction false} AppliedKeepsState(p: Project, run: ProvisioningRun)
    ensures ApplyProvisioning(p, run).state == p.state
  {
  }

  // ---- Discovery ----

  // The specification with the owner's feedback taken in: the answer to it becomes the prompt, or, when that is blank,
  // the feedback is added to the prompt there is; and nothing is pending any more.
  predicate TakesFeedback(world: World, p: Project, q: Project) {
    && p.spec.Some? && p.pendingFeedback.Some? && q.spec.Some?
    && q.spec.value.productName == p.spec.value.productName
    && q.spec.value.cursorPrompt == (if Blank(world(p).feedbackPrompt)
                                     then p.spec.value.cursorPrompt + "\n\nOwner feedback: " + p.pendingFeedback.value
                                     else world(p).feedbackPrompt)
    && q == p.(spec := q.spec, pendingFeedback := None)
  }

  // A project that has its specification only takes in pending feedback; otherwise it is discovered. The answer must be
  // a specification that work can start from, with a plan for a project that needs a foundation; then the project has
  // its specification.
  lemma {:induction false} DiscoveryLeads(world: World, p: Project)
    requires p.state == CouncilDiscovery
    ensures var e, shown := EnsureDiscovery(world, p), p.(operation := DiscoveryOp);
            && (HasSpec(p) && p.pendingFeedback.None? ==>
                  e == Exec([Moved(p, SpecificationReady)], Moved(p, SpecificationReady), Ok))
            && (HasSpec(p) && p.pendingFeedback.Some? ==>
                  exists q :: TakesFeedback(world, p, q)
                              && e == Exec([q, Moved(q, SpecificationReady)], Moved(q, SpecificationReady), Ok))
            && (!HasSpec(p) && world(shown).discovery.DiscoveryFails? ==> GivesUp(e, shown))
            && (!HasSpec(p) && world(shown).discovery.DiscoveryGives? ==>
                  var q := shown.(spec := Some(world(shown).discovery.spec));
                  if HasSpec(q) && !(NeedsProvisioning(p) && world(shown).discovery.planFails)
                  then e == Exec([shown, Moved(q, SpecificationReady)], Moved(q, SpecificationReady), Ok)
                  else e == Exec([shown, q], q, Threw(StageFailed)))
  {
    SpecIsValid(p);
    var shown := p.(operation := DiscoveryOp);
    if world(shown).discovery.DiscoveryGives? { SpecIsValid(shown.(spec := Some(world(shown).discovery.spec))); }
    TrimIsEmptyIffBlank(world(p).feedbackPrompt);
    Updates.ValidSpecIsThere(p);
    if HasSpec(p) && p.pendingFeedback.Some? {
      hide HasSpec, HasValidSpec, Trim, Blank;
      var q := ApplyOwnerFeedback(world, p).last;
      assert TakesFeedback(world, p, q);
    }
    hide HasSpec, HasValidSpec, Trim, Blank;
  }

  // ---- Delivery ----

  // The project as its owner finds it, after a delivery was prepared: its level is that of the evidence there is.
  predicate IsOfferedAs(p: Project, ds: seq<Records.Delivery>, q: Project) {
    && q == p.(state := ReadyForOwnerReview, history := p.history + [Edge(p.state, ReadyForOwnerReview)],
               deliveries := ds, verificationLevel := q.verificationLevel)
    && (p.evidence.Some? ==> q.verificationLevel == Some(p.evidence.value.level))
    && (p.evidence.None? && p.cursorRuns != [] && p.cursorRuns[|p.cursorRuns| - 1].evidence.Some? ==>
          q.verificationLevel == Some(p.cursorRuns[|p.cursorRuns| - 1].evidence.value.level))
  }

  // A delivery is finished exactly when it can be prepared and the gate, asked with it, is open; then one record is
  // stored. Otherwise none is, and what the preparation left is in memory only.
  lemma {:induction false} DeliveryLeads(cfg: Config, world: World, p: Project)
    requires p.state == DeliveryPreparation
    ensures var e, r := FinishDelivery(cfg, world, p), Delivery.Prepare(p, world(p).packaged);
            var prepared := p.(deliveries := r.deliveries);
            if !r.ok then e == Exec([], prepared, Threw(LineageInvalid))
            else if !Gate.ReadyOk(prepared, Gate.Settings(cfg.maxIterations, world(p).securityClear))
            then e == Exec([], prepared, Threw(GateRejected))
            else e.outcome.Ok? && e.saves == [e.last] && IsOfferedAs(p, r.deliveries, e.last)
  {
    hide Delivery.Prepare, Gate.ReadyOk;
  }

  // At boot the failure of a delivery is recorded on the project, with what the preparation left.
  lemma {:induction false} BootLeads(cfg: Config, world: World, p: Project)
    ensures var e, r := BootDelivery(cfg, world, p), Delivery.Prepare(p, world(p).packaged);
            var prepared := p.(deliveries := r.deliveries);
            && e.outcome.Ok?
            && (p.state != DeliveryPreparation ==> e.saves == [])
            && (p.state == DeliveryPreparation ==>
                  if r.ok && Gate.ReadyOk(prepared, Gate.Settings(cfg.maxIterations, world(p).securityClear))
                  then e.saves == [e.last] && IsOfferedAs(p, r.deliveries, e.last)
                  else e.saves == [prepared.(error := true)])
  {
    hide FinishDelivery, Delivery.Prepare, Gate.ReadyOk, IsOfferedAs;
    if p.state == DeliveryPreparation { DeliveryLeads(cfg, world, p); }
  }

  // ---- Failure ----

  // A failure is recorded as the project's error; a project the engine works on fails, any other one stays where it is.
  lemma {:induction false} FailureIsRecorded(p: Project)
    ensures var q := p.(error := true);
            RecordFailure(p) ==
              if p.state in {ReadyForOwnerReview, OwnerApproved, Done, Failed} then Exec([q], q, Ok)
              else Exec([Moved(q, Failed)], Moved(q, Failed), Ok)
  {
  }
}
