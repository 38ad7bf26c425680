// The engine of src/orchestrator/orchestrator.js in its own form: handlers that update the project record in
// place and save it. Each method is proved to do exactly what the function of module Workflow says.
module Orchestrator {
  import opened Text
  import opened States
  import opened Records
  import opened Workflow
  import opened WorkflowProofs
  import WorkflowSafety
  import Gate
  import Lineage
  import Delivery

  class Engine {
    const cfg: Config
    const world: World
    var project: Project
    var stored: Project

    constructor (cfg: Config, world: World, p: Project)
      ensures this.cfg == cfg && this.world == world && project == p && stored == p
    {
      this.cfg, this.world := cfg, world;
      project, stored := p, p;
    }

    // Since the store held `before`, the engine did what `e` says.
    predicate Did(before: Project, e: Exec, o: Outcome)
      reads this
    {
      project == e.last && stored == Stored(before, e) && o == e.outcome
    }

    // ---- Saving and moving on ----

    // this.store.save(project)
    method SaveProject()
      modifies this`stored
      ensures stored == project
    {
      stored := project;
    }

    method Transition(to: State) returns (o: Outcome)
      modifies this
      ensures Did(old(stored), Workflow.Transition(old(project), to), o)
    {
      if !Legal(project.state, to) {
        return Threw(InvalidTransition);
      }
      project := project.(history := project.history + [Edge(project.state, to)], state := to);
      SaveProject();
      return Ok;
    }

    method Enter(to: State) returns (o: Outcome)
      modifies this
      ensures Did(old(stored), Workflow.Enter(old(project), to), o)
    {
      if project.state != to {
        o := Transition(to);
      } else {
        o := Ok;
      }
    }

    // A handler's catch: it saves what it has and throws on.
    method Catch(o: Outcome)
      modifies this`stored
      ensures stored == if o.Threw? then project else old(stored)
    {
      if o.Threw? { SaveProject(); }
    }

    // ---- Visual verification ----

    method FinishVisual() returns (o: Outcome)
      modifies this
      ensures Did(old(stored), Workflow.FinishVisual(cfg, world, old(project)), o)
    {
      hide Workflow.PerformVisual;
      var reused := FindReusableVisual(project);
      if reused.Some? {
        project := project.(evidence := FirstOf(reused.value.evidencePatch, project.evidence),
                            visualRuns := AddVisual(project.visualRuns, reused.value));
        SaveProject();
        o := Transition(CouncilReview);
        return;
      }
      var existing := LatestVisual(project, project.iteration);
      if existing.Some? && existing.value.completed && StillCurrent(project, existing.value.checkpointSha) {
        o := Transition(CouncilReview);
      } else {
        o := PerformVisual();
      }
    }

    method PerformVisual() returns (o: Outcome)
      modifies this
      ensures Did(old(stored), Workflow.PerformVisual(world, old(project)), o)
    {
      project := project.(operation := VisualOp);
      SaveProject();
      var answer := world(project).visual;
      if answer.None? {
        o := Threw(StageFailed);
        Catch(o);
      } else {
        project := RecordVisual(project, answer.value);
        SaveProject();
        o := Transition(CouncilReview);
        Catch(o);
      }
    }

    method EnterVisual() returns (o: Outcome)
      modifies this
      ensures Did(old(stored), Workflow.EnterVisual(cfg, world, old(project)), o)
    {
      hide Workflow.FinishVisual;
      o := Enter(VisualVerification);
      if cfg.queue || o.Threw? { return; }
      o := FinishVisual();
    }

    // ---- Runtime verification ----

    method AfterRuntime(run: RuntimeRun) returns (o: Outcome)
      modifies this
      ensures Did(old(stored), Workflow.AfterRuntime(cfg, world, old(project), run), o)
    {
      hide Workflow.EnterVisual;
      if run.blockingFailures != [] || ShouldSkipVisual(project, Some(run)) {
        o := Transition(CouncilReview);
      } else {
        o := EnterVisual();
      }
    }

    method FinishRuntime() returns (o: Outcome)
      modifies this
      ensures Did(old(stored), Workflow.FinishRuntime(cfg, world, old(project)), o)
    {
      hide Workflow.AfterRuntime, Workflow.PerformRuntime;
      var reused := FindReusableRuntime(project);
      if reused.Some? {
        project := project.(evidence := FirstOf(reused.value.evidencePatch, project.evidence),
                            runtimeRuns := AddRuntime(project.runtimeRuns, reused.value));
        SaveProject();
        o := AfterRuntime(reused.value);
        return;
      }
      var existing := LatestRuntime(project, project.iteration);
      if existing.Some? && existing.value.completed && StillCurrent(project, existing.value.checkpointSha) {
        o := AfterRuntime(existing.value);
      } else {
        o := PerformRuntime();
      }
    }

    method PerformRuntime() returns (o: Outcome)
      modifies this
      ensures Did(old(stored), Workflow.PerformRuntime(cfg, world, old(project)), o)
    {
      hide Workflow.AfterRuntime;
      project := project.(operation := RuntimeOp);
      SaveProject();
      var answer := world(project).runtime;
      if answer.None? {
        o := Threw(StageFailed);
        Catch(o);
      } else {
        var (r, done) := RecordRuntime(project, answer.value);
        project := r;
        SaveProject();
        o := AfterRuntime(done);
      }
    }

    method EnterRuntime() returns (o: Outcome)
      modifies this
      ensures Did(old(stored), Workflow.EnterRuntime(cfg, world, old(project)), o)
    {
      hide Workflow.FinishRuntime;
      o := Enter(RuntimeVerification);
      if cfg.queue || o.Threw? { return; }
      o := FinishRuntime();
    }

    // ---- Platform verification ----

    method AfterPlatform(run: VerificationRun) returns (o: Outcome)
      modifies this
      ensures Did(old(stored), Workflow.AfterPlatform(cfg, world, old(project), run), o)
    {
      hide Workflow.EnterRuntime;
      if ShouldSkipRuntime(project, Some(run)) {
        o := Transition(CouncilReview);
      } else {
        o := EnterRuntime();
      }
    }

    method FinishPlatform() returns (o: Outcome)
      modifies this
      ensures Did(old(stored), Workflow.FinishPlatform(cfg, world, old(project)), o)
    {
      hide Workflow.AfterPlatform, Workflow.PerformVerification;
      var reused := FindReusableVerification(project);
      if reused.Some? {
        project := ReuseVerification(project, reused.value, world(project).security);
        SaveProject();
        o := AfterPlatform(reused.value);
        return;
      }
      var existing := LatestVerification(project, project.iteration);
      if existing.Some? && existing.value.completed && StillCurrent(project, existing.value.checkpointSha) {
        project := WithLastEvidence(project, FirstOf(existing.value.evidencePatch, project.evidence));
        o := AfterPlatform(existing.value);
      } else {
        o := PerformVerification();
      }
    }

    method PerformVerification() returns (o: Outcome)
      modifies this
      ensures Did(old(stored), Workflow.PerformVerification(cfg, world, old(project)), o)
    {
      hide Workflow.AfterPlatform;
      project := project.(operation := VerificationOp);
      SaveProject();
      var answer := world(project).verification;
      if answer.None? {
        o := Threw(StageFailed);
        Catch(o);
      } else {
        var (r, done) := RecordVerification(project, answer.value, world(project).security);
        project := r;
        SaveProject();
        o := AfterPlatform(done);
        Catch(o);
      }
    }

    method EnterPlatform() returns (o: Outcome)
      modifies this
      ensures Did(old(stored), Workflow.EnterPlatform(cfg, world, old(project)), o)
    {
      hide Workflow.FinishPlatform;
      o := Enter(PlatformVerification);
      if cfg.queue || o.Threw? { return; }
      o := FinishPlatform();
    }

    // ---- Cursor ----

    method ExecuteCursor() returns (o: Outcome)
      modifies this
      ensures Did(old(stored), Workflow.ExecuteCursor(world, old(project)), o)
    {
      hide Workflow.ReportCursor;
      var (i, runs) := StartRun(project.cursorRuns, project.iteration);
      project := project.(operation := CursorOp, cursorRuns := runs);
      SaveProject();
      o := ReportCursor(i);
    }

    method ReportCursor(i: nat) returns (o: Outcome)
      requires i < |project.cursorRuns|
      modifies this
      ensures Did(old(stored), Workflow.ReportCursor(world, i, old(project)), o)
    {
      var answer := world(project).cursor;
      if answer.CursorThrows? || answer.result.evidence.execution.status == Fail {
        project := project.(cursorRuns := project.cursorRuns[i := project.cursorRuns[i].(status := CursorFailed)]);
        SaveProject();
        o := Threw(StageFailed);
      } else {
        var run := FinishedRun(project.iteration, answer.result);
        if answer.CursorSaveFails? {
          project := FinishRun(project, i, run.(status := RecoveryRequired));
          SaveProject();
          o := Threw(StageFailed);
        } else {
          project := FinishRun(project, i, run);
          SaveProject();
          o := Ok;
        }
      }
    }

    method RunCursor() returns (o: Outcome)
      modifies this
      ensures Did(old(stored), Workflow.RunCursor(cfg, world, old(project)), o)
    {
      hide Workflow.EnterPlatform, Workflow.ExecuteCursor;
      o := ExecuteCursor();
      if o.Threw? { return; }
      o := EnterPlatform();
    }

    method OpenIteration() returns (o: Outcome)
      modifies this
      ensures Did(old(stored), Workflow.OpenIteration(old(project)), o)
    {
      project := project.(iteration := project.iteration + 1);
      if project.state != CursorExecuting {
        o := Transition(CursorExecuting);
      } else {
        SaveProject();
        o := Ok;
      }
    }

    method RequestCursorRun(execute: bool) returns (o: Outcome)
      modifies this
      ensures Did(old(stored), Workflow.RequestCursorRun(cfg, world, old(project), execute), o)
    {
      hide Workflow.OpenIteration, Workflow.RunCursor;
      if MustProvision(project) {
        return Threw(ProvisioningMissing);
      }
      if project.iteration >= cfg.maxIterations {
        return Threw(MaxIterationsReached);
      }
      o := OpenIteration();
      if !execute || o.Threw? { return; }
      o := RunCursor();
    }

    method PrepareInterruptedCursor()
      modifies this
      ensures Did(old(stored), Workflow.PrepareInterruptedCursor(world, old(project)), Ok)
    {
      if project.cursorRuns == [] { return; }
      var i := |project.cursorRuns| - 1;
      var last := project.cursorRuns[i];
      var git := world(project).git;
      if last.hasResult || git.None? { return; }
      if last.checkpointSha != "" && last.checkpointSha == git.value.sha && !git.value.dirty {
        last := last.(status := Completed, hasResult := true, resultGitSha := last.checkpointSha);
        project := project.(cursorRuns := project.cursorRuns[i := last]);
        SaveProject();
      } else if git.value.dirty {
        project := project.(cursorRuns := project.cursorRuns[i := last.(status := RecoveryRequired)]);
        SaveProject();
      }
    }

    method FinishOrReplayCursor() returns (o: Outcome)
      modifies this
      ensures Did(old(stored), Workflow.FinishOrReplayCursor(cfg, world, old(project)), o)
    {
      hide Workflow.EnterPlatform, Workflow.PrepareInterruptedCursor, Workflow.RunCursor;
      if HasResultForIteration(project) {
        o := EnterPlatform();
        return;
      }
      if project.iteration == 0 { project := project.(iteration := 1); }
      PrepareInterruptedCursor();
      o := EnterPlatformOrRun();
    }

    method EnterPlatformOrRun() returns (o: Outcome)
      modifies this
      ensures Did(old(stored),
                  if HasResultForIteration(old(project)) && LatestCursorRun(old(project)).value.status == Completed
                  then Workflow.EnterPlatform(cfg, world, old(project))
                  else Workflow.RunCursor(cfg, world, old(project)), o)
    {
      hide Workflow.EnterPlatform, Workflow.RunCursor;
      if HasResultForIteration(project) && LatestCursorRun(project).value.status == Completed {
        o := EnterPlatform();
      } else {
        o := RunCursor();
      }
    }

    // ---- Provisioning ----

    method FinishProvisioning() returns (o: Outcome)
      modifies this
      ensures Did(old(stored), Workflow.FinishProvisioning(cfg, world, old(project)), o)
    {
      hide Workflow.PerformProvisioning, Workflow.RequestCursorRun;
      if ProvisioningSucceeded(project) {
        if project.state != ProjectProvisioning && project.state != SpecificationReady {
          return Ok;
        }
        if cfg.queue {
          o := Transition(CursorExecuting);
        } else {
          o := RequestCursorRun(true);
        }
        return;
      }
      if project.state == SpecificationReady {
        o := Transition(ProjectProvisioning);
        o := PerformProvisioning();
      } else {
        o := PerformProvisioning();
      }
    }

    method PerformProvisioning() returns (o: Outcome)
      modifies this
      ensures Did(old(stored), Workflow.PerformProvisioning(cfg, world, old(project)), o)
    {
      hide Workflow.RequestCursorRun;
      project := project.(operation := ProvisioningOp);
      SaveProject();
      var answer := world(project).provisioning;
      if answer.None? {
        project := PrepareWorkspace(project, world(project).workspacePrepared);
        o := Threw(StageFailed);
        Catch(o);
        return;
      }
      project := ApplyProvisioning(project, answer.value);
      SaveProject();
      if cfg.queue {
        o := Transition(CursorExecuting);
        Catch(o);
      } else {
        o := RequestCursorRun(true);
      }
    }

    method EnterProvisioning() returns (o: Outcome)
      modifies this
      ensures Did(old(stored), Workflow.EnterProvisioning(cfg, world, old(project)), o)
    {
      hide Workflow.FinishProvisioning;
      o := Enter(ProjectProvisioning);
      if cfg.queue || o.Threw? { return; }
      o := FinishProvisioning();
    }

    // ---- Discovery ----

    method ApplyOwnerFeedback()
      requires project.spec.Some?
      modifies this
      ensures Did(old(stored), Workflow.ApplyOwnerFeedback(world, old(project)), Ok)
    {
      if project.pendingFeedback.None? { return; }
      var prompt := world(project).feedbackPrompt;
      if Trim(prompt) == "" {
        prompt := project.spec.value.cursorPrompt + "\n\nOwner feedback: " + project.pendingFeedback.value;
      }
      project := project.(spec := Some(project.spec.value.(cursorPrompt := prompt)), pendingFeedback := None);
      SaveProject();
    }

    method EnsureDiscovery() returns (o: Outcome)
      modifies this
      ensures Did(old(stored), Workflow.EnsureDiscovery(world, old(project)), o)
    {
      hide Workflow.DiscoverFrom;
      if project.state == IdeaSubmitted {
        o := Transition(CouncilDiscovery);
        o := DiscoverFrom();
      } else {
        o := DiscoverFrom();
      }
    }

    method DiscoverFrom() returns (o: Outcome)
      modifies this
      ensures Did(old(stored), Workflow.DiscoverFrom(world, old(project)), o)
    {
      hide Workflow.ApplyOwnerFeedback, Workflow.PerformDiscovery;
      if !HasValidSpec(project) {
        o := PerformDiscovery();
        return;
      }
      ApplyOwnerFeedback();
      if project.state == CouncilDiscovery {
        o := Transition(SpecificationReady);
      } else {
        o := Ok;
      }
    }

    method PerformDiscovery() returns (o: Outcome)
      modifies this
      ensures Did(old(stored), Workflow.PerformDiscovery(world, old(project)), o)
    {
      project := project.(operation := DiscoveryOp);
      SaveProject();
      var answer := world(project).discovery;
      if answer.DiscoveryFails? {
        o := Threw(StageFailed);
      } else {
        project := project.(spec := Some(answer.spec));
        if !HasValidSpec(project) || (NeedsProvisioning(project) && answer.planFails) {
          o := Threw(StageFailed);
        } else {
          o := Transition(SpecificationReady);
        }
      }
      Catch(o);
    }

    // ---- Review, final verification and delivery ----

    method AskReview() returns (o: Outcome)
      modifies this
      ensures Did(old(stored), Workflow.AskReview(world, old(project)), o)
    {
      if project.iteration in project.reviews { return Ok; }
      if project.cursorRuns == [] { return Threw(RecoveryFailed); }
      project := project.(operation := ReviewOp);
      SaveProject();
      var answer := world(project).review;
      if answer.None? {
        o := Threw(StageFailed);
        Catch(o);
      } else {
        project := project.(reviews := project.reviews[project.iteration := answer.value]);
        SaveProject();
        o := Ok;
      }
    }

    method FinishReview() returns (o: Outcome)
      modifies this
      ensures Did(old(stored), Workflow.FinishReview(cfg, world, old(project)), o)
    {
      hide Workflow.AskReview, Workflow.FollowReview;
      o := AskReview();
      if o.Threw? { return; }
      var overruled := Overruled(cfg, project);
      o := FollowReview(overruled);
    }

    method FollowReview(overruled: bool) returns (o: Outcome)
      modifies this
      ensures Did(old(stored), Workflow.FollowReview(cfg, world, old(project), overruled), o)
    {
      hide Workflow.RequestCursorRun;
      if overruled {
        project := project.(reviews := project.reviews[project.iteration := ChangesRequired]);
        o := RequestCursorRun(!cfg.queue);
      } else if ReviewDecision(project) == ChangesRequired {
        o := RequestCursorRun(!cfg.queue);
      } else {
        o := Transition(FinalVerification);
      }
    }

    method AskFinal() returns (o: Outcome)
      modifies this
      ensures Did(old(stored), Workflow.AskFinal(world, old(project)), o)
    {
      if project.final.Some? && project.final.value.cursorCount == |project.cursorRuns| { return Ok; }
      project := project.(operation := FinalOp);
      SaveProject();
      var answer := world(project).final;
      if answer.None? {
        o := Threw(StageFailed);
        Catch(o);
      } else {
        project := project.(final := Some(FinalReview(answer.value, |project.cursorRuns|)));
        SaveProject();
        o := Ok;
      }
    }

    method FinishFinal() returns (o: Outcome)
      modifies this
      ensures Did(old(stored), Workflow.FinishFinal(cfg, world, old(project)), o)
    {
      hide Workflow.ActOnFinal, Workflow.AskFinal;
      o := AskFinal();
      if o.Threw? { return; }
      o := ActOnFinal();
    }

    method ActOnFinal() returns (o: Outcome)
      modifies this
      ensures Did(old(stored), Workflow.ActOnFinal(cfg, world, old(project)), o)
    {
      hide Workflow.EnterDelivery, Workflow.RequestCursorRun;
      if project.final.Some? && project.final.value.decision == ChangesRequired {
        project := project.(finalHistory := project.finalHistory + [project.final.value], final := None);
        o := RequestCursorRun(!cfg.queue);
      } else {
        o := EnterDelivery();
      }
    }

    method EnterDelivery() returns (o: Outcome)
      modifies this
      ensures Did(old(stored), Workflow.EnterDelivery(cfg, world, old(project)), o)
    {
      hide Workflow.FinishDelivery, Gate.Rejects;
      var accepted, _ := Gate.CanCompleteAutonomousWork(project, SettingsFor(cfg, world, project));
      if !accepted {
        return Threw(GateRejected);
      }
      o := Enter(DeliveryPreparation);
      if o.Threw? { return; }
      o := FinishDelivery();
    }

    method FinishDelivery() returns (o: Outcome)
      modifies this
      ensures Did(old(stored), Workflow.FinishDelivery(cfg, world, old(project)), o)
    {
      var settings := SettingsFor(cfg, world, project);
      var ledger := new Delivery.Ledger(project.deliveries, project.ownerReviews);
      var prepared := ledger.PrepareSnapshot(project, world(project).packaged);
      project := project.(deliveries := ledger.deliveries);
      if !prepared {
        return Threw(LineageInvalid);
      }
      var ready, _, _ := Gate.CanEnterOwnerReview(project, settings);
      if !ready {
        return Threw(GateRejected);
      }
      var evidence := Lineage.MergedEvidence(project);
      project := project.(verificationLevel := if evidence.Some? then Some(evidence.value.level) else None);
      if project.state != ReadyForOwnerReview {
        o := Transition(ReadyForOwnerReview);
      } else {
        SaveProject();
        o := Ok;
      }
    }

    // ---- Failure, retry and owner decisions ----

    method RecordFailure() returns (o: Outcome)
      modifies this
      ensures Did(old(stored), Workflow.RecordFailure(old(stored)), o)
    {
      project := stored;
      var active := IsActive(project.state);
      project := project.(error := true);
      if active {
        o := Transition(Failed);
      } else {
        SaveProject();
        o := Ok;
      }
    }

    method Retry() returns (o: Outcome)
      modifies this
      ensures Did(old(stored), Workflow.Retry(old(stored)), o)
    {
      project := stored;
      if project.state != Failed {
        return Threw(RetryNotEligible);
      }
      var target := ResumeTarget(project);
      project := project.(error := false);
      o := Transition(target);
    }

    method TransitionTwice(first: State, second: State) returns (o: Outcome)
      modifies this
      ensures Did(old(stored), Workflow.TransitionTwice(old(project), first, second), o)
    {
      o := Transition(first);
      if o.Threw? { return; }
      project := stored;
      o := Transition(second);
    }

    // approve and requestChanges, under the project's lock.
    method OwnerDecides(decision: OwnerDecision, feedback: string) returns (o: Outcome)
      modifies this
      ensures Did(old(stored), Workflow.OwnerDecides(old(stored), decision, feedback), o)
    {
      hide Workflow.TransitionTwice;
      project := stored;
      if project.state != ReadyForOwnerReview {
        return Threw(DecisionRejected(Delivery.DecisionConflict));
      }
      var ledger := new Delivery.Ledger(project.deliveries, project.ownerReviews);
      var error := ledger.RecordOwnerDecision(project, decision, feedback);
      project := project.(deliveries := ledger.deliveries, ownerReviews := ledger.ownerReviews);
      if error.Some? {
        return Threw(DecisionRejected(error.value));
      }
      if decision == OwnerApproves {
        o := TransitionTwice(OwnerApproved, Done);
      } else {
        project := project.(pendingFeedback := Some(Trim(feedback)));
        o := TransitionTwice(OwnerChangesRequested, CouncilDiscovery);
      }
    }

    // recoverOnBoot for one project.
    method RecoverDelivery()
      modifies this
      ensures Did(old(stored), Workflow.BootDelivery(cfg, world, old(stored)), Ok)
    {
      hide Workflow.FinishDelivery;
      project := stored;
      if project.state != DeliveryPreparation { return; }
      var o := FinishDelivery();
      if o.Threw? {
        project := project.(error := true);
        SaveProject();
      }
    }

    // ---- The two drivers ----

    method Pass() returns (o: Outcome)
      requires IsActive(project.state)
      modifies this
      ensures Did(old(stored), Workflow.LoopPass(cfg, world, old(project)), o)
    {
      if project.iteration > cfg.maxIterations {
        return Threw(MaxIterationsReached);
      }
      match project.state {
        case IdeaSubmitted => o := EnsureDiscovery();
        case CouncilDiscovery => o := EnsureDiscovery();
        case SpecificationReady =>
          if MustProvision(project) { o := EnterProvisioning(); } else { o := RequestCursorRun(true); }
        case ProjectProvisioning => o := FinishProvisioning();
        case CursorExecuting => o := FinishOrReplayCursor();
        case PlatformVerification => o := FinishPlatform();
        case RuntimeVerification => o := FinishRuntime();
        case VisualVerification => o := FinishVisual();
        case CouncilReview => o := FinishReview();
        case FinalVerification => o := FinishFinal();
        case DeliveryPreparation => o := FinishDelivery();
        case OwnerChangesRequested => o := Transition(CouncilDiscovery);
      }
    }

    // `run`: pass after pass until the project is owner-terminal or FAILED; an error is recorded and fails it. It
    // always ends, within the bound on transitions, and never with an uncertified delivery.
    method Run()
      requires Inv(cfg, stored) && !cfg.queue && ProvisionsOrThrows(world)
      modifies this
      ensures Inv(cfg, stored) && !IsActive(stored.state)
      ensures old(stored.history) <= stored.history
      ensures |stored.history| <= |old(stored.history)| + Remaining(cfg, old(stored))
      ensures stored.state == ReadyForOwnerReview && !stored.demo ==> WorkflowSafety.OwnerReviewCertificate(cfg, stored)
    {
      hide Remaining, RunsOk, RunsFit, SpecFits, ProvisionsFirst, Walk, Cert, Delivery.LedgerOk;
      hide WorkflowSafety.OwnerReviewCertificate, Workflow.LoopPass, Workflow.RecordFailure, IsActive;
      var o := Ok;
      while IsActive(stored.state) && o.Ok?
        invariant Inv(cfg, stored) && old(stored.history) <= stored.history
        invariant |stored.history| + Remaining(cfg, stored) <= |old(stored.history)| + Remaining(cfg, old(stored))
        decreases o.Ok?, Remaining(cfg, stored)
      {
        PassStores(cfg, world, stored);
        project := stored;
        o := Pass();
      }
      if o.Threw? {
        FailureStores(cfg, stored);
        var _ := RecordFailure();
      }
      if stored.state == ReadyForOwnerReview && !stored.demo {
        WorkflowSafety.CertMeans(cfg, stored);
      }
    }

    // executeJob; every store.get re-reads the stored project.
    method ExecuteJob(job: JobType) returns (o: Outcome)
      modifies this
      ensures Did(old(stored), Workflow.Job(cfg, world, old(stored), job), o)
    {
      project := stored;
      o := Ok;
      if !IsActive(project.state) { return; }
      match job {
        case DiscoveryJob => o := ExecuteDiscovery();
        case ProvisioningJob =>
          if project.state == SpecificationReady || project.state == ProjectProvisioning { o := FinishProvisioning(); }
        case CursorJob => o := ExecuteCursorJob();
        case VerificationJob => o := ExecuteVerification();
        case RuntimeJob => o := ExecuteRuntime();
        case VisualJob => o := ExecuteVisual();
        case ReviewJob =>
          if project.state !in {FinalVerification, DeliveryPreparation, CursorExecuting, PlatformVerification,
                                RuntimeVerification, VisualVerification} {
            o := FinishReview();
          }
        case FinalJob =>
          if project.state == DeliveryPreparation {
            o := FinishDelivery();
          } else if project.state != CursorExecuting {
            o := FinishFinal();
          }
        case DeliveryJob => o := ExecuteDelivery();
      }
    }

    method ExecuteDiscovery() returns (o: Outcome)
      requires project == stored && IsActive(project.state)
      modifies this
      ensures Did(old(stored), Workflow.Job(cfg, world, old(project), DiscoveryJob), o)
    {
      hide Workflow.EnsureDiscovery;
      o := Ok;
      if project.state == SpecificationReady || project.state == ProjectProvisioning { return; }
      if project.state == OwnerChangesRequested {
        o := Transition(CouncilDiscovery);
        project := stored;
      }
      o := EnsureDiscovery();
    }

    method ExecuteCursorJob() returns (o: Outcome)
      requires project == stored && IsActive(project.state)
      modifies this
      ensures Did(old(stored), Workflow.Job(cfg, world, old(project), CursorJob), o)
    {
      hide Workflow.FinishOrReplayCursor, Workflow.FinishProvisioning, Workflow.RequestCursorRun;
      if project.state == SpecificationReady && MustProvision(project) {
        o := FinishProvisioning();
      } else if project.state == SpecificationReady {
        o := RequestCursorRun(true);
      } else if project.state == ProjectProvisioning {
        o := FinishProvisioning();
      } else if project.state == CursorExecuting {
        o := FinishOrReplayCursor();
      } else {
        o := Ok;
      }
    }

    method ExecuteVerification() returns (o: Outcome)
      requires project == stored && IsActive(project.state)
      modifies this
      ensures Did(old(stored), Workflow.Job(cfg, world, old(project), VerificationJob), o)
    {
      hide Workflow.FinishPlatform;
      if project.state == CursorExecuting {
        o := FinishOrReplayCursorThenPlatform();
      } else if project.state == PlatformVerification {
        o := FinishPlatform();
      } else {
        o := Ok;
      }
    }

    method FinishOrReplayCursorThenPlatform() returns (o: Outcome)
      requires project == stored
      modifies this
      ensures Did(old(stored), Workflow.ThenPlatform(cfg, world, old(project), Workflow.FinishOrReplayCursor(cfg, world, old(project))), o)
    {
      hide Workflow.FinishOrReplayCursor, Workflow.FinishPlatform;
      o := FinishOrReplayCursor();
      if o.Threw? { return; }
      project := stored;
      if project.state == PlatformVerification { o := FinishPlatform(); }
    }

    method ExecuteRuntime() returns (o: Outcome)
      requires project == stored && IsActive(project.state)
      modifies this
      ensures Did(old(stored), Workflow.Job(cfg, world, old(project), RuntimeJob), o)
    {
      hide Workflow.FinishRuntime;
      if project.state == PlatformVerification {
        o := FinishPlatformThenRuntime();
      } else if project.state == RuntimeVerification {
        o := FinishRuntime();
      } else {
        o := Ok;
      }
    }

    method FinishPlatformThenRuntime() returns (o: Outcome)
      requires project == stored
      modifies this
      ensures Did(old(stored), Workflow.ThenRuntime(cfg, world, old(project), Workflow.FinishPlatform(cfg, world, old(project))), o)
    {
      hide Workflow.FinishPlatform, Workflow.FinishRuntime;
      o := FinishPlatform();
      if o.Threw? { return; }
      project := stored;
      if project.state == RuntimeVerification { o := FinishRuntime(); }
    }

    method ExecuteVisual() returns (o: Outcome)
      requires project == stored && IsActive(project.state)
      modifies this
      ensures Did(old(stored), Workflow.Job(cfg, world, old(project), VisualJob), o)
    {
      hide Workflow.FinishVisual;
      if project.state == RuntimeVerification {
        o := FinishRuntimeThenVisual();
      } else if project.state == VisualVerification {
        o := FinishVisual();
      } else {
        o := Ok;
      }
    }

    method FinishRuntimeThenVisual() returns (o: Outcome)
      requires project == stored
      modifies this
      ensures Did(old(stored), Workflow.ThenVisual(cfg, world, old(project), Workflow.FinishRuntime(cfg, world, old(project))), o)
    {
      hide Workflow.FinishRuntime, Workflow.FinishVisual;
      o := FinishRuntime();
      if o.Threw? { return; }
      project := stored;
      if project.state == VisualVerification { o := FinishVisual(); }
    }

    method ExecuteDelivery() returns (o: Outcome)
      requires project == stored && IsActive(project.state)
      modifies this
      ensures Did(old(stored), Workflow.Job(cfg, world, old(project), DeliveryJob), o)
    {
      hide Workflow.FinishDelivery, Workflow.FinishFinal, Workflow.ThenDelivery;
      if project.state == FinalVerification {
        o := FinishFinalThenDelivery();
      } else if project.state == DeliveryPreparation {
        o := FinishDelivery();
      } else {
        o := Ok;
      }
    }

    method FinishFinalThenDelivery() returns (o: Outcome)
      requires project == stored
      modifies this
      ensures Did(old(stored), Workflow.ThenDelivery(cfg, world, old(project), Workflow.FinishFinal(cfg, world, old(project))), o)
    {
      hide Workflow.FinishDelivery, Workflow.FinishFinal;
      o := FinishFinal();
      if o.Threw? { return; }
      project := stored;
      if project.state == DeliveryPreparation { o := FinishDelivery(); }
    }
  }

  // What one exec that makes progress leaves in the store, whether it throws or not.
  lemma {:induction false} StoredAfter(cfg: Config, world: World, p: Project, e: Exec)
    requires Inv(cfg, p) && IsActive(p.state) && Progress(cfg, world, p, e)
    ensures var q := Stored(p, e);
            && Inv(cfg, q) && p.history <= q.history
            && |q.history| + Remaining(cfg, q) <= |p.history| + Remaining(cfg, p)
            && (e.outcome.Ok? ==> Remaining(cfg, q) < Remaining(cfg, p))
  {
    hide RunsOk, RunsFit, SpecFits, ProvisionsFirst, Walk, Cert, Delivery.LedgerOk, Delivery.Evolves, EnteredThroughGate;
    if e.saves != [] {
      assert e.saves[|e.saves| - 1] in e.saves;
    }
  }

  lemma {:induction false} PassStores(cfg: Config, world: World, p: Project)
    requires Inv(cfg, p) && IsActive(p.state) && !cfg.queue && ProvisionsOrThrows(world)
    ensures var e := LoopPass(cfg, world, p);
            var q := Stored(p, e);
            && Inv(cfg, q) && p.history <= q.history
            && |q.history| + Remaining(cfg, q) <= |p.history| + Remaining(cfg, p)
            && (e.outcome.Ok? ==> Remaining(cfg, q) < Remaining(cfg, p))
  {
    LoopPassProgress(cfg, world, p);
    StoredAfter(cfg, world, p, LoopPass(cfg, world, p));
  }

  lemma {:induction false} FailureStores(cfg: Config, p: Project)
    requires Inv(cfg, p)
    ensures var q := Stored(p, Workflow.RecordFailure(p));
            && Inv(cfg, q) && !IsActive(q.state) && NextJob(q).None? && p.history <= q.history
            && |q.history| + Remaining(cfg, q) <= |p.history| + Remaining(cfg, p)
  {
    hide Inv, Remaining, Legal, LegalTargets;
    WorkflowSafety.FailureKeepsInvariant(cfg, p);
    WorkflowSafety.FailureSpends(cfg, p, Workflow.RecordFailure(p).last);
    assert Workflow.RecordFailure(p).saves == [Workflow.RecordFailure(p).last];
  }
}
