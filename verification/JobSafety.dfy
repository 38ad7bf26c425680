// Jobs that meet a project in any state. The worker does not check what a job finds: a job whose worker died after
// saving, and before the handoff, is executed again on whatever the project has become.
module JobSafety {
  import opened Text
  import opened States
  import opened Records
  import opened Workflow
  import opened WorkflowProofs
  import Delivery
  import Gate

  ghost predicate SavesSound(cfg: Config, world: World, p: Project, e: Exec)
    requires p.iteration <= Cap(cfg)
  {
    forall q :: q in e.saves ==> SoundStep(cfg, world, p, q)
  }

  lemma {:induction false} ThenSound(cfg: Config, world: World, p: Project, early: Exec, late: Exec)
    requires p.iteration <= Cap(cfg) && Progress(cfg, world, p, early)
    requires early.outcome.Ok? ==> SavesSound(cfg, world, early.last, late)
    ensures SavesSound(cfg, world, p, Seq(early, late))
  {
    forall q | q in Seq(early, late).saves ensures SoundStep(cfg, world, p, q) {
      if q !in early.saves {
        StepComposes(cfg, world, p, early.last, q);
      }
    }
  }

  // ---- Review and final verification on a project that has moved on ----

  // A project that is not at work on a Cursor run has no unfinished one.
  lemma {:induction false} NoRunIsOpen(cfg: Config, p: Project)
    requires Inv(cfg, p) && IsActive(p.state) && p.state != CursorExecuting
    ensures !Unfinished(p.cursorRuns)
  {
  }

  lemma {:induction false} ChangesSound(cfg: Config, world: World, p: Project, q: Project)
    requires Inv(cfg, p) && IsActive(p.state) && p.state != CursorExecuting && SameFlow(p, q) && cfg.queue
    ensures SavesSound(cfg, world, p, RequestChanges(cfg, world, q))
  {
    hide Walk, Cert, Delivery.LedgerOk, Delivery.Evolves, EnteredThroughGate, Remaining, RunsOk;
    RecordStep(cfg, world, p, q);
    NoRunIsOpen(cfg, q);
    if Legal(q.state, CursorExecuting) {
      RequestCursorRunProgress(cfg, world, q, false);
      ProgressAfter(cfg, world, p, q, RequestCursorRun(cfg, world, q, false));
    }
  }

  lemma {:induction false} AskedThenSound(cfg: Config, world: World, p: Project, e: Exec, rest: Exec)
    requires p.iteration <= Cap(cfg) && Asked(cfg, world, p, e)
    requires e.outcome.Ok? ==> SavesSound(cfg, world, e.last, rest)
    ensures SavesSound(cfg, world, p, Seq(e, rest))
  {
    forall q | q in Seq(e, rest).saves ensures SoundStep(cfg, world, p, q) {
      if q !in e.saves {
        StepComposes(cfg, world, p, e.last, q);
      }
    }
  }

  lemma {:induction false} FollowReviewSound(cfg: Config, world: World, p: Project, overruled: bool)
    requires Inv(cfg, p) && IsActive(p.state) && p.state != CursorExecuting && p.state != CouncilReview && cfg.queue
    ensures SavesSound(cfg, world, p, FollowReview(cfg, world, p, overruled))
  {
    hide Walk, Cert, Delivery.LedgerOk, Delivery.Evolves, EnteredThroughGate, Remaining, RunsOk;
    hide RequestChanges;
    ChangesSound(cfg, world, p, p.(reviews := p.reviews[p.iteration := ChangesRequired]));
    ChangesSound(cfg, world, p, p);
  }

  lemma {:induction false} LateReviewSound(cfg: Config, world: World, p: Project)
    requires Inv(cfg, p) && IsActive(p.state) && p.state != CursorExecuting && p.state != CouncilReview && cfg.queue
    ensures SavesSound(cfg, world, p, FinishReview(cfg, world, p))
  {
    hide AskReview, FollowReview;
    AskReviewProgress(cfg, world, p);
    var e := AskReview(world, p);
    if e.outcome.Ok? {
      FollowReviewSound(cfg, world, e.last, Overruled(cfg, e.last));
    }
    AskedThenSound(cfg, world, p, e, FollowReview(cfg, world, e.last, Overruled(cfg, e.last)));
  }

  lemma {:induction false} LateDeliveryIsRejected(cfg: Config, world: World, p: Project)
    requires IsActive(p.state) && p.state != FinalVerification && p.state != DeliveryPreparation
    ensures var e := EnterDelivery(cfg, world, p);
            && e.saves == []
            && e.outcome == Threw(if Gate.GateOk(p, SettingsFor(cfg, world, p)) then InvalidTransition else GateRejected)
  {
    hide FinishDelivery, Gate.GateOk, SettingsFor;
    assert Enter(p, DeliveryPreparation) == Raise(p, InvalidTransition);
  }

  lemma {:induction false} ActOnFinalSound(cfg: Config, world: World, p: Project)
    requires Inv(cfg, p) && IsActive(p.state) && cfg.queue
    requires p.state !in {CursorExecuting, FinalVerification, DeliveryPreparation}
    ensures SavesSound(cfg, world, p, ActOnFinal(cfg, world, p))
  {
    hide EnterDelivery, RequestChanges;
    if p.final.Some? && p.final.value.decision == ChangesRequired {
      ChangesSound(cfg, world, p, p.(finalHistory := p.finalHistory + [p.final.value], final := None));
    } else {
      LateDeliveryIsRejected(cfg, world, p);
    }
  }

  lemma {:induction false} LateFinalSound(cfg: Config, world: World, p: Project)
    requires Inv(cfg, p) && IsActive(p.state) && cfg.queue
    requires p.state !in {CursorExecuting, FinalVerification, DeliveryPreparation}
    ensures SavesSound(cfg, world, p, FinishFinal(cfg, world, p))
  {
    hide ActOnFinal, AskFinal;
    AskFinalProgress(cfg, world, p);
    var e := AskFinal(world, p);
    if e.outcome.Ok? {
      ActOnFinalSound(cfg, world, e.last);
    }
    AskedThenSound(cfg, world, p, e, ActOnFinal(cfg, world, e.last));
  }

  // ---- Every job in every state ----

  lemma {:induction false} DiscoverySound(cfg: Config, world: World, p: Project)
    requires Inv(cfg, p) && IsActive(p.state)
    ensures SavesSound(cfg, world, p, Job(cfg, world, p, DiscoveryJob))
    ensures Job(cfg, world, p, DiscoveryJob).outcome != Threw(InvalidTransition)
  {
    hide Walk, Cert, Delivery.LedgerOk, Delivery.Evolves, EnteredThroughGate, Remaining, RunsOk;
    if p.state == OwnerChangesRequested {
      FeedbackJobProgress(cfg, world, p);
    } else if p.state in {IdeaSubmitted, CouncilDiscovery} {
      EnsureDiscoveryProgress(cfg, world, p);
    } else if p.state !in {SpecificationReady, ProjectProvisioning} {
      FeedbackStep(cfg, world, p);
    }
  }

  lemma {:induction false} ImplementationSound(cfg: Config, world: World, p: Project, job: JobType)
    requires Inv(cfg, p) && IsActive(p.state) && cfg.queue && ProvisionsOrThrows(world)
    requires job in {ProvisioningJob, CursorJob}
    ensures SavesSound(cfg, world, p, Job(cfg, world, p, job))
    ensures Job(cfg, world, p, job).outcome != Threw(InvalidTransition)
  {
    hide FinishOrReplayCursor, FinishProvisioning, RequestCursorRun;
    if p.state == SpecificationReady && (job == ProvisioningJob || MustProvision(p)) {
      StartProvisioningProgress(cfg, world, p);
    } else if p.state == SpecificationReady {
      RequestCursorRunProgress(cfg, world, p, true);
    } else if p.state == ProjectProvisioning {
      FinishProvisioningProgress(cfg, world, p);
    } else if p.state == CursorExecuting && job == CursorJob {
      FinishOrReplayProgress(cfg, world, p);
    }
  }

  lemma {:induction false} VerificationSound(cfg: Config, world: World, p: Project)
    requires Inv(cfg, p) && IsActive(p.state)
    ensures SavesSound(cfg, world, p, Job(cfg, world, p, VerificationJob))
    ensures Job(cfg, world, p, VerificationJob).outcome != Threw(InvalidTransition)
  {
    hide FinishOrReplayCursor, FinishPlatform;
    if p.state == PlatformVerification {
      FinishPlatformProgress(cfg, world, p);
    } else if p.state == CursorExecuting {
      var e := FinishOrReplayCursor(cfg, world, p);
      FinishOrReplayProgress(cfg, world, p);
      var q := Stored(p, e);
      if e.outcome.Ok? && q.state == PlatformVerification { FinishPlatformProgress(cfg, world, q); }
      ThenSound(cfg, world, p, e, if q.state == PlatformVerification then FinishPlatform(cfg, world, q) else Silent(q));
    }
  }

  lemma {:induction false} RuntimeSound(cfg: Config, world: World, p: Project)
    requires Inv(cfg, p) && IsActive(p.state)
    ensures SavesSound(cfg, world, p, Job(cfg, world, p, RuntimeJob))
    ensures Job(cfg, world, p, RuntimeJob).outcome != Threw(InvalidTransition)
  {
    hide Walk, Cert, Delivery.LedgerOk, Delivery.Evolves, EnteredThroughGate, Remaining, RunsOk;
    hide FinishPlatform, FinishRuntime;
    if p.state == RuntimeVerification {
      FinishRuntimeProgress(cfg, world, p);
    } else if p.state == PlatformVerification {
      var e := FinishPlatform(cfg, world, p);
      FinishPlatformProgress(cfg, world, p);
      var q := Stored(p, e);
      if e.outcome.Ok? && q.state == RuntimeVerification { FinishRuntimeProgress(cfg, world, q); }
      ThenSound(cfg, world, p, e, if q.state == RuntimeVerification then FinishRuntime(cfg, world, q) else Silent(q));
    }
  }

  lemma {:induction false} VisualSound(cfg: Config, world: World, p: Project)
    requires Inv(cfg, p) && IsActive(p.state)
    ensures SavesSound(cfg, world, p, Job(cfg, world, p, VisualJob))
    ensures Job(cfg, world, p, VisualJob).outcome != Threw(InvalidTransition)
  {
    hide Walk, Cert, Delivery.LedgerOk, Delivery.Evolves, EnteredThroughGate, Remaining, RunsOk;
    hide FinishRuntime, FinishVisual;
    if p.state == VisualVerification {
      FinishVisualProgress(cfg, world, p);
    } else if p.state == RuntimeVerification {
      var e := FinishRuntime(cfg, world, p);
      FinishRuntimeProgress(cfg, world, p);
      var q := Stored(p, e);
      if e.outcome.Ok? && q.state == VisualVerification { FinishVisualProgress(cfg, world, q); }
      ThenSound(cfg, world, p, e, if q.state == VisualVerification then FinishVisual(cfg, world, q) else Silent(q));
    }
  }

  lemma {:induction false} DeliverySound(cfg: Config, world: World, p: Project)
    requires Inv(cfg, p) && IsActive(p.state)
    ensures SavesSound(cfg, world, p, Job(cfg, world, p, DeliveryJob))
    ensures Job(cfg, world, p, DeliveryJob).outcome != Threw(InvalidTransition)
  {
    hide Walk, Cert, Delivery.LedgerOk, Delivery.Evolves, EnteredThroughGate, Remaining, RunsOk;
    hide FinishDelivery, FinishFinal;
    if p.state == DeliveryPreparation {
      FinishDeliveryProgress(cfg, world, p);
    } else if p.state == FinalVerification {
      var e := FinishFinal(cfg, world, p);
      FinishFinalProgress(cfg, world, p);
      var q := Stored(p, e);
      if e.outcome.Ok? && q.state == DeliveryPreparation { FinishDeliveryProgress(cfg, world, q); }
      ThenSound(cfg, world, p, e, if q.state == DeliveryPreparation then FinishDelivery(cfg, world, q) else Silent(q));
    }
  }

  lemma {:induction false} CouncilSound(cfg: Config, world: World, p: Project, job: JobType)
    requires Inv(cfg, p) && IsActive(p.state) && cfg.queue && job in {ReviewJob, FinalJob}
    ensures SavesSound(cfg, world, p, Job(cfg, world, p, job))
  {
    hide Walk, Cert, Delivery.LedgerOk, Delivery.Evolves, EnteredThroughGate, Remaining, RunsOk;
    hide FinishDelivery, FinishFinal, FinishReview;
    if job == ReviewJob {
      if p.state == CouncilReview { FinishReviewProgress(cfg, world, p); }
      else if p.state != CursorExecuting { LateReviewSound(cfg, world, p); }
    } else if p.state == FinalVerification {
      FinishFinalProgress(cfg, world, p);
    } else if p.state == DeliveryPreparation {
      FinishDeliveryProgress(cfg, world, p);
    } else if p.state != CursorExecuting {
      LateFinalSound(cfg, world, p);
    }
  }

  // Whatever job is executed on whatever project, every snapshot it writes is a sound step.
  lemma {:induction false} EveryJobIsSound(cfg: Config, world: World, p: Project, job: JobType)
    requires Inv(cfg, p) && cfg.queue && ProvisionsOrThrows(world)
    ensures SavesSound(cfg, world, p, Job(cfg, world, p, job))
  {
    if IsActive(p.state) {
      match job {
        case DiscoveryJob => DiscoverySound(cfg, world, p);
        case ProvisioningJob => ImplementationSound(cfg, world, p, job);
        case CursorJob => ImplementationSound(cfg, world, p, job);
        case VerificationJob => VerificationSound(cfg, world, p);
        case RuntimeJob => RuntimeSound(cfg, world, p);
        case VisualJob => VisualSound(cfg, world, p);
        case ReviewJob => CouncilSound(cfg, world, p, job);
        case FinalJob => CouncilSound(cfg, world, p, job);
        case DeliveryJob => DeliverySound(cfg, world, p);
      }
    }
  }

  // ---- Which jobs request an illegal edge ----

  // The review job on a project that left COUNCIL_REVIEW backwards: once the Council's decision is at hand, it asks
  // for FINAL_VERIFICATION, or for another Cursor run where no edge leads there.
  predicate ReviewGoesAstray(cfg: Config, world: World, p: Project) {
    && (BeforeCursor(p.state) || p.state == OwnerChangesRequested)
    && AskReview(world, p).outcome.Ok?
    && ReviewLeadsAstray(cfg, AskReview(world, p).last)
  }

  predicate ReviewLeadsAstray(cfg: Config, r: Project) {
    if Overruled(cfg, r) || ReviewDecision(r) == ChangesRequired then LateRunIsIllegal(cfg, r) else true
  }

  predicate LateRunIsIllegal(cfg: Config, r: Project) {
    !MustProvision(r) && r.iteration < cfg.maxIterations && !Legal(r.state, CursorExecuting)
  }

  // The final job on a project that is in another stage: the final decision at hand leads to a Cursor run where no
  // edge leads there, or the gate is open and it asks for DELIVERY_PREPARATION.
  ghost predicate FinalGoesAstray(cfg: Config, world: World, p: Project) {
    && p.state !in {CursorExecuting, FinalVerification, DeliveryPreparation}
    && AskFinal(world, p).outcome.Ok?
    && FinalLeadsAstray(cfg, world, AskFinal(world, p).last)
  }

  ghost predicate FinalLeadsAstray(cfg: Config, world: World, r: Project) {
    if r.final.Some? && r.final.value.decision == ChangesRequired then LateRunIsIllegal(cfg, r)
    else Gate.GateOk(r, SettingsFor(cfg, world, r))
  }

  lemma {:induction false} LateChangesOutcome(cfg: Config, world: World, r: Project)
    requires cfg.queue && r.state != CursorExecuting
    ensures RequestChanges(cfg, world, r).outcome == Threw(InvalidTransition) <==> LateRunIsIllegal(cfg, r)
  {
  }

  lemma {:induction false} LateReviewOutcome(cfg: Config, world: World, p: Project, overruled: bool)
    requires cfg.queue && (BeforeCursor(p.state) || p.state == OwnerChangesRequested)
    ensures FollowReview(cfg, world, p, overruled).outcome == Threw(InvalidTransition)
            <==> ((overruled || ReviewDecision(p) == ChangesRequired) ==> LateRunIsIllegal(cfg, p))
  {
    hide RequestChanges;
    var q := p.(reviews := p.reviews[p.iteration := ChangesRequired]);
    LateChangesOutcome(cfg, world, q);
    LateChangesOutcome(cfg, world, p);
  }

  lemma {:induction false} LateReviewIsIllegalIff(cfg: Config, world: World, p: Project)
    requires Inv(cfg, p) && cfg.queue && (BeforeCursor(p.state) || p.state == OwnerChangesRequested)
    ensures FinishReview(cfg, world, p).outcome == Threw(InvalidTransition) <==> ReviewGoesAstray(cfg, world, p)
  {
    hide AskReview, FollowReview, Overruled, Inv;
    AskReviewProgress(cfg, world, p);
    var r := AskReview(world, p).last;
    LateReviewOutcome(cfg, world, r, Overruled(cfg, r));
  }

  lemma {:induction false} ReviewJobIsIllegalIff(cfg: Config, world: World, p: Project)
    requires Inv(cfg, p) && IsActive(p.state) && cfg.queue
    ensures Job(cfg, world, p, ReviewJob).outcome == Threw(InvalidTransition) <==> ReviewGoesAstray(cfg, world, p)
  {
    hide Walk, Cert, Delivery.LedgerOk, Delivery.Evolves, EnteredThroughGate, Remaining, RunsOk;
    hide FinishReview, AskReview, ReviewLeadsAstray;
    if p.state == CouncilReview {
      FinishReviewProgress(cfg, world, p);
    } else if BeforeCursor(p.state) || p.state == OwnerChangesRequested {
      LateReviewIsIllegalIff(cfg, world, p);
    }
  }

  lemma {:induction false} LateFinalOutcome(cfg: Config, world: World, r: Project)
    requires cfg.queue && IsActive(r.state) && r.state !in {CursorExecuting, FinalVerification, DeliveryPreparation}
    ensures ActOnFinal(cfg, world, r).outcome == Threw(InvalidTransition) <==> FinalLeadsAstray(cfg, world, r)
  {
    hide EnterDelivery, RequestChanges;
    var q := r.(finalHistory := r.finalHistory + (if r.final.Some? then [r.final.value] else []), final := None);
    LateChangesOutcome(cfg, world, q);
    LateDeliveryIsRejected(cfg, world, r);
  }

  lemma {:induction false} LateFinalIsIllegalIff(cfg: Config, world: World, p: Project)
    requires Inv(cfg, p) && IsActive(p.state) && cfg.queue
    requires p.state !in {CursorExecuting, FinalVerification, DeliveryPreparation}
    ensures FinishFinal(cfg, world, p).outcome == Threw(InvalidTransition) <==> FinalGoesAstray(cfg, world, p)
  {
    hide AskFinal, ActOnFinal, FinalLeadsAstray, Inv;
    AskFinalProgress(cfg, world, p);
    LateFinalOutcome(cfg, world, AskFinal(world, p).last);
  }

  lemma {:induction false} FinalJobIsIllegalIff(cfg: Config, world: World, p: Project)
    requires Inv(cfg, p) && IsActive(p.state) && cfg.queue
    ensures Job(cfg, world, p, FinalJob).outcome == Threw(InvalidTransition) <==> FinalGoesAstray(cfg, world, p)
  {
    hide AskFinal, FinalLeadsAstray, FinishDelivery, FinishFinal, Inv, SoundStep;
    if p.state == FinalVerification {
      FinishFinalProgress(cfg, world, p);
    } else if p.state == DeliveryPreparation {
      FinishDeliveryProgress(cfg, world, p);
    } else if p.state != CursorExecuting {
      LateFinalIsIllegalIff(cfg, world, p);
    }
  }

  ghost predicate GoesAstray(cfg: Config, world: World, p: Project, job: JobType) {
    && IsActive(p.state)
    && ((job == ReviewJob && ReviewGoesAstray(cfg, world, p)) || (job == FinalJob && FinalGoesAstray(cfg, world, p)))
  }

  // "No handler ever requests an illegal edge" fails for jobs that meet a project which has moved on; it fails
  // exactly for these.
  lemma {:induction false} JobIsIllegalIffAstray(cfg: Config, world: World, p: Project, job: JobType)
    requires Inv(cfg, p) && cfg.queue && ProvisionsOrThrows(world)
    ensures Job(cfg, world, p, job).outcome == Threw(InvalidTransition) <==> GoesAstray(cfg, world, p, job)
  {
    hide Walk, Cert, Delivery.LedgerOk, Delivery.Evolves, EnteredThroughGate, Remaining, RunsOk;
    if IsActive(p.state) {
      match job {
        case DiscoveryJob => DiscoverySound(cfg, world, p);
        case ProvisioningJob => ImplementationSound(cfg, world, p, job);
        case CursorJob => ImplementationSound(cfg, world, p, job);
        case VerificationJob => VerificationSound(cfg, world, p);
        case RuntimeJob => RuntimeSound(cfg, world, p);
        case VisualJob => VisualSound(cfg, world, p);
        case ReviewJob => ReviewJobIsIllegalIff(cfg, world, p);
        case FinalJob => FinalJobIsIllegalIff(cfg, world, p);
        case DeliveryJob => DeliverySound(cfg, world, p);
      }
    }
  }

  // A job that is still pending for its project never goes astray.
  lemma {:induction false} PendingJobsAreLegal(cfg: Config, world: World, p: Project, job: JobType)
    requires Inv(cfg, p) && cfg.queue && ProvisionsOrThrows(world) && Pending(job, p)
    ensures !GoesAstray(cfg, world, p, job)
    ensures Job(cfg, world, p, job).outcome != Threw(InvalidTransition)
  {
    JobProgress(cfg, world, p, job);
    JobIsIllegalIffAstray(cfg, world, p, job);
  }
}
