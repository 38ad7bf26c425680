// What a queued job does when it meets a project: in its own state and one stage behind it first does what the
// in-process loop would do there; on a project that has moved on it does nothing
// (src/orchestrator/orchestrator.js:150-234).
module JobPaths {
  import opened Text
  import opened States
  import opened Records
  import opened Workflow

  // The stage before the job's own, which the job finishes first.
  predicate IsBehind(job: JobType, s: State) {
    match job
    case VerificationJob => s == CursorExecuting
    case RuntimeJob => s == PlatformVerification
    case VisualJob => s == RuntimeVerification
    case DeliveryJob => s == FinalVerification
    case _ => false
  }

  // The stage after it, which a final job finishes too.
  predicate IsAhead(job: JobType, s: State) {
    job == FinalJob && s == DeliveryPreparation
  }

  // The states in which there is nothing left for the job to do, or nothing yet.
  function SilentStates(job: JobType): set<State> {
    var after := {PlatformVerification, RuntimeVerification, VisualVerification, CouncilReview, FinalVerification,
                  DeliveryPreparation};
    var before := {IdeaSubmitted, CouncilDiscovery, OwnerChangesRequested};
    match job
    case DiscoveryJob => {SpecificationReady, ProjectProvisioning}
    case ProvisioningJob => before + after + {CursorExecuting}
    case CursorJob => before + after
    case VerificationJob => before + after + {SpecificationReady, ProjectProvisioning} - {PlatformVerification}
    case RuntimeJob =>
      before + after + {SpecificationReady, ProjectProvisioning, CursorExecuting} - {PlatformVerification, RuntimeVerification}
    case VisualJob =>
      before + after + {SpecificationReady, ProjectProvisioning, CursorExecuting} - {RuntimeVerification, VisualVerification}
    case ReviewJob => after + {CursorExecuting} - {CouncilReview}
    case FinalJob => {CursorExecuting}
    case DeliveryJob =>
      before + after + {SpecificationReady, ProjectProvisioning, CursorExecuting} - {FinalVerification, DeliveryPreparation}
  }

  // A job stores nothing and succeeds for every project that waits for its owner, is done or has failed, and in every
  // state where it has nothing to do.
  lemma {:induction false} JobIsSilent(cfg: Config, world: World, p: Project, job: JobType)
    requires !IsActive(p.state) || p.state in SilentStates(job)
    ensures Job(cfg, world, p, job) == Exec([], p, Ok)
  {
    hide FinishOrReplayCursor, FinishPlatform, FinishRuntime, FinishVisual, FinishReview, FinishFinal, FinishDelivery;
    hide FinishProvisioning, EnsureDiscovery, RequestCursorRun, MustProvision;
  }

  // Otherwise, in the states it is planned in, one stage behind or ahead, it first stores what a pass of the loop would
  // store; so no stage is skipped, and none is done twice.
  lemma {:induction false} JobFirstDoesTheStage(cfg: Config, world: World, p: Project, job: JobType)
    requires cfg.queue && IsActive(p.state) && p.iteration <= cfg.maxIterations
    requires NextJob(p) == Some(job) || IsBehind(job, p.state) || IsAhead(job, p.state)
    ensures LoopPass(cfg, world, p).saves <= Job(cfg, world, p, job).saves
  {
    if job in {DiscoveryJob, ProvisioningJob, CursorJob} {
      EarlyJobFirst(cfg, world, p, job);
    } else {
      LateJobFirst(cfg, world, p, job);
    }
  }

  lemma {:induction false} EarlyJobFirst(cfg: Config, world: World, p: Project, job: JobType)
    requires cfg.queue && IsActive(p.state) && p.iteration <= cfg.maxIterations
    requires NextJob(p) == Some(job) && job in {DiscoveryJob, ProvisioningJob, CursorJob}
    ensures LoopPass(cfg, world, p).saves <= Job(cfg, world, p, job).saves
  {
    hide FinishOrReplayCursor, EnsureDiscovery, RequestCursorRun, MustProvision, PerformProvisioning;
    if p.state == SpecificationReady && MustProvision(p) { NotYetProvisioned(p); }
    if p.state != SpecificationReady { hide FinishProvisioning; }
  }

  lemma {:induction false} NotYetProvisioned(p: Project)
    requires MustProvision(p)
    ensures !ProvisioningSucceeded(p)
  {
  }

  lemma {:induction false} LateJobFirst(cfg: Config, world: World, p: Project, job: JobType)
    requires cfg.queue && IsActive(p.state) && p.iteration <= cfg.maxIterations
    requires NextJob(p) == Some(job) || IsBehind(job, p.state) || IsAhead(job, p.state)
    requires job !in {DiscoveryJob, ProvisioningJob, CursorJob}
    ensures LoopPass(cfg, world, p).saves <= Job(cfg, world, p, job).saves
  {
    hide FinishOrReplayCursor, FinishPlatform, FinishRuntime, FinishVisual, FinishReview, FinishFinal, FinishDelivery, Stored;
    hide MustProvision;
  }

  // A job that was behind goes on to its own stage when the stored project has reached it.
  lemma {:induction false} JobCatchesUp(cfg: Config, world: World, p: Project, job: JobType, e: Exec, q: Project)
    requires cfg.queue && IsActive(p.state) && IsBehind(job, p.state) && p.iteration <= cfg.maxIterations
    requires IsActive(q.state) && NextJob(q) == Some(job) && q.iteration <= cfg.maxIterations
    requires e == LoopPass(cfg, world, p) && e.outcome.Ok? && q == Stored(p, e)
    ensures Job(cfg, world, p, job) == Seq(e, LoopPass(cfg, world, q))
  {
    hide FinishOrReplayCursor, FinishPlatform, FinishRuntime, FinishVisual, FinishReview, FinishFinal, FinishDelivery, Stored;
    hide MustProvision, Seq;
  }

  // A review or final job outside its stages still asks for its decision; that is how it goes astray.
  lemma {:induction false} StrayJobsDecide(cfg: Config, world: World, p: Project)
    requires p.state in {IdeaSubmitted, CouncilDiscovery, SpecificationReady, ProjectProvisioning, OwnerChangesRequested}
    ensures Job(cfg, world, p, ReviewJob) == FinishReview(cfg, world, p)
    ensures Job(cfg, world, p, FinalJob) == FinishFinal(cfg, world, p)
  {
    hide FinishReview, FinishFinal;
  }
}
