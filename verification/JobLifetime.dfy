// A job stays pending for its project as long as it is retried: whatever part of it was done and saved before a
// crash, executing it again meets a state it is written for.
module JobLifetime {
  import opened Text
  import opened States
  import opened Records
  import opened Workflow
  import opened WorkflowProofs
  import opened JobSafety

  predicate Within(e: Exec, allowed: set<State>) {
    forall q :: q in e.saves ==> q.state in allowed
  }

  lemma {:induction false} SeqWithin(first: Exec, second: Exec, allowed: set<State>)
    requires Within(first, allowed) && (first.outcome.Ok? ==> Within(second, allowed))
    ensures Within(Seq(first, second), allowed)
  {
  }

  lemma {:induction false} SavedWithin(q: Project, e: Exec, allowed: set<State>)
    requires q.state in allowed && Within(e, allowed)
    ensures Within(Seq(Save(q), e), allowed)
  {
  }

  // A stage that is performed: announce it, then fail or record the answer `r` and go on.
  lemma {:induction false} PerformedWithin(q: Project, r: Project, rest: Exec, allowed: set<State>)
    requires q.state in allowed && r.state in allowed && Within(rest, allowed)
    ensures Within(Seq(Save(q), SaveOnThrow(Raise(q, StageFailed))), allowed)
    ensures Within(Seq(Save(q), Seq(Save(r), rest)), allowed)
  {
    SavedWithin(r, rest, allowed);
    SavedWithin(q, Seq(Save(r), rest), allowed);
  }

  lemma {:induction false} ThrowWithin(e: Exec, allowed: set<State>)
    requires Within(e, allowed) && e.last.state in allowed
    ensures Within(SaveOnThrow(e), allowed)
  {
  }

  lemma {:induction false} MoveWithin(p: Project, to: State, allowed: set<State>)
    requires to in allowed && p.state in allowed
    ensures Within(Transition(p, to), allowed) && Transition(p, to).last.state in allowed
  {
  }

  lemma {:induction false} DiscoveryWithin(world: World, p: Project)
    requires p.state in {IdeaSubmitted, CouncilDiscovery}
    ensures Within(EnsureDiscovery(world, p), {CouncilDiscovery, SpecificationReady})
  {
    hide DiscoverFrom;
    var allowed := {CouncilDiscovery, SpecificationReady};
    if p.state == IdeaSubmitted {
      var q := Moved(p, CouncilDiscovery);
      DiscoverFromWithin(world, q);
      SavedWithin(q, DiscoverFrom(world, q), allowed);
    } else {
      DiscoverFromWithin(world, p);
    }
  }

  lemma {:induction false} DiscoverFromWithin(world: World, p: Project)
    requires p.state == CouncilDiscovery
    ensures Within(DiscoverFrom(world, p), {CouncilDiscovery, SpecificationReady})
  {
  }

  lemma {:induction false} VisualWithin(cfg: Config, world: World, p: Project)
    requires p.state == VisualVerification
    ensures Within(FinishVisual(cfg, world, p), {VisualVerification, CouncilReview})
  {
    hide PerformVisual;
    var allowed := {VisualVerification, CouncilReview};
    var reused := FindReusableVisual(p);
    MoveWithin(p, CouncilReview, allowed);
    if reused.Some? {
      var q := p.(evidence := FirstOf(reused.value.evidencePatch, p.evidence),
                  visualRuns := AddVisual(p.visualRuns, reused.value));
      MoveWithin(q, CouncilReview, allowed);
      SavedWithin(q, Transition(q, CouncilReview), allowed);
    } else {
      PerformVisualWithin(world, p);
    }
  }

  lemma {:induction false} PerformVisualWithin(world: World, p: Project)
    requires p.state == VisualVerification
    ensures Within(PerformVisual(world, p), {VisualVerification, CouncilReview})
  {
    var allowed := {VisualVerification, CouncilReview};
    var q := p.(operation := VisualOp);
    var r := if world(q).visual.Some? then RecordVisual(q, world(q).visual.value) else q;
    MoveWithin(r, CouncilReview, allowed);
    ThrowWithin(Transition(r, CouncilReview), allowed);
    PerformedWithin(q, r, SaveOnThrow(Transition(r, CouncilReview)), allowed);
  }

  lemma {:induction false} AfterRuntimeWithin(cfg: Config, world: World, p: Project, run: RuntimeRun)
    requires p.state == RuntimeVerification && cfg.queue
    ensures Within(AfterRuntime(cfg, world, p, run), {RuntimeVerification, VisualVerification, CouncilReview})
  {
    MoveWithin(p, CouncilReview, {RuntimeVerification, VisualVerification, CouncilReview});
    MoveWithin(p, VisualVerification, {RuntimeVerification, VisualVerification, CouncilReview});
  }

  lemma {:induction false} PerformRuntimeWithin(cfg: Config, world: World, p: Project)
    requires p.state == RuntimeVerification && cfg.queue
    ensures Within(PerformRuntime(cfg, world, p), {RuntimeVerification, VisualVerification, CouncilReview})
  {
    hide AfterRuntime;
    var allowed := {RuntimeVerification, VisualVerification, CouncilReview};
    var q := p.(operation := RuntimeOp);
    if world(q).runtime.Some? {
      var (r, done) := RecordRuntime(q, world(q).runtime.value);
      AfterRuntimeWithin(cfg, world, r, done);
      PerformedWithin(q, r, AfterRuntime(cfg, world, r, done), allowed);
    } else {
      PerformedWithin(q, q, Silent(q), allowed);
    }
  }

  lemma {:induction false} RuntimeWithin(cfg: Config, world: World, p: Project)
    requires p.state == RuntimeVerification && cfg.queue
    ensures Within(FinishRuntime(cfg, world, p), {RuntimeVerification, VisualVerification, CouncilReview})
  {
    hide AfterRuntime, PerformRuntime;
    var reused := FindReusableRuntime(p);
    var existing := LatestRuntime(p, p.iteration);
    if reused.Some? {
      var q := p.(evidence := FirstOf(reused.value.evidencePatch, p.evidence),
                  runtimeRuns := AddRuntime(p.runtimeRuns, reused.value));
      AfterRuntimeWithin(cfg, world, q, reused.value);
      SavedWithin(q, AfterRuntime(cfg, world, q, reused.value), {RuntimeVerification, VisualVerification, CouncilReview});
    } else if existing.Some? && existing.value.completed && StillCurrent(p, existing.value.checkpointSha) {
      AfterRuntimeWithin(cfg, world, p, existing.value);
    } else {
      PerformRuntimeWithin(cfg, world, p);
    }
  }

  lemma {:induction false} AfterPlatformWithin(cfg: Config, world: World, p: Project, run: VerificationRun)
    requires p.state == PlatformVerification && cfg.queue
    ensures Within(AfterPlatform(cfg, world, p, run), {PlatformVerification, RuntimeVerification, CouncilReview})
    ensures AfterPlatform(cfg, world, p, run).last.state in {PlatformVerification, RuntimeVerification, CouncilReview}
  {
    MoveWithin(p, CouncilReview, {PlatformVerification, RuntimeVerification, CouncilReview});
    MoveWithin(p, RuntimeVerification, {PlatformVerification, RuntimeVerification, CouncilReview});
  }

  lemma {:induction false} PerformVerificationWithin(cfg: Config, world: World, p: Project)
    requires p.state == PlatformVerification && cfg.queue
    ensures Within(PerformVerification(cfg, world, p), {PlatformVerification, RuntimeVerification, CouncilReview})
  {
    hide AfterPlatform;
    var allowed := {PlatformVerification, RuntimeVerification, CouncilReview};
    var q := p.(operation := VerificationOp);
    if world(q).verification.Some? {
      var (r, done) := RecordVerification(q, world(q).verification.value, world(q).security);
      AfterPlatformWithin(cfg, world, r, done);
      ThrowWithin(AfterPlatform(cfg, world, r, done), allowed);
      PerformedWithin(q, r, SaveOnThrow(AfterPlatform(cfg, world, r, done)), allowed);
    } else {
      PerformedWithin(q, q, Silent(q), allowed);
    }
  }

  lemma {:induction false} PlatformWithin(cfg: Config, world: World, p: Project)
    requires p.state == PlatformVerification && cfg.queue
    ensures Within(FinishPlatform(cfg, world, p), {PlatformVerification, RuntimeVerification, CouncilReview})
  {
    hide AfterPlatform, PerformVerification;
    var reused := FindReusableVerification(p);
    var existing := LatestVerification(p, p.iteration);
    if reused.Some? {
      var q := ReuseVerification(p, reused.value, world(p).security);
      AfterPlatformWithin(cfg, world, q, reused.value);
      SavedWithin(q, AfterPlatform(cfg, world, q, reused.value), {PlatformVerification, RuntimeVerification, CouncilReview});
    } else if existing.Some? && existing.value.completed && StillCurrent(p, existing.value.checkpointSha) {
      AfterPlatformWithin(cfg, world, WithLastEvidence(p, FirstOf(existing.value.evidencePatch, p.evidence)), existing.value);
    } else {
      PerformVerificationWithin(cfg, world, p);
    }
  }

  lemma {:induction false} RunCursorWithin(cfg: Config, world: World, p: Project)
    requires p.state == CursorExecuting && cfg.queue
    ensures Within(RunCursor(cfg, world, p), {CursorExecuting, PlatformVerification})
  {
  }

  lemma {:induction false} RequestWithin(cfg: Config, world: World, p: Project, execute: bool)
    requires Legal(p.state, CursorExecuting) && cfg.queue
    ensures Within(RequestCursorRun(cfg, world, p, execute), {CursorExecuting, PlatformVerification})
    ensures !execute ==> Within(RequestCursorRun(cfg, world, p, execute), {CursorExecuting})
  {
    hide RunCursor;
    if !MustProvision(p) && p.iteration < cfg.maxIterations {
      var e := OpenIteration(p);
      RunCursorWithin(cfg, world, e.last);
      SeqWithin(e, RunCursor(cfg, world, e.last), {CursorExecuting, PlatformVerification});
    }
  }

  lemma {:induction false} PreparedWithin(world: World, p: Project)
    requires p.state == CursorExecuting
    ensures var e := PrepareInterruptedCursor(world, p);
            Within(e, {CursorExecuting}) && e.last.state == CursorExecuting
  {
  }

  lemma {:induction false} ReplayWithin(cfg: Config, world: World, p: Project)
    requires p.state == CursorExecuting && cfg.queue
    ensures Within(FinishOrReplayCursor(cfg, world, p), {CursorExecuting, PlatformVerification})
  {
    hide PrepareInterruptedCursor, RunCursor;
    var q := p.(iteration := StageIteration(p));
    var e := PrepareInterruptedCursor(world, q);
    PreparedWithin(world, q);
    RunCursorWithin(cfg, world, e.last);
    SeqWithin(e, RunCursor(cfg, world, e.last), {CursorExecuting, PlatformVerification});
  }

  lemma {:induction false} ProvisioningWithin(cfg: Config, world: World, p: Project)
    requires p.state == ProjectProvisioning || (p.state == SpecificationReady && !ProvisioningSucceeded(p))
    requires cfg.queue
    ensures Within(FinishProvisioning(cfg, world, p), {ProjectProvisioning, CursorExecuting})
  {
    hide PerformProvisioning;
    var allowed := {ProjectProvisioning, CursorExecuting};
    if p.state == ProjectProvisioning {
      PerformProvisioningWithin(cfg, world, p);
      MoveWithin(p, CursorExecuting, allowed);
    } else {
      var q := Moved(p, ProjectProvisioning);
      PerformProvisioningWithin(cfg, world, q);
      SavedWithin(q, PerformProvisioning(cfg, world, q), allowed);
    }
  }

  lemma {:induction false} PerformProvisioningWithin(cfg: Config, world: World, p: Project)
    requires p.state == ProjectProvisioning && cfg.queue
    ensures Within(PerformProvisioning(cfg, world, p), {ProjectProvisioning, CursorExecuting})
  {
    hide ApplyProvisioning;
    var allowed := {ProjectProvisioning, CursorExecuting};
    var q := p.(operation := ProvisioningOp);
    if world(q).provisioning.Some? {
      var r := ApplyProvisioning(q, world(q).provisioning.value);
      AppliedStays(q, world(q).provisioning.value);
      MoveWithin(r, CursorExecuting, allowed);
      ThrowWithin(Transition(r, CursorExecuting), allowed);
      PerformedWithin(q, r, SaveOnThrow(Transition(r, CursorExecuting)), allowed);
    }
  }

  lemma {:induction false} AppliedStays(p: Project, run: ProvisioningRun)
    ensures ApplyProvisioning(p, run).state == p.state
  {
  }

  lemma {:induction false} ReviewWithin(cfg: Config, world: World, p: Project)
    requires p.state == CouncilReview && cfg.queue
    ensures Within(FinishReview(cfg, world, p), {CouncilReview, CursorExecuting, FinalVerification})
  {
    hide FollowReview;
    var e := AskReview(world, p);
    FollowWithin(cfg, world, e.last, Overruled(cfg, e.last));
    SeqWithin(e, ActOnReview(cfg, world, e.last), {CouncilReview, CursorExecuting, FinalVerification});
  }

  lemma {:induction false} FollowWithin(cfg: Config, world: World, p: Project, overruled: bool)
    requires p.state == CouncilReview && cfg.queue
    ensures Within(FollowReview(cfg, world, p, overruled), {CursorExecuting, FinalVerification})
  {
    hide RequestCursorRun;
    RequestWithin(cfg, world, p.(reviews := p.reviews[p.iteration := ChangesRequired]), false);
    RequestWithin(cfg, world, p, false);
  }

  lemma {:induction false} DeliveryWithin(cfg: Config, world: World, p: Project)
    requires p.state == DeliveryPreparation
    ensures Within(FinishDelivery(cfg, world, p), {ReadyForOwnerReview})
  {
  }

  lemma {:induction false} FinalWithin(cfg: Config, world: World, p: Project)
    requires p.state == FinalVerification && cfg.queue
    ensures Within(FinishFinal(cfg, world, p),
                   {FinalVerification, CursorExecuting, DeliveryPreparation, ReadyForOwnerReview})
  {
    hide ActOnFinal;
    var allowed := {FinalVerification, CursorExecuting, DeliveryPreparation, ReadyForOwnerReview};
    var e := AskFinal(world, p);
    ActOnFinalWithin(cfg, world, e.last);
    SeqWithin(e, ActOnFinal(cfg, world, e.last), allowed);
  }

  lemma {:induction false} ActOnFinalWithin(cfg: Config, world: World, p: Project)
    requires p.state == FinalVerification && cfg.queue
    ensures Within(ActOnFinal(cfg, world, p), {CursorExecuting, DeliveryPreparation, ReadyForOwnerReview})
  {
    hide FinishDelivery, RequestCursorRun;
    if p.final.Some? && p.final.value.decision == ChangesRequired {
      RequestWithin(cfg, world, p.(finalHistory := p.finalHistory + [p.final.value], final := None), false);
    } else {
      var e := Transition(p, DeliveryPreparation);
      DeliveryWithin(cfg, world, e.last);
      SeqWithin(e, FinishDelivery(cfg, world, e.last), {CursorExecuting, DeliveryPreparation, ReadyForOwnerReview});
    }
  }

  lemma {:induction false} FeedbackWithin(cfg: Config, world: World, p: Project)
    requires Pending(DiscoveryJob, p)
    ensures Within(Job(cfg, world, p, DiscoveryJob), {CouncilDiscovery, SpecificationReady})
  {
    hide EnsureDiscovery;
    if p.state == OwnerChangesRequested {
      var e := Transition(p, CouncilDiscovery);
      DiscoveryWithin(world, e.last);
      SeqWithin(e, EnsureDiscovery(world, e.last), {CouncilDiscovery, SpecificationReady});
    } else if p.state != SpecificationReady {
      DiscoveryWithin(world, p);
    }
  }

  // The states that executing a job can leave behind, in queue mode and from a state it is pending in.
  function Reaches(job: JobType): set<State> {
    match job
    case DiscoveryJob => {CouncilDiscovery, SpecificationReady}
    case ProvisioningJob => {ProjectProvisioning, CursorExecuting}
    case CursorJob => {CursorExecuting, PlatformVerification}
    case VerificationJob => {PlatformVerification, RuntimeVerification, CouncilReview}
    case RuntimeJob => {RuntimeVerification, VisualVerification, CouncilReview}
    case VisualJob => {VisualVerification, CouncilReview}
    case ReviewJob => {CouncilReview, CursorExecuting, FinalVerification}
    case FinalJob => {FinalVerification, CursorExecuting, DeliveryPreparation, ReadyForOwnerReview}
    case DeliveryJob => {ReadyForOwnerReview}
  }

  lemma {:induction false} EarlyJobsReach(cfg: Config, world: World, p: Project, job: JobType)
    requires cfg.queue && Pending(job, p) && job in {DiscoveryJob, ProvisioningJob, CursorJob}
    ensures Within(Job(cfg, world, p, job), Reaches(job))
  {
    hide FinishOrReplayCursor, FinishProvisioning, RequestCursorRun;
    if job == DiscoveryJob {
      FeedbackWithin(cfg, world, p);
    } else if job == ProvisioningJob {
      if p.state != CursorExecuting { ProvisioningWithin(cfg, world, p); }
    } else if p.state == SpecificationReady {
      RequestWithin(cfg, world, p, true);
    } else if p.state == CursorExecuting {
      ReplayWithin(cfg, world, p);
    }
  }

  lemma {:induction false} StageJobsReach(cfg: Config, world: World, p: Project, job: JobType)
    requires cfg.queue && Pending(job, p) && job in {VerificationJob, RuntimeJob, VisualJob}
    ensures Within(Job(cfg, world, p, job), Reaches(job))
  {
    hide FinishPlatform, FinishRuntime, FinishVisual;
    if NextJob(p) != Some(job) {
      NothingLeftToVerify(cfg, world, p, job);
    } else if job == VerificationJob {
      VerificationJobIsHandler(cfg, world, p);
      PlatformWithin(cfg, world, p);
    } else if job == RuntimeJob {
      RuntimeJobIsHandler(cfg, world, p);
      RuntimeWithin(cfg, world, p);
    } else {
      VisualJobIsHandler(cfg, world, p);
      VisualWithin(cfg, world, p);
    }
  }

  lemma {:induction false} LateJobsReach(cfg: Config, world: World, p: Project, job: JobType)
    requires cfg.queue && Pending(job, p) && job in {ReviewJob, FinalJob, DeliveryJob}
    ensures Within(Job(cfg, world, p, job), Reaches(job))
  {
    hide FinishDelivery, FinishFinal, FinishReview;
    if p.state == CouncilReview {
      ReviewWithin(cfg, world, p);
    } else if p.state == FinalVerification && job == FinalJob {
      FinalWithin(cfg, world, p);
    } else if p.state == DeliveryPreparation {
      DeliveryWithin(cfg, world, p);
    }
  }

  // Every snapshot a job writes is one it can be executed on again.
  lemma {:induction false} JobStaysPending(cfg: Config, world: World, p: Project, job: JobType, q: Project)
    requires cfg.queue && Pending(job, p) && q in Job(cfg, world, p, job).saves
    ensures Pending(job, q)
  {
    hide Job;
    if job in {DiscoveryJob, ProvisioningJob, CursorJob} {
      EarlyJobsReach(cfg, world, p, job);
    } else if job in {VerificationJob, RuntimeJob, VisualJob} {
      StageJobsReach(cfg, world, p, job);
    } else {
      LateJobsReach(cfg, world, p, job);
    }
    ReachedIsPending(job, q);
  }

  lemma {:induction false} ReachedIsPending(job: JobType, q: Project)
    requires q.state in Reaches(job)
    ensures job != CursorJob || q.state != SpecificationReady
    ensures Pending(job, q)
  {
  }

  ghost predicate Replays(cfg: Config, job: JobType, p: Project, q: Project) {
    exists world: World :: ProvisionsOrThrows(world) && q in Job(cfg, world, p, job).saves
  }

  ghost predicate MayReplay(cfg: Config, job: JobType, p: Project) {
    Inv(cfg, p) && Pending(job, p)
  }

  lemma {:induction false} ReplayMayReplay(cfg: Config, job: JobType, p: Project, q: Project)
    requires cfg.queue && Replays(cfg, job, p, q) && MayReplay(cfg, job, p)
    ensures MayReplay(cfg, job, q)
  {
    hide Job, Inv, Pending;
    var world: World :| ProvisionsOrThrows(world) && q in Job(cfg, world, p, job).saves;
    JobStaysPending(cfg, world, p, job, q);
    EveryJobIsSound(cfg, world, p, job);
  }

  lemma {:induction false} MayReplayAlong(cfg: Config, job: JobType, t: seq<Project>)
    requires cfg.queue && t != [] && MayReplay(cfg, job, t[0])
    requires forall i, j :: 0 <= i < j < |t| && j == i + 1 ==> Replays(cfg, job, t[i], t[j])
    ensures MayReplay(cfg, job, t[|t| - 1])
  {
    hide Replays, MayReplay;
    if |t| > 1 {
      var n := |t| - 1;
      MayReplayAlong(cfg, job, t[..n]);
      ReplayMayReplay(cfg, job, t[n - 1], t[n]);
    }
  }

  // A job that was planned for a project may die and be executed again any number of times, wherever its saves
  // were cut off: as long as nothing else moves the project, it never asks for an illegal edge. So it goes astray
  // only after a handoff it missed: when another job, a retry or an owner decision has acted in between.
  lemma {:induction false} ReplaysStayLegal(cfg: Config, world: World, job: JobType, t: seq<Project>)
    requires cfg.queue && t != [] && Inv(cfg, t[0]) && NextJob(t[0]) == Some(job) && ProvisionsOrThrows(world)
    requires forall i, j :: 0 <= i < j < |t| && j == i + 1 ==> Replays(cfg, job, t[i], t[j])
    ensures Inv(cfg, t[|t| - 1]) && !GoesAstray(cfg, world, t[|t| - 1], job)
    ensures Job(cfg, world, t[|t| - 1], job).outcome != Threw(InvalidTransition)
  {
    hide Job, Inv, GoesAstray, Replays;
    assert Pending(job, t[0]);
    MayReplayAlong(cfg, job, t);
    PendingJobsAreLegal(cfg, world, t[|t| - 1], job);
  }
}
