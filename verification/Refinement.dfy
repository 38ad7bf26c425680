// Queue mode refines the in-process loop: executing one planned job after the other makes the same snapshots, in
// the same order, as the passes of `run`.
module Refinement {
  import opened Text
  import opened States
  import opened Records
  import opened Workflow
  import opened WorkflowProofs
  import Delivery
  import Gate
  import Lineage

  function InProcess(cfg: Config): Config { cfg.(queue := false) }
  function Queued(cfg: Config): Config { cfg.(queue := true) }

  // ---- Observations ----

  // Queue mode enters CURSOR_EXECUTING from provisioning before it opens the first iteration.
  function Seen(p: Project): Project {
    if p.state == CursorExecuting && p.iteration == 0 then p.(iteration := 1) else p
  }

  function SeenAll(saves: seq<Project>): (r: seq<Project>)
    ensures |r| == |saves| && forall i :: 0 <= i < |r| ==> r[i] == Seen(saves[i])
  {
    seq(|saves|, i requires 0 <= i < |saves| => Seen(saves[i]))
  }

  // The same outcome and the same record, and on success the same snapshots.
  predicate Agree(a: Exec, b: Exec) {
    && a.outcome == b.outcome
    && a.last == b.last
    && (a.outcome.Ok? ==> SeenAll(a.saves) == SeenAll(b.saves))
  }

  lemma {:induction false} AgreeSeq(a1: Exec, b1: Exec, a2: Exec, b2: Exec)
    requires a1.outcome.Ok? && b1.outcome.Ok? && SeenAll(a1.saves) == SeenAll(b1.saves) && Agree(a2, b2)
    ensures Agree(Seq(a1, a2), Seq(b1, b2))
  {
    var x, y := Seq(a1, a2), Seq(b1, b2);
    if x.outcome.Ok? {
      assert SeenAll(x.saves) == SeenAll(a1.saves) + SeenAll(a2.saves);
      assert SeenAll(y.saves) == SeenAll(b1.saves) + SeenAll(b2.saves);
    }
  }

  lemma {:induction false} AgreeTransitive(a: Exec, b: Exec, c: Exec)
    requires Agree(a, b) && Agree(b, c)
    ensures Agree(a, c)
  {
  }

  lemma {:induction false} AgreeReflexive(a: Exec)
    ensures Agree(a, a)
  {
  }

  lemma {:induction false} AgreeMeans(a: Exec, b: Exec)
    requires Agree(a, b)
    ensures a.outcome == b.outcome && a.last == b.last && (a.outcome.Ok? ==> SeenAll(a.saves) == SeenAll(b.saves))
  {
  }

  lemma {:induction false} SeqAssociative(a: Exec, b: Exec, c: Exec)
    ensures Seq(Seq(a, b), c) == Seq(a, Seq(b, c))
  {
    if a.outcome.Ok? && b.outcome.Ok? {
      assert (a.saves + b.saves) + c.saves == a.saves + (b.saves + c.saves);
    }
  }

  // ---- What the in-process loop does without pausing ----

  // The stages that `run` walks through within one pass.
  function Stage(cfg: Config, world: World, p: Project): Exec {
    if p.state == CursorExecuting then FinishOrReplayCursor(InProcess(cfg), world, p)
    else if p.state == PlatformVerification then FinishPlatform(InProcess(cfg), world, p)
    else if p.state == RuntimeVerification then FinishRuntime(InProcess(cfg), world, p)
    else if p.state == VisualVerification then FinishVisual(InProcess(cfg), world, p)
    else Silent(p)
  }

  // A queue-mode handler followed by what the in-process loop would have gone on to do.
  function Onward(cfg: Config, world: World, e: Exec): Exec {
    Seq(e, Stage(cfg, world, e.last))
  }

  lemma {:induction false} OnwardAfter(cfg: Config, world: World, a: Exec, x: Exec, b: Exec)
    requires a.outcome.Ok? && Agree(x, Onward(cfg, world, b))
    ensures Agree(Seq(a, x), Onward(cfg, world, Seq(a, b)))
  {
    AgreeSeq(a, a, x, Onward(cfg, world, b));
    SeqAssociative(a, b, Stage(cfg, world, b.last));
  }

  lemma {:induction false} OnwardThrowSaves(cfg: Config, world: World, x: Exec, b: Exec)
    requires Agree(x, Onward(cfg, world, b))
    ensures Agree(SaveOnThrow(x), Onward(cfg, world, SaveOnThrow(b)))
  {
  }

  // Ending where the loop pauses anyway.
  lemma {:induction false} OnwardStays(cfg: Config, world: World, e: Exec)
    requires e.outcome.Ok? ==> e.last.state !in {CursorExecuting, PlatformVerification, RuntimeVerification, VisualVerification}
    ensures Agree(e, Onward(cfg, world, e))
  {
    assert e.saves + [] == e.saves;
  }

  lemma {:induction false} RuntimeOnward(cfg: Config, world: World, p: Project, run: RuntimeRun)
    requires p.state == RuntimeVerification
    ensures Agree(AfterRuntime(InProcess(cfg), world, p, run), Onward(cfg, world, AfterRuntime(Queued(cfg), world, p, run)))
  {
    if run.blockingFailures != [] || ShouldSkipVisual(p, Some(run)) {
      OnwardStays(cfg, world, Transition(p, CouncilReview));
    }
  }

  lemma {:induction false} PerformRuntimeOnward(cfg: Config, world: World, p: Project)
    requires p.state == RuntimeVerification
    ensures Agree(PerformRuntime(InProcess(cfg), world, p), Onward(cfg, world, PerformRuntime(Queued(cfg), world, p)))
  {
    hide AfterRuntime;
    var q := p.(operation := RuntimeOp);
    if world(q).runtime.Some? {
      var (r, done) := RecordRuntime(q, world(q).runtime.value);
      var slow := AfterRuntime(Queued(cfg), world, r, done);
      var fast := AfterRuntime(InProcess(cfg), world, r, done);
      RuntimeOnward(cfg, world, r, done);
      OnwardAfter(cfg, world, Save(r), fast, slow);
      OnwardAfter(cfg, world, Save(q), Seq(Save(r), fast), Seq(Save(r), slow));
    }
  }

  lemma {:induction false} FinishRuntimeOnward(cfg: Config, world: World, p: Project)
    requires p.state == RuntimeVerification
    ensures Agree(FinishRuntime(InProcess(cfg), world, p), Onward(cfg, world, FinishRuntime(Queued(cfg), world, p)))
  {
    hide AfterRuntime, PerformRuntime;
    var reused := FindReusableRuntime(p);
    var existing := LatestRuntime(p, p.iteration);
    if reused.Some? {
      var q := p.(evidence := FirstOf(reused.value.evidencePatch, p.evidence),
                  runtimeRuns := AddRuntime(p.runtimeRuns, reused.value));
      RuntimeOnward(cfg, world, q, reused.value);
      OnwardAfter(cfg, world, Save(q), AfterRuntime(InProcess(cfg), world, q, reused.value),
                  AfterRuntime(Queued(cfg), world, q, reused.value));
    } else if existing.Some? && existing.value.completed && StillCurrent(p, existing.value.checkpointSha) {
      RuntimeOnward(cfg, world, p, existing.value);
    } else {
      PerformRuntimeOnward(cfg, world, p);
    }
  }

  lemma {:induction false} PlatformOnward(cfg: Config, world: World, p: Project, run: VerificationRun)
    requires p.state == PlatformVerification
    ensures Agree(AfterPlatform(InProcess(cfg), world, p, run), Onward(cfg, world, AfterPlatform(Queued(cfg), world, p, run)))
  {
    if ShouldSkipRuntime(p, Some(run)) {
      OnwardStays(cfg, world, Transition(p, CouncilReview));
    }
  }

  lemma {:induction false} PerformVerificationOnward(cfg: Config, world: World, p: Project)
    requires p.state == PlatformVerification
    ensures Agree(PerformVerification(InProcess(cfg), world, p),
                  Onward(cfg, world, PerformVerification(Queued(cfg), world, p)))
  {
    hide AfterPlatform, Stage;
    var q := p.(operation := VerificationOp);
    if world(q).verification.Some? {
      var (r, done) := RecordVerification(q, world(q).verification.value, world(q).security);
      var slow := AfterPlatform(Queued(cfg), world, r, done);
      var fast := AfterPlatform(InProcess(cfg), world, r, done);
      PlatformOnward(cfg, world, r, done);
      OnwardThrowSaves(cfg, world, fast, slow);
      OnwardAfter(cfg, world, Save(r), SaveOnThrow(fast), SaveOnThrow(slow));
      OnwardAfter(cfg, world, Save(q), Seq(Save(r), SaveOnThrow(fast)), Seq(Save(r), SaveOnThrow(slow)));
    }
  }

  lemma {:induction false} FinishPlatformOnward(cfg: Config, world: World, p: Project)
    requires p.state == PlatformVerification
    ensures Agree(FinishPlatform(InProcess(cfg), world, p), Onward(cfg, world, FinishPlatform(Queued(cfg), world, p)))
  {
    hide AfterPlatform, PerformVerification;
    var reused := FindReusableVerification(p);
    var existing := LatestVerification(p, p.iteration);
    if reused.Some? {
      var q := ReuseVerification(p, reused.value, world(p).security);
      PlatformOnward(cfg, world, q, reused.value);
      OnwardAfter(cfg, world, Save(q), AfterPlatform(InProcess(cfg), world, q, reused.value),
                  AfterPlatform(Queued(cfg), world, q, reused.value));
    } else if existing.Some? && existing.value.completed && StillCurrent(p, existing.value.checkpointSha) {
      PlatformOnward(cfg, world, WithLastEvidence(p, FirstOf(existing.value.evidencePatch, p.evidence)), existing.value);
    } else {
      PerformVerificationOnward(cfg, world, p);
    }
  }

  lemma {:induction false} RunCursorOnward(cfg: Config, world: World, p: Project)
    requires ExecuteCursor(world, p).outcome.Ok? ==> ExecuteCursor(world, p).last.state == CursorExecuting
    ensures Agree(RunCursor(InProcess(cfg), world, p), Onward(cfg, world, RunCursor(Queued(cfg), world, p)))
  {
    var e := ExecuteCursor(world, p);
    if e.outcome.Ok? {
      OnwardAfter(cfg, world, e, EnterPlatform(InProcess(cfg), world, e.last), EnterPlatform(Queued(cfg), world, e.last));
    }
  }

  lemma {:induction false} FinishOrReplayOnward(cfg: Config, world: World, p: Project)
    requires Inv(Queued(cfg), p) && p.state == CursorExecuting
    ensures Agree(FinishOrReplayCursor(InProcess(cfg), world, p),
                  Onward(cfg, world, FinishOrReplayCursor(Queued(cfg), world, p)))
  {
    hide ExecuteCursor, PrepareInterruptedCursor, RunCursor;
    if !HasResultForIteration(p) {
      var q := p.(iteration := StageIteration(p));
      StageIterationStep(Queued(cfg), world, p);
      PrepareInterruptedStep(Queued(cfg), world, q);
      var e := PrepareInterruptedCursor(world, q);
      ExecuteCursorDone(Queued(cfg), world, e.last);
      RunCursorOnward(cfg, world, e.last);
      OnwardAfter(cfg, world, e, RunCursor(InProcess(cfg), world, e.last), RunCursor(Queued(cfg), world, e.last));
    }
  }

  // ---- One job after the other ----

  // Repeating a step on what is stored, while the project is active, at most n times.
  ghost function Repeat(step: Project -> Exec, p: Project, n: nat): Exec
    decreases n
  {
    if n == 0 || !IsActive(p.state) then Silent(p)
    else
      var e := step(p);
      Seq(e, Repeat(step, Stored(p, e), n - 1))
  }

  // A step that saves what it did whenever it succeeds, and stays within `good`.
  ghost predicate ReliableAt(step: Project -> Exec, good: Project -> bool, q: Project) {
    good(q) && IsActive(q.state) && step(q).outcome.Ok? ==> good(step(q).last) && Stored(q, step(q)) == step(q).last
  }

  ghost predicate Reliable(step: Project -> Exec, good: Project -> bool) {
    forall q :: ReliableAt(step, good, q)
  }

  lemma {:induction false} RepeatAdd(step: Project -> Exec, good: Project -> bool, p: Project, a: nat, b: nat)
    requires Reliable(step, good) && good(p)
    ensures var first := Repeat(step, p, a);
            && Repeat(step, p, a + b) == Seq(first, Repeat(step, first.last, b))
            && (first.outcome.Ok? ==> good(first.last))
    decreases a
  {
    if a == 0 {
      SilentSeq(p, Repeat(step, p, b));
    } else if !IsActive(p.state) {
      SilentSeq(p, Silent(p));
    } else {
      var e := step(p);
      assert ReliableAt(step, good, p);
      if e.outcome.Ok? {
        RepeatAdd(step, good, e.last, a - 1, b);
        var rest := Repeat(step, e.last, a - 1);
        SeqAssociative(e, rest, Repeat(step, rest.last, b));
      }
    }
  }

  ghost predicate RefinedAt(fast: Project -> Exec, slow: Project -> Exec, q: Project) {
    exists m: nat :: Agree(fast(q), Repeat(slow, q, m))
  }

  lemma {:induction false} RepeatUnfolds(step: Project -> Exec, good: Project -> bool, p: Project, k: nat)
    requires Reliable(step, good) && good(p)
    ensures Repeat(step, p, 0) == Silent(p)
    ensures k == 0 || !IsActive(p.state) ==> Repeat(step, p, k) == Silent(p)
    ensures k > 0 && IsActive(p.state) ==>
              var e := step(p);
              && Repeat(step, p, k) == (if e.outcome.Ok? then Seq(e, Repeat(step, e.last, k - 1)) else e)
              && (e.outcome.Ok? ==> good(e.last))
  {
    hide IsActive;
    assert ReliableAt(step, good, p);
  }

  // If each fast step agrees with some slow steps, then so does every repetition of it.
  lemma {:induction false} RepeatRefines(fast: Project -> Exec, good: Project -> bool,
                                         slow: Project -> Exec, fair: Project -> bool, p: Project, k: nat)
    returns (n: nat)
    requires Reliable(fast, good) && Reliable(slow, fair) && good(p)
    requires forall q :: good(q) ==> fair(q)
    requires forall q :: good(q) && IsActive(q.state) ==> RefinedAt(fast, slow, q)
    ensures Agree(Repeat(fast, p, k), Repeat(slow, p, n))
    decreases k
  {
    hide Agree, IsActive, Reliable, Repeat, Seq;
    n := 0;
    RepeatUnfolds(fast, good, p, k);
    RepeatUnfolds(slow, fair, p, 0);
    AgreeReflexive(Silent(p));
    if k > 0 && IsActive(p.state) {
      var e := fast(p);
      assert RefinedAt(fast, slow, p);
      var m: nat :| Agree(e, Repeat(slow, p, m));
      n := m;
      AgreeMeans(e, Repeat(slow, p, m));
      if e.outcome.Ok? {
        var rest := RepeatRefines(fast, good, slow, fair, e.last, k - 1);
        RepeatAdd(slow, fair, p, m, rest);
        AgreeSeq(e, Repeat(slow, p, m), Repeat(fast, e.last, k - 1), Repeat(slow, e.last, rest));
        n := m + rest;
      }
    }
  }

  // Walking through the stages one step at a time.
  ghost predicate WalksAt(step: Project -> Exec, stage: Project -> Exec, good: Project -> bool, left: Project -> nat, q: Project) {
    && (good(q) && IsActive(q.state) && step(q).outcome.Ok? ==> left(step(q).last) < left(q))
    && (good(q) && InStage(q) ==> Agree(stage(q), Seq(step(q), stage(step(q).last))))
    && (!InStage(q) ==> stage(q) == Silent(q))
  }

  ghost predicate Walks(step: Project -> Exec, stage: Project -> Exec, good: Project -> bool, left: Project -> nat) {
    forall q :: WalksAt(step, stage, good, left, q)
  }

  lemma {:induction false} StepThenStages(step: Project -> Exec, stage: Project -> Exec, good: Project -> bool,
                                          left: Project -> nat, p: Project)
    returns (n: nat)
    requires Reliable(step, good) && Walks(step, stage, good, left) && good(p) && IsActive(p.state)
    ensures Agree(Seq(step(p), stage(step(p).last)), Repeat(step, p, n))
    decreases left(p)
  {
    var e := step(p);
    n := 1;
    assert ReliableAt(step, good, p) && WalksAt(step, stage, good, left, p);
    if e.outcome.Ok? {
      var m := 0;
      assert WalksAt(step, stage, good, left, e.last);
      if InStage(e.last) {
        m := StepThenStages(step, stage, good, left, e.last);
        AgreeTransitive(stage(e.last), Seq(step(e.last), stage(step(e.last).last)), Repeat(step, e.last, m));
      }
      AgreeSeq(e, e, stage(e.last), Repeat(step, e.last, m));
      n := m + 1;
    }
  }

  // The worker executes the planned job, and the handoff plans the next one from what is stored.
  ghost function SoundIn(cfg: Config): Project -> bool {
    (q: Project) => Inv(cfg, q)
  }

  ghost function JobStep(cfg: Config, world: World): Project -> Exec {
    (q: Project) => if NextJob(q).Some? then StageJob(cfg, world, q) else Silent(q)
  }

  lemma {:induction false} InvWeakens(cfg: Config, p: Project)
    requires Inv(InProcess(cfg), p)
    ensures Inv(Queued(cfg), p)
  {
  }

  // What the job planned for a stage does is the queue-mode handler of that stage.
  ghost function StageJob(cfg: Config, world: World, p: Project): Exec
    requires NextJob(p).Some?
  {
    Job(Queued(cfg), world, p, NextJob(p).value)
  }

  lemma {:induction false} VisualOnward(cfg: Config, world: World, p: Project)
    requires Inv(Queued(cfg), p) && p.state == VisualVerification
    ensures Agree(FinishVisual(InProcess(cfg), world, p), Onward(cfg, world, FinishVisual(Queued(cfg), world, p)))
  {
    VisualEndsInReview(cfg, world, p);
    OnwardStays(cfg, world, FinishVisual(Queued(cfg), world, p));
  }

  lemma {:induction false} VisualEndsInReview(cfg: Config, world: World, p: Project)
    requires p.state == VisualVerification
    ensures FinishVisual(InProcess(cfg), world, p) == FinishVisual(Queued(cfg), world, p)
    ensures FinishVisual(Queued(cfg), world, p).outcome.Ok? ==>
              FinishVisual(Queued(cfg), world, p).last.state == CouncilReview
  {
  }

  lemma {:induction false} StageJobIsHandler(cfg: Config, world: World, p: Project)
    requires p.state in {CursorExecuting, PlatformVerification, RuntimeVerification, VisualVerification}
    ensures p.state == CursorExecuting ==> StageJob(cfg, world, p) == FinishOrReplayCursor(Queued(cfg), world, p)
    ensures p.state == PlatformVerification ==> StageJob(cfg, world, p) == FinishPlatform(Queued(cfg), world, p)
    ensures p.state == RuntimeVerification ==> StageJob(cfg, world, p) == FinishRuntime(Queued(cfg), world, p)
    ensures p.state == VisualVerification ==> StageJob(cfg, world, p) == FinishVisual(Queued(cfg), world, p)
  {
    hide FinishOrReplayCursor, FinishPlatform, FinishRuntime, FinishVisual, FinishReview, FinishFinal, FinishDelivery, FinishProvisioning;
    if p.state == PlatformVerification {
      VerificationJobIsHandler(Queued(cfg), world, p);
    } else if p.state == RuntimeVerification {
      RuntimeJobIsHandler(Queued(cfg), world, p);
    } else if p.state == VisualVerification {
      VisualJobIsHandler(Queued(cfg), world, p);
    }
  }

  lemma {:induction false} StageOnward(cfg: Config, world: World, p: Project)
    requires Inv(Queued(cfg), p)
    requires p.state in {CursorExecuting, PlatformVerification, RuntimeVerification, VisualVerification}
    ensures Agree(Stage(cfg, world, p), Onward(cfg, world, StageJob(cfg, world, p)))
  {
    hide FinishOrReplayCursor, FinishPlatform, FinishRuntime, FinishVisual;
    StageJobIsHandler(cfg, world, p);
    match p.state {
      case CursorExecuting => FinishOrReplayOnward(cfg, world, p);
      case PlatformVerification => FinishPlatformOnward(cfg, world, p);
      case RuntimeVerification => FinishRuntimeOnward(cfg, world, p);
      case VisualVerification => VisualOnward(cfg, world, p);
    }
  }

  // The planned job of an active project makes progress, so what follows has less left to do.
  lemma {:induction false} StageJobProgress(cfg: Config, world: World, p: Project)
    requires Inv(Queued(cfg), p) && IsActive(p.state)
    requires ProvisionsOrThrows(world)
    ensures Progress(Queued(cfg), world, p, StageJob(cfg, world, p))
    ensures var e := StageJob(cfg, world, p);
            e.outcome.Ok? ==> Inv(Queued(cfg), e.last) && Remaining(Queued(cfg), e.last) < Remaining(Queued(cfg), p)
  {
    hide Job;
    PlannedIsPending(p);
    JobProgress(Queued(cfg), world, p, NextJob(p).value);
  }

  ghost predicate InStage(p: Project) {
    p.state in {CursorExecuting, PlatformVerification, RuntimeVerification, VisualVerification}
  }

  ghost function StageStep(cfg: Config, world: World): Project -> Exec {
    (q: Project) => Stage(cfg, world, q)
  }

  ghost function Left(cfg: Config): Project -> nat {
    (q: Project) => if q.iteration <= Cap(cfg) then Remaining(cfg, q) else 0
  }

  lemma {:induction false} JobSpends(cfg: Config, world: World, q: Project)
    requires ProvisionsOrThrows(world) && Inv(Queued(cfg), q) && IsActive(q.state)
    ensures var e := StageJob(cfg, world, q);
            e.outcome.Ok? ==> Left(Queued(cfg))(e.last) < Left(Queued(cfg))(q)
  {
    StageJobProgress(cfg, world, q);
    hide StageJob, Inv, Stage;
  }

  lemma {:induction false} JobWalks(cfg: Config, world: World, q: Project)
    requires ProvisionsOrThrows(world)
    ensures WalksAt(JobStep(cfg, world), StageStep(cfg, world), SoundIn(Queued(cfg)), Left(Queued(cfg)), q)
  {
    hide StageJob, Inv, Stage, Left;
    if Inv(Queued(cfg), q) && IsActive(q.state) {
      JobSpends(cfg, world, q);
      JobStepIsStageJob(cfg, world, q);
      if InStage(q) { StageOnward(cfg, world, q); }
    }
    StageOutside(cfg, world, q);
  }

  lemma {:induction false} JobsWalkTheStages(cfg: Config, world: World)
    requires ProvisionsOrThrows(world)
    ensures Walks(JobStep(cfg, world), StageStep(cfg, world), SoundIn(Queued(cfg)), Left(Queued(cfg)))
  {
    hide WalksAt;
    forall q: Project ensures WalksAt(JobStep(cfg, world), StageStep(cfg, world), SoundIn(Queued(cfg)), Left(Queued(cfg)), q) {
      JobWalks(cfg, world, q);
    }
  }

  lemma {:induction false} StageOutside(cfg: Config, world: World, p: Project)
    ensures !InStage(p) ==> Stage(cfg, world, p) == Silent(p)
  {
  }

  lemma {:induction false} JobStepIsStageJob(cfg: Config, world: World, p: Project)
    requires IsActive(p.state)
    ensures JobStep(cfg, world)(p) == StageJob(cfg, world, p)
  {
    ActiveIffPlanned(p);
  }

  // A job and the stages the loop would run through after it are that many jobs.
  lemma {:induction false} JobsFrom(cfg: Config, world: World, p: Project) returns (n: nat)
    requires Inv(Queued(cfg), p) && IsActive(p.state)
    requires ProvisionsOrThrows(world)
    ensures Agree(Onward(cfg, world, StageJob(cfg, world, p)), Repeat(JobStep(cfg, world), p, n))
  {
    JobsAreReliable(cfg, world);
    JobsWalkTheStages(cfg, world);
    JobStepIsStageJob(cfg, world, p);
    n := StepThenStages(JobStep(cfg, world), StageStep(cfg, world), SoundIn(Queued(cfg)), Left(Queued(cfg)), p);
  }

  // ---- A pass of the loop ----

  lemma {:induction false} DiscoveryOnward(cfg: Config, world: World, p: Project)
    requires p.state in {IdeaSubmitted, CouncilDiscovery}
    ensures Agree(EnsureDiscovery(world, p), Onward(cfg, world, StageJob(cfg, world, p)))
  {
    hide Job;
    DiscoveryJobIsHandler(Queued(cfg), world, p);
    DiscoveryEnds(world, p);
    OnwardStays(cfg, world, EnsureDiscovery(world, p));
  }

  lemma {:induction false} DiscoveryEnds(world: World, p: Project)
    requires p.state in {IdeaSubmitted, CouncilDiscovery}
    ensures EnsureDiscovery(world, p).outcome.Ok? ==> EnsureDiscovery(world, p).last.state == SpecificationReady
  {
    hide DiscoverFrom;
    DiscoverFromEnds(world, p);
    DiscoverFromEnds(world, Transition(p, CouncilDiscovery).last);
  }

  lemma {:induction false} DiscoverFromEnds(world: World, p: Project)
    requires p.state in {IdeaSubmitted, CouncilDiscovery}
    ensures p.state == CouncilDiscovery && DiscoverFrom(world, p).outcome.Ok? ==>
              DiscoverFrom(world, p).last.state == SpecificationReady
  {
    hide NeedsProvisioning, ApplyOwnerFeedback;
    if p.spec.Some? { FeedbackKeepsState(world, p); }
  }

  lemma {:induction false} FeedbackKeepsState(world: World, p: Project)
    requires p.spec.Some?
    ensures ApplyOwnerFeedback(world, p).last.state == p.state
  {
  }

  // A run that is requested and executed at once.
  lemma {:induction false} RequestOnward(cfg: Config, world: World, p: Project)
    requires Inv(Queued(cfg), p) && IsActive(p.state) && Legal(p.state, CursorExecuting) && !Unfinished(p.cursorRuns)
    ensures Agree(RequestCursorRun(InProcess(cfg), world, p, true),
                  Onward(cfg, world, RequestCursorRun(Queued(cfg), world, p, true)))
  {
    hide ExecuteCursor, OpenIteration, RunCursor;
    if !MustProvision(p) && p.iteration < cfg.maxIterations {
      NextIteration(Queued(cfg), world, p);
      var e := OpenIteration(p);
      ExecuteCursorDone(Queued(cfg), world, e.last);
      RunCursorOnward(cfg, world, e.last);
      OnwardAfter(cfg, world, e, RunCursor(InProcess(cfg), world, e.last), RunCursor(Queued(cfg), world, e.last));
    }
  }

  // An opened iteration whose run was never started is simply run.
  lemma {:induction false} ReplayRuns(cfg: Config, world: World, p: Project)
    requires p.state == CursorExecuting && p.iteration > 0 && !HasResultForIteration(p) && !Unfinished(p.cursorRuns)
    ensures FinishOrReplayCursor(cfg, world, p) == RunCursor(cfg, world, p)
  {
    assert p.(iteration := StageIteration(p)) == p;
    assert PrepareInterruptedCursor(world, p) == Silent(p);
    SilentSeq(p, RunCursor(cfg, world, p));
  }

  // Queue mode opens the iteration and leaves the run to the next job.
  lemma {:induction false} ChangesOnward(cfg: Config, world: World, p: Project)
    requires Inv(Queued(cfg), p) && IsActive(p.state) && Legal(p.state, CursorExecuting) && !Unfinished(p.cursorRuns)
    ensures Agree(RequestChanges(InProcess(cfg), world, p), Onward(cfg, world, RequestChanges(Queued(cfg), world, p)))
  {
    hide FinishOrReplayCursor, OpenIteration, RunCursor;
    if !MustProvision(p) && p.iteration < cfg.maxIterations {
      NextIteration(Queued(cfg), world, p);
      ReplayRuns(InProcess(cfg), world, OpenIteration(p).last);
    }
  }

  // After provisioning, queue mode enters CURSOR_EXECUTING before it opens the first iteration.
  lemma {:induction false} ProvisionedOnward(cfg: Config, world: World, r: Project)
    requires r.state == ProjectProvisioning && !MustProvision(r) && r.cursorRuns == [] && r.iteration == 0
    requires cfg.maxIterations > 0
    ensures Agree(RequestCursorRun(InProcess(cfg), world, r, true), Onward(cfg, world, Transition(r, CursorExecuting)))
  {
    hide RunCursor;
    var direct := OpenIteration(r);
    var entered := Transition(r, CursorExecuting);
    assert Seen(entered.last) == direct.last;
    FirstRun(cfg, world, entered.last);
    var rest := RunCursor(InProcess(cfg), world, direct.last);
    AgreeSeq(direct, entered, rest, rest);
  }

  lemma {:induction false} FirstRun(cfg: Config, world: World, p: Project)
    requires p.state == CursorExecuting && p.iteration == 0 && p.cursorRuns == []
    ensures Stage(cfg, world, p) == RunCursor(InProcess(cfg), world, p.(iteration := 1))
  {
    var q := p.(iteration := 1);
    assert PrepareInterruptedCursor(world, q) == Silent(q);
    SilentSeq(q, RunCursor(InProcess(cfg), world, q));
  }

  lemma {:induction false} PerformProvisioningOnward(cfg: Config, world: World, p: Project)
    requires p.state == ProjectProvisioning && p.cursorRuns == [] && p.iteration == 0
    requires cfg.maxIterations > 0 && ProvisionsOrThrows(world)
    ensures Agree(PerformProvisioning(InProcess(cfg), world, p),
                  Onward(cfg, world, PerformProvisioning(Queued(cfg), world, p)))
  {
    var q := p.(operation := ProvisioningOp);
    if world(q).provisioning.Some? {
      DriversPartIffNothingToRun(cfg, world, p, world(q).provisioning.value);
    }
  }

  lemma {:induction false} SpecificationOnward(cfg: Config, world: World, p: Project)
    requires Inv(InProcess(cfg), p) && p.state == SpecificationReady
    requires cfg.maxIterations > 0 && ProvisionsOrThrows(world)
    ensures Agree(LoopPass(InProcess(cfg), world, p), Onward(cfg, world, StageJob(cfg, world, p)))
  {
    hide EnterProvisioning, PerformProvisioning, RequestCursorRun;
    InvWeakens(cfg, p);
    if MustProvision(p) {
      var e := Transition(p, ProjectProvisioning);
      PerformProvisioningOnward(cfg, world, e.last);
      OnwardAfter(cfg, world, e, PerformProvisioning(InProcess(cfg), world, e.last),
                  PerformProvisioning(Queued(cfg), world, e.last));
      ProvisioningStarts(cfg, world, p);
    } else {
      RequestOnward(cfg, world, p);
    }
  }

  lemma {:induction false} ProvisioningStarts(cfg: Config, world: World, p: Project)
    requires p.state == SpecificationReady && MustProvision(p)
    ensures var q := Transition(p, ProjectProvisioning).last;
            && EnterProvisioning(InProcess(cfg), world, p)
               == Seq(Transition(p, ProjectProvisioning), PerformProvisioning(InProcess(cfg), world, q))
            && StageJob(cfg, world, p)
               == Seq(Transition(p, ProjectProvisioning), PerformProvisioning(Queued(cfg), world, q))
  {
    hide PerformProvisioning, RequestCursorRun, FinishOrReplayCursor;
  }

  lemma {:induction false} ProvisioningOnward(cfg: Config, world: World, p: Project)
    requires Inv(InProcess(cfg), p) && p.state == ProjectProvisioning
    requires cfg.maxIterations > 0 && ProvisionsOrThrows(world)
    ensures Agree(FinishProvisioning(InProcess(cfg), world, p), Onward(cfg, world, FinishProvisioning(Queued(cfg), world, p)))
  {
    hide PerformProvisioning, RequestCursorRun;
    if ProvisioningSucceeded(p) {
      ProvisionedOnward(cfg, world, p);
    } else {
      PerformProvisioningOnward(cfg, world, p);
    }
  }

  lemma {:induction false} FollowReviewOnward(cfg: Config, world: World, p: Project, overruled: bool)
    requires Inv(Queued(cfg), p) && p.state == CouncilReview
    ensures Agree(FollowReview(InProcess(cfg), world, p, overruled),
                  Onward(cfg, world, FollowReview(Queued(cfg), world, p, overruled)))
  {
    hide RequestChanges;
    if overruled {
      var q := p.(reviews := p.reviews[p.iteration := ChangesRequired]);
      RecordStep(Queued(cfg), world, p, q);
      ChangesOnward(cfg, world, q);
    } else if ReviewDecision(p) == ChangesRequired {
      ChangesOnward(cfg, world, p);
    } else {
      OnwardStays(cfg, world, Transition(p, FinalVerification));
    }
  }

  lemma {:induction false} ReviewOnward(cfg: Config, world: World, p: Project)
    requires Inv(Queued(cfg), p) && p.state == CouncilReview
    ensures Agree(FinishReview(InProcess(cfg), world, p), Onward(cfg, world, FinishReview(Queued(cfg), world, p)))
  {
    hide AskReview, FollowReview;
    AskReviewProgress(Queued(cfg), world, p);
    var e := AskReview(world, p);
    if e.outcome.Ok? {
      FollowReviewOnward(cfg, world, e.last, Overruled(cfg, e.last));
      OverruledIgnoresMode(cfg, e.last);
      OnwardAfter(cfg, world, e, ActOnReview(InProcess(cfg), world, e.last), ActOnReview(Queued(cfg), world, e.last));
    }
  }

  lemma {:induction false} OverruledIgnoresMode(cfg: Config, p: Project)
    ensures Overruled(InProcess(cfg), p) == Overruled(cfg, p) == Overruled(Queued(cfg), p)
  {
  }

  lemma {:induction false} DeliveryIgnoresMode(cfg: Config, world: World, p: Project)
    ensures FinishDelivery(InProcess(cfg), world, p) == FinishDelivery(Queued(cfg), world, p)
    ensures EnterDelivery(InProcess(cfg), world, p) == EnterDelivery(Queued(cfg), world, p)
  {
    assert SettingsFor(InProcess(cfg), world, p) == SettingsFor(Queued(cfg), world, p);
    var q := Transition(p, DeliveryPreparation).last;
    assert SettingsFor(InProcess(cfg), world, q) == SettingsFor(Queued(cfg), world, q);
  }

  lemma {:induction false} DeliveryOnward(cfg: Config, world: World, p: Project)
    requires Inv(Queued(cfg), p) && p.state == DeliveryPreparation
    ensures Agree(FinishDelivery(InProcess(cfg), world, p), Onward(cfg, world, FinishDelivery(Queued(cfg), world, p)))
  {
    hide EnterDelivery;
    DeliveryIgnoresMode(cfg, world, p);
    DeliveryEndsReady(Queued(cfg), world, p);
    OnwardStays(cfg, world, FinishDelivery(Queued(cfg), world, p));
  }

  lemma {:induction false} DeliveryEndsReady(cfg: Config, world: World, p: Project)
    requires p.state == DeliveryPreparation
    ensures FinishDelivery(cfg, world, p).outcome.Ok? ==> FinishDelivery(cfg, world, p).last.state == ReadyForOwnerReview
  {
    hide Gate.ReadyOk, Delivery.Prepare, Lineage.MergedEvidence, SettingsFor;
  }

  lemma {:induction false} ActOnFinalOnward(cfg: Config, world: World, p: Project)
    requires Inv(Queued(cfg), p) && p.state == FinalVerification
    ensures Agree(ActOnFinal(InProcess(cfg), world, p), Onward(cfg, world, ActOnFinal(Queued(cfg), world, p)))
  {
    hide EnterDelivery, FinishDelivery, RequestChanges;
    if p.final.Some? && p.final.value.decision == ChangesRequired {
      var q := p.(finalHistory := p.finalHistory + [p.final.value], final := None);
      RecordStep(Queued(cfg), world, p, q);
      ChangesOnward(cfg, world, q);
    } else {
      DeliveryIgnoresMode(cfg, world, p);
      EnteredDeliveryEndsReady(Queued(cfg), world, p);
      OnwardStays(cfg, world, EnterDelivery(Queued(cfg), world, p));
    }
  }

  lemma {:induction false} EnteredDeliveryEndsReady(cfg: Config, world: World, p: Project)
    requires p.state == FinalVerification
    ensures EnterDelivery(Queued(cfg), world, p).outcome.Ok? ==>
              EnterDelivery(Queued(cfg), world, p).last.state == ReadyForOwnerReview
  {
    hide FinishDelivery;
    DeliveryEndsReady(Queued(cfg), world, Transition(p, DeliveryPreparation).last);
  }

  lemma {:induction false} FinalOnward(cfg: Config, world: World, p: Project)
    requires Inv(Queued(cfg), p) && p.state == FinalVerification
    ensures Agree(FinishFinal(InProcess(cfg), world, p), Onward(cfg, world, FinishFinal(Queued(cfg), world, p)))
  {
    hide ActOnFinal, AskFinal;
    AskFinalProgress(Queued(cfg), world, p);
    var e := AskFinal(world, p);
    if e.outcome.Ok? {
      ActOnFinalOnward(cfg, world, e.last);
      OnwardAfter(cfg, world, e, ActOnFinal(InProcess(cfg), world, e.last), ActOnFinal(Queued(cfg), world, e.last));
    }
  }

  lemma {:induction false} ProvisioningJobIsHandler(cfg: Config, world: World, p: Project)
    requires p.state == ProjectProvisioning
    ensures StageJob(cfg, world, p) == FinishProvisioning(Queued(cfg), world, p)
  {
    hide FinishOrReplayCursor, FinishPlatform, FinishRuntime, FinishVisual, FinishReview, FinishFinal, FinishDelivery, FinishProvisioning;
  }

  lemma {:induction false} ReviewJobIsHandler(cfg: Config, world: World, p: Project)
    requires p.state == CouncilReview
    ensures StageJob(cfg, world, p) == FinishReview(Queued(cfg), world, p)
  {
    hide FinishOrReplayCursor, FinishPlatform, FinishRuntime, FinishVisual, FinishReview, FinishFinal, FinishDelivery, FinishProvisioning;
  }

  lemma {:induction false} FinalJobIsHandler(cfg: Config, world: World, p: Project)
    requires p.state == FinalVerification
    ensures StageJob(cfg, world, p) == FinishFinal(Queued(cfg), world, p)
  {
    hide FinishOrReplayCursor, FinishPlatform, FinishRuntime, FinishVisual, FinishReview, FinishFinal, FinishDelivery, FinishProvisioning;
  }

  lemma {:induction false} DeliveryJobIsHandler(cfg: Config, world: World, p: Project)
    requires p.state == DeliveryPreparation
    ensures StageJob(cfg, world, p) == FinishDelivery(Queued(cfg), world, p)
  {
    hide FinishOrReplayCursor, FinishPlatform, FinishRuntime, FinishVisual, FinishReview, FinishFinal, FinishDelivery, FinishProvisioning;
    WorkflowProofs.DeliveryJobIsHandler(Queued(cfg), world, p);
  }

  // One pass of the loop does what the planned job does, and then goes on without pausing.
  lemma {:induction false} PassOnward(cfg: Config, world: World, p: Project)
    requires Inv(InProcess(cfg), p) && IsActive(p.state) && p.state != OwnerChangesRequested
    requires cfg.maxIterations > 0 && ProvisionsOrThrows(world)
    ensures Agree(LoopPass(InProcess(cfg), world, p), Onward(cfg, world, StageJob(cfg, world, p)))
  {
    hide Walk, Cert, Delivery.LedgerOk, Delivery.Evolves, EnteredThroughGate, Remaining, RunsOk;
    hide EnsureDiscovery;
    InvWeakens(cfg, p);
    if p.state in {IdeaSubmitted, CouncilDiscovery} {
      DiscoveryOnward(cfg, world, p);
    } else if p.state == SpecificationReady {
      SpecificationOnward(cfg, world, p);
    } else if p.state in {CursorExecuting, PlatformVerification, RuntimeVerification, VisualVerification} {
      StageOnward(cfg, world, p);
    } else {
      ClosingOnward(cfg, world, p);
    }
  }

  // What a pass does in the states whose handler both drivers share.
  lemma {:induction false} PassIsHandler(cfg: Config, world: World, p: Project)
    requires p.iteration <= cfg.maxIterations
    ensures p.state == ProjectProvisioning ==> LoopPass(cfg, world, p) == FinishProvisioning(cfg, world, p)
    ensures p.state == CouncilReview ==> LoopPass(cfg, world, p) == FinishReview(cfg, world, p)
    ensures p.state == FinalVerification ==> LoopPass(cfg, world, p) == FinishFinal(cfg, world, p)
    ensures p.state == DeliveryPreparation ==> LoopPass(cfg, world, p) == FinishDelivery(cfg, world, p)
  {
    hide FinishDelivery, FinishFinal, FinishProvisioning, FinishReview;
  }

  lemma {:induction false} ClosingOnward(cfg: Config, world: World, p: Project)
    requires Inv(InProcess(cfg), p)
    requires p.state in {ProjectProvisioning, CouncilReview, FinalVerification, DeliveryPreparation}
    requires cfg.maxIterations > 0 && ProvisionsOrThrows(world)
    ensures Agree(LoopPass(InProcess(cfg), world, p), Onward(cfg, world, StageJob(cfg, world, p)))
  {
    hide FinishDelivery, FinishFinal, FinishProvisioning, FinishReview, LoopPass, StageJob, Stage;
    InvWeakens(cfg, p);
    PassIsHandler(InProcess(cfg), world, p);
    match p.state {
      case ProjectProvisioning =>
        ProvisioningJobIsHandler(cfg, world, p);
        ProvisioningOnward(cfg, world, p);
      case CouncilReview =>
        ReviewJobIsHandler(cfg, world, p);
        ReviewOnward(cfg, world, p);
      case FinalVerification =>
        FinalJobIsHandler(cfg, world, p);
        FinalOnward(cfg, world, p);
      case DeliveryPreparation =>
        DeliveryJobIsHandler(cfg, world, p);
        DeliveryOnward(cfg, world, p);
    }
  }

  // A pass is that many jobs.
  lemma {:induction false} PassIsJobs(cfg: Config, world: World, p: Project)
    requires Inv(InProcess(cfg), p) && IsActive(p.state) && p.state != OwnerChangesRequested
    requires cfg.maxIterations > 0 && ProvisionsOrThrows(world)
    ensures exists n: nat :: Agree(LoopPass(InProcess(cfg), world, p), Repeat(JobStep(cfg, world), p, n))
  {
    hide LoopPass, StageJob, Stage, Inv;
    InvWeakens(cfg, p);
    PassOnward(cfg, world, p);
    var n := JobsFrom(cfg, world, p);
    AgreeTransitive(LoopPass(InProcess(cfg), world, p), Onward(cfg, world, StageJob(cfg, world, p)),
                    Repeat(JobStep(cfg, world), p, n));
  }

  // ---- Whole runs ----

  // The loop of `run`, where the pass that only starts to interpret owner feedback is joined with the next one.
  ghost function PassStep(cfg: Config, world: World): Project -> Exec {
    (q: Project) => if !IsActive(q.state) then Silent(q)
                    else if q.state == OwnerChangesRequested then FeedbackPasses(cfg, world, q)
                    else LoopPass(InProcess(cfg), world, q)
  }

  ghost function FeedbackPasses(cfg: Config, world: World, p: Project): Exec
    requires p.state == OwnerChangesRequested
  {
    var e := LoopPass(InProcess(cfg), world, p);
    if e.last.state == CouncilDiscovery then Seq(e, LoopPass(InProcess(cfg), world, e.last)) else e
  }

  lemma {:induction false} FeedbackPassesAreOneJob(cfg: Config, world: World, p: Project)
    requires Inv(InProcess(cfg), p) && p.state == OwnerChangesRequested && cfg.maxIterations > 0
    ensures FeedbackPasses(cfg, world, p) == StageJob(cfg, world, p)
    ensures Progress(InProcess(cfg), world, p, FeedbackPasses(cfg, world, p))
  {
    hide Walk, Cert, Delivery.LedgerOk, Delivery.Evolves, EnteredThroughGate, Remaining, RunsOk;
    hide EnsureDiscovery;
    MoveStep(InProcess(cfg), world, p, CouncilDiscovery);
    var q := Moved(p, CouncilDiscovery);
    FeedbackUnfolds(cfg, world, p);
    EnsureDiscoveryProgress(InProcess(cfg), world, q);
    SavedThen(InProcess(cfg), world, p, q, EnsureDiscovery(world, q));
  }

  lemma {:induction false} FeedbackUnfolds(cfg: Config, world: World, p: Project)
    requires p.state == OwnerChangesRequested && p.iteration <= cfg.maxIterations
    ensures var q := Moved(p, CouncilDiscovery);
            && FeedbackPasses(cfg, world, p) == Seq(Save(q), EnsureDiscovery(world, q))
            && StageJob(cfg, world, p) == Seq(Save(q), EnsureDiscovery(world, q))
  {
    hide EnsureDiscovery;
    var q := Moved(p, CouncilDiscovery);
    assert LoopPass(InProcess(cfg), world, p) == Save(q);
    assert LoopPass(InProcess(cfg), world, q) == EnsureDiscovery(world, q);
  }

  lemma {:induction false} PassStepIsJobs(cfg: Config, world: World, p: Project)
    requires Inv(InProcess(cfg), p) && IsActive(p.state) && cfg.maxIterations > 0 && ProvisionsOrThrows(world)
    ensures RefinedAt(PassStep(cfg, world), JobStep(cfg, world), p)
  {
    hide LoopPass;
    if p.state == OwnerChangesRequested {
      InvWeakens(cfg, p);
      FeedbackPassesAreOneJob(cfg, world, p);
      JobsAreReliable(cfg, world);
      JobStepIsStageJob(cfg, world, p);
      OneStep(JobStep(cfg, world), SoundIn(Queued(cfg)), p);
    } else {
      PassIsJobs(cfg, world, p);
    }
  }

  lemma {:induction false} OneStep(step: Project -> Exec, good: Project -> bool, p: Project)
    requires Reliable(step, good) && good(p) && IsActive(p.state)
    ensures Agree(step(p), Repeat(step, p, 1))
  {
    var e := step(p);
    assert ReliableAt(step, good, p);
    assert Repeat(step, Stored(p, e), 0) == Silent(Stored(p, e));
    assert e.saves + [] == e.saves;
  }

  lemma {:induction false} ProgressIsReliable(cfg: Config, world: World, p: Project, e: Exec)
    requires Inv(cfg, p) && Progress(cfg, world, p, e)
    ensures e.outcome.Ok? ==> Inv(cfg, e.last) && Stored(p, e) == e.last
  {
    hide Inv;
  }

  lemma {:induction false} PassIsReliable(cfg: Config, world: World, q: Project)
    requires cfg.maxIterations > 0 && ProvisionsOrThrows(world)
    ensures ReliableAt(PassStep(cfg, world), SoundIn(InProcess(cfg)), q)
  {
    hide Inv, Progress, LoopPass, FeedbackPasses, StageJob;
    if Inv(InProcess(cfg), q) && IsActive(q.state) {
      if q.state == OwnerChangesRequested {
        FeedbackPassesAreOneJob(cfg, world, q);
        ProgressIsReliable(InProcess(cfg), world, q, FeedbackPasses(cfg, world, q));
      } else {
        LoopPassProgress(InProcess(cfg), world, q);
        ProgressIsReliable(InProcess(cfg), world, q, LoopPass(InProcess(cfg), world, q));
      }
    }
  }

  lemma {:induction false} PassesAreReliable(cfg: Config, world: World)
    requires cfg.maxIterations > 0 && ProvisionsOrThrows(world)
    ensures Reliable(PassStep(cfg, world), SoundIn(InProcess(cfg)))
  {
    hide ReliableAt;
    forall q: Project ensures ReliableAt(PassStep(cfg, world), SoundIn(InProcess(cfg)), q) {
      PassIsReliable(cfg, world, q);
    }
  }

  lemma {:induction false} JobsAreReliable(cfg: Config, world: World)
    requires ProvisionsOrThrows(world)
    ensures Reliable(JobStep(cfg, world), SoundIn(Queued(cfg)))
  {
    forall q: Project ensures ReliableAt(JobStep(cfg, world), SoundIn(Queued(cfg)), q) {
      if Inv(Queued(cfg), q) && IsActive(q.state) {
        ActiveIffPlanned(q);
        StageJobProgress(cfg, world, q);
      }
    }
  }

  lemma {:induction false} PassesRefined(cfg: Config, world: World)
    requires cfg.maxIterations > 0 && ProvisionsOrThrows(world)
    ensures forall q: Project :: SoundIn(InProcess(cfg))(q) ==> SoundIn(Queued(cfg))(q)
    ensures forall q: Project :: SoundIn(InProcess(cfg))(q) && IsActive(q.state) ==>
              RefinedAt(PassStep(cfg, world), JobStep(cfg, world), q)
  {
    forall q: Project | SoundIn(InProcess(cfg))(q) ensures SoundIn(Queued(cfg))(q) {
      InvWeakens(cfg, q);
    }
    forall q: Project | SoundIn(InProcess(cfg))(q) && IsActive(q.state)
      ensures RefinedAt(PassStep(cfg, world), JobStep(cfg, world), q)
    {
      PassStepIsJobs(cfg, world, q);
    }
  }

  // Whatever the in-process loop does, throwing included, queue mode does too: same outcome, same final record,
  // and on success the same snapshots in the same order, so the same stages, the same history and the same
  // iteration for every Cursor run.
  lemma {:induction false} LoopIsJobs(cfg: Config, world: World, p: Project, k: nat)
    requires Inv(InProcess(cfg), p) && cfg.maxIterations > 0 && ProvisionsOrThrows(world)
    ensures exists n: nat :: Agree(Repeat(PassStep(cfg, world), p, k), Repeat(JobStep(cfg, world), p, n))
  {
    PassesAreReliable(cfg, world);
    JobsAreReliable(cfg, world);
    PassesRefined(cfg, world);
    var n := RepeatRefines(PassStep(cfg, world), SoundIn(InProcess(cfg)), JobStep(cfg, world), SoundIn(Queued(cfg)), p, k);
  }

  // ---- Where the two drivers differ ----

  // What a provisioning answer has to be for the project to be provisioned.
  predicate Provisions(p: Project, run: ProvisioningRun) {
    || p.existingRepository
    || run.status == ProvNotApplicable
    || (run.status == ProvPass && (run.baselineSha != "" || p.provisioningBaseline != ""))
  }

  // After a provisioning answer queue mode always enters CURSOR_EXECUTING; the in-process loop goes on exactly
  // when the answer provisions the project and an iteration is allowed, and otherwise throws and stays.
  lemma {:induction false} DriversPartIffNothingToRun(cfg: Config, world: World, p: Project, run: ProvisioningRun)
    requires p.state == ProjectProvisioning && p.cursorRuns == [] && p.iteration == 0
    requires world(p.(operation := ProvisioningOp)).provisioning == Some(run)
    ensures var slow := PerformProvisioning(Queued(cfg), world, p);
            var fast := PerformProvisioning(InProcess(cfg), world, p);
            && slow.outcome.Ok? && slow.last.state == CursorExecuting
            && if Provisions(p, run) && cfg.maxIterations > 0 then Agree(fast, Onward(cfg, world, slow))
               else
                 && fast.outcome == Threw(if Provisions(p, run) then MaxIterationsReached else ProvisioningMissing)
                 && fast.last.state == ProjectProvisioning
  {
    var q := p.(operation := ProvisioningOp);
    var r := ApplyProvisioning(q, run);
    ProvisionsMeans(q, run);
    var fast := RequestCursorRun(InProcess(cfg), world, r, true);
    var slow := SaveOnThrow(Transition(r, CursorExecuting));
    if Provisions(p, run) && cfg.maxIterations > 0 {
      ProvisionedOnward(cfg, world, r);
      OnwardAfter(cfg, world, Save(r), fast, slow);
      OnwardAfter(cfg, world, Save(q), Seq(Save(r), fast), Seq(Save(r), slow));
    }
  }

  lemma {:induction false} ProvisionsMeans(p: Project, run: ProvisioningRun)
    ensures MustProvision(ApplyProvisioning(p, run)) <==> !Provisions(p, run)
  {
  }

  // With a cap of 0, which the configuration accepts, the loop refuses the first iteration and queue mode runs
  // Cursor all the same: the refinement holds for every positive cap and for no other.
  lemma {:induction false} ZeroCapPartsTheDrivers(cfg: Config, world: World, p: Project, run: ProvisioningRun)
    requires p.state == ProjectProvisioning && p.cursorRuns == [] && p.iteration == 0 && cfg.maxIterations == 0
    requires world(p.(operation := ProvisioningOp)).provisioning == Some(run) && Provisions(p, run)
    ensures var slow := PerformProvisioning(Queued(cfg), world, p);
            && PerformProvisioning(InProcess(cfg), world, p).outcome == Threw(MaxIterationsReached)
            && slow.outcome.Ok? && NextJob(slow.last) == Some(CursorJob)
            && exists q :: q in Job(Queued(cfg), world, slow.last, CursorJob).saves
                           && |q.cursorRuns| == 1 && q.iteration == 1
  {
    DriversPartIffNothingToRun(cfg, world, p, run);
    ProvisioningOpensNoRun(Queued(cfg), world, p, run);
    hide PerformProvisioning, FinishOrReplayCursor, Job, NextJob;
    var q := PerformProvisioning(Queued(cfg), world, p).last;
    CursorJobReplays(Queued(cfg), world, q);
    FirstRunIsSaved(Queued(cfg), world, q);
  }

  lemma {:induction false} CursorJobReplays(cfg: Config, world: World, p: Project)
    requires p.state == CursorExecuting
    ensures NextJob(p) == Some(CursorJob) && Job(cfg, world, p, CursorJob) == FinishOrReplayCursor(cfg, world, p)
  {
    hide FinishOrReplayCursor;
  }

  lemma {:induction false} ProvisioningOpensNoRun(cfg: Config, world: World, p: Project, run: ProvisioningRun)
    requires cfg.queue && p.state == ProjectProvisioning
    requires world(p.(operation := ProvisioningOp)).provisioning == Some(run)
    ensures var e := PerformProvisioning(cfg, world, p);
            e.last.cursorRuns == p.cursorRuns && e.last.iteration == p.iteration
  {
    hide AddProvisioning;
  }

  lemma {:induction false} FirstRunIsSaved(cfg: Config, world: World, p: Project)
    requires p.state == CursorExecuting && p.cursorRuns == [] && p.iteration == 0
    ensures exists q :: q in FinishOrReplayCursor(cfg, world, p).saves && |q.cursorRuns| == 1 && q.iteration == 1
  {
    hide EnterPlatform, ReportCursor;
    var r := p.(iteration := 1);
    assert PrepareInterruptedCursor(world, r) == Silent(r);
    var (i, runs) := StartRun(r.cursorRuns, 1);
    assert runs == [FreshRun(1)];
    var q := r.(operation := CursorOp, cursorRuns := runs);
    assert ExecuteCursor(world, r).saves[0] == q;
    assert RunCursor(cfg, world, r).saves[0] == q;
    assert FinishOrReplayCursor(cfg, world, p).saves[0] == q;
  }

  // Hypothetical: with a provisioner that cannot be restarted (none of the repository is) provisioning may ask for
  // recovery. The queued job then stores CURSOR_EXECUTING for an unprovisioned project, where the loop throws.
  lemma {:induction false} RecoveryWouldPartTheDrivers(cfg: Config, world: World, p: Project, id: string)
    requires p.state == ProjectProvisioning && p.cursorRuns == [] && p.iteration == 0 && cfg.maxIterations > 0
    requires !p.existingRepository
    requires world(p.(operation := ProvisioningOp)).provisioning == Some(ProvisioningRun(id, ProvRecoveryRequired, ""))
    ensures var slow := PerformProvisioning(Queued(cfg), world, p);
            var fast := PerformProvisioning(InProcess(cfg), world, p);
            && slow.outcome.Ok? && slow.last.state == CursorExecuting && MustProvision(slow.last)
            && fast.outcome == Threw(ProvisioningMissing) && fast.last.state == ProjectProvisioning
  {
    hide ApplyProvisioning;
    var run := ProvisioningRun(id, ProvRecoveryRequired, "");
    DriversPartIffNothingToRun(cfg, world, p, run);
    ProvisionsMeans(p.(operation := ProvisioningOp), run);
  }
}
