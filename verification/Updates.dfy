// Every action on a stored project is a sequence of elementary updates: in any mode and any state, each snapshot that
// it writes is reached from the stored project by moves along legal edges, answers of the outside world put on record,
// and a few other single changes. What all of them keep, every action keeps, over whole runs
// (src/orchestrator/orchestrator.js:98-1125).
module Updates {
  import opened Text
  import opened States
  import opened Records
  import opened Workflow
  import Delivery
  import Gate
  import Lineage
  import WorkflowProofs

  datatype Update =
    | Move(to: State) | Note(operation: Operation) | NextIteration | FirstIteration
    | Verify(verification: VerificationRun) | ReuseVerified(verification: VerificationRun)
    | FindVerified(verification: VerificationRun)
    | Exercise(runtime: RuntimeRun) | ReuseExercised(runtime: RuntimeRun)
    | Inspect(visual: VisualRun) | ReuseInspected(visual: VisualRun)
    | StartCursor | FailCursor | FinishCursor(result: CursorResult, saved: bool) | AdoptCursor | FlagCursor
    | PrepareSpace | Provision(provisioning: ProvisioningRun) | Discover(spec: Spec) | TakeFeedback
    | Review(review: Decision) | Overrule | Judge(final: Decision) | Reopen | Deliver | Level
    | RecordError | ClearError | Decide(decision: OwnerDecision, feedback: string)

  // The index of the Cursor run that is being executed.
  function StartedIndex(p: Project): Option<nat> {
    FindStarted(p.cursorRuns, p.iteration)
  }

  predicate Interrupted(p: Project) {
    p.cursorRuns != [] && !p.cursorRuns[|p.cursorRuns| - 1].hasResult
  }

  ghost predicate Applies(cfg: Config, world: World, p: Project, u: Update) {
    match u
    case Move(to) => Legal(p.state, to)
    case Note(_) => true
    case NextIteration => p.iteration < cfg.maxIterations && !MustProvision(p)
    case FirstIteration => p.iteration == 0
    case Verify(run) => p.operation == VerificationOp && world(p).verification == Some(run)
    case ReuseVerified(run) => FindReusableVerification(p) == Some(run)
    case FindVerified(run) => LatestVerification(p, p.iteration) == Some(run) && run.completed
    case Exercise(run) => p.operation == RuntimeOp && world(p).runtime == Some(run)
    case ReuseExercised(run) => FindReusableRuntime(p) == Some(run)
    case Inspect(run) => p.operation == VisualOp && world(p).visual == Some(run)
    case ReuseInspected(run) => FindReusableVisual(p) == Some(run)
    case StartCursor => true
    case FailCursor => p.operation == CursorOp && StartedIndex(p).Some?
    case FinishCursor(result, saved) =>
      && p.operation == CursorOp && StartedIndex(p).Some? && result.evidence.execution.status != Status.Fail
      && world(p).cursor == if saved then CursorGives(result) else CursorSaveFails(result)
    case AdoptCursor => Interrupted(p) && p.cursorRuns[|p.cursorRuns| - 1].checkpointSha != ""
    case FlagCursor => Interrupted(p)
    case PrepareSpace => p.operation == ProvisioningOp && world(p).workspacePrepared
    case Provision(run) => p.operation == ProvisioningOp && world(p).provisioning == Some(run)
    case Discover(spec) =>
      p.operation == DiscoveryOp && world(p).discovery.DiscoveryGives? && world(p).discovery.spec == spec
    case TakeFeedback => p.pendingFeedback.Some? && HasValidSpec(p)
    case Review(d) =>
      p.operation == ReviewOp && p.iteration !in p.reviews && p.cursorRuns != [] && world(p).review == Some(d)
    case Overrule => Overruled(cfg, p)
    case Judge(d) =>
      && p.operation == FinalOp && world(p).final == Some(d)
      && !(p.final.Some? && p.final.value.cursorCount == |p.cursorRuns|)
    case Reopen => p.final.Some? && p.final.value.decision == ChangesRequired
    case Deliver => true
    case Level => true
    case RecordError => true
    case ClearError => p.state == Failed
    case Decide(decision, feedback) =>
      p.state == ReadyForOwnerReview && Delivery.Decide(p, decision, feedback).error.None?
  }

  function Replaced(p: Project, i: nat, run: CursorRun): Project
    requires i < |p.cursorRuns|
  {
    p.(cursorRuns := p.cursorRuns[i := run])
  }

  ghost function Apply(cfg: Config, world: World, p: Project, u: Update): Project
    requires Applies(cfg, world, p, u)
  {
    match u
    case Move(to) => WorkflowProofs.Moved(p, to)
    case Note(operation) => p.(operation := operation)
    case NextIteration => p.(iteration := p.iteration + 1)
    case FirstIteration => p.(iteration := 1)
    case Verify(run) => RecordVerification(p, run, world(p).security).0
    case ReuseVerified(run) => ReuseVerification(p, run, world(p).security)
    case FindVerified(run) => WithLastEvidence(p, FirstOf(run.evidencePatch, p.evidence))
    case Exercise(run) => RecordRuntime(p, run).0
    case ReuseExercised(run) =>
      p.(evidence := FirstOf(run.evidencePatch, p.evidence), runtimeRuns := AddRuntime(p.runtimeRuns, run))
    case Inspect(run) => RecordVisual(p, run)
    case ReuseInspected(run) =>
      p.(evidence := FirstOf(run.evidencePatch, p.evidence), visualRuns := AddVisual(p.visualRuns, run))
    case StartCursor => p.(operation := CursorOp, cursorRuns := StartRun(p.cursorRuns, p.iteration).1)
    case FailCursor => Replaced(p, StartedIndex(p).value, p.cursorRuns[StartedIndex(p).value].(status := CursorFailed))
    case FinishCursor(result, saved) =>
      var run := FinishedRun(p.iteration, result);
      FinishRun(p, StartedIndex(p).value, if saved then run else run.(status := RecoveryRequired))
    case AdoptCursor =>
      var last := p.cursorRuns[|p.cursorRuns| - 1];
      Replaced(p, |p.cursorRuns| - 1, last.(status := Completed, hasResult := true, resultGitSha := last.checkpointSha))
    case FlagCursor =>
      Replaced(p, |p.cursorRuns| - 1, p.cursorRuns[|p.cursorRuns| - 1].(status := RecoveryRequired))
    case PrepareSpace => PrepareWorkspace(p, true)
    case Provision(run) => ApplyProvisioning(p, run)
    case Discover(spec) => p.(spec := Some(spec))
    case TakeFeedback => ApplyOwnerFeedback(world, p).last
    case Review(d) => p.(reviews := p.reviews[p.iteration := d])
    case Overrule => p.(reviews := p.reviews[p.iteration := ChangesRequired])
    case Judge(d) => p.(final := Some(FinalReview(d, |p.cursorRuns|)))
    case Reopen => p.(finalHistory := p.finalHistory + [p.final.value], final := None)
    case Deliver => WorkflowProofs.Delivered(world, p)
    case Level => WorkflowProofs.WithLevel(p)
    case RecordError => p.(error := true)
    case ClearError => p.(error := false)
    case Decide(decision, feedback) =>
      var d := Delivery.Decide(p, decision, feedback);
      p.(deliveries := d.deliveries, ownerReviews := d.ownerReviews,
         pendingFeedback := if decision == OwnerApproves then p.pendingFeedback else Some(Trim(feedback)))
  }

  ghost predicate Updated(cfg: Config, world: World, p: Project, q: Project) {
    exists u :: Applies(cfg, world, p, u) && q == Apply(cfg, world, p, u)
  }

  // The records that an action passes through.
  ghost predicate Path(cfg: Config, world: World, path: seq<Project>) {
    path != [] && forall i, j :: 0 <= i < j < |path| && j == i + 1 ==> Updated(cfg, world, path[i], path[j])
  }

  ghost predicate Connects(cfg: Config, world: World, path: seq<Project>, p: Project, q: Project) {
    Path(cfg, world, path) && path[0] == p && path[|path| - 1] == q
  }

  ghost predicate Reaches(cfg: Config, world: World, p: Project, q: Project) {
    exists path :: Connects(cfg, world, path, p, q)
  }

  // ---- Composing ----

  lemma {:induction false} Stays(cfg: Config, world: World, p: Project)
    ensures Reaches(cfg, world, p, p)
  {
    assert Connects(cfg, world, [p], p, p);
  }

  lemma {:induction false} One(cfg: Config, world: World, p: Project, u: Update)
    requires Applies(cfg, world, p, u)
    ensures Reaches(cfg, world, p, Apply(cfg, world, p, u))
  {
    hide Applies, Apply;
    var q := Apply(cfg, world, p, u);
    assert Updated(cfg, world, p, q);
    assert Connects(cfg, world, [p, q], p, q);
  }

  lemma {:induction false} Joined(cfg: Config, world: World, a: seq<Project>, b: seq<Project>)
    requires Path(cfg, world, a) && Path(cfg, world, b) && a[|a| - 1] == b[0]
    ensures Path(cfg, world, a + b[1..])
  {
    hide Updated;
    var c := a + b[1..];
    forall i, j | 0 <= i < j < |c| && j == i + 1 ensures Updated(cfg, world, c[i], c[j]) {
      if j < |a| {
        assert c[i] == a[i] && c[j] == a[j];
      } else {
        assert c[i] == b[i - |a| + 1] && c[j] == b[j - |a| + 1];
      }
    }
  }

  lemma {:induction false} Onward(cfg: Config, world: World, p: Project, q: Project, r: Project)
    requires Reaches(cfg, world, p, q) && Reaches(cfg, world, q, r)
    ensures Reaches(cfg, world, p, r)
  {
    hide Path;
    var a :| Connects(cfg, world, a, p, q);
    var b :| Connects(cfg, world, b, q, r);
    ConnectedAreLong(cfg, world, a, p, q);
    ConnectedAreLong(cfg, world, b, q, r);
    Joined(cfg, world, a, b);
    assert Connects(cfg, world, a + b[1..], p, r);
  }

  lemma {:induction false} ConnectedAreLong(cfg: Config, world: World, a: seq<Project>, p: Project, q: Project)
    requires Connects(cfg, world, a, p, q)
    ensures a != []
  {
  }

  // Every snapshot of an execution and the record that it leaves in memory are reached.
  ghost predicate Made(cfg: Config, world: World, p: Project, e: Exec) {
    (forall q :: q in e.saves ==> Reaches(cfg, world, p, q)) && Reaches(cfg, world, p, e.last)
  }

  lemma {:induction false} MadeAfter(cfg: Config, world: World, p: Project, q: Project, e: Exec)
    requires Reaches(cfg, world, p, q) && Made(cfg, world, q, e)
    ensures Made(cfg, world, p, e) && Made(cfg, world, p, Seq(Save(q), e)) && Made(cfg, world, p, SaveOnThrow(e))
    ensures Made(cfg, world, p, Seq(Save(q), SaveOnThrow(e)))
  {
    hide Reaches;
    forall r | r in e.saves ensures Reaches(cfg, world, p, r) { Onward(cfg, world, p, q, r); }
    Onward(cfg, world, p, q, e.last);
  }

  lemma {:induction false} MadeSeq(cfg: Config, world: World, p: Project, first: Exec, second: Exec)
    requires Made(cfg, world, p, first) && (first.outcome.Ok? ==> Made(cfg, world, first.last, second))
    ensures Made(cfg, world, p, Seq(first, second))
  {
    hide Reaches;
    if first.outcome.Ok? { MadeAfter(cfg, world, p, first.last, second); }
  }

  // The second part starts from what the first has stored.
  lemma {:induction false} MadeThen(cfg: Config, world: World, p: Project, first: Exec, second: Exec)
    requires Made(cfg, world, p, first) && Made(cfg, world, Stored(p, first), second)
    ensures Made(cfg, world, p, Seq(first, second)) && Made(cfg, world, p, Seq(first, Silent(Stored(p, first))))
  {
    hide Reaches;
    Stays(cfg, world, p);
    MadeAfter(cfg, world, p, Stored(p, first), second);
  }

  lemma {:induction false} MadeStill(cfg: Config, world: World, p: Project, c: Code)
    ensures Made(cfg, world, p, Raise(p, c)) && Made(cfg, world, p, Silent(p)) && Made(cfg, world, p, Save(p))
    ensures Made(cfg, world, p, SaveOnThrow(Raise(p, c)))
  {
    Stays(cfg, world, p);
    hide Reaches;
  }

  lemma {:induction false} MadeMove(cfg: Config, world: World, p: Project, to: State)
    ensures Made(cfg, world, p, Transition(p, to)) && Made(cfg, world, p, Enter(p, to))
    ensures Made(cfg, world, p, SaveOnThrow(Transition(p, to)))
  {
    Stays(cfg, world, p);
    if Legal(p.state, to) { One(cfg, world, p, Move(to)); }
    hide Reaches;
  }

  // Noting the operation, and failing at it.
  lemma {:induction false} MadeNote(cfg: Config, world: World, p: Project, operation: Operation)
    ensures var q := p.(operation := operation);
            Reaches(cfg, world, p, q) && Made(cfg, world, p, Seq(Save(q), SaveOnThrow(Raise(q, StageFailed))))
  {
    hide Reaches;
    One(cfg, world, p, Note(operation));
    var q := p.(operation := operation);
    MadeStill(cfg, world, q, StageFailed);
    MadeAfter(cfg, world, p, q, SaveOnThrow(Raise(q, StageFailed)));
  }

  // ---- Verification stages ----

  lemma {:induction false} PerformVisualMade(cfg: Config, world: World, p: Project)
    ensures Made(cfg, world, p, PerformVisual(world, p))
  {
    hide RecordVisual, Reaches, Transition, Seq, SaveOnThrow, Made;
    var q := p.(operation := VisualOp);
    MadeNote(cfg, world, p, VisualOp);
    if world(q).visual.Some? {
      var r := RecordVisual(q, world(q).visual.value);
      One(cfg, world, q, Inspect(world(q).visual.value));
      MadeMove(cfg, world, r, CouncilReview);
      MadeAfter(cfg, world, q, r, Transition(r, CouncilReview));
      MadeAfter(cfg, world, p, q, Seq(Save(r), SaveOnThrow(Transition(r, CouncilReview))));
    }
  }

  lemma {:induction false} VisualMade(cfg: Config, world: World, p: Project)
    ensures Made(cfg, world, p, FinishVisual(cfg, world, p))
  {
    hide PerformVisual, Reaches, Transition, Seq, Made, AddVisual, FindReusableVisual, StillCurrent, LatestVisual;
    var reused := FindReusableVisual(p);
    MadeMove(cfg, world, p, CouncilReview);
    PerformVisualMade(cfg, world, p);
    if reused.Some? {
      var q := p.(evidence := FirstOf(reused.value.evidencePatch, p.evidence),
                  visualRuns := AddVisual(p.visualRuns, reused.value));
      One(cfg, world, p, ReuseInspected(reused.value));
      MadeMove(cfg, world, q, CouncilReview);
      MadeAfter(cfg, world, p, q, Transition(q, CouncilReview));
    }
  }

  lemma {:induction false} EnterVisualMade(cfg: Config, world: World, p: Project)
    ensures Made(cfg, world, p, EnterVisual(cfg, world, p))
  {
    hide FinishVisual, Enter, Made, Seq;
    var e := Enter(p, VisualVerification);
    MadeMove(cfg, world, p, VisualVerification);
    VisualMade(cfg, world, e.last);
    MadeSeq(cfg, world, p, e, FinishVisual(cfg, world, e.last));
  }

  lemma {:induction false} AfterRuntimeMade(cfg: Config, world: World, p: Project, run: RuntimeRun)
    ensures Made(cfg, world, p, AfterRuntime(cfg, world, p, run))
  {
    hide EnterVisual, Transition, Made, ShouldSkipVisual;
    MadeMove(cfg, world, p, CouncilReview);
    EnterVisualMade(cfg, world, p);
  }

  lemma {:induction false} PerformRuntimeMade(cfg: Config, world: World, p: Project)
    ensures Made(cfg, world, p, PerformRuntime(cfg, world, p))
  {
    hide AfterRuntime, RecordRuntime, Reaches, Seq, SaveOnThrow, Made;
    var q := p.(operation := RuntimeOp);
    MadeNote(cfg, world, p, RuntimeOp);
    if world(q).runtime.Some? {
      var (r, done) := RecordRuntime(q, world(q).runtime.value);
      One(cfg, world, q, Exercise(world(q).runtime.value));
      AfterRuntimeMade(cfg, world, r, done);
      MadeAfter(cfg, world, q, r, AfterRuntime(cfg, world, r, done));
      MadeAfter(cfg, world, p, q, Seq(Save(r), AfterRuntime(cfg, world, r, done)));
    }
  }

  lemma {:induction false} RuntimeMade(cfg: Config, world: World, p: Project)
    ensures Made(cfg, world, p, FinishRuntime(cfg, world, p))
  {
    hide AfterRuntime, PerformRuntime, Reaches, Seq, Made, AddRuntime, FindReusableRuntime, StillCurrent, LatestRuntime;
    var reused := FindReusableRuntime(p);
    var existing := LatestRuntime(p, p.iteration);
    PerformRuntimeMade(cfg, world, p);
    if reused.Some? {
      var q := p.(evidence := FirstOf(reused.value.evidencePatch, p.evidence),
                  runtimeRuns := AddRuntime(p.runtimeRuns, reused.value));
      One(cfg, world, p, ReuseExercised(reused.value));
      AfterRuntimeMade(cfg, world, q, reused.value);
      MadeAfter(cfg, world, p, q, AfterRuntime(cfg, world, q, reused.value));
    } else if existing.Some? {
      AfterRuntimeMade(cfg, world, p, existing.value);
    }
  }

  lemma {:induction false} AfterPlatformMade(cfg: Config, world: World, p: Project, run: VerificationRun)
    ensures Made(cfg, world, p, AfterPlatform(cfg, world, p, run))
  {
    hide Enter, FinishRuntime, Transition, Made, Seq, ShouldSkipRuntime;
    MadeMove(cfg, world, p, CouncilReview);
    MadeMove(cfg, world, p, RuntimeVerification);
    var e := Enter(p, RuntimeVerification);
    RuntimeMade(cfg, world, e.last);
    MadeSeq(cfg, world, p, e, FinishRuntime(cfg, world, e.last));
  }

  lemma {:induction false} PerformVerificationMade(cfg: Config, world: World, p: Project)
    ensures Made(cfg, world, p, PerformVerification(cfg, world, p))
  {
    hide AfterPlatform, RecordVerification, Reaches, Seq, SaveOnThrow, Made;
    var q := p.(operation := VerificationOp);
    MadeNote(cfg, world, p, VerificationOp);
    if world(q).verification.Some? {
      var (r, done) := RecordVerification(q, world(q).verification.value, world(q).security);
      One(cfg, world, q, Verify(world(q).verification.value));
      AfterPlatformMade(cfg, world, r, done);
      MadeAfter(cfg, world, q, r, AfterPlatform(cfg, world, r, done));
      MadeAfter(cfg, world, p, q, Seq(Save(r), SaveOnThrow(AfterPlatform(cfg, world, r, done))));
    }
  }

  lemma {:induction false} PlatformMade(cfg: Config, world: World, p: Project)
    ensures Made(cfg, world, p, FinishPlatform(cfg, world, p))
  {
    hide AfterPlatform, PerformVerification, Reaches, FindReusableVerification, StillCurrent, LatestVerification, Seq, Made;
    hide ReuseVerification, WithLastEvidence;
    var reused := FindReusableVerification(p);
    var existing := LatestVerification(p, p.iteration);
    PerformVerificationMade(cfg, world, p);
    if reused.Some? {
      var q := ReuseVerification(p, reused.value, world(p).security);
      One(cfg, world, p, ReuseVerified(reused.value));
      AfterPlatformMade(cfg, world, q, reused.value);
      MadeAfter(cfg, world, p, q, AfterPlatform(cfg, world, q, reused.value));
    } else if existing.Some? && existing.value.completed {
      var q := WithLastEvidence(p, FirstOf(existing.value.evidencePatch, p.evidence));
      One(cfg, world, p, FindVerified(existing.value));
      AfterPlatformMade(cfg, world, q, existing.value);
      MadeAfter(cfg, world, p, q, AfterPlatform(cfg, world, q, existing.value));
    }
  }

  lemma {:induction false} EnterPlatformMade(cfg: Config, world: World, p: Project)
    ensures Made(cfg, world, p, EnterPlatform(cfg, world, p))
  {
    hide FinishPlatform, Enter, Made, Seq;
    var e := Enter(p, PlatformVerification);
    MadeMove(cfg, world, p, PlatformVerification);
    PlatformMade(cfg, world, e.last);
    MadeSeq(cfg, world, p, e, FinishPlatform(cfg, world, e.last));
  }

  // ---- Cursor ----

  lemma {:induction false} StartedIsFound(runs: seq<CursorRun>, iteration: nat)
    ensures FindStarted(StartRun(runs, iteration).1, iteration) == Some(StartRun(runs, iteration).0)
  {
    if FindStarted(runs, iteration).Some? {
      MarkedIsFound(runs, iteration);
    } else {
      AppendedIsFound(runs, iteration);
    }
  }

  lemma {:induction false} MarkedIsFound(runs: seq<CursorRun>, iteration: nat)
    requires FindStarted(runs, iteration).Some?
    ensures var i := FindStarted(runs, iteration).value;
            FindStarted(runs[i := runs[i].(status := Started)], iteration) == Some(i)
  {
    var i := FindStarted(runs, iteration).value;
    if i > 0 {
      MarkedIsFound(runs[1..], iteration);
      assert runs[i := runs[i].(status := Started)][1..] == runs[1..][i - 1 := runs[i].(status := Started)];
    }
  }

  lemma {:induction false} AppendedIsFound(runs: seq<CursorRun>, iteration: nat)
    requires FindStarted(runs, iteration).None?
    ensures FindStarted(runs + [FreshRun(iteration)], iteration) == Some(|runs|)
  {
    if runs != [] {
      AppendedIsFound(runs[1..], iteration);
      assert (runs + [FreshRun(iteration)])[1..] == runs[1..] + [FreshRun(iteration)];
    }
  }

  lemma {:induction false} ReportMade(cfg: Config, world: World, i: nat, q: Project)
    requires q.operation == CursorOp && StartedIndex(q) == Some(i)
    ensures Made(cfg, world, q, ReportCursor(world, i, q))
  {
    hide FinishRun, Reaches, StartedIndex;
    var answer := world(q).cursor;
    if answer.CursorThrows? || answer.result.evidence.execution.status == Status.Fail {
      One(cfg, world, q, FailCursor);
    } else {
      One(cfg, world, q, FinishCursor(answer.result, answer.CursorGives?));
    }
  }

  lemma {:induction false} RunCursorMade(cfg: Config, world: World, p: Project)
    ensures Made(cfg, world, p, RunCursor(cfg, world, p))
  {
    hide EnterPlatform, ReportCursor, Seq, Reaches, StartRun, Made;
    var (i, runs) := StartRun(p.cursorRuns, p.iteration);
    var q := p.(operation := CursorOp, cursorRuns := runs);
    One(cfg, world, p, StartCursor);
    StartedIsFound(p.cursorRuns, p.iteration);
    ReportMade(cfg, world, i, q);
    MadeAfter(cfg, world, p, q, ReportCursor(world, i, q));
    var e := ExecuteCursor(world, p);
    EnterPlatformMade(cfg, world, e.last);
    MadeSeq(cfg, world, p, e, EnterPlatform(cfg, world, e.last));
  }

  lemma {:induction false} OpenMade(cfg: Config, world: World, p: Project)
    requires p.iteration < cfg.maxIterations && !MustProvision(p)
    ensures Made(cfg, world, p, OpenIteration(p))
  {
    hide Reaches, Transition, Made;
    var q := p.(iteration := p.iteration + 1);
    One(cfg, world, p, NextIteration);
    MadeMove(cfg, world, q, CursorExecuting);
    MadeStill(cfg, world, q, StageFailed);
    MadeAfter(cfg, world, p, q, Transition(q, CursorExecuting));
    MadeAfter(cfg, world, p, q, Save(q));
  }

  lemma {:induction false} RequestMade(cfg: Config, world: World, p: Project, execute: bool)
    ensures Made(cfg, world, p, RequestCursorRun(cfg, world, p, execute))
  {
    hide Made, RunCursor, OpenIteration, Seq, MustProvision;
    MadeStill(cfg, world, p, ProvisioningMissing);
    MadeStill(cfg, world, p, MaxIterationsReached);
    if !MustProvision(p) && p.iteration < cfg.maxIterations {
      OpenMade(cfg, world, p);
      var e := OpenIteration(p);
      RunCursorMade(cfg, world, e.last);
      MadeSeq(cfg, world, p, e, RunCursor(cfg, world, e.last));
    }
  }

  lemma {:induction false} InterruptedMade(cfg: Config, world: World, p: Project)
    ensures Made(cfg, world, p, PrepareInterruptedCursor(world, p))
  {
    hide Reaches;
    Stays(cfg, world, p);
    if Interrupted(p) {
      One(cfg, world, p, FlagCursor);
      if p.cursorRuns[|p.cursorRuns| - 1].checkpointSha != "" { One(cfg, world, p, AdoptCursor); }
    }
  }

  lemma {:induction false} ReplayMade(cfg: Config, world: World, p: Project)
    ensures Made(cfg, world, p, FinishOrReplayCursor(cfg, world, p))
  {
    hide EnterPlatform, Made, RunCursor, PrepareInterruptedCursor, HasResultForIteration, LatestCursorRun, Seq, Reaches;
    EnterPlatformMade(cfg, world, p);
    var q := p.(iteration := StageIteration(p));
    FirstIterationReached(cfg, world, p);
    InterruptedMade(cfg, world, q);
    var e := PrepareInterruptedCursor(world, q);
    EnterPlatformMade(cfg, world, e.last);
    RunCursorMade(cfg, world, e.last);
    MadeSeq(cfg, world, q, e, EnterPlatform(cfg, world, e.last));
    MadeSeq(cfg, world, q, e, RunCursor(cfg, world, e.last));
    MadeAfter(cfg, world, p, q, Seq(e, EnterPlatform(cfg, world, e.last)));
    MadeAfter(cfg, world, p, q, Seq(e, RunCursor(cfg, world, e.last)));
  }

  lemma {:induction false} FirstIterationReached(cfg: Config, world: World, p: Project)
    ensures Reaches(cfg, world, p, p.(iteration := StageIteration(p)))
  {
    Stays(cfg, world, p);
    if p.iteration == 0 { One(cfg, world, p, FirstIteration); }
  }

  // ---- Provisioning, discovery, Council, delivery ----

  lemma {:induction false} PerformProvisioningMade(cfg: Config, world: World, p: Project)
    ensures Made(cfg, world, p, PerformProvisioning(cfg, world, p))
  {
    hide ApplyProvisioning, Reaches, RequestCursorRun, Transition, Seq, SaveOnThrow, Made;
    var q := p.(operation := ProvisioningOp);
    MadeNote(cfg, world, p, ProvisioningOp);
    if world(q).provisioning.Some? {
      var r := ApplyProvisioning(q, world(q).provisioning.value);
      One(cfg, world, q, Provision(world(q).provisioning.value));
      MadeMove(cfg, world, r, CursorExecuting);
      RequestMade(cfg, world, r, true);
      var rest := if cfg.queue then SaveOnThrow(Transition(r, CursorExecuting)) else RequestCursorRun(cfg, world, r, true);
      MadeAfter(cfg, world, q, r, rest);
      MadeAfter(cfg, world, p, q, Seq(Save(r), rest));
    } else {
      var failed := PrepareWorkspace(q, world(q).workspacePrepared);
      Stays(cfg, world, q);
      if world(q).workspacePrepared { One(cfg, world, q, PrepareSpace); }
      MadeStill(cfg, world, failed, StageFailed);
      MadeAfter(cfg, world, q, failed, SaveOnThrow(Raise(failed, StageFailed)));
      MadeAfter(cfg, world, p, q, SaveOnThrow(Raise(failed, StageFailed)));
    }
  }

  lemma {:induction false} ProvisioningMade(cfg: Config, world: World, p: Project)
    ensures Made(cfg, world, p, FinishProvisioning(cfg, world, p))
  {
    hide Made, PerformProvisioning, RequestCursorRun, Transition, ProvisioningSucceeded, Seq;
    MadeMove(cfg, world, p, CursorExecuting);
    RequestMade(cfg, world, p, true);
    PerformProvisioningMade(cfg, world, p);
    MadeStill(cfg, world, p, StageFailed);
    var e := Transition(p, ProjectProvisioning);
    MadeMove(cfg, world, p, ProjectProvisioning);
    PerformProvisioningMade(cfg, world, e.last);
    MadeSeq(cfg, world, p, e, PerformProvisioning(cfg, world, e.last));
  }

  lemma {:induction false} EnterProvisioningMade(cfg: Config, world: World, p: Project)
    ensures Made(cfg, world, p, EnterProvisioning(cfg, world, p))
  {
    hide Made, Enter, FinishProvisioning, Seq;
    var e := Enter(p, ProjectProvisioning);
    MadeMove(cfg, world, p, ProjectProvisioning);
    ProvisioningMade(cfg, world, e.last);
    MadeSeq(cfg, world, p, e, FinishProvisioning(cfg, world, e.last));
  }

  lemma {:induction false} FeedbackMade(cfg: Config, world: World, p: Project)
    requires HasValidSpec(p)
    ensures Made(cfg, world, p, ApplyOwnerFeedback(world, p)) && ApplyOwnerFeedback(world, p).outcome.Ok?
  {
    Stays(cfg, world, p);
    if p.pendingFeedback.Some? { One(cfg, world, p, TakeFeedback); }
    hide Reaches, HasValidSpec;
  }

  lemma {:induction false} PerformDiscoveryMade(cfg: Config, world: World, p: Project)
    ensures Made(cfg, world, p, PerformDiscovery(world, p))
  {
    hide Reaches, HasValidSpec, NeedsProvisioning, Transition, Seq, SaveOnThrow, Made;
    var q := p.(operation := DiscoveryOp);
    MadeNote(cfg, world, p, DiscoveryOp);
    if world(q).discovery.DiscoveryGives? {
      var r := q.(spec := Some(world(q).discovery.spec));
      One(cfg, world, q, Discover(world(q).discovery.spec));
      MadeStill(cfg, world, r, StageFailed);
      MadeMove(cfg, world, r, SpecificationReady);
      var rest := if !HasValidSpec(r) || (NeedsProvisioning(r) && world(q).discovery.planFails) then Raise(r, StageFailed)
                  else Transition(r, SpecificationReady);
      MadeAfter(cfg, world, q, r, rest);
      Stays(cfg, world, q);
      MadeAfter(cfg, world, q, q, SaveOnThrow(rest));
      MadeAfter(cfg, world, p, q, SaveOnThrow(rest));
    }
  }

  lemma {:induction false} DiscoverFromMade(cfg: Config, world: World, p: Project)
    ensures Made(cfg, world, p, DiscoverFrom(world, p))
  {
    hide Made, HasValidSpec, PerformDiscovery, ApplyOwnerFeedback, Transition, Seq;
    ValidSpecIsThere(p);
    if HasValidSpec(p) {
      var e := ApplyOwnerFeedback(world, p);
      FeedbackMade(cfg, world, p);
      MadeMove(cfg, world, e.last, SpecificationReady);
      MadeStill(cfg, world, e.last, StageFailed);
      MadeSeq(cfg, world, p, e,
              if e.last.state == CouncilDiscovery then Transition(e.last, SpecificationReady) else Silent(e.last));
    } else {
      PerformDiscoveryMade(cfg, world, p);
    }
  }

  lemma {:induction false} ValidSpecIsThere(p: Project)
    ensures HasValidSpec(p) ==> p.spec.Some?
  {
  }

  lemma {:induction false} DiscoveryMade(cfg: Config, world: World, p: Project)
    ensures Made(cfg, world, p, EnsureDiscovery(world, p))
  {
    hide Made, DiscoverFrom, Transition, Seq;
    DiscoverFromMade(cfg, world, p);
    var e := Transition(p, CouncilDiscovery);
    MadeMove(cfg, world, p, CouncilDiscovery);
    DiscoverFromMade(cfg, world, e.last);
    MadeSeq(cfg, world, p, e, DiscoverFrom(world, e.last));
  }

  lemma {:induction false} AskReviewMade(cfg: Config, world: World, p: Project)
    ensures Made(cfg, world, p, AskReview(world, p))
  {
    hide Reaches, Seq, SaveOnThrow, Made;
    MadeStill(cfg, world, p, RecoveryFailed);
    if p.iteration !in p.reviews && p.cursorRuns != [] {
      var q := p.(operation := ReviewOp);
      MadeNote(cfg, world, p, ReviewOp);
      if world(q).review.Some? {
        var r := Apply(cfg, world, q, Review(world(q).review.value));
        One(cfg, world, q, Review(world(q).review.value));
        MadeStill(cfg, world, r, StageFailed);
        MadeAfter(cfg, world, q, r, Save(r));
        MadeAfter(cfg, world, p, q, Save(r));
      }
    }
  }

  lemma {:induction false} ReviewMade(cfg: Config, world: World, p: Project)
    ensures Made(cfg, world, p, FinishReview(cfg, world, p))
  {
    hide Made, RequestChanges, Transition, Overruled, AskReview, Seq, Reaches;
    AskReviewMade(cfg, world, p);
    var e := AskReview(world, p);
    ActOnReviewMade(cfg, world, e.last);
    MadeSeq(cfg, world, p, e, ActOnReview(cfg, world, e.last));
  }

  lemma {:induction false} ActOnReviewMade(cfg: Config, world: World, p: Project)
    ensures Made(cfg, world, p, ActOnReview(cfg, world, p))
  {
    hide Made, RequestCursorRun, Transition, Reaches, Overruled;
    RequestMade(cfg, world, p, !cfg.queue);
    MadeMove(cfg, world, p, FinalVerification);
    if Overruled(cfg, p) {
      var q := p.(reviews := p.reviews[p.iteration := ChangesRequired]);
      One(cfg, world, p, Overrule);
      RequestMade(cfg, world, q, !cfg.queue);
      MadeAfter(cfg, world, p, q, RequestCursorRun(cfg, world, q, !cfg.queue));
    }
  }

  lemma {:induction false} AskFinalMade(cfg: Config, world: World, p: Project)
    ensures Made(cfg, world, p, AskFinal(world, p))
  {
    hide Reaches, Seq, SaveOnThrow, Made;
    MadeStill(cfg, world, p, RecoveryFailed);
    if !(p.final.Some? && p.final.value.cursorCount == |p.cursorRuns|) {
      var q := p.(operation := FinalOp);
      MadeNote(cfg, world, p, FinalOp);
      if world(q).final.Some? {
        var r := Apply(cfg, world, q, Judge(world(q).final.value));
        One(cfg, world, q, Judge(world(q).final.value));
        MadeStill(cfg, world, r, StageFailed);
        MadeAfter(cfg, world, q, r, Save(r));
        MadeAfter(cfg, world, p, q, Save(r));
      }
    }
  }

  lemma {:induction false} DeliverReaches(cfg: Config, world: World, p: Project)
    ensures Reaches(cfg, world, p, WorkflowProofs.Delivered(world, p))
    ensures Reaches(cfg, world, p, WorkflowProofs.WithLevel(p))
  {
    hide WorkflowProofs.Delivered, WorkflowProofs.WithLevel, Reaches;
    One(cfg, world, p, Deliver);
    One(cfg, world, p, Level);
  }

  lemma {:induction false} DeliveryMade(cfg: Config, world: World, p: Project)
    ensures Made(cfg, world, p, FinishDelivery(cfg, world, p))
  {
    hide Delivery.Prepare, Gate.ReadyOk, SettingsFor, Transition, Reaches, Made, Lineage.MergedEvidence, Applies, Apply;
    var q := WorkflowProofs.Delivered(world, p);
    var r := WorkflowProofs.WithLevel(q);
    DeliverReaches(cfg, world, p);
    DeliverReaches(cfg, world, q);
    MadeStill(cfg, world, q, LineageInvalid);
    MadeStill(cfg, world, q, GateRejected);
    MadeMove(cfg, world, r, ReadyForOwnerReview);
    MadeStill(cfg, world, r, GateRejected);
    MadeAfter(cfg, world, q, r, Transition(r, ReadyForOwnerReview));
    MadeAfter(cfg, world, q, r, Save(r));
    MadeAfter(cfg, world, p, q, Raise(q, LineageInvalid));
    MadeAfter(cfg, world, p, q, Raise(q, GateRejected));
    MadeAfter(cfg, world, p, q, Transition(r, ReadyForOwnerReview));
    MadeAfter(cfg, world, p, q, Save(r));
  }

  lemma {:induction false} EnterDeliveryMade(cfg: Config, world: World, p: Project)
    ensures Made(cfg, world, p, EnterDelivery(cfg, world, p))
  {
    hide Made, FinishDelivery, Enter, Gate.GateOk, SettingsFor, Seq;
    MadeStill(cfg, world, p, GateRejected);
    var e := Enter(p, DeliveryPreparation);
    MadeMove(cfg, world, p, DeliveryPreparation);
    DeliveryMade(cfg, world, e.last);
    MadeSeq(cfg, world, p, e, FinishDelivery(cfg, world, e.last));
  }

  lemma {:induction false} FinalMade(cfg: Config, world: World, p: Project)
    ensures Made(cfg, world, p, FinishFinal(cfg, world, p))
  {
    hide Made, AskFinal, ActOnFinal, Seq;
    AskFinalMade(cfg, world, p);
    var e := AskFinal(world, p);
    ActOnFinalMade(cfg, world, e.last);
    MadeSeq(cfg, world, p, e, ActOnFinal(cfg, world, e.last));
  }

  lemma {:induction false} ActOnFinalMade(cfg: Config, world: World, p: Project)
    ensures Made(cfg, world, p, ActOnFinal(cfg, world, p))
  {
    hide Made, RequestCursorRun, EnterDelivery, Reaches;
    EnterDeliveryMade(cfg, world, p);
    if p.final.Some? && p.final.value.decision == ChangesRequired {
      var q := p.(finalHistory := p.finalHistory + [p.final.value], final := None);
      One(cfg, world, p, Reopen);
      RequestMade(cfg, world, q, !cfg.queue);
      MadeAfter(cfg, world, p, q, RequestCursorRun(cfg, world, q, !cfg.queue));
    }
  }

  // ---- Actions ----

  lemma {:induction false} PassMade(cfg: Config, world: World, p: Project)
    requires IsActive(p.state)
    ensures Made(cfg, world, p, LoopPass(cfg, world, p))
  {
    hide Made, EnsureDiscovery, EnterProvisioning, FinishProvisioning, RequestCursorRun, FinishOrReplayCursor;
    hide FinishPlatform, FinishRuntime, FinishVisual, FinishReview, FinishFinal, FinishDelivery, Transition, MustProvision;
    MadeStill(cfg, world, p, MaxIterationsReached);
    match p.state {
      case IdeaSubmitted | CouncilDiscovery => DiscoveryMade(cfg, world, p);
      case SpecificationReady =>
        EnterProvisioningMade(cfg, world, p);
        RequestMade(cfg, world, p, true);
      case ProjectProvisioning => ProvisioningMade(cfg, world, p);
      case CursorExecuting => ReplayMade(cfg, world, p);
      case PlatformVerification => PlatformMade(cfg, world, p);
      case RuntimeVerification => RuntimeMade(cfg, world, p);
      case VisualVerification => VisualMade(cfg, world, p);
      case CouncilReview => ReviewMade(cfg, world, p);
      case FinalVerification => FinalMade(cfg, world, p);
      case DeliveryPreparation => DeliveryMade(cfg, world, p);
      case OwnerChangesRequested => MadeMove(cfg, world, p, CouncilDiscovery);
      case _ =>
    }
  }

  lemma {:induction false} EarlyJobMade(cfg: Config, world: World, p: Project, job: JobType)
    requires job in {DiscoveryJob, ProvisioningJob, CursorJob}
    ensures Made(cfg, world, p, Job(cfg, world, p, job))
  {
    hide Made, EnsureDiscovery, FinishProvisioning, RequestCursorRun, FinishOrReplayCursor, Transition, Seq, Stored;
    hide MustProvision;
    MadeStill(cfg, world, p, StageFailed);
    DiscoveryMade(cfg, world, p);
    ProvisioningMade(cfg, world, p);
    RequestMade(cfg, world, p, true);
    ReplayMade(cfg, world, p);
    var e := Transition(p, CouncilDiscovery);
    MadeMove(cfg, world, p, CouncilDiscovery);
    DiscoveryMade(cfg, world, Stored(p, e));
    MadeThen(cfg, world, p, e, EnsureDiscovery(world, Stored(p, e)));
  }

  lemma {:induction false} StageJobMade(cfg: Config, world: World, p: Project, job: JobType)
    requires job in {VerificationJob, RuntimeJob, VisualJob}
    ensures Made(cfg, world, p, Job(cfg, world, p, job))
  {
    hide Made, FinishOrReplayCursor, FinishPlatform, FinishRuntime, FinishVisual, Seq, Stored;
    MadeStill(cfg, world, p, StageFailed);
    if job == VerificationJob {
      var e := FinishOrReplayCursor(cfg, world, p);
      ReplayMade(cfg, world, p);
      PlatformMade(cfg, world, p);
      PlatformMade(cfg, world, Stored(p, e));
      MadeThen(cfg, world, p, e, FinishPlatform(cfg, world, Stored(p, e)));
    } else if job == RuntimeJob {
      var e := FinishPlatform(cfg, world, p);
      PlatformMade(cfg, world, p);
      RuntimeMade(cfg, world, p);
      RuntimeMade(cfg, world, Stored(p, e));
      MadeThen(cfg, world, p, e, FinishRuntime(cfg, world, Stored(p, e)));
    } else {
      var e := FinishRuntime(cfg, world, p);
      RuntimeMade(cfg, world, p);
      VisualMade(cfg, world, p);
      VisualMade(cfg, world, Stored(p, e));
      MadeThen(cfg, world, p, e, FinishVisual(cfg, world, Stored(p, e)));
    }
  }

  lemma {:induction false} LateJobMade(cfg: Config, world: World, p: Project, job: JobType)
    requires job in {ReviewJob, FinalJob, DeliveryJob}
    ensures Made(cfg, world, p, Job(cfg, world, p, job))
  {
    hide Made, FinishReview, FinishFinal, FinishDelivery, Seq, Stored;
    MadeStill(cfg, world, p, StageFailed);
    ReviewMade(cfg, world, p);
    FinalMade(cfg, world, p);
    DeliveryMade(cfg, world, p);
    var e := FinishFinal(cfg, world, p);
    DeliveryMade(cfg, world, Stored(p, e));
    MadeThen(cfg, world, p, e, FinishDelivery(cfg, world, Stored(p, e)));
  }

  lemma {:induction false} JobMade(cfg: Config, world: World, p: Project, job: JobType)
    ensures Made(cfg, world, p, Job(cfg, world, p, job))
  {
    hide Job, Made;
    match job {
      case DiscoveryJob | ProvisioningJob | CursorJob => EarlyJobMade(cfg, world, p, job);
      case VerificationJob | RuntimeJob | VisualJob => StageJobMade(cfg, world, p, job);
      case ReviewJob | FinalJob | DeliveryJob => LateJobMade(cfg, world, p, job);
    }
  }

  lemma {:induction false} FailureMade(cfg: Config, world: World, p: Project)
    ensures Made(cfg, world, p, RecordFailure(p))
  {
    hide Made, Reaches, Transition;
    var q := p.(error := true);
    One(cfg, world, p, RecordError);
    MadeMove(cfg, world, q, Failed);
    MadeStill(cfg, world, q, StageFailed);
    MadeAfter(cfg, world, p, q, Transition(q, Failed));
    MadeAfter(cfg, world, p, q, Save(q));
  }

  lemma {:induction false} RetryMade(cfg: Config, world: World, p: Project)
    ensures Made(cfg, world, p, Retry(p))
  {
    hide Made, Reaches, Transition, ResumeTarget;
    MadeStill(cfg, world, p, RetryNotEligible);
    if p.state == Failed {
      var q := p.(error := false);
      One(cfg, world, p, ClearError);
      MadeMove(cfg, world, q, ResumeTarget(p));
      MadeAfter(cfg, world, p, q, Transition(q, ResumeTarget(p)));
    }
  }

  lemma {:induction false} BootMade(cfg: Config, world: World, p: Project)
    ensures Made(cfg, world, p, BootDelivery(cfg, world, p))
  {
    hide FinishDelivery, Reaches;
    MadeStill(cfg, world, p, StageFailed);
    DeliveryMade(cfg, world, p);
    var e := FinishDelivery(cfg, world, p);
    One(cfg, world, e.last, RecordError);
    Onward(cfg, world, p, e.last, e.last.(error := true));
  }

  lemma {:induction false} TwiceMade(cfg: Config, world: World, p: Project, first: State, second: State)
    ensures Made(cfg, world, p, TransitionTwice(p, first, second))
  {
    hide Made, Transition, Seq;
    var e := Transition(p, first);
    MadeMove(cfg, world, p, first);
    MadeMove(cfg, world, e.last, second);
    MadeSeq(cfg, world, p, e, Transition(e.last, second));
  }

  // A decision that is refused leaves a record in memory that nothing stores.
  lemma {:induction false} DecisionMade(cfg: Config, world: World, p: Project, decision: OwnerDecision, feedback: string)
    ensures forall q :: q in OwnerDecides(p, decision, feedback).saves ==> Reaches(cfg, world, p, q)
  {
    hide Delivery.Decide, TransitionTwice, Reaches;
    var d := Delivery.Decide(p, decision, feedback);
    if p.state == ReadyForOwnerReview && d.error.None? {
      One(cfg, world, p, Decide(decision, feedback));
      var q := Apply(cfg, world, p, Decide(decision, feedback));
      TwiceMade(cfg, world, q, OwnerApproved, Done);
      TwiceMade(cfg, world, q, OwnerChangesRequested, CouncilDiscovery);
      MadeAfter(cfg, world, p, q, TransitionTwice(q, OwnerApproved, Done));
      MadeAfter(cfg, world, p, q, TransitionTwice(q, OwnerChangesRequested, CouncilDiscovery));
    }
  }

  // Whatever action meets whatever project, in both modes: each of its snapshots is reached by elementary updates.
  lemma {:induction false} ActionIsUpdates(cfg: Config, world: World, p: Project, a: Action, q: Project)
    requires q in Run(cfg, world, p, a).saves
    ensures Reaches(cfg, world, p, q)
  {
    hide Reaches, LoopPass, Job, RecordFailure, Retry, BootDelivery, OwnerDecides;
    match a {
      case PassAction => if IsActive(p.state) && !cfg.queue { PassMade(cfg, world, p); }
      case JobAction(job) => if cfg.queue { JobMade(cfg, world, p, job); }
      case FailAction => FailureMade(cfg, world, p);
      case RetryAction => RetryMade(cfg, world, p);
      case BootAction => BootMade(cfg, world, p);
      case DecideAction(decision, feedback) => DecisionMade(cfg, world, p, decision, feedback);
    }
  }
}
