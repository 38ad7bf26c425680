// Where an explicit retry resumes: at the first stage of the pipeline whose work is missing on the record
// (src/orchestrator/orchestrator.js:128-148, 1128-1154).
module Resume {
  import opened Text
  import opened States
  import opened Records
  import opened Workflow
  import opened WorkflowProofs
  import opened Lookups
  import Delivery
  import WorkflowSafety

  // ---- What a record is missing ----

  // A new project needs a foundation, unless its provisioning record says that this does not apply to it; the latest
  // provisioning run laid one if it passed and a baseline is recorded.
  predicate LacksFoundation(p: Project) {
    && !p.existingRepository
    && (p.provisioning.Some? ==> p.provisioning.value.status != ProvNotApplicable)
    && (p.provisioningRuns != [] ==>
          var last := p.provisioningRuns[|p.provisioningRuns| - 1];
          last.status == ProvPass ==> last.baselineSha == "" && p.provisioningBaseline == "")
  }

  // The last Cursor run reported a result, for iteration n.
  predicate CursorFinished(p: Project, n: nat) {
    p.cursorRuns != [] && p.cursorRuns[|p.cursorRuns| - 1].hasResult && p.cursorRuns[|p.cursorRuns| - 1].iteration == n
  }

  // Cursor's work began: an iteration was opened, a run recorded or noted, or the project failed while executing.
  predicate CursorBegun(p: Project) {
    || p.iteration > 0 || p.cursorRuns != [] || p.operation == CursorOp
    || (p.history != [] && p.history[|p.history| - 1].from == CursorExecuting)
  }

  predicate Verified(p: Project, n: nat, v: VerificationRun) {
    ReadsVerification(p, n, v) && v.completed
  }

  predicate Exercised(p: Project, n: nat, r: RuntimeRun) {
    ReadsRuntime(p, n, r) && r.completed
  }

  predicate Inspected(p: Project, n: nat, w: VisualRun) {
    ReadsVisual(p, n, w) && w.completed
  }

  // A real project whose verification ran, and found nothing that blocks, goes on to the runtime stage.
  predicate WantsRuntime(p: Project, v: VerificationRun) {
    && !p.demo && !v.mock && v.blockingFailures == []
    && (p.evidence.Some? ==> p.evidence.value.level != MockLevel)
  }

  // The application came up, and its policy has something to look at.
  predicate WantsVisual(p: Project, r: RuntimeRun) {
    && !p.demo && r.policy.visual != Inapplicable
    && (r.status == RunFail ==>
          forall c :: c in r.blockingFailures ==> c != StartFailed && c != ReadinessTimeout && c != ProcessExited)
  }

  // The work of a stage is missing, for the iteration of the finished run; every lookup reads the last run of that
  // iteration, or else the last one of all.
  predicate Missing(p: Project, stage: State) {
    match stage
    case CouncilDiscovery => !HasSpec(p)
    case ProjectProvisioning => LacksFoundation(p)
    case CursorExecuting => CursorBegun(p) && (p.cursorRuns != [] ==> !p.cursorRuns[|p.cursorRuns| - 1].hasResult)
    case _ => Finished(p.cursorRuns) && MissingAfter(p, p.cursorRuns[|p.cursorRuns| - 1].iteration, stage)
  }

  predicate MissingAfter(p: Project, n: nat, stage: State) {
    match stage
    case PlatformVerification => forall v :: v in p.verificationRuns ==> !Verified(p, n, v)
    case RuntimeVerification =>
      && (exists v :: v in p.verificationRuns && Verified(p, n, v) && WantsRuntime(p, v))
      && (forall r :: r in p.runtimeRuns ==> !Exercised(p, n, r))
    case VisualVerification =>
      && (exists r :: r in p.runtimeRuns && Exercised(p, n, r) && WantsVisual(p, r))
      && (forall w :: w in p.visualRuns ==> !Inspected(p, n, w))
    case CouncilReview => n !in p.reviews
    case FinalVerification => n in p.reviews && p.reviews[n] == Complete && p.final.None?
    case DeliveryPreparation => p.final.Some? && p.final.value.decision == Complete && p.deliveries == []
    case _ => false
  }

  // The order of the pipeline.
  function Place(stage: State): nat {
    match stage
    case CouncilDiscovery => 1
    case ProjectProvisioning => 2
    case CursorExecuting => 3
    case PlatformVerification => 4
    case RuntimeVerification => 5
    case VisualVerification => 6
    case CouncilReview => 7
    case FinalVerification => 8
    case DeliveryPreparation => 9
    case _ => 0
  }

  predicate FirstMissing(p: Project, stage: State) {
    && Place(stage) > 0 && Missing(p, stage)
    && forall s: State :: 0 < Place(s) < Place(stage) ==> !Missing(p, s)
  }

  // ---- The lookups of the code ----

  lemma {:induction false} FoundationIsLaid(p: Project)
    ensures MustProvision(p) <==> LacksFoundation(p)
  {
  }

  lemma {:induction false} VerificationIsThere(p: Project, n: nat)
    ensures var v := LatestVerification(p, n);
            && (v.Some? && v.value.completed <==> !MissingAfter(p, n, PlatformVerification))
            && (forall u :: Verified(p, n, u) ==> v == Some(u))
            && (v.Some? && v.value.completed ==> Verified(p, n, v.value) && v.value in p.verificationRuns)
  {
    VerificationIsRead(p, n);
    var v := LatestVerification(p, n);
    if v.Some? { assert ReadsVerification(p, n, v.value) && v.value in p.verificationRuns; }
  }

  lemma {:induction false} RuntimeIsThere(p: Project, n: nat)
    ensures var r := LatestRuntime(p, n);
            && (r.Some? && r.value.completed <==> exists x :: x in p.runtimeRuns && Exercised(p, n, x))
            && (forall u :: Exercised(p, n, u) ==> r == Some(u))
            && (r.Some? && r.value.completed ==> Exercised(p, n, r.value) && r.value in p.runtimeRuns)
  {
    RuntimeIsRead(p, n);
    var r := LatestRuntime(p, n);
    if r.Some? { assert ReadsRuntime(p, n, r.value) && r.value in p.runtimeRuns; }
  }

  lemma {:induction false} VisualIsThere(p: Project, n: nat)
    ensures var w := LatestVisual(p, n);
            w.Some? && w.value.completed <==> exists x :: x in p.visualRuns && Inspected(p, n, x)
  {
    VisualIsRead(p, n);
    var w := LatestVisual(p, n);
    if w.Some? { assert ReadsVisual(p, n, w.value) && w.value in p.visualRuns; }
  }

  lemma {:induction false} RuntimeIsWanted(p: Project, v: VerificationRun)
    ensures !ShouldSkipRuntime(p, Some(v)) <==> WantsRuntime(p, v)
  {
  }

  lemma {:induction false} VisualIsWanted(p: Project, r: RuntimeRun)
    ensures !ShouldSkipVisual(p, Some(r)) <==> WantsVisual(p, r)
  {
  }

  // What the chain of tests sees of a project with a finished run of iteration n.
  lemma {:induction false} StagesAreSeen(p: Project, n: nat)
    ensures var v, r, w := LatestVerification(p, n), LatestRuntime(p, n), LatestVisual(p, n);
            && (v.None? || !v.value.completed <==> MissingAfter(p, n, PlatformVerification))
            && (v.Some? && v.value.completed ==>
                  (!ShouldSkipRuntime(p, v) && (r.None? || !r.value.completed) <==> MissingAfter(p, n, RuntimeVerification)))
            && (r.Some? && r.value.completed && !ShouldSkipVisual(p, r) && (w.None? || !w.value.completed)
                <==> MissingAfter(p, n, VisualVerification))
  {
    hide ReadsVerification, ReadsRuntime, ReadsVisual, ShouldSkipRuntime, ShouldSkipVisual, LatestVerification;
    hide LatestRuntime, LatestVisual, WantsRuntime, WantsVisual;
    VerificationIsThere(p, n);
    RuntimeIsThere(p, n);
    VisualIsThere(p, n);
    var v, r := LatestVerification(p, n), LatestRuntime(p, n);
    if v.Some? { RuntimeIsWanted(p, v.value); }
    if r.Some? { VisualIsWanted(p, r.value); }
  }

  // ---- The target ----

  lemma {:induction false} CompletedIsLast(cfg: Config, p: Project)
    requires Inv(cfg, p)
    ensures CompletedRun(p) == if Finished(p.cursorRuns) then Some(p.cursorRuns[|p.cursorRuns| - 1]) else None
  {
    hide Delivery.LedgerOk, Cert, Walk;
    WorkflowSafety.CompletedIffFinished(cfg, p);
  }

  lemma {:induction false} EarlyTarget(cfg: Config, p: Project)
    requires Inv(cfg, p) && p.state == Failed && !Finished(p.cursorRuns)
    ensures var to := ResumeTarget(p);
            if !HasSpec(p) then to == CouncilDiscovery
            else if LacksFoundation(p) then to == ProjectProvisioning
            else if CursorBegun(p) then to == CursorExecuting
            else to == SpecificationReady
  {
    hide Inv;
    SpecIsValid(p);
    FoundationIsLaid(p);
    CompletedIsLast(cfg, p);
    hide HasValidSpec, HasSpec, MustProvision, LacksFoundation, CompletedRun, ShouldSkipRuntime, ShouldSkipVisual;
  }

  lemma {:induction false} LateTarget(cfg: Config, p: Project)
    requires Inv(cfg, p) && p.state == Failed && Finished(p.cursorRuns)
    ensures var n := p.cursorRuns[|p.cursorRuns| - 1].iteration;
            var to := ResumeTarget(p);
            if !HasSpec(p) then to == CouncilDiscovery
            else if LacksFoundation(p) then to == ProjectProvisioning
            else if MissingAfter(p, n, PlatformVerification) then to == PlatformVerification
            else if MissingAfter(p, n, RuntimeVerification) then to == RuntimeVerification
            else if MissingAfter(p, n, VisualVerification) then to == VisualVerification
            else if MissingAfter(p, n, CouncilReview) then to == CouncilReview
            else if MissingAfter(p, n, FinalVerification) then to == FinalVerification
            else if MissingAfter(p, n, DeliveryPreparation) then to == DeliveryPreparation
            else to == SpecificationReady
  {
    hide HasValidSpec, HasSpec, MustProvision, LacksFoundation, ShouldSkipRuntime, ShouldSkipVisual, LatestVerification;
    hide LatestRuntime, LatestVisual, Verified, Exercised, Inspected, WantsRuntime, WantsVisual, CompletedRun, Inv;
    SpecIsValid(p);
    FoundationIsLaid(p);
    CompletedIsLast(cfg, p);
    StagesAreSeen(p, p.cursorRuns[|p.cursorRuns| - 1].iteration);
  }

  predicate NothingMissing(p: Project) {
    forall s: State :: Place(s) > 0 ==> !Missing(p, s)
  }

  predicate TargetFits(p: Project, to: State) {
    if Place(to) > 0 then FirstMissing(p, to) else to == SpecificationReady && NothingMissing(p)
  }

  // The first of the nine that is missing.
  predicate Chain(p: Project, to: State) {
    if Missing(p, CouncilDiscovery) then to == CouncilDiscovery
    else if Missing(p, ProjectProvisioning) then to == ProjectProvisioning
    else if Missing(p, CursorExecuting) then to == CursorExecuting
    else if Missing(p, PlatformVerification) then to == PlatformVerification
    else if Missing(p, RuntimeVerification) then to == RuntimeVerification
    else if Missing(p, VisualVerification) then to == VisualVerification
    else if Missing(p, CouncilReview) then to == CouncilReview
    else if Missing(p, FinalVerification) then to == FinalVerification
    else if Missing(p, DeliveryPreparation) then to == DeliveryPreparation
    else to == SpecificationReady
  }

  lemma {:induction false} MissingLate(p: Project)
    requires Finished(p.cursorRuns)
    ensures var n := p.cursorRuns[|p.cursorRuns| - 1].iteration;
            && Missing(p, PlatformVerification) == MissingAfter(p, n, PlatformVerification)
            && Missing(p, RuntimeVerification) == MissingAfter(p, n, RuntimeVerification)
            && Missing(p, VisualVerification) == MissingAfter(p, n, VisualVerification)
            && Missing(p, CouncilReview) == MissingAfter(p, n, CouncilReview)
            && Missing(p, FinalVerification) == MissingAfter(p, n, FinalVerification)
            && Missing(p, DeliveryPreparation) == MissingAfter(p, n, DeliveryPreparation)
  {
    hide MissingAfter, CursorBegun;
  }

  lemma {:induction false} MissingEarly(p: Project)
    ensures Missing(p, CouncilDiscovery) == !HasSpec(p) && Missing(p, ProjectProvisioning) == LacksFoundation(p)
    ensures Missing(p, CursorExecuting) == (CursorBegun(p) && !Finished(p.cursorRuns))
    ensures !Finished(p.cursorRuns) ==> forall s: State :: Place(s) > 3 ==> !Missing(p, s)
  {
    hide MissingAfter, HasSpec, LacksFoundation;
  }

  lemma {:induction false} TargetIsChain(cfg: Config, p: Project)
    requires Inv(cfg, p) && p.state == Failed
    ensures Chain(p, ResumeTarget(p))
  {
    hide ResumeTarget, Inv, HasSpec, LacksFoundation, CursorBegun, Missing, MissingAfter;
    MissingEarly(p);
    if Finished(p.cursorRuns) {
      MissingLate(p);
      LateTarget(cfg, p);
    } else {
      EarlyTarget(cfg, p);
    }
  }

  lemma {:induction false} ChainFits(p: Project, to: State)
    requires Chain(p, to)
    ensures TargetFits(p, to)
  {
    hide Missing;
  }

  lemma {:induction false} ResumeTargetIsFirst(cfg: Config, p: Project)
    requires Inv(cfg, p) && p.state == Failed
    ensures TargetFits(p, ResumeTarget(p))
  {
    hide Chain, ResumeTarget, TargetFits;
    TargetIsChain(cfg, p);
    ChainFits(p, ResumeTarget(p));
  }

  // The target of a retry is the first stage in pipeline order whose work is missing; and it is SPECIFICATION_READY, to
  // plan another iteration, exactly when no stage's work is.
  lemma {:induction false} ResumesAtTheFirstMissing(cfg: Config, p: Project)
    requires Inv(cfg, p) && p.state == Failed
    ensures forall stage :: Place(stage) > 0 ==> (ResumeTarget(p) == stage <==> FirstMissing(p, stage))
    ensures ResumeTarget(p) == SpecificationReady <==> NothingMissing(p)
  {
    hide ResumeTarget, Inv, Missing;
    ResumeTargetIsFirst(cfg, p);
    FirstOfTen(p, ResumeTarget(p));
  }

  lemma {:induction false} FirstOfTen(p: Project, to: State)
    requires TargetFits(p, to)
    ensures forall stage :: Place(stage) > 0 ==> (to == stage <==> FirstMissing(p, stage))
    ensures to == SpecificationReady <==> NothingMissing(p)
  {
    hide Missing;
    forall stage | Place(stage) > 0 && FirstMissing(p, stage) ensures to == stage {
      assert Place(to) > 0 by { assert Missing(p, stage); }
      if to != stage { PlacesDiffer(to, stage); }
    }
  }

  lemma {:induction false} PlacesDiffer(a: State, b: State)
    requires Place(a) > 0 && Place(b) > 0 && a != b
    ensures Place(a) < Place(b) || Place(b) < Place(a)
  {
  }

  // A retry of a failed project stores one record: the same, without the error, moved to that stage. A retry of any
  // other project is refused and stores nothing.
  lemma {:induction false} RetryResumes(cfg: Config, p: Project)
    requires Inv(cfg, p)
    ensures p.state != Failed ==> Retry(p) == Exec([], p, Threw(RetryNotEligible))
    ensures p.state == Failed ==>
              exists to :: TargetFits(p, to) && Retry(p) == Save(Moved(p.(error := false), to))
  {
    if p.state == Failed {
      ResumeTargetIsFirst(cfg, p);
      WorkflowSafety.ResumeTargetFits(cfg, p);
      hide ResumeTarget, TargetFits, Inv;
    }
  }
}
