// What the Council's answers decide: the review and the final decision that the engine records are the answers it was
// given, for the project it showed, and the project goes where they say (src/orchestrator/orchestrator.js:868-1007).
module CouncilDecisions {
  import opened Text
  import opened States
  import opened Records
  import opened Workflow
  import opened WorkflowProofs
  import opened Lookups
  import opened Updates
  import Delivery
  import Gate

  // ---- One review ----

  // Evidence that overrules a COMPLETE review: a blocking failure of the verification or the runtime run that is read
  // for the iteration, or a blocking finding or a request for changes in the visual one.
  predicate Blocked(p: Project) {
    || (exists v :: v in p.verificationRuns && ReadsVerification(p, p.iteration, v) && v.blockingFailures != [])
    || (exists r :: r in p.runtimeRuns && ReadsRuntime(p, p.iteration, r) && r.blockingFailures != [])
    || (exists w :: w in p.visualRuns && ReadsVisual(p, p.iteration, w)
                    && (w.blockingFindings != [] || w.decision == VisualChangesRequired))
  }

  lemma {:induction false} EvidenceBlocksIffBlocked(p: Project)
    ensures EvidenceBlocks(p) <==> Blocked(p)
  {
    VerificationIsRead(p, p.iteration);
    RuntimeIsRead(p, p.iteration);
    VisualIsRead(p, p.iteration);
    hide LatestVerification, LatestRuntime, LatestVisual;
    var v, r, w := LatestVerification(p, p.iteration), LatestRuntime(p, p.iteration), LatestVisual(p, p.iteration);
    if v.Some? { assert ReadsVerification(p, p.iteration, v.value); }
    if r.Some? { assert ReadsRuntime(p, p.iteration, r.value); }
    if w.Some? { assert ReadsVisual(p, p.iteration, w.value); }
  }

  predicate OverrulesComplete(cfg: Config, p: Project) {
    !p.demo && !cfg.demo && Blocked(p)
  }

  // A review with decision d lets the project go on to its final verification.
  predicate GoesOn(cfg: Config, p: Project, d: Decision) {
    d != ChangesRequired && !(d == Complete && OverrulesComplete(cfg, p))
  }

  // The project as the next Cursor iteration finds it.
  function NextRound(p: Project): Project {
    Moved(p.(iteration := p.iteration + 1), CursorExecuting)
  }

  // An execution that goes on to work on the next iteration of q, or throws because there is none left.
  predicate Reworks(cfg: Config, q: Project, e: Exec) {
    if q.iteration >= cfg.maxIterations then e.saves == [] && e.outcome == Threw(MaxIterationsReached)
    else e.saves != [] && e.saves[0] == NextRound(q)
  }

  lemma {:induction false} RequestReworks(cfg: Config, world: World, q: Project)
    requires !MustProvision(q) && q.state in {CouncilReview, FinalVerification}
    ensures Reworks(cfg, q, RequestChanges(cfg, world, q))
  {
    hide RunCursor, MustProvision;
  }

  // The project goes on to its final verification, or the next iteration begins with CHANGES_REQUIRED on record.
  predicate ActsOnReview(cfg: Config, p: Project, d: Decision, e: Exec) {
    if GoesOn(cfg, p, d) then e == Exec([Moved(p, FinalVerification)], Moved(p, FinalVerification), Ok)
    else Reworks(cfg, p.(reviews := p.reviews[p.iteration := ChangesRequired]), e)
  }

  lemma {:induction false} FollowActs(cfg: Config, world: World, p: Project)
    requires Inv(cfg, p) && p.state == CouncilReview && p.iteration in p.reviews
    ensures ActsOnReview(cfg, p, p.reviews[p.iteration], ActOnReview(cfg, world, p))
  {
    EvidenceBlocksIffBlocked(p);
    hide EvidenceBlocks, Blocked, RequestChanges, Reworks;
    var q := p.(reviews := p.reviews[p.iteration := ChangesRequired]);
    assert p.reviews[p.iteration] == ChangesRequired ==> q == p by {
      assert p.reviews[p.iteration] == ChangesRequired ==> p.reviews[p.iteration := ChangesRequired] == p.reviews;
    }
    assert !MustProvision(q) && MustProvision(q) == MustProvision(p);
    RequestReworks(cfg, world, q);
  }

  // An execution that first saves two records and then goes on.
  predicate SavesFirst(e: Exec, a: Project, b: Project) {
    |e.saves| >= 2 && e.saves[0] == a && e.saves[1] == b
  }

  function Rest(e: Exec): Exec
    requires |e.saves| >= 2
  {
    Exec(e.saves[2..], e.last, e.outcome)
  }

  lemma {:induction false} SavedFirst(a: Project, b: Project, rest: Exec)
    ensures var e := Seq(Exec([a, b], b, Ok), rest); SavesFirst(e, a, b) && Rest(e) == rest
  {
    assert ([a, b] + rest.saves)[2..] == rest.saves;
  }

  // A review that is on record decides alone: unless it asks for changes, or evidence overrules its COMPLETE, the
  // project goes on to its final verification.
  lemma {:induction false} ReviewDecides(cfg: Config, world: World, p: Project)
    requires Inv(cfg, p) && p.state == CouncilReview && p.iteration in p.reviews
    ensures ActsOnReview(cfg, p, p.reviews[p.iteration], FinishReview(cfg, world, p))
  {
    hide ActsOnReview, ActOnReview, Inv, Seq;
    FollowActs(cfg, world, p);
    SilentSeq(p, ActOnReview(cfg, world, p));
  }

  // The Council is asked once per iteration, on the stored project. Without an answer nothing is recorded; the answer
  // is recorded as it was given; and then it decides.
  lemma {:induction false} ReviewFollowsTheAnswer(cfg: Config, world: World, p: Project)
    requires Inv(cfg, p) && p.state == CouncilReview && p.iteration !in p.reviews
    ensures var shown := p.(operation := ReviewOp);
            var answer := world(shown).review;
            var e := FinishReview(cfg, world, p);
            && (answer.None? ==> e == Exec([shown, shown], shown, Threw(StageFailed)))
            && (answer.Some? ==>
                  var asked := shown.(reviews := p.reviews[p.iteration := answer.value]);
                  SavesFirst(e, shown, asked) && ActsOnReview(cfg, asked, answer.value, Rest(e)))
  {
    hide ActsOnReview, ActOnReview;
    var shown := p.(operation := ReviewOp);
    var answer := world(shown).review;
    if answer.Some? {
      var asked := shown.(reviews := p.reviews[p.iteration := answer.value]);
      AskedIsSound(cfg, world, p, asked);
      FollowActs(cfg, world, asked);
      hide Inv;
      assert AskReview(world, p) == Exec([shown, asked], asked, Ok);
      SavedFirst(shown, asked, ActOnReview(cfg, world, asked));
      hide Seq, SavesFirst, Rest;
    }
  }

  lemma {:induction false} AskedIsSound(cfg: Config, world: World, p: Project, asked: Project)
    requires Inv(cfg, p) && IsActive(p.state)
    requires asked == p.(operation := asked.operation, reviews := asked.reviews, final := asked.final)
    ensures Inv(cfg, asked)
  {
    hide RunsOk, RunsFit, SpecFits, ProvisionsFirst, Walk, Cert, Delivery.LedgerOk, Delivery.Evolves, EnteredThroughGate, Remaining;
    RecordStep(cfg, world, p, asked);
  }

  // ---- One final decision ----

  // The decision asks for the next iteration and moves to the history of finals; or the gate is asked, and only an
  // open gate lets the project enter its delivery.
  ghost predicate ActsOnFinal(cfg: Config, world: World, p: Project, f: FinalReview, e: Exec) {
    if f.decision == ChangesRequired then Reworks(cfg, p.(finalHistory := p.finalHistory + [f], final := None), e)
    else if Gate.GateOk(p, Gate.Settings(cfg.maxIterations, world(p).securityClear))
    then e.saves != [] && e.saves[0] == Moved(p, DeliveryPreparation)
    else e == Exec([], p, Threw(GateRejected))
  }

  lemma {:induction false} DeliveryIsEntered(cfg: Config, world: World, p: Project)
    requires p.state == FinalVerification && Gate.GateOk(p, SettingsFor(cfg, world, p))
    ensures var e := EnterDelivery(cfg, world, p); e.saves != [] && e.saves[0] == Moved(p, DeliveryPreparation)
  {
    hide Gate.GateOk, FinishDelivery;
    assert Enter(p, DeliveryPreparation) == Save(Moved(p, DeliveryPreparation));
  }

  lemma {:induction false} FinalActs(cfg: Config, world: World, p: Project)
    requires Inv(cfg, p) && p.state == FinalVerification && p.final.Some?
    ensures ActsOnFinal(cfg, world, p, p.final.value, ActOnFinal(cfg, world, p))
  {
    hide Gate.GateOk, FinishDelivery, RequestChanges, Reworks;
    if p.final.value.decision == ChangesRequired {
      var q := p.(finalHistory := p.finalHistory + [p.final.value], final := None);
      assert !MustProvision(q) && MustProvision(q) == MustProvision(p);
      RequestReworks(cfg, world, q);
    } else if Gate.GateOk(p, SettingsFor(cfg, world, p)) {
      DeliveryIsEntered(cfg, world, p);
    }
  }

  // A final decision that counts the runs there are is not asked for again, and decides alone.
  lemma {:induction false} FinalDecides(cfg: Config, world: World, p: Project)
    requires Inv(cfg, p) && p.state == FinalVerification
    requires p.final.Some? && p.final.value.cursorCount == |p.cursorRuns|
    ensures ActsOnFinal(cfg, world, p, p.final.value, FinishFinal(cfg, world, p))
  {
    hide ActsOnFinal, ActOnFinal, Inv, Seq;
    FinalActs(cfg, world, p);
    SilentSeq(p, ActOnFinal(cfg, world, p));
  }

  // Otherwise the Council is asked, and its answer is recorded with the number of runs it was given for.
  lemma {:induction false} FinalFollowsTheAnswer(cfg: Config, world: World, p: Project)
    requires Inv(cfg, p) && p.state == FinalVerification
    requires p.final.None? || p.final.value.cursorCount != |p.cursorRuns|
    ensures var shown := p.(operation := FinalOp);
            var answer := world(shown).final;
            var e := FinishFinal(cfg, world, p);
            && (answer.None? ==> e == Exec([shown, shown], shown, Threw(StageFailed)))
            && (answer.Some? ==>
                  var f := FinalReview(answer.value, |p.cursorRuns|);
                  var asked := shown.(final := Some(f));
                  SavesFirst(e, shown, asked) && ActsOnFinal(cfg, world, asked, f, Rest(e)))
  {
    hide ActsOnFinal, ActOnFinal;
    var shown := p.(operation := FinalOp);
    var answer := world(shown).final;
    if answer.Some? {
      var asked := shown.(final := Some(FinalReview(answer.value, |p.cursorRuns|)));
      AskedIsSound(cfg, world, p, asked);
      FinalActs(cfg, world, asked);
      hide Inv;
      assert AskFinal(world, p) == Exec([shown, asked], asked, Ok);
      SavedFirst(shown, asked, ActOnFinal(cfg, world, asked));
      hide Seq, SavesFirst, Rest;
    }
  }
}
