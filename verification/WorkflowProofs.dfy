// What every step of the workflow keeps, for every world, at every point where it may throw or crash.
module WorkflowProofs {
  import opened Text
  import opened States
  import opened Records
  import opened Workflow
  import Lineage
  import Verification
  import Gate
  import Delivery

  // ---- The invariant ----

  function Cap(cfg: Config): nat {
    if cfg.maxIterations == 0 then 1 else cfg.maxIterations
  }

  // A run that has no result carries nothing that looks like one.
  predicate Bare(r: CursorRun) {
    !r.hasResult && r.evidence.None? && r.status != Completed && r.checkpointSha == ""
  }

  // The Cursor ledger: iterations strictly increase and never pass the project's, so there is at most one run
  // per iteration; only the last run may lack a result, and then it belongs to the current iteration.
  predicate RunsOk(runs: seq<CursorRun>, iteration: nat) {
    && (forall i :: 0 <= i < |runs| ==> 1 <= runs[i].iteration <= iteration)
    && (forall i, j :: 0 <= i < j < |runs| ==> runs[i].iteration < runs[j].iteration)
    && (forall i :: 0 <= i < |runs| - 1 ==> runs[i].hasResult)
    && (Unfinished(runs) ==> runs[|runs| - 1].iteration == iteration && Bare(runs[|runs| - 1]))
  }

  predicate Unfinished(runs: seq<CursorRun>) {
    runs != [] && !runs[|runs| - 1].hasResult
  }

  predicate Finished(runs: seq<CursorRun>) {
    runs != [] && runs[|runs| - 1].hasResult
  }

  predicate BeforeCursor(s: State) {
    s in {IdeaSubmitted, CouncilDiscovery, SpecificationReady, ProjectProvisioning}
  }

  predicate AfterCursor(s: State) {
    !BeforeCursor(s) && s != CursorExecuting && s != Failed
  }

  predicate RunsFit(runs: seq<CursorRun>, s: State) {
    && (AfterCursor(s) ==> Finished(runs))
    && (BeforeCursor(s) ==> !Unfinished(runs))
  }

  predicate SpecFits(p: Project) {
    (p.iteration > 0 || p.cursorRuns != [] || p.state !in {IdeaSubmitted, CouncilDiscovery, Failed}) ==> HasValidSpec(p)
  }

  // A project that still must be provisioned has not been worked on.
  predicate ProvisionsFirst(p: Project) {
    MustProvision(p) ==>
      p.cursorRuns == [] && p.iteration == 0 && (BeforeCursor(p.state) || p.state == Failed)
  }

  predicate Flow(cfg: Config, p: Project) {
    && Walk(p.history, p.state)
    && p.iteration <= Cap(cfg)
    && RunsOk(p.cursorRuns, p.iteration)
    && RunsFit(p.cursorRuns, p.state)
    && SpecFits(p)
    && ProvisionsFirst(p)
    && (!cfg.queue && p.state == ProjectProvisioning ==> p.cursorRuns == [] && p.iteration == 0)
  }

  // What a project in READY_FOR_OWNER_REVIEW has to show, whatever error was recorded on it since.
  ghost predicate Cert(cfg: Config, p: Project) {
    && Gate.ReadyOk(p.(error := false), Gate.Settings(cfg.maxIterations, true))
    && Lineage.LineageOk(p.(error := false))
  }

  ghost predicate Inv(cfg: Config, p: Project) {
    && Flow(cfg, p)
    && Delivery.LedgerOk(p.deliveries, p.ownerReviews)
    && (p.state == ReadyForOwnerReview ==> Cert(cfg, p))
  }

  // ---- The measure ----

  function Rank(s: State): nat {
    match s
    case OwnerChangesRequested => 13
    case IdeaSubmitted => 12
    case CouncilDiscovery => 11
    case SpecificationReady => 10
    case ProjectProvisioning => 9
    case CursorExecuting => 8
    case PlatformVerification => 7
    case RuntimeVerification => 6
    case VisualVerification => 5
    case CouncilReview => 4
    case FinalVerification => 3
    case DeliveryPreparation => 2
    case ReadyForOwnerReview => 0
    case OwnerApproved => 0
    case Done => 0
    case Failed => 0
  }

  // An upper bound on the number of transitions the engine can still make on its own.
  function Remaining(cfg: Config, p: Project): nat
    requires p.iteration <= Cap(cfg)
  {
    if IsActive(p.state) then (Cap(cfg) - p.iteration) * 14 + Rank(p.state) else 0
  }

  // ---- What one autonomous step may do ----

  predicate Grows(cfg: Config, p: Project, q: Project)
    requires p.iteration <= Cap(cfg) && q.iteration <= Cap(cfg)
  {
    && p.history <= q.history
    && p.iteration <= q.iteration
    && |q.history| + Remaining(cfg, q) <= |p.history| + Remaining(cfg, p)
    && (q.error ==> p.error)
    && (p.state == ReadyForOwnerReview ==> q == p)
    && (q.state in {OwnerApproved, Done} ==> q.state == p.state)
    && q.id == p.id && q.demo == p.demo && q.existingRepository == p.existingRepository
    && q.ownerReviews == p.ownerReviews
  }

  // What finishing the delivery of x leaves when nothing objects.
  ghost function Delivered(world: World, x: Project): Project {
    x.(deliveries := Delivery.Prepare(x, world(x).packaged).deliveries)
  }

  ghost function Offered(world: World, x: Project): Project {
    Moved(WithLevel(Delivered(world, x)), ReadyForOwnerReview)
  }

  function WithLevel(p: Project): Project {
    p.(verificationLevel :=
         if Lineage.MergedEvidence(p).Some? then Some(Lineage.MergedEvidence(p).value.level) else None)
  }

  // x is the project of the action that started from p: it goes on where p's history stops, it is in
  // DELIVERY_PREPARATION, and finishing its delivery makes q.
  ghost predicate Prepared(world: World, p: Project, x: Project, q: Project) {
    && x.state == DeliveryPreparation && x.id == p.id && p.history <= x.history
    && q == Offered(world, x)
  }

  // The gate, asked about the project being delivered with the world's own verdict on its security, was open.
  ghost predicate EnteredThroughGate(cfg: Config, world: World, p: Project, q: Project) {
    !q.error && exists x: Project :: Prepared(world, p, x, q) && Gate.ReadyOk(q, SettingsFor(cfg, world, x))
  }

  lemma {:induction false} EnteredFromEarlier(cfg: Config, world: World, p: Project, q: Project, r: Project)
    requires EnteredThroughGate(cfg, world, q, r) && q.id == p.id && p.history <= q.history
    ensures EnteredThroughGate(cfg, world, p, r)
  {
    hide Offered, Gate.ReadyOk;
    var x: Project :| Prepared(world, q, x, r) && Gate.ReadyOk(r, SettingsFor(cfg, world, x));
    assert Prepared(world, p, x, r);
  }

  ghost predicate SoundStep(cfg: Config, world: World, p: Project, q: Project)
    requires p.iteration <= Cap(cfg)
  {
    && Inv(cfg, q) && Grows(cfg, p, q) && Delivery.Evolves(p.deliveries, q.deliveries)
    && (q.state == ReadyForOwnerReview && p.state != ReadyForOwnerReview ==> EnteredThroughGate(cfg, world, p, q))
  }

  // Every snapshot written, and the record left in memory, is a sound step; no illegal edge is requested; and
  // success means that at least one transition was made and saved.
  ghost predicate Progress(cfg: Config, world: World, p: Project, e: Exec)
    requires p.iteration <= Cap(cfg)
  {
    && (forall q :: q in e.saves ==> SoundStep(cfg, world, p, q))
    && SoundStep(cfg, world, p, e.last)
    && e.outcome != Threw(InvalidTransition)
    && (e.outcome.Ok? ==> e.saves != [] && e.saves[|e.saves| - 1] == e.last && |e.last.history| > |p.history|)
  }

  lemma {:induction false} StepComposes(cfg: Config, world: World, p: Project, q: Project, r: Project)
    requires p.iteration <= Cap(cfg) && q.iteration <= Cap(cfg) && SoundStep(cfg, world, p, q) && SoundStep(cfg, world, q, r)
    ensures SoundStep(cfg, world, p, r)
  {
    hide Inv, EnteredThroughGate, Delivery.Evolves, Remaining;
    Delivery.EvolvesTransitively(p.deliveries, q.deliveries, r.deliveries);
    if r.state == ReadyForOwnerReview && p.state != ReadyForOwnerReview && q.state != ReadyForOwnerReview {
      EnteredFromEarlier(cfg, world, p, q, r);
    }
  }

  lemma {:induction false} ProgressAfter(cfg: Config, world: World, p: Project, q: Project, e: Exec)
    requires p.iteration <= Cap(cfg) && q.iteration <= Cap(cfg) && SoundStep(cfg, world, p, q) && Progress(cfg, world, q, e)
    ensures Progress(cfg, world, p, e)
  {
    forall r | r in e.saves ensures SoundStep(cfg, world, p, r) {
      StepComposes(cfg, world, p, q, r);
    }
    StepComposes(cfg, world, p, q, e.last);
    assert |q.history| >= |p.history|;
  }

  // Sequencing: first saves what it did, then `then` makes progress from there.
  lemma {:induction false} ProgressThen(cfg: Config, world: World, p: Project, first: Exec, second: Exec)
    requires p.iteration <= Cap(cfg) && first.outcome.Ok? && SoundStep(cfg, world, p, first.last)
    requires forall q :: q in first.saves ==> SoundStep(cfg, world, p, q)
    requires first.last.iteration <= Cap(cfg) && Progress(cfg, world, first.last, second)
    ensures Progress(cfg, world, p, Seq(first, second))
  {
    ProgressAfter(cfg, world, p, first.last, second);
    var e := Seq(first, second);
    forall q | q in e.saves ensures SoundStep(cfg, world, p, q) {
      assert q in first.saves || q in second.saves;
    }
  }

  lemma {:induction false} SavedThen(cfg: Config, world: World, p: Project, q: Project, e: Exec)
    requires p.iteration <= Cap(cfg) && q.iteration <= Cap(cfg) && SoundStep(cfg, world, p, q) && Progress(cfg, world, q, e)
    ensures Progress(cfg, world, p, Seq(Save(q), e))
  {
    ProgressThen(cfg, world, p, Save(q), e);
  }

  lemma {:induction false} ThrowSaves(cfg: Config, world: World, p: Project, e: Exec)
    requires p.iteration <= Cap(cfg) && Progress(cfg, world, p, e)
    ensures Progress(cfg, world, p, SaveOnThrow(e))
  {
  }

  lemma {:induction false} RaiseIsSound(cfg: Config, world: World, p: Project, q: Project, c: Code)
    requires p.iteration <= Cap(cfg) && SoundStep(cfg, world, p, q) && c != InvalidTransition
    ensures Progress(cfg, world, p, Raise(q, c))
    ensures Progress(cfg, world, p, SaveOnThrow(Raise(q, c)))
  {
  }

  // ---- Elementary steps ----

  // Rewriting runs without touching iterations, results or the bareness of an unfinished one.
  predicate RunsAlike(a: seq<CursorRun>, b: seq<CursorRun>) {
    && |a| == |b|
    && (forall i :: 0 <= i < |a| ==> b[i].iteration == a[i].iteration && b[i].hasResult == a[i].hasResult)
    && (forall i :: 0 <= i < |a| ==> Bare(a[i]) ==> Bare(b[i]))
  }

  predicate SameBasics(p: Project, q: Project) {
    && q.id == p.id && q.demo == p.demo && q.existingRepository == p.existingRepository
    && q.ownerReviews == p.ownerReviews && q.deliveries == p.deliveries && q.error == p.error
  }

  predicate SameFlow(p: Project, q: Project) {
    && SameBasics(p, q)
    && q.state == p.state && q.iteration == p.iteration && q.history == p.history
    && (HasValidSpec(p) ==> HasValidSpec(q))
    && MustProvision(q) == MustProvision(p)
    && RunsAlike(p.cursorRuns, q.cursorRuns)
  }

  lemma {:induction false} EvolvesIsReflexive(ds: seq<Records.Delivery>)
    ensures Delivery.Evolves(ds, ds)
  {
  }

  lemma {:induction false} AlikeRunsOk(a: seq<CursorRun>, b: seq<CursorRun>, iteration: nat)
    requires RunsOk(a, iteration) && RunsAlike(a, b)
    ensures RunsOk(b, iteration) && Unfinished(a) == Unfinished(b) && Finished(a) == Finished(b)
  {
  }

  // Recording evidence, an operation, a review and the like keeps the invariant.
  lemma {:induction false} RecordStep(cfg: Config, world: World, p: Project, q: Project)
    requires Inv(cfg, p) && IsActive(p.state) && SameFlow(p, q)
    ensures SoundStep(cfg, world, p, q)
  {
    AlikeRunsOk(p.cursorRuns, q.cursorRuns, p.iteration);
    EvolvesIsReflexive(p.deliveries);
  }

  function Moved(p: Project, to: State): Project {
    p.(state := to, history := p.history + [Edge(p.state, to)])
  }

  lemma {:induction false} WalkExtends(log: seq<Edge>, from: State, to: State)
    requires Walk(log, from) && Legal(from, to)
    ensures Walk(log + [Edge(from, to)], to)
  {
  }

  // A legal edge to a state of lower rank whose entry condition holds.
  lemma {:induction false} MoveStep(cfg: Config, world: World, p: Project, to: State)
    requires Inv(cfg, p) && IsActive(p.state) && IsActive(to) && Legal(p.state, to) && Rank(to) < Rank(p.state)
    requires RunsFit(p.cursorRuns, to) && (to != CouncilDiscovery ==> HasValidSpec(p))
    requires MustProvision(p) ==> BeforeCursor(to)
    requires !cfg.queue && to == ProjectProvisioning ==> p.cursorRuns == [] && p.iteration == 0
    ensures SoundStep(cfg, world, p, Moved(p, to))
    ensures Progress(cfg, world, p, Transition(p, to))
  {
    hide Cert, Delivery.LedgerOk, Delivery.Evolves, EnteredThroughGate;
    WalkExtends(p.history, p.state, to);
    EvolvesIsReflexive(p.deliveries);
  }

  predicate CanRun(p: Project) {
    p.iteration > 0 && p.state == CursorExecuting && !HasResultForIteration(p)
  }

  // Opening the next iteration; the engine comes here only when the last run has a result.
  lemma {:induction false} NextIteration(cfg: Config, world: World, p: Project)
    requires Inv(cfg, p) && IsActive(p.state) && Legal(p.state, CursorExecuting)
    requires !MustProvision(p) && p.iteration < cfg.maxIterations && !Unfinished(p.cursorRuns)
    ensures var q := Moved(p.(iteration := p.iteration + 1), CursorExecuting);
            SoundStep(cfg, world, p, q) && CanRun(q) && !MustProvision(q) && OpenIteration(p) == Save(q)
  {
    var q := Moved(p.(iteration := p.iteration + 1), CursorExecuting);
    NextIterationFlows(cfg, p, q);
    NextIterationGrows(cfg, p, q);
    OpensIteration(p);
    EvolvesIsReflexive(p.deliveries);
    hide Flow, Delivery.LedgerOk, Delivery.Evolves, MustProvision, Grows, CanRun, OpenIteration;
  }

  lemma {:induction false} OpensIteration(p: Project)
    requires p.state != CursorExecuting && Legal(p.state, CursorExecuting)
    ensures OpenIteration(p) == Save(Moved(p.(iteration := p.iteration + 1), CursorExecuting))
  {
  }

  lemma {:induction false} NextIterationFlows(cfg: Config, p: Project, q: Project)
    requires Flow(cfg, p) && IsActive(p.state) && Legal(p.state, CursorExecuting)
    requires !MustProvision(p) && p.iteration < cfg.maxIterations && !Unfinished(p.cursorRuns)
    requires q == Moved(p.(iteration := p.iteration + 1), CursorExecuting)
    ensures Flow(cfg, q) && CanRun(q) && !MustProvision(q)
  {
    hide Walk, MustProvision;
    WalkExtends(p.history, p.state, CursorExecuting);
    ProvisioningIgnoresState(p, q);
  }

  lemma {:induction false} NextIterationGrows(cfg: Config, p: Project, q: Project)
    requires Flow(cfg, p) && IsActive(p.state) && p.iteration < cfg.maxIterations
    requires q == Moved(p.(iteration := p.iteration + 1), CursorExecuting)
    ensures q.iteration <= Cap(cfg) && Grows(cfg, p, q)
  {
    hide RunsOk, RunsFit, SpecFits, ProvisionsFirst, Walk;
  }

  lemma {:induction false} ProvisioningIgnoresState(p: Project, q: Project)
    requires q == p.(state := q.state, history := q.history, iteration := q.iteration)
    ensures MustProvision(q) == MustProvision(p) && HasValidSpec(q) == HasValidSpec(p)
  {
  }

  // ---- Delivery ----

  lemma {:induction false} RuntimeFrame(p: Project, q: Project, reason: Gate.Reason)
    requires q == p.(state := q.state, history := q.history, verificationLevel := q.verificationLevel, error := q.error)
    ensures Gate.RuntimeRejects(q, reason) == Gate.RuntimeRejects(p, reason)
  {
  }

  lemma {:induction false} VisualFrame(p: Project, q: Project, reason: Gate.Reason)
    requires q == p.(state := q.state, history := q.history, verificationLevel := q.verificationLevel, error := q.error)
    ensures Gate.VisualRejects(q, reason) == Gate.VisualRejects(p, reason)
  {
  }

  // The gate reads neither the state nor the history, and the recorded level only through the mock policy.
  lemma {:induction false} GateFrame(p: Project, q: Project, settings: Gate.Settings, reason: Gate.Reason)
    requires q == p.(state := q.state, history := q.history, verificationLevel := q.verificationLevel)
    requires q.verificationLevel == Some(MockLevel) ==> Lineage.HasMockEvidence(p)
    ensures Gate.Rejects(q, settings, reason) ==> Gate.Rejects(p, settings, reason)
  {
    hide Gate.RuntimeRejects, Gate.VisualRejects, LatestAt;
    RuntimeFrame(p, q, reason);
    VisualFrame(p, q, reason);
  }

  lemma {:induction false} LineageFrame(p: Project, q: Project, checkpoint: string, reason: Lineage.LineageReason)
    requires q == p.(state := q.state, history := q.history, verificationLevel := q.verificationLevel)
    requires q.verificationLevel == Some(MockLevel) ==> Lineage.HasMockEvidence(p)
    ensures Lineage.LineageRejects(q, checkpoint, reason) ==> Lineage.LineageRejects(p, checkpoint, reason)
  {
  }

  lemma {:induction false} EvidenceSetFrame(p: Project, q: Project)
    requires q == p.(state := q.state, history := q.history, verificationLevel := q.verificationLevel)
    ensures Lineage.EvidenceSetOf(q) == Lineage.EvidenceSetOf(p) && FinalCheckpoint(q) == FinalCheckpoint(p)
  {
  }

  lemma {:induction false} DeliveryFrame(p: Project, q: Project, x: Gate.DeliveryReason)
    requires q == p.(state := q.state, history := q.history, verificationLevel := q.verificationLevel)
    ensures Gate.DeliveryRejects(q, x) == Gate.DeliveryRejects(p, x)
  {
    EvidenceSetFrame(p, q);
    var d := Lineage.CurrentDelivery(p);
    assert Lineage.CurrentDelivery(q) == d;
    assert d.Some? ==> Lineage.DeliveryIsCurrent(q, d.value) == Lineage.DeliveryIsCurrent(p, d.value);
  }

  lemma {:induction false} CertFrame(cfg: Config, p: Project, q: Project, settings: Gate.Settings)
    requires Gate.ReadyOk(p, settings) && Lineage.LineageOk(p) && settings.maxIterations == cfg.maxIterations
    requires q == p.(state := q.state, history := q.history, verificationLevel := q.verificationLevel)
    requires q.verificationLevel == Some(MockLevel) ==> Lineage.HasMockEvidence(p)
    ensures Cert(cfg, q) && !q.error && Gate.ReadyOk(q, settings)
  {
    var clear := Gate.Settings(cfg.maxIterations, true);
    assert !Gate.Rejects(p, settings, Gate.UnresolvedError);
    assert q.(error := false) == q;
    forall reason ensures !Gate.Rejects(q, settings, reason) && !Gate.Rejects(q, clear, reason) {
      GateFrame(p, q, settings, reason);
      assert !Gate.Rejects(p, settings, reason);
    }
    forall x ensures !Gate.DeliveryRejects(q, x) {
      DeliveryFrame(p, q, x);
    }
    forall reason ensures !Lineage.LineageRejects(q, FinalCheckpoint(q), reason) {
      LineageFrame(p, q, FinalCheckpoint(p), reason);
    }
  }

  lemma {:induction false} DeliveredStep(cfg: Config, world: World, p: Project)
    requires Inv(cfg, p) && p.state == DeliveryPreparation
    ensures var q := p.(deliveries := Delivery.Prepare(p, world(p).packaged).deliveries);
            SoundStep(cfg, world, p, q)
  {
    Delivery.PrepareKeepsLedger(p, world(p).packaged);
  }

  lemma {:induction false} LevelComesFromEvidence(p: Project)
    ensures var r := WithLevel(p);
            && r == p.(verificationLevel := r.verificationLevel)
            && (r.verificationLevel == Some(MockLevel) ==> Lineage.HasMockEvidence(p))
  {
  }

  lemma {:induction false} OfferedIsPrepared(cfg: Config, world: World, p: Project)
    requires p.state == DeliveryPreparation && !p.error
    requires Gate.ReadyOk(Offered(world, p), SettingsFor(cfg, world, p))
    ensures EnteredThroughGate(cfg, world, Delivered(world, p), Offered(world, p))
  {
    hide Gate.ReadyOk, Delivery.Prepare;
    LevelComesFromEvidence(Delivered(world, p));
    hide WithLevel;
    assert Prepared(world, Delivered(world, p), p, Offered(world, p));
  }

  // Entering READY_FOR_OWNER_REVIEW certifies the project.
  lemma {:induction false} ReadyStep(cfg: Config, world: World, p: Project)
    requires Inv(cfg, Delivered(world, p)) && p.state == DeliveryPreparation
    requires Gate.ReadyOk(Delivered(world, p), SettingsFor(cfg, world, p)) && Lineage.LineageOk(Delivered(world, p))
    ensures SoundStep(cfg, world, Delivered(world, p), Offered(world, p))
    ensures Progress(cfg, world, Delivered(world, p), Transition(WithLevel(Delivered(world, p)), ReadyForOwnerReview))
  {
    hide Gate.ReadyOk, Delivery.Prepare, Lineage.LineageOk, Delivery.LedgerOk, Delivery.Evolves, EnteredThroughGate;
    var q := Delivered(world, p);
    var r := WithLevel(q);
    EvolvesIsReflexive(q.deliveries);
    LevelComesFromEvidence(q);
    hide WithLevel, Cert;
    CertFrame(cfg, q, Offered(world, p), SettingsFor(cfg, world, p));
    ReadyFlow(cfg, q, r);
    OfferedIsPrepared(cfg, world, p);
    hide Flow;
  }

  lemma {:induction false} ReadyFlow(cfg: Config, p: Project, r: Project)
    requires Flow(cfg, p) && p.state == DeliveryPreparation && r == p.(verificationLevel := r.verificationLevel)
    ensures Flow(cfg, Moved(r, ReadyForOwnerReview))
  {
    WalkExtends(p.history, p.state, ReadyForOwnerReview);
  }

  lemma {:induction false} FinishDeliveryProgress(cfg: Config, world: World, p: Project)
    requires Inv(cfg, p) && p.state == DeliveryPreparation
    ensures Progress(cfg, world, p, FinishDelivery(cfg, world, p))
  {
    hide RunsOk, RunsFit, SpecFits, ProvisionsFirst, Walk, Cert, Delivery.LedgerOk, Delivery.Evolves, EnteredThroughGate, Remaining;
    var prepared := Delivery.Prepare(p, world(p).packaged);
    var q := p.(deliveries := prepared.deliveries);
    DeliveredStep(cfg, world, p);
    if prepared.ok && Gate.ReadyOk(q, SettingsFor(cfg, world, p)) {
      Delivery.PreparedLineageStaysOk(p, world(p).packaged);
      var r := WithLevel(q);
      ReadyStep(cfg, world, p);
      ProgressAfter(cfg, world, p, q, Transition(r, ReadyForOwnerReview));
    }
  }

  lemma {:induction false} EnterDeliveryProgress(cfg: Config, world: World, p: Project)
    requires Inv(cfg, p) && p.state == FinalVerification
    ensures Progress(cfg, world, p, EnterDelivery(cfg, world, p))
  {
    hide Walk, Cert, Delivery.LedgerOk, Delivery.Evolves, EnteredThroughGate, Remaining, RunsOk;
    hide FinishDelivery;
    if Gate.GateOk(p, SettingsFor(cfg, world, p)) {
      MoveStep(cfg, world, p, DeliveryPreparation);
      var q := Moved(p, DeliveryPreparation);
      FinishDeliveryProgress(cfg, world, q);
      SavedThen(cfg, world, p, q, FinishDelivery(cfg, world, q));
    } else {
      RecordStep(cfg, world, p, p);
    }
  }

  // ---- Visual, runtime and platform verification ----

  lemma {:induction false} EvidenceRunsAlike(p: Project, e: Option<Evidence>)
    requires Finished(p.cursorRuns)
    ensures RunsAlike(p.cursorRuns, WithLastEvidence(p, e).cursorRuns)
    ensures WithLastEvidence(p, e) == p.(cursorRuns := WithLastEvidence(p, e).cursorRuns)
  {
  }

  // A stage that records evidence on the project and on its last run.
  lemma {:induction false} EvidenceStep(cfg: Config, world: World, p: Project, q: Project, e: Option<Evidence>)
    requires Inv(cfg, p) && IsActive(p.state) && Finished(p.cursorRuns)
    requires SameFlow(p, q) && q.cursorRuns == p.cursorRuns
    ensures SoundStep(cfg, world, p, WithLastEvidence(q, e)) && WithLastEvidence(q, e).state == p.state
  {
    EvidenceRunsAlike(q, e);
    RecordStep(cfg, world, p, WithLastEvidence(q, e));
  }

  lemma {:induction false} ReviewNext(cfg: Config, world: World, p: Project)
    requires Inv(cfg, p) && p.state in {PlatformVerification, RuntimeVerification, VisualVerification}
    ensures Progress(cfg, world, p, Transition(p, CouncilReview))
  {
    MoveStep(cfg, world, p, CouncilReview);
  }

  lemma {:induction false} ThrowAfterSave(cfg: Config, world: World, p: Project, q: Project)
    requires Inv(cfg, p) && IsActive(p.state) && SameFlow(p, q)
    ensures SoundStep(cfg, world, p, q)
    ensures Progress(cfg, world, p, Seq(Save(q), SaveOnThrow(Raise(q, StageFailed))))
  {
    RecordStep(cfg, world, p, q);
    RecordStep(cfg, world, q, q);
    RaiseIsSound(cfg, world, q, q, StageFailed);
    SavedThen(cfg, world, p, q, SaveOnThrow(Raise(q, StageFailed)));
  }

  lemma {:induction false} RecordVisualStep(cfg: Config, world: World, p: Project, run: VisualRun)
    requires Inv(cfg, p) && p.state == VisualVerification
    ensures SoundStep(cfg, world, p, RecordVisual(p, run)) && RecordVisual(p, run).state == p.state
  {
    var patch := Some(Verification.EvidenceFromVisual(p, run));
    var done := run.(iteration := StageIteration(p), completed := true, evidencePatch := patch);
    EvidenceStep(cfg, world, p, p.(visualRuns := AddVisual(p.visualRuns, done), evidence := patch), patch);
  }

  lemma {:induction false} PerformVisualProgress(cfg: Config, world: World, p: Project)
    requires Inv(cfg, p) && p.state == VisualVerification
    ensures Progress(cfg, world, p, PerformVisual(world, p))
  {
    hide RunsOk, RunsFit, SpecFits, ProvisionsFirst, Walk, Cert, Delivery.LedgerOk, Delivery.Evolves, EnteredThroughGate, Remaining;
    hide RecordVisual;
    var q := p.(operation := VisualOp);
    ThrowAfterSave(cfg, world, p, q);
    if world(q).visual.Some? {
      var r := RecordVisual(q, world(q).visual.value);
      RecordVisualStep(cfg, world, q, world(q).visual.value);
      ReviewNext(cfg, world, r);
      ThrowSaves(cfg, world, r, Transition(r, CouncilReview));
      SavedThen(cfg, world, q, r, SaveOnThrow(Transition(r, CouncilReview)));
      SavedThen(cfg, world, p, q, Seq(Save(r), SaveOnThrow(Transition(r, CouncilReview))));
    }
  }

  lemma {:induction false} FinishVisualProgress(cfg: Config, world: World, p: Project)
    requires Inv(cfg, p) && p.state == VisualVerification
    ensures Progress(cfg, world, p, FinishVisual(cfg, world, p))
  {
    hide PerformVisual;
    var reused := FindReusableVisual(p);
    var existing := LatestVisual(p, p.iteration);
    if reused.Some? {
      var q := p.(evidence := FirstOf(reused.value.evidencePatch, p.evidence),
                  visualRuns := AddVisual(p.visualRuns, reused.value));
      RecordStep(cfg, world, p, q);
      ReviewNext(cfg, world, q);
      SavedThen(cfg, world, p, q, Transition(q, CouncilReview));
    } else if existing.Some? && existing.value.completed && StillCurrent(p, existing.value.checkpointSha) {
      ReviewNext(cfg, world, p);
    } else {
      PerformVisualProgress(cfg, world, p);
    }
  }

  lemma {:induction false} EnterVisualProgress(cfg: Config, world: World, p: Project)
    requires Inv(cfg, p) && p.state == RuntimeVerification
    ensures Progress(cfg, world, p, EnterVisual(cfg, world, p))
  {
    hide Walk, Cert, Delivery.LedgerOk, Delivery.Evolves, EnteredThroughGate, Remaining, RunsOk;
    hide FinishVisual;
    MoveStep(cfg, world, p, VisualVerification);
    if !cfg.queue {
      var q := Moved(p, VisualVerification);
      FinishVisualProgress(cfg, world, q);
      SavedThen(cfg, world, p, q, FinishVisual(cfg, world, q));
    }
  }

  lemma {:induction false} AfterRuntimeProgress(cfg: Config, world: World, p: Project, run: RuntimeRun)
    requires Inv(cfg, p) && p.state == RuntimeVerification
    ensures Progress(cfg, world, p, AfterRuntime(cfg, world, p, run))
  {
    hide EnterVisual;
    ReviewNext(cfg, world, p);
    EnterVisualProgress(cfg, world, p);
  }

  lemma {:induction false} RecordRuntimeStep(cfg: Config, world: World, p: Project, run: RuntimeRun)
    requires Inv(cfg, p) && p.state == RuntimeVerification
    ensures SoundStep(cfg, world, p, RecordRuntime(p, run).0) && RecordRuntime(p, run).0.state == p.state
  {
    var patch := Some(Verification.EvidenceFromRuntime(p, run));
    var done := run.(iteration := StageIteration(p), completed := true, evidencePatch := patch);
    EvidenceStep(cfg, world, p, p.(runtimeRuns := AddRuntime(p.runtimeRuns, done), evidence := patch), patch);
  }

  lemma {:induction false} PerformRuntimeProgress(cfg: Config, world: World, p: Project)
    requires Inv(cfg, p) && p.state == RuntimeVerification
    ensures Progress(cfg, world, p, PerformRuntime(cfg, world, p))
  {
    hide AfterRuntime, RecordRuntime;
    var q := p.(operation := RuntimeOp);
    ThrowAfterSave(cfg, world, p, q);
    if world(q).runtime.Some? {
      var (r, done) := RecordRuntime(q, world(q).runtime.value);
      RecordRuntimeStep(cfg, world, q, world(q).runtime.value);
      AfterRuntimeProgress(cfg, world, r, done);
      SavedThen(cfg, world, q, r, AfterRuntime(cfg, world, r, done));
      SavedThen(cfg, world, p, q, Seq(Save(r), AfterRuntime(cfg, world, r, done)));
    }
  }

  lemma {:induction false} FinishRuntimeProgress(cfg: Config, world: World, p: Project)
    requires Inv(cfg, p) && p.state == RuntimeVerification
    ensures Progress(cfg, world, p, FinishRuntime(cfg, world, p))
  {
    hide AfterRuntime, PerformRuntime;
    var reused := FindReusableRuntime(p);
    var existing := LatestRuntime(p, p.iteration);
    if reused.Some? {
      var q := p.(evidence := FirstOf(reused.value.evidencePatch, p.evidence),
                  runtimeRuns := AddRuntime(p.runtimeRuns, reused.value));
      RecordStep(cfg, world, p, q);
      AfterRuntimeProgress(cfg, world, q, reused.value);
      SavedThen(cfg, world, p, q, AfterRuntime(cfg, world, q, reused.value));
    } else if existing.Some? && existing.value.completed && StillCurrent(p, existing.value.checkpointSha) {
      AfterRuntimeProgress(cfg, world, p, existing.value);
    } else {
      PerformRuntimeProgress(cfg, world, p);
    }
  }

  lemma {:induction false} EnterRuntimeProgress(cfg: Config, world: World, p: Project)
    requires Inv(cfg, p) && p.state == PlatformVerification
    ensures Progress(cfg, world, p, EnterRuntime(cfg, world, p))
  {
    hide Walk, Cert, Delivery.LedgerOk, Delivery.Evolves, EnteredThroughGate, Remaining, RunsOk;
    hide FinishRuntime;
    MoveStep(cfg, world, p, RuntimeVerification);
    if !cfg.queue {
      var q := Moved(p, RuntimeVerification);
      FinishRuntimeProgress(cfg, world, q);
      SavedThen(cfg, world, p, q, FinishRuntime(cfg, world, q));
    }
  }

  lemma {:induction false} AfterPlatformProgress(cfg: Config, world: World, p: Project, run: VerificationRun)
    requires Inv(cfg, p) && p.state == PlatformVerification
    ensures Progress(cfg, world, p, AfterPlatform(cfg, world, p, run))
  {
    hide EnterRuntime;
    ReviewNext(cfg, world, p);
    EnterRuntimeProgress(cfg, world, p);
  }

  lemma {:induction false} RecordVerificationStep(cfg: Config, world: World, p: Project, run: VerificationRun, security: Aspect)
    requires Inv(cfg, p) && p.state == PlatformVerification
    ensures SoundStep(cfg, world, p, RecordVerification(p, run, security).0)
    ensures RecordVerification(p, run, security).0.state == p.state
  {
    var patch := Verification.EvidenceFromVerification(p, run, security);
    var done := run.(iteration := StageIteration(p), completed := true, evidencePatch := Some(patch));
    var q := p.(verificationRuns := AddVerification(p.verificationRuns, done),
                sandboxMode := Or(run.sandboxMode, p.sandboxMode),
                evidence := Some(patch),
                verificationLevel := if !run.mock && patch.level != MockLevel then Some(patch.level) else p.verificationLevel);
    EvidenceStep(cfg, world, p, q, Some(patch));
  }

  lemma {:induction false} ReuseVerificationStep(cfg: Config, world: World, p: Project, run: VerificationRun, security: Aspect)
    requires Inv(cfg, p) && p.state == PlatformVerification
    ensures SoundStep(cfg, world, p, ReuseVerification(p, run, security))
    ensures ReuseVerification(p, run, security).state == p.state
  {
    hide Cert, Delivery.LedgerOk, Delivery.Evolves, EnteredThroughGate;
    var patch := ReusedEvidence(p, run, security);
    var level := if patch.level != MockLevel && run.evidencePatch.Some? then Some(patch.level) else p.verificationLevel;
    EvidenceStep(cfg, world, p, p.(evidence := Some(patch), verificationLevel := level), Some(patch));
  }

  lemma {:induction false} FinishPlatformProgress(cfg: Config, world: World, p: Project)
    requires Inv(cfg, p) && p.state == PlatformVerification
    ensures Progress(cfg, world, p, FinishPlatform(cfg, world, p))
  {
    hide Walk, Cert, Delivery.LedgerOk, Delivery.Evolves, EnteredThroughGate, Remaining, RunsOk;
    hide AfterPlatform, PerformVerification, ReuseVerification;
    var reused := FindReusableVerification(p);
    var existing := LatestVerification(p, p.iteration);
    if reused.Some? {
      var q := ReuseVerification(p, reused.value, world(p).security);
      ReuseVerificationStep(cfg, world, p, reused.value, world(p).security);
      AfterPlatformProgress(cfg, world, q, reused.value);
      SavedThen(cfg, world, p, q, AfterPlatform(cfg, world, q, reused.value));
    } else if existing.Some? && existing.value.completed && StillCurrent(p, existing.value.checkpointSha) {
      var q := WithLastEvidence(p, FirstOf(existing.value.evidencePatch, p.evidence));
      EvidenceStep(cfg, world, p, p, FirstOf(existing.value.evidencePatch, p.evidence));
      AfterPlatformProgress(cfg, world, q, existing.value);
      ProgressAfter(cfg, world, p, q, AfterPlatform(cfg, world, q, existing.value));
    } else {
      PerformVerificationProgress(cfg, world, p);
    }
  }

  lemma {:induction false} PerformVerificationProgress(cfg: Config, world: World, p: Project)
    requires Inv(cfg, p) && p.state == PlatformVerification
    ensures Progress(cfg, world, p, PerformVerification(cfg, world, p))
  {
    hide RunsOk, RunsFit, SpecFits, ProvisionsFirst, Walk, Cert, Delivery.LedgerOk, Delivery.Evolves, EnteredThroughGate, Remaining;
    hide AfterPlatform, RecordVerification;
    var q := p.(operation := VerificationOp);
    ThrowAfterSave(cfg, world, p, q);
    if world(q).verification.Some? {
      var (r, done) := RecordVerification(q, world(q).verification.value, world(q).security);
      RecordVerificationStep(cfg, world, q, world(q).verification.value, world(q).security);
      var rest := SaveOnThrow(AfterPlatform(cfg, world, r, done));
      AfterPlatformProgress(cfg, world, r, done);
      ThrowSaves(cfg, world, r, AfterPlatform(cfg, world, r, done));
      SavedThen(cfg, world, q, r, rest);
      SavedThen(cfg, world, p, q, Seq(Save(r), rest));
    }
  }

  lemma {:induction false} EnterPlatformProgress(cfg: Config, world: World, p: Project)
    requires Inv(cfg, p) && p.state == CursorExecuting && Finished(p.cursorRuns)
    ensures Progress(cfg, world, p, EnterPlatform(cfg, world, p))
  {
    hide FinishPlatform;
    MoveStep(cfg, world, p, PlatformVerification);
    if !cfg.queue {
      var q := Moved(p, PlatformVerification);
      FinishPlatformProgress(cfg, world, q);
      SavedThen(cfg, world, p, q, FinishPlatform(cfg, world, q));
    }
  }

  // ---- Cursor ----

  // Changing the runs of a project at work in CURSOR_EXECUTING.
  lemma {:induction false} RunsStep(cfg: Config, world: World, p: Project, q: Project)
    requires Inv(cfg, p) && p.state == CursorExecuting && p.iteration > 0
    requires SameBasics(p, q) && q.state == p.state && q.history == p.history && q.iteration == p.iteration
    requires q.spec == p.spec && MustProvision(q) == MustProvision(p)
    requires RunsOk(q.cursorRuns, q.iteration)
    ensures SoundStep(cfg, world, p, q)
  {
    EvolvesIsReflexive(p.deliveries);
  }

  // The run that is started is the last one, belongs to the current iteration and is bare.
  lemma {:induction false} StartedRun(runs: seq<CursorRun>, iteration: nat)
    requires RunsOk(runs, iteration) && iteration > 0
    requires !(runs != [] && runs[|runs| - 1].iteration == iteration && runs[|runs| - 1].hasResult)
    ensures var (i, started) := StartRun(runs, iteration);
            i == |started| - 1 && RunsOk(started, iteration) && started[i].iteration == iteration && Bare(started[i])
  {
  }

  // Replacing the unfinished last run by one of the same iteration.
  lemma {:induction false} LastRunReplaced(runs: seq<CursorRun>, iteration: nat, run: CursorRun)
    requires RunsOk(runs, iteration) && Unfinished(runs) && run.iteration == iteration && (run.hasResult || Bare(run))
    ensures RunsOk(runs[|runs| - 1 := run], iteration)
  {
  }

  lemma {:induction false} ReplaceStep(cfg: Config, world: World, q: Project, r: Project, run: CursorRun)
    requires Inv(cfg, q) && q.state == CursorExecuting && q.iteration > 0
    requires Unfinished(q.cursorRuns) && run.iteration == q.iteration && (run.hasResult || Bare(run))
    requires SameBasics(q, r) && r.state == q.state && r.history == q.history && r.iteration == q.iteration
    requires r.spec == q.spec && MustProvision(r) == MustProvision(q)
    requires r.cursorRuns == q.cursorRuns[|q.cursorRuns| - 1 := run]
    ensures SoundStep(cfg, world, q, r) && (run.hasResult ==> Finished(r.cursorRuns))
  {
    LastRunReplaced(q.cursorRuns, q.iteration, run);
    RunsStep(cfg, world, q, r);
  }

  // ExecuteCursor either throws or leaves a finished last run; it makes no transition.
  ghost predicate CursorDone(cfg: Config, world: World, p: Project, e: Exec)
    requires p.iteration <= Cap(cfg)
  {
    && (forall q :: q in e.saves ==> SoundStep(cfg, world, p, q))
    && SoundStep(cfg, world, p, e.last)
    && e.outcome != Threw(InvalidTransition)
    && (e.outcome.Ok? ==> e.last.state == CursorExecuting && Finished(e.last.cursorRuns)
                          && MustProvision(e.last) == MustProvision(p))
  }

  lemma {:induction false} FinishRunStep(cfg: Config, world: World, q: Project, run: CursorRun)
    requires Inv(cfg, q) && q.state == CursorExecuting && q.iteration > 0
    requires Unfinished(q.cursorRuns) && run.iteration == q.iteration && run.hasResult
    ensures var r := FinishRun(q, |q.cursorRuns| - 1, run);
            && SoundStep(cfg, world, q, r) && r.state == CursorExecuting && Finished(r.cursorRuns)
            && MustProvision(r) == MustProvision(q)
  {
    ReplaceStep(cfg, world, q, FinishRun(q, |q.cursorRuns| - 1, run), run);
  }

  lemma {:induction false} ReportCursorDone(cfg: Config, world: World, q: Project)
    requires Inv(cfg, q) && q.state == CursorExecuting && q.iteration > 0
    requires q.cursorRuns != [] && q.cursorRuns[|q.cursorRuns| - 1].iteration == q.iteration
    requires Bare(q.cursorRuns[|q.cursorRuns| - 1])
    ensures CursorDone(cfg, world, q, ReportCursor(world, |q.cursorRuns| - 1, q))
  {
    hide FinishRun;
    var i := |q.cursorRuns| - 1;
    var answer := world(q).cursor;
    if answer.CursorThrows? || answer.result.evidence.execution.status == Fail {
      var run := q.cursorRuns[i].(status := CursorFailed);
      ReplaceStep(cfg, world, q, q.(cursorRuns := q.cursorRuns[i := run]), run);
    } else {
      var run := FinishedRun(q.iteration, answer.result);
      FinishRunStep(cfg, world, q, if answer.CursorSaveFails? then run.(status := RecoveryRequired) else run);
    }
  }

  lemma {:induction false} ExecuteCursorDone(cfg: Config, world: World, p: Project)
    requires Inv(cfg, p) && CanRun(p)
    ensures CursorDone(cfg, world, p, ExecuteCursor(world, p))
  {
    hide ReportCursor, StartRun;
    var (i, runs) := StartRun(p.cursorRuns, p.iteration);
    var q := p.(operation := CursorOp, cursorRuns := runs);
    StartedRun(p.cursorRuns, p.iteration);
    RunsStep(cfg, world, p, q);
    ReportCursorDone(cfg, world, q);
    var e := ReportCursor(world, i, q);
    forall r | r in e.saves ensures SoundStep(cfg, world, p, r) {
      StepComposes(cfg, world, p, q, r);
    }
    StepComposes(cfg, world, p, q, e.last);
    assert ExecuteCursor(world, p) == Exec([q] + e.saves, e.last, e.outcome);
  }

  lemma {:induction false} RunCursorProgress(cfg: Config, world: World, p: Project)
    requires Inv(cfg, p) && CanRun(p)
    ensures Progress(cfg, world, p, RunCursor(cfg, world, p))
  {
    hide EnterPlatform, ExecuteCursor;
    ExecuteCursorDone(cfg, world, p);
    var e := ExecuteCursor(world, p);
    if e.outcome.Ok? {
      EnterPlatformProgress(cfg, world, e.last);
      ProgressThen(cfg, world, p, e, EnterPlatform(cfg, world, e.last));
    }
  }

  lemma {:induction false} RequestCursorRunProgress(cfg: Config, world: World, p: Project, execute: bool)
    requires Inv(cfg, p) && IsActive(p.state) && Legal(p.state, CursorExecuting) && !Unfinished(p.cursorRuns)
    ensures Progress(cfg, world, p, RequestCursorRun(cfg, world, p, execute))
  {
    hide OpenIteration, RunCursor;
    if MustProvision(p) || p.iteration >= cfg.maxIterations {
      RecordStep(cfg, world, p, p);
    } else {
      NextIteration(cfg, world, p);
      var e := OpenIteration(p);
      if execute {
        RunCursorProgress(cfg, world, e.last);
        SavedThen(cfg, world, p, e.last, RunCursor(cfg, world, e.last));
      }
    }
  }

  lemma {:induction false} StageIterationStep(cfg: Config, world: World, p: Project)
    requires Inv(cfg, p) && p.state == CursorExecuting
    ensures SoundStep(cfg, world, p, p.(iteration := StageIteration(p)))
  {
    EvolvesIsReflexive(p.deliveries);
  }

  lemma {:induction false} FlaggedStep(cfg: Config, world: World, p: Project)
    requires Inv(cfg, p) && CanRun(p) && Unfinished(p.cursorRuns)
    ensures var i := |p.cursorRuns| - 1;
            var q := p.(cursorRuns := p.cursorRuns[i := p.cursorRuns[i].(status := RecoveryRequired)]);
            SoundStep(cfg, world, p, q) && CanRun(q) && MustProvision(q) == MustProvision(p)
  {
    var i := |p.cursorRuns| - 1;
    var run := p.cursorRuns[i].(status := RecoveryRequired);
    ReplaceStep(cfg, world, p, p.(cursorRuns := p.cursorRuns[i := run]), run);
  }

  // An unfinished run is bare, so there is no checkpoint to recover it from: preparing an interrupted run can
  // only flag it.
  lemma {:induction false} PreparedRun(world: World, p: Project)
    requires Unfinished(p.cursorRuns) ==> Bare(p.cursorRuns[|p.cursorRuns| - 1])
    ensures var e := PrepareInterruptedCursor(world, p);
            var i := |p.cursorRuns| - 1;
            || e == Silent(p)
            || (&& Unfinished(p.cursorRuns)
                && e == Save(p.(cursorRuns := p.cursorRuns[i := p.cursorRuns[i].(status := RecoveryRequired)])))
  {
  }

  lemma {:induction false} PrepareInterruptedStep(cfg: Config, world: World, p: Project)
    requires Inv(cfg, p) && CanRun(p)
    ensures var e := PrepareInterruptedCursor(world, p);
            && e.outcome.Ok? && SoundStep(cfg, world, p, e.last) && (forall q :: q in e.saves ==> q == e.last)
            && CanRun(e.last) && MustProvision(e.last) == MustProvision(p)
  {
    PreparedRun(world, p);
    RecordStep(cfg, world, p, p);
    if Unfinished(p.cursorRuns) {
      FlaggedStep(cfg, world, p);
    }
  }

  lemma {:induction false} FinishOrReplayProgress(cfg: Config, world: World, p: Project)
    requires Inv(cfg, p) && p.state == CursorExecuting
    ensures Progress(cfg, world, p, FinishOrReplayCursor(cfg, world, p))
  {
    hide EnterPlatform, PrepareInterruptedCursor, RunCursor;
    if HasResultForIteration(p) {
      EnterPlatformProgress(cfg, world, p);
    } else {
      var q := p.(iteration := StageIteration(p));
      StageIterationStep(cfg, world, p);
      PrepareInterruptedStep(cfg, world, q);
      var e := PrepareInterruptedCursor(world, q);
      RunCursorProgress(cfg, world, e.last);
      ProgressThen(cfg, world, q, e, RunCursor(cfg, world, e.last));
      ProgressAfter(cfg, world, p, q, Seq(e, RunCursor(cfg, world, e.last)));
    }
  }

  // ---- Provisioning ----

  predicate Founded(run: ProvisioningRun) {
    run.status == ProvPass && run.baselineSha != ""
  }

  lemma {:induction false} ProvisionedStep(cfg: Config, world: World, p: Project, run: ProvisioningRun)
    requires Inv(cfg, p) && p.state == ProjectProvisioning && Founded(run)
    ensures SoundStep(cfg, world, p, ApplyProvisioning(p, run)) && ApplyProvisioning(p, run).state == p.state
    ensures !MustProvision(ApplyProvisioning(p, run))
  {
    EvolvesIsReflexive(p.deliveries);
  }

  // From PROJECT_PROVISIONING: in queue mode straight to CURSOR_EXECUTING, in-process by opening an iteration.
  lemma {:induction false} LeaveProvisioning(cfg: Config, world: World, p: Project)
    requires Inv(cfg, p) && p.state == ProjectProvisioning && !MustProvision(p)
    ensures cfg.queue ==> Progress(cfg, world, p, Transition(p, CursorExecuting))
    ensures !cfg.queue ==> Progress(cfg, world, p, RequestCursorRun(cfg, world, p, true))
  {
    if cfg.queue {
      MoveStep(cfg, world, p, CursorExecuting);
    } else {
      RequestCursorRunProgress(cfg, world, p, true);
    }
  }

  lemma {:induction false} ProvisioningThrows(cfg: Config, world: World, p: Project, q: Project)
    requires Inv(cfg, p) && p.state == ProjectProvisioning && q == p.(operation := ProvisioningOp)
    ensures var r := PrepareWorkspace(q, world(q).workspacePrepared);
            Progress(cfg, world, p, Seq(Save(q), SaveOnThrow(Raise(r, StageFailed))))
  {
    hide RunsOk, RunsFit, SpecFits, ProvisionsFirst, Walk, Cert, Delivery.LedgerOk, Delivery.Evolves, EnteredThroughGate, Remaining;
    var r := PrepareWorkspace(q, world(q).workspacePrepared);
    RecordStep(cfg, world, p, q);
    RecordStep(cfg, world, q, r);
    RaiseIsSound(cfg, world, q, r, StageFailed);
    SavedThen(cfg, world, p, q, SaveOnThrow(Raise(r, StageFailed)));
  }

  lemma {:induction false} PerformProvisioningProgress(cfg: Config, world: World, p: Project)
    requires Inv(cfg, p) && p.state == ProjectProvisioning && ProvisionsOrThrows(world)
    ensures Progress(cfg, world, p, PerformProvisioning(cfg, world, p))
  {
    hide RunsOk, RunsFit, SpecFits, ProvisionsFirst, Walk, Cert, Delivery.LedgerOk, Delivery.Evolves, EnteredThroughGate, Remaining;
    hide ApplyProvisioning, PrepareWorkspace, RequestCursorRun;
    var q := p.(operation := ProvisioningOp);
    RecordStep(cfg, world, p, q);
    if world(q).provisioning.None? {
      ProvisioningThrows(cfg, world, p, q);
    } else {
      var r := ApplyProvisioning(q, world(q).provisioning.value);
      ProvisionedStep(cfg, world, q, world(q).provisioning.value);
      LeaveProvisioning(cfg, world, r);
      var rest := if cfg.queue then SaveOnThrow(Transition(r, CursorExecuting)) else RequestCursorRun(cfg, world, r, true);
      if cfg.queue { ThrowSaves(cfg, world, r, Transition(r, CursorExecuting)); }
      SavedThen(cfg, world, q, r, rest);
      SavedThen(cfg, world, p, q, Seq(Save(r), rest));
    }
  }

  lemma {:induction false} FinishProvisioningProgress(cfg: Config, world: World, p: Project)
    requires Inv(cfg, p) && p.state == ProjectProvisioning && ProvisionsOrThrows(world)
    ensures Progress(cfg, world, p, FinishProvisioning(cfg, world, p))
  {
    hide PerformProvisioning, RequestCursorRun;
    if ProvisioningSucceeded(p) {
      LeaveProvisioning(cfg, world, p);
    } else {
      PerformProvisioningProgress(cfg, world, p);
    }
  }

  // From SPECIFICATION_READY; in-process only for a project that must be provisioned.
  lemma {:induction false} StartProvisioningProgress(cfg: Config, world: World, p: Project)
    requires Inv(cfg, p) && p.state == SpecificationReady && ProvisionsOrThrows(world)
    requires MustProvision(p) || cfg.queue
    ensures Progress(cfg, world, p, FinishProvisioning(cfg, world, p))
  {
    hide PerformProvisioning;
    if ProvisioningSucceeded(p) {
      MoveStep(cfg, world, p, CursorExecuting);
    } else {
      MoveStep(cfg, world, p, ProjectProvisioning);
      var q := Moved(p, ProjectProvisioning);
      PerformProvisioningProgress(cfg, world, q);
      SavedThen(cfg, world, p, q, PerformProvisioning(cfg, world, q));
    }
  }

  lemma {:induction false} EnterProvisioningProgress(cfg: Config, world: World, p: Project)
    requires Inv(cfg, p) && p.state == SpecificationReady && MustProvision(p) && !cfg.queue && ProvisionsOrThrows(world)
    ensures Progress(cfg, world, p, EnterProvisioning(cfg, world, p))
  {
    hide FinishProvisioning;
    MoveStep(cfg, world, p, ProjectProvisioning);
    var q := Moved(p, ProjectProvisioning);
    FinishProvisioningProgress(cfg, world, q);
    SavedThen(cfg, world, p, q, FinishProvisioning(cfg, world, q));
  }

  // ---- Discovery ----

  // Owner feedback never blanks a usable prompt.
  lemma {:induction false} FeedbackKeepsSpec(world: World, p: Project)
    requires HasValidSpec(p)
    ensures ApplyOwnerFeedback(world, p).outcome.Ok? && HasValidSpec(ApplyOwnerFeedback(world, p).last)
  {
    if p.pendingFeedback.Some? {
      var current := p.spec.value.cursorPrompt;
      var extended := current + "\n\nOwner feedback: " + p.pendingFeedback.value;
      TrimIsEmptyIffBlank(current);
      TrimIsEmptyIffBlank(extended);
      var c :| c in current && !IsSpace(c);
      assert c in extended;
    }
  }

  lemma {:induction false} FeedbackStep(cfg: Config, world: World, p: Project)
    requires Inv(cfg, p) && IsActive(p.state) && HasValidSpec(p)
    ensures var e := ApplyOwnerFeedback(world, p);
            && e.outcome.Ok? && SoundStep(cfg, world, p, e.last) && (forall q :: q in e.saves ==> q == e.last)
            && HasValidSpec(e.last) && e.last.state == p.state && MustProvision(e.last) == MustProvision(p)
            && e.last.cursorRuns == p.cursorRuns && e.last.iteration == p.iteration
  {
    hide RunsOk, RunsFit, SpecFits, ProvisionsFirst, Walk, Cert, Delivery.LedgerOk, Delivery.Evolves, EnteredThroughGate, Remaining;
    FeedbackKeepsSpec(world, p);
    RecordStep(cfg, world, p, ApplyOwnerFeedback(world, p).last);
  }

  lemma {:induction false} SpecReadyNext(cfg: Config, world: World, p: Project)
    requires Inv(cfg, p) && p.state == CouncilDiscovery && HasValidSpec(p)
    ensures Progress(cfg, world, p, Transition(p, SpecificationReady))
  {
    MoveStep(cfg, world, p, SpecificationReady);
  }

  // A discovery runs only while there is no valid specification, and then nothing has been executed yet.
  lemma {:induction false} DiscoveredStep(cfg: Config, world: World, p: Project, spec: Spec)
    requires Inv(cfg, p) && p.state == CouncilDiscovery && !HasValidSpec(p)
    ensures SoundStep(cfg, world, p, p.(spec := Some(spec)))
  {
    EvolvesIsReflexive(p.deliveries);
  }

  lemma {:induction false} PerformDiscoveryProgress(cfg: Config, world: World, p: Project)
    requires Inv(cfg, p) && p.state == CouncilDiscovery && !HasValidSpec(p)
    ensures Progress(cfg, world, p, PerformDiscovery(world, p))
  {
    hide Walk, Delivery.LedgerOk, Delivery.Evolves, Cert, SoundStep;
    var q := p.(operation := DiscoveryOp);
    ThrowAfterSave(cfg, world, p, q);
    if world(q).discovery.DiscoveryGives? {
      var r := q.(spec := Some(world(q).discovery.spec));
      DiscoveredStep(cfg, world, q, world(q).discovery.spec);
      var rest := if !HasValidSpec(r) || (NeedsProvisioning(r) && world(q).discovery.planFails) then Raise(r, StageFailed)
                  else Transition(r, SpecificationReady);
      RecordStep(cfg, world, r, r);
      if HasValidSpec(r) { SpecReadyNext(cfg, world, r); }
      assert Progress(cfg, world, r, rest);
      ProgressAfter(cfg, world, q, r, rest);
      ThrowSaves(cfg, world, q, rest);
      SavedThen(cfg, world, p, q, SaveOnThrow(rest));
    }
  }

  lemma {:induction false} DiscoverFromProgress(cfg: Config, world: World, p: Project)
    requires Inv(cfg, p) && p.state == CouncilDiscovery
    ensures Progress(cfg, world, p, DiscoverFrom(world, p))
  {
    hide ApplyOwnerFeedback, PerformDiscovery;
    if HasValidSpec(p) {
      FeedbackStep(cfg, world, p);
      var e := ApplyOwnerFeedback(world, p);
      SpecReadyNext(cfg, world, e.last);
      ProgressThen(cfg, world, p, e, Transition(e.last, SpecificationReady));
    } else {
      PerformDiscoveryProgress(cfg, world, p);
    }
  }

  lemma {:induction false} EnsureDiscoveryProgress(cfg: Config, world: World, p: Project)
    requires Inv(cfg, p) && p.state in {IdeaSubmitted, CouncilDiscovery}
    ensures Progress(cfg, world, p, EnsureDiscovery(world, p))
  {
    hide DiscoverFrom;
    if p.state == IdeaSubmitted {
      MoveStep(cfg, world, p, CouncilDiscovery);
      var q := Moved(p, CouncilDiscovery);
      DiscoverFromProgress(cfg, world, q);
      SavedThen(cfg, world, p, q, DiscoverFrom(world, q));
    } else {
      DiscoverFromProgress(cfg, world, p);
    }
  }

  // ---- Review and final verification ----

  // A question to the Council changes nothing but the answer.
  ghost predicate Asked(cfg: Config, world: World, p: Project, e: Exec)
    requires p.iteration <= Cap(cfg)
  {
    && (forall q :: q in e.saves ==> SoundStep(cfg, world, p, q))
    && SoundStep(cfg, world, p, e.last)
    && e.outcome != Threw(InvalidTransition)
    && e.last.state == p.state
  }

  // Asking, and recording either the failure or the answer `r`.
  lemma {:induction false} AskedOnce(cfg: Config, world: World, p: Project, q: Project, r: Project)
    requires Inv(cfg, p) && IsActive(p.state) && SameFlow(p, q) && SameFlow(p, r)
    ensures Asked(cfg, world, p, Seq(Save(q), SaveOnThrow(Raise(q, StageFailed))))
    ensures Asked(cfg, world, p, Seq(Save(q), Save(r)))
  {
    hide RunsOk, RunsFit, SpecFits, ProvisionsFirst, Walk, Cert, Delivery.LedgerOk, Delivery.Evolves, EnteredThroughGate, Remaining;
    RecordStep(cfg, world, p, q);
    RecordStep(cfg, world, p, r);
  }

  lemma {:induction false} AskReviewProgress(cfg: Config, world: World, p: Project)
    requires Inv(cfg, p) && IsActive(p.state)
    ensures Asked(cfg, world, p, AskReview(world, p))
  {
    hide RunsOk, RunsFit, SpecFits, ProvisionsFirst, Walk, Cert, Delivery.LedgerOk, Delivery.Evolves, EnteredThroughGate, Remaining;
    RecordStep(cfg, world, p, p);
    var q := p.(operation := ReviewOp);
    match world(q).review {
      case None => AskedOnce(cfg, world, p, q, q);
      case Some(d) => AskedOnce(cfg, world, p, q, q.(reviews := q.reviews[q.iteration := d]));
    }
  }

  lemma {:induction false} RequestChangesProgress(cfg: Config, world: World, p: Project, q: Project)
    requires Inv(cfg, p) && p.state in {CouncilReview, FinalVerification} && SameFlow(p, q)
    ensures Progress(cfg, world, p, RequestChanges(cfg, world, q))
  {
    hide Walk, Cert, Delivery.LedgerOk, Delivery.Evolves, EnteredThroughGate, Remaining, RunsOk;
    hide RequestCursorRun;
    RecordStep(cfg, world, p, q);
    RequestCursorRunProgress(cfg, world, q, !cfg.queue);
    ProgressAfter(cfg, world, p, q, RequestCursorRun(cfg, world, q, !cfg.queue));
  }

  lemma {:induction false} FollowReviewProgress(cfg: Config, world: World, p: Project, overruled: bool)
    requires Inv(cfg, p) && p.state == CouncilReview
    ensures Progress(cfg, world, p, FollowReview(cfg, world, p, overruled))
  {
    hide Walk, Cert, Delivery.LedgerOk, Delivery.Evolves, EnteredThroughGate, Remaining, RunsOk;
    hide RequestChanges;
    if overruled {
      RequestChangesProgress(cfg, world, p, p.(reviews := p.reviews[p.iteration := ChangesRequired]));
    } else if ReviewDecision(p) == ChangesRequired {
      RequestChangesProgress(cfg, world, p, p);
    } else {
      MoveStep(cfg, world, p, FinalVerification);
    }
  }

  lemma {:induction false} FinishReviewProgress(cfg: Config, world: World, p: Project)
    requires Inv(cfg, p) && p.state == CouncilReview
    ensures Progress(cfg, world, p, FinishReview(cfg, world, p))
  {
    hide AskReview, FollowReview;
    AskReviewProgress(cfg, world, p);
    var e := AskReview(world, p);
    if e.outcome.Ok? {
      FollowReviewProgress(cfg, world, e.last, Overruled(cfg, e.last));
      ProgressThen(cfg, world, p, e, ActOnReview(cfg, world, e.last));
    }
  }

  lemma {:induction false} AskFinalProgress(cfg: Config, world: World, p: Project)
    requires Inv(cfg, p) && IsActive(p.state)
    ensures Asked(cfg, world, p, AskFinal(world, p))
  {
    hide Walk, Cert, Delivery.LedgerOk, Delivery.Evolves, EnteredThroughGate, Remaining, RunsOk;
    hide Walk, Delivery.LedgerOk, Delivery.Evolves, Cert;
    if p.final.Some? && p.final.value.cursorCount == |p.cursorRuns| {
      RecordStep(cfg, world, p, p);
    } else {
      var q := p.(operation := FinalOp);
      var r := if world(q).final.Some? then q.(final := Some(FinalReview(world(q).final.value, |q.cursorRuns|))) else q;
      AskedOnce(cfg, world, p, q, r);
    }
  }

  lemma {:induction false} ActOnFinalProgress(cfg: Config, world: World, p: Project)
    requires Inv(cfg, p) && p.state == FinalVerification
    ensures Progress(cfg, world, p, ActOnFinal(cfg, world, p))
  {
    hide EnterDelivery, RequestChanges;
    if p.final.Some? && p.final.value.decision == ChangesRequired {
      RequestChangesProgress(cfg, world, p, p.(finalHistory := p.finalHistory + [p.final.value], final := None));
    } else {
      EnterDeliveryProgress(cfg, world, p);
    }
  }

  lemma {:induction false} FinishFinalProgress(cfg: Config, world: World, p: Project)
    requires Inv(cfg, p) && p.state == FinalVerification
    ensures Progress(cfg, world, p, FinishFinal(cfg, world, p))
  {
    hide ActOnFinal, AskFinal;
    AskFinalProgress(cfg, world, p);
    var e := AskFinal(world, p);
    if e.outcome.Ok? {
      ActOnFinalProgress(cfg, world, e.last);
      ProgressThen(cfg, world, p, e, ActOnFinal(cfg, world, e.last));
    }
  }

  // ---- The two drivers ----

  // A job is planned in one of the first states listed for it and may find the project in any of them when it
  // is executed again after a crash or a retry.
  predicate Pending(job: JobType, p: Project) {
    var s := p.state;
    match job
    case DiscoveryJob => s in {IdeaSubmitted, CouncilDiscovery, OwnerChangesRequested, SpecificationReady}
    case ProvisioningJob => s in {ProjectProvisioning, CursorExecuting} || (s == SpecificationReady && MustProvision(p))
    case CursorJob => s in {CursorExecuting, PlatformVerification} || (s == SpecificationReady && !MustProvision(p))
    case VerificationJob => s in {PlatformVerification, RuntimeVerification, CouncilReview}
    case RuntimeJob => s in {RuntimeVerification, VisualVerification, CouncilReview}
    case VisualJob => s in {VisualVerification, CouncilReview}
    case ReviewJob => s in {CouncilReview, FinalVerification, CursorExecuting}
    case FinalJob => s in {FinalVerification, CursorExecuting, DeliveryPreparation, ReadyForOwnerReview}
    case DeliveryJob => s in {DeliveryPreparation, ReadyForOwnerReview}
  }

  // One pass of the in-process loop throws or makes at least one legal transition towards the end.
  lemma {:induction false} LoopPassProgress(cfg: Config, world: World, p: Project)
    requires Inv(cfg, p) && IsActive(p.state) && !cfg.queue && ProvisionsOrThrows(world)
    ensures Progress(cfg, world, p, LoopPass(cfg, world, p))
  {
    hide Walk, Cert, Delivery.LedgerOk, Delivery.Evolves, EnteredThroughGate, Remaining, RunsOk;
    hide EnsureDiscovery, EnterProvisioning, FinishDelivery, FinishFinal, FinishOrReplayCursor, FinishPlatform;
    hide FinishProvisioning, FinishReview, FinishRuntime, FinishVisual, RequestCursorRun;
    if p.iteration > cfg.maxIterations {
      RecordStep(cfg, world, p, p);
    } else {
      match p.state {
        case IdeaSubmitted => EnsureDiscoveryProgress(cfg, world, p);
        case CouncilDiscovery => EnsureDiscoveryProgress(cfg, world, p);
        case SpecificationReady =>
          if MustProvision(p) { EnterProvisioningProgress(cfg, world, p); }
          else { RequestCursorRunProgress(cfg, world, p, true); }
        case ProjectProvisioning => FinishProvisioningProgress(cfg, world, p);
        case CursorExecuting => FinishOrReplayProgress(cfg, world, p);
        case PlatformVerification => FinishPlatformProgress(cfg, world, p);
        case RuntimeVerification => FinishRuntimeProgress(cfg, world, p);
        case VisualVerification => FinishVisualProgress(cfg, world, p);
        case CouncilReview => FinishReviewProgress(cfg, world, p);
        case FinalVerification => FinishFinalProgress(cfg, world, p);
        case DeliveryPreparation => FinishDeliveryProgress(cfg, world, p);
        case OwnerChangesRequested => MoveStep(cfg, world, p, CouncilDiscovery);
      }
    }
  }

  lemma {:induction false} PlannedIsPending(p: Project)
    requires NextJob(p).Some?
    ensures Pending(NextJob(p).value, p)
  {
  }

  lemma {:induction false} ActiveIffPlanned(p: Project)
    ensures NextJob(p).Some? <==> IsActive(p.state)
  {
  }

  lemma {:induction false} SilentSeq(p: Project, e: Exec)
    ensures Seq(Silent(p), e) == e
  {
  }

  // A job that is executed for a project it was planned for makes progress like a pass, or finds its work done.
  lemma {:induction false} JobProgress(cfg: Config, world: World, p: Project, job: JobType)
    requires Inv(cfg, p) && cfg.queue && Pending(job, p) && ProvisionsOrThrows(world)
    ensures Job(cfg, world, p, job) == Silent(p) || (IsActive(p.state) && Progress(cfg, world, p, Job(cfg, world, p, job)))
    ensures NextJob(p) == Some(job) ==> Progress(cfg, world, p, Job(cfg, world, p, job))
  {
    hide EnsureDiscovery, FinishDelivery, FinishFinal, FinishOrReplayCursor, FinishPlatform, FinishProvisioning;
    hide FinishReview, FinishRuntime, FinishVisual, RequestCursorRun, SoundStep;
    if IsActive(p.state) {
      match job {
        case DiscoveryJob => DiscoveryJobProgress(cfg, world, p);
        case ProvisioningJob =>
          if p.state == SpecificationReady { StartProvisioningProgress(cfg, world, p); }
          else if p.state == ProjectProvisioning { FinishProvisioningProgress(cfg, world, p); }
        case CursorJob =>
          if p.state == SpecificationReady { RequestCursorRunProgress(cfg, world, p, true); }
          else if p.state == CursorExecuting { FinishOrReplayProgress(cfg, world, p); }
        case VerificationJob => VerificationJobsProgress(cfg, world, p, job);
        case RuntimeJob => VerificationJobsProgress(cfg, world, p, job);
        case VisualJob => VerificationJobsProgress(cfg, world, p, job);
        case ReviewJob =>
          if p.state == CouncilReview { FinishReviewProgress(cfg, world, p); }
        case FinalJob => ClosingJobsProgress(cfg, world, p, job);
        case DeliveryJob => ClosingJobsProgress(cfg, world, p, job);
      }
    }
  }

  // What a job does for a project that waits in the state it is planned in.
  lemma {:induction false} DiscoveryJobIsHandler(cfg: Config, world: World, p: Project)
    requires p.state in {IdeaSubmitted, CouncilDiscovery}
    ensures Job(cfg, world, p, DiscoveryJob) == EnsureDiscovery(world, p)
  {
    hide EnsureDiscovery;
  }

  lemma {:induction false} VerificationJobIsHandler(cfg: Config, world: World, p: Project)
    requires p.state == PlatformVerification
    ensures Job(cfg, world, p, VerificationJob) == FinishPlatform(cfg, world, p)
  {
    hide FinishOrReplayCursor, FinishPlatform, FinishRuntime, FinishVisual, FinishReview, FinishFinal, FinishDelivery, FinishProvisioning;
  }

  lemma {:induction false} RuntimeJobIsHandler(cfg: Config, world: World, p: Project)
    requires p.state == RuntimeVerification
    ensures Job(cfg, world, p, RuntimeJob) == FinishRuntime(cfg, world, p)
  {
    hide FinishOrReplayCursor, FinishPlatform, FinishRuntime, FinishVisual, FinishReview, FinishFinal, FinishDelivery, FinishProvisioning;
  }

  lemma {:induction false} VisualJobIsHandler(cfg: Config, world: World, p: Project)
    requires p.state == VisualVerification
    ensures Job(cfg, world, p, VisualJob) == FinishVisual(cfg, world, p)
  {
    hide FinishOrReplayCursor, FinishPlatform, FinishRuntime, FinishVisual, FinishReview, FinishFinal, FinishDelivery, FinishProvisioning;
  }

  lemma {:induction false} FeedbackJobProgress(cfg: Config, world: World, p: Project)
    requires Inv(cfg, p) && p.state == OwnerChangesRequested
    ensures Progress(cfg, world, p, Job(cfg, world, p, DiscoveryJob))
  {
    hide Walk, Cert, Delivery.LedgerOk, Delivery.Evolves, EnteredThroughGate, Remaining, RunsOk;
    hide EnsureDiscovery;
    MoveStep(cfg, world, p, CouncilDiscovery);
    var q := Moved(p, CouncilDiscovery);
    EnsureDiscoveryProgress(cfg, world, q);
    SavedThen(cfg, world, p, q, EnsureDiscovery(world, q));
  }

  lemma {:induction false} DiscoveryJobProgress(cfg: Config, world: World, p: Project)
    requires Inv(cfg, p) && Pending(DiscoveryJob, p)
    ensures Job(cfg, world, p, DiscoveryJob) == Silent(p) || Progress(cfg, world, p, Job(cfg, world, p, DiscoveryJob))
    ensures p.state != SpecificationReady ==> Progress(cfg, world, p, Job(cfg, world, p, DiscoveryJob))
  {
    hide EnsureDiscovery;
    if p.state == OwnerChangesRequested {
      FeedbackJobProgress(cfg, world, p);
    } else if p.state != SpecificationReady {
      EnsureDiscoveryProgress(cfg, world, p);
      DiscoveryJobIsHandler(cfg, world, p);
    }
  }

  lemma {:induction false} NothingLeftToVerify(cfg: Config, world: World, p: Project, job: JobType)
    requires Pending(job, p) && job in {VerificationJob, RuntimeJob, VisualJob} && NextJob(p) != Some(job)
    ensures Job(cfg, world, p, job) == Silent(p)
  {
    hide FinishOrReplayCursor, FinishPlatform, FinishRuntime, FinishVisual, FinishReview, FinishFinal, FinishDelivery, FinishProvisioning;
  }

  lemma {:induction false} VerificationJobsProgress(cfg: Config, world: World, p: Project, job: JobType)
    requires Inv(cfg, p) && Pending(job, p) && job in {VerificationJob, RuntimeJob, VisualJob}
    ensures Job(cfg, world, p, job) == Silent(p) || Progress(cfg, world, p, Job(cfg, world, p, job))
    ensures NextJob(p) == Some(job) ==> Progress(cfg, world, p, Job(cfg, world, p, job))
  {
    hide FinishPlatform, FinishRuntime, FinishVisual;
    if NextJob(p) != Some(job) {
      NothingLeftToVerify(cfg, world, p, job);
    } else if job == VerificationJob {
      FinishPlatformProgress(cfg, world, p);
      VerificationJobIsHandler(cfg, world, p);
    } else if job == RuntimeJob {
      FinishRuntimeProgress(cfg, world, p);
      RuntimeJobIsHandler(cfg, world, p);
    } else {
      FinishVisualProgress(cfg, world, p);
      VisualJobIsHandler(cfg, world, p);
    }
  }

  lemma {:induction false} DeliveryJobIsHandler(cfg: Config, world: World, p: Project)
    requires p.state == DeliveryPreparation
    ensures Job(cfg, world, p, DeliveryJob) == FinishDelivery(cfg, world, p)
  {
    hide FinishOrReplayCursor, FinishPlatform, FinishRuntime, FinishVisual, FinishReview, FinishFinal, FinishDelivery, FinishProvisioning;
  }

  lemma {:induction false} ClosingJobsProgress(cfg: Config, world: World, p: Project, job: JobType)
    requires Inv(cfg, p) && Pending(job, p) && job in {FinalJob, DeliveryJob} && IsActive(p.state)
    ensures Job(cfg, world, p, job) == Silent(p) || Progress(cfg, world, p, Job(cfg, world, p, job))
    ensures NextJob(p) == Some(job) ==> Progress(cfg, world, p, Job(cfg, world, p, job))
  {
    hide FinishDelivery, FinishFinal;
    if p.state == FinalVerification {
      FinishFinalProgress(cfg, world, p);
    } else if p.state == DeliveryPreparation {
      FinishDeliveryProgress(cfg, world, p);
      DeliveryJobIsHandler(cfg, world, p);
    }
  }
}
