// The project life cycle of src/orchestrator/states.js: sixteen states and the table of legal edges.
module States {
  datatype State =
    | IdeaSubmitted
    | CouncilDiscovery
    | SpecificationReady
    | ProjectProvisioning
    | CursorExecuting
    | PlatformVerification
    | RuntimeVerification
    | VisualVerification
    | CouncilReview
    | FinalVerification
    | DeliveryPreparation
    | ReadyForOwnerReview
    | OwnerChangesRequested
    | OwnerApproved
    | Done
    | Failed

  datatype Edge = Edge(from: State, to: State)

  function LegalTargets(s: State): set<State> {
    match s
    case IdeaSubmitted => {CouncilDiscovery, Failed}
    case CouncilDiscovery => {SpecificationReady, Failed}
    case SpecificationReady => {ProjectProvisioning, CursorExecuting, Failed}
    case ProjectProvisioning => {CursorExecuting, Failed}
    case CursorExecuting => {PlatformVerification, Failed}
    case PlatformVerification => {RuntimeVerification, CouncilReview, Failed}
    case RuntimeVerification => {VisualVerification, CouncilReview, Failed}
    case VisualVerification => {CouncilReview, Failed}
    case CouncilReview => {CursorExecuting, SpecificationReady, FinalVerification, Failed}
    case FinalVerification => {CursorExecuting, SpecificationReady, DeliveryPreparation, Failed}
    case DeliveryPreparation => {ReadyForOwnerReview, Failed}
    case ReadyForOwnerReview => {OwnerApproved, OwnerChangesRequested}
    case OwnerChangesRequested => {CouncilDiscovery, Failed}
    case OwnerApproved => {Done}
    case Done => {}
    case Failed =>
      {IdeaSubmitted, CouncilDiscovery, SpecificationReady, CursorExecuting, ProjectProvisioning,
       PlatformVerification, RuntimeVerification, VisualVerification, CouncilReview,
       FinalVerification, DeliveryPreparation}
  }

  predicate Legal(from: State, to: State) {
    to in LegalTargets(from)
  }

  predicate IsOwnerTerminal(s: State) {
    s in {ReadyForOwnerReview, OwnerApproved, Done}
  }

  // The states in which the engine works on a project, which are those it resumes at boot (states.js:22-41).
  predicate IsActive(s: State) {
    !IsOwnerTerminal(s) && s != Failed
  }

  // A transition log describes a walk along legal edges that ends in `state`.
  predicate Walk(log: seq<Edge>, state: State) {
    && (forall i :: 0 <= i < |log| ==> Legal(log[i].from, log[i].to))
    && (forall i :: 0 < i < |log| ==> log[i - 1].to == log[i].from)
    && state == (if log == [] then IdeaSubmitted else log[|log| - 1].to)
    && (log != [] ==> log[0].from == IdeaSubmitted)
  }

  // The table read by where edges lead: only a finished delivery leads to the owner, only the owner's approval to the
  // end, and only a project that the engine works on can fail.
  lemma {:induction false} EdgesByTarget(from: State)
    ensures Legal(from, CouncilDiscovery) <==> from in {IdeaSubmitted, OwnerChangesRequested, Failed}
    ensures Legal(from, SpecificationReady) <==> from in {CouncilDiscovery, CouncilReview, FinalVerification, Failed}
    ensures Legal(from, ProjectProvisioning) <==> from in {SpecificationReady, Failed}
    ensures Legal(from, CursorExecuting) <==>
            from in {SpecificationReady, ProjectProvisioning, CouncilReview, FinalVerification, Failed}
    ensures Legal(from, PlatformVerification) <==> from in {CursorExecuting, Failed}
    ensures Legal(from, RuntimeVerification) <==> from in {PlatformVerification, Failed}
    ensures Legal(from, VisualVerification) <==> from in {RuntimeVerification, Failed}
    ensures Legal(from, CouncilReview) <==>
            from in {PlatformVerification, RuntimeVerification, VisualVerification, Failed}
    ensures Legal(from, FinalVerification) <==> from in {CouncilReview, Failed}
    ensures Legal(from, DeliveryPreparation) <==> from in {FinalVerification, Failed}
    ensures Legal(from, ReadyForOwnerReview) <==> from == DeliveryPreparation
    ensures Legal(from, OwnerApproved) <==> from == ReadyForOwnerReview
    ensures Legal(from, OwnerChangesRequested) <==> from == ReadyForOwnerReview
    ensures Legal(from, Done) <==> from == OwnerApproved
    ensures Legal(from, Failed) <==> IsActive(from)
    ensures Legal(from, IdeaSubmitted) <==> from == Failed
  {
  }
}
