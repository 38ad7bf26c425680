// Idempotency keys of planned jobs (src/jobs/types.js:46-89, src/provision/plan.js:73-75,
// src/delivery/lineage.js:45-47): strings joined by colons that name a project, a stage and the work it is for.
module JobKeys {
  import opened Text
  import opened States
  import opened Records
  import opened Lineage
  import opened Workflow
  import Queue
  import QueueRuns

  // What a key encodes besides the project; absent hashes are written "none".
  datatype Work =
    | DiscoveryWork(cycle: nat)
    | ProvisioningWork(plan: string)
    | CursorWork(iteration: nat, cycle: nat)
    | VerificationWork(iteration: nat, checkpoint: string, cycle: nat)
    | RuntimeWork(iteration: nat, checkpoint: string, artifact: string, cycle: nat)
    | VisualWork(runtime: string, screenshots: string, cycle: nat)
    | ReviewWork(iteration: nat, cycle: nat)
    | FinalWork(runs: nat, cycle: nat)
    | DeliveryWork(checkpoint: string, evidenceSet: string)

  // ---- Joining and splitting at colons ----

  predicate ColonFree(s: string) {
    forall c :: c in s ==> c != ':'
  }

  function Join(parts: seq<string>): string {
    if parts == [] then ""
    else if |parts| == 1 then parts[0]
    else parts[0] + ":" + Join(parts[1..])
  }

  // The parts of a text between its colons; there is always at least one.
  function Split(s: string): (r: seq<string>)
    ensures r != []
  {
    if s == "" then [""]
    else
      var rest := Split(s[1..]);
      if s[0] == ':' then [""] + rest else [[s[0]] + rest[0]] + rest[1..]
  }

  predicate AllColonFree(parts: seq<string>) {
    forall p :: p in parts ==> ColonFree(p)
  }

  lemma {:induction false} SplitOne(s: string)
    requires ColonFree(s)
    ensures Split(s) == [s]
  {
    if s != "" {
      assert s[0] in s && forall c :: c in s[1..] ==> c in s;
      SplitOne(s[1..]);
      assert s == [s[0]] + s[1..];
    }
  }

  lemma {:induction false} SplitHead(s: string, rest: string)
    requires ColonFree(s)
    ensures Split(s + ":" + rest) == [s] + Split(rest)
  {
    var whole := s + ":" + rest;
    if s == "" {
      assert whole[1..] == rest;
    } else {
      assert s[0] in s && forall c :: c in s[1..] ==> c in s;
      SplitHead(s[1..], rest);
      assert whole[1..] == s[1..] + ":" + rest;
      assert [s[0]] + s[1..] == s;
    }
  }

  lemma {:induction false} SplitJoin(parts: seq<string>)
    requires parts != [] && AllColonFree(parts)
    ensures Split(Join(parts)) == parts
  {
    if |parts| == 1 {
      SplitOne(parts[0]);
    } else {
      SplitJoin(parts[1..]);
      SplitHead(parts[0], Join(parts[1..]));
    }
  }

  lemma {:induction false} JoinSplit(s: string)
    ensures Join(Split(s)) == s && AllColonFree(Split(s))
  {
    if s != "" {
      JoinSplit(s[1..]);
      var rest := Split(s[1..]);
      assert s == [s[0]] + s[1..];
      if s[0] == ':' {
        assert ([""] + rest)[1..] == rest;
      } else {
        JoinPrepends(s[0], rest);
        assert rest[0] in rest && forall p :: p in rest[1..] ==> p in rest;
      }
    }
  }

  lemma {:induction false} JoinPrepends(c: char, parts: seq<string>)
    requires parts != []
    ensures Join([[c] + parts[0]] + parts[1..]) == [c] + Join(parts)
  {
    var longer := [[c] + parts[0]] + parts[1..];
    assert longer[1..] == parts[1..];
    if |parts| > 1 {
      assert ([c] + parts[0]) + ":" + Join(parts[1..]) == [c] + (parts[0] + ":" + Join(parts[1..]));
    }
  }

  lemma {:induction false} SplitIsInjective(a: string, b: string)
    requires Split(a) == Split(b)
    ensures a == b
  {
    JoinSplit(a);
    JoinSplit(b);
  }

  // ---- Numbers ----

  lemma {:induction false} DecimalIsColonFree(n: nat)
    ensures ColonFree(Decimal(n)) && Decimal(n) != ""
  {
    if n >= 10 { DecimalIsColonFree(n / 10); }
  }

  lemma {:induction false} DecimalEndsInADigit(n: nat)
    ensures Decimal(n) == (if n < 10 then "" else Decimal(n / 10)) + [Digit(n % 10)]
  {
  }

  lemma {:induction false} DigitIsInjective(c: nat, d: nat)
    requires c < 10 && d < 10 && Digit(c) == Digit(d)
    ensures c == d
  {
  }

  lemma {:induction false} DecimalIsInjective(m: nat, n: nat)
    requires Decimal(m) == Decimal(n)
    ensures m == n
  {
    hide Decimal, Digit, ColonFree;
    DecimalEndsInADigit(m);
    DecimalEndsInADigit(n);
    DecimalIsColonFree(m / 10);
    DecimalIsColonFree(n / 10);
    var a := if m < 10 then "" else Decimal(m / 10);
    var b := if n < 10 then "" else Decimal(n / 10);
    assert |a| == |b| && (a + [Digit(m % 10)])[|a|] == (b + [Digit(n % 10)])[|b|];
    assert a == (a + [Digit(m % 10)])[..|a|] == (b + [Digit(n % 10)])[..|b|] == b;
    DigitIsInjective(m % 10, n % 10);
    if m >= 10 { DecimalIsInjective(m / 10, n / 10); }
  }

  // ---- Keys ----

  function Cycle(cycle: nat): seq<string> {
    if cycle > 0 then ["fb", Decimal(cycle)] else []
  }

  // The parts after "project:<id>".
  function Parts(w: Work): (r: seq<string>)
    ensures r != []
  {
    match w
    case DiscoveryWork(cycle) => if cycle > 0 then ["discovery", "feedback", Decimal(cycle)] else ["discovery"]
    case ProvisioningWork(plan) => ["provision", plan]
    case CursorWork(iteration, cycle) => ["cursor", Decimal(iteration)] + Cycle(cycle)
    case VerificationWork(iteration, checkpoint, cycle) =>
      ["verification", Decimal(iteration), checkpoint] + Cycle(cycle)
    case RuntimeWork(iteration, checkpoint, artifact, cycle) =>
      ["runtime", Decimal(iteration), checkpoint, artifact] + Cycle(cycle)
    case VisualWork(runtime, screenshots, cycle) => ["visual", runtime, screenshots] + Cycle(cycle)
    case ReviewWork(iteration, cycle) => ["review", Decimal(iteration)] + Cycle(cycle)
    case FinalWork(runs, cycle) => ["final", Decimal(runs)] + Cycle(cycle)
    case DeliveryWork(checkpoint, evidenceSet) => ["delivery"] + Split(checkpoint) + [evidenceSet]
  }

  function Key(project: string, w: Work): string {
    Join(["project", project] + Parts(w))
  }

  // Every encoded field but the delivery checkpoint is free of colons.
  predicate Clean(project: string, w: Work) {
    && ColonFree(project)
    && match w
       case ProvisioningWork(plan) => ColonFree(plan)
       case VerificationWork(_, checkpoint, _) => ColonFree(checkpoint)
       case RuntimeWork(_, checkpoint, artifact, _) => ColonFree(checkpoint) && ColonFree(artifact)
       case VisualWork(runtime, screenshots, _) => ColonFree(runtime) && ColonFree(screenshots)
       case DeliveryWork(_, evidenceSet) => ColonFree(evidenceSet)
       case _ => true
  }

  lemma {:induction false} CycleIsColonFree(cycle: nat)
    ensures AllColonFree(Cycle(cycle))
  {
    DecimalIsColonFree(cycle);
  }

  lemma {:induction false} NamesAreColonFree()
    ensures ColonFree("discovery") && ColonFree("feedback") && ColonFree("provision") && ColonFree("cursor")
    ensures ColonFree("verification") && ColonFree("runtime") && ColonFree("visual") && ColonFree("review")
    ensures ColonFree("final") && ColonFree("delivery")
  {
  }

  lemma {:induction false} PartsAreColonFree(project: string, w: Work)
    requires Clean(project, w)
    ensures AllColonFree(Parts(w))
  {
    hide Decimal, Split, ColonFree, Cycle;
    NamesAreColonFree();
    match w {
      case DiscoveryWork(cycle) => DecimalIsColonFree(cycle);
      case ProvisioningWork(plan) =>
      case CursorWork(iteration, cycle) => DecimalIsColonFree(iteration); CycleIsColonFree(cycle);
      case VerificationWork(iteration, _, cycle) => DecimalIsColonFree(iteration); CycleIsColonFree(cycle);
      case RuntimeWork(iteration, _, _, cycle) => DecimalIsColonFree(iteration); CycleIsColonFree(cycle);
      case VisualWork(_, _, cycle) => CycleIsColonFree(cycle);
      case ReviewWork(iteration, cycle) => DecimalIsColonFree(iteration); CycleIsColonFree(cycle);
      case FinalWork(runs, cycle) => DecimalIsColonFree(runs); CycleIsColonFree(cycle);
      case DeliveryWork(checkpoint, _) => JoinSplit(checkpoint);
    }
  }

  lemma {:induction false} CycleIsInjective(a: seq<string>, m: nat, b: seq<string>, n: nat)
    requires |a| == |b| && a + Cycle(m) == b + Cycle(n)
    ensures a == b && m == n
  {
    assert |Cycle(m)| == |Cycle(n)|;
    assert a == (a + Cycle(m))[..|a|] && b == (b + Cycle(n))[..|b|];
    assert Cycle(m) == (a + Cycle(m))[|a|..] && Cycle(n) == (b + Cycle(n))[|b|..];
    if m > 0 { DecimalIsInjective(m, n); }
  }

  // The first part names the kind of work.
  function Kind(w: Work): string {
    match w
    case DiscoveryWork(_) => "discovery"
    case ProvisioningWork(_) => "provision"
    case CursorWork(_, _) => "cursor"
    case VerificationWork(_, _, _) => "verification"
    case RuntimeWork(_, _, _, _) => "runtime"
    case VisualWork(_, _, _) => "visual"
    case ReviewWork(_, _) => "review"
    case FinalWork(_, _) => "final"
    case DeliveryWork(_, _) => "delivery"
  }

  lemma {:induction false} KindComesFirst(w: Work)
    ensures Parts(w)[0] == Kind(w)
  {
  }

  lemma {:induction false} KindsDiffer(v: Work, w: Work)
    requires Kind(v) == Kind(w)
    ensures v.DiscoveryWork? == w.DiscoveryWork? && v.ProvisioningWork? == w.ProvisioningWork?
    ensures v.CursorWork? == w.CursorWork? && v.VerificationWork? == w.VerificationWork?
    ensures v.RuntimeWork? == w.RuntimeWork? && v.VisualWork? == w.VisualWork? && v.ReviewWork? == w.ReviewWork?
    ensures v.FinalWork? == w.FinalWork? && v.DeliveryWork? == w.DeliveryWork?
  {
    assert Kind(v)[0] == Kind(w)[0] && |Kind(v)| == |Kind(w)|;
  }

  lemma {:induction false} PartsAreInjective(v: Work, w: Work)
    requires Parts(v) == Parts(w)
    ensures v == w
  {
    KindComesFirst(v);
    KindComesFirst(w);
    KindsDiffer(v, w);
    match v {
      case DiscoveryWork(cycle) => if cycle > 0 { DecimalIsInjective(cycle, w.cycle); }
      case ProvisioningWork(plan) =>
      case CursorWork(iteration, cycle) =>
        CycleIsInjective(["cursor", Decimal(iteration)], cycle, ["cursor", Decimal(w.iteration)], w.cycle);
        DecimalIsInjective(iteration, w.iteration);
      case VerificationWork(iteration, checkpoint, cycle) =>
        CycleIsInjective(["verification", Decimal(iteration), checkpoint], cycle,
                         ["verification", Decimal(w.iteration), w.checkpoint], w.cycle);
        DecimalIsInjective(iteration, w.iteration);
      case RuntimeWork(iteration, checkpoint, artifact, cycle) =>
        CycleIsInjective(["runtime", Decimal(iteration), checkpoint, artifact], cycle,
                         ["runtime", Decimal(w.iteration), w.checkpoint, w.artifact], w.cycle);
        DecimalIsInjective(iteration, w.iteration);
      case VisualWork(runtime, screenshots, cycle) =>
        CycleIsInjective(["visual", runtime, screenshots], cycle, ["visual", w.runtime, w.screenshots], w.cycle);
      case ReviewWork(iteration, cycle) =>
        CycleIsInjective(["review", Decimal(iteration)], cycle, ["review", Decimal(w.iteration)], w.cycle);
        DecimalIsInjective(iteration, w.iteration);
      case FinalWork(runs, cycle) =>
        CycleIsInjective(["final", Decimal(runs)], cycle, ["final", Decimal(w.runs)], w.cycle);
        DecimalIsInjective(runs, w.runs);
      case DeliveryWork(checkpoint, evidenceSet) => DeliveryPartsAreInjective(v, w);
    }
  }

  lemma {:induction false} DeliveryPartsAreInjective(v: Work, w: Work)
    requires v.DeliveryWork? && w.DeliveryWork? && Parts(v) == Parts(w)
    ensures v == w
  {
    var n := |Parts(v)|;
    assert v.evidenceSet == Parts(v)[n - 1] && w.evidenceSet == Parts(w)[n - 1];
    assert Split(v.checkpoint) == Parts(v)[1..n - 1] && Split(w.checkpoint) == Parts(w)[1..n - 1];
    SplitIsInjective(v.checkpoint, w.checkpoint);
  }

  // Two keys are equal only if they name the same project and the same work: same stage and same iteration,
  // checkpoint, artifact, feedback cycle, plan and evidence set, as far as the stage encodes them.
  lemma {:induction false} KeysAreInjective(p: string, v: Work, q: string, w: Work)
    requires Clean(p, v) && Clean(q, w) && Key(p, v) == Key(q, w)
    ensures p == q && v == w
  {
    PartsAreColonFree(p, v);
    PartsAreColonFree(q, w);
    var a, b := ["project", p] + Parts(v), ["project", q] + Parts(w);
    SplitJoin(a);
    SplitJoin(b);
    assert a == b;
    assert p == a[1] && q == b[1];
    assert Parts(v) == a[2..] && Parts(w) == b[2..];
    PartsAreInjective(v, w);
  }

  // ---- The key of a project's planned job ----

  // Hashes the model does not compute; digest stands for the evidence-set hash, taken to be injective.
  datatype Hashes = Hashes(plan: string, artifact: string, screenshots: string, digest: EvidenceSet -> string)

  function FeedbackCycle(reviews: seq<OwnerReview>): nat {
    if reviews == [] then 0
    else FeedbackCycle(reviews[1..]) + (if reviews[0].decision == OwnerRequestsChanges then 1 else 0)
  }

  function LatestRuntimeOf(p: Project): Option<RuntimeRun> {
    if p.runtimeRuns == [] then None else Some(p.runtimeRuns[|p.runtimeRuns| - 1])
  }

  function WorkOf(p: Project, h: Hashes, job: JobType): Work {
    var cycle := FeedbackCycle(p.ownerReviews);
    match job
    case DiscoveryJob => DiscoveryWork(cycle)
    case ProvisioningJob => ProvisioningWork(Or(h.plan, "none"))
    case CursorJob => CursorWork(if p.state == SpecificationReady then p.iteration + 1 else StageIteration(p), cycle)
    case VerificationJob => VerificationWork(StageIteration(p), Or(StageCheckpoint(p), "none"), cycle)
    case RuntimeJob =>
      RuntimeWork(StageIteration(p), Or(StageCheckpoint(p), "none"), Or(h.artifact, "none"), cycle)
    case VisualJob =>
      var r := LatestRuntimeOf(p);
      VisualWork(if r.Some? then Or(r.value.id, "none") else "none",
                 Or(if r.Some? then r.value.screenshotSetHash else "", Or(h.screenshots, "none")), cycle)
    case ReviewJob => ReviewWork(StageIteration(p), cycle)
    case FinalJob => FinalWork(|p.cursorRuns|, cycle)
    case DeliveryJob => DeliveryWork(FinalCheckpoint(p), h.digest(EvidenceSetOf(p)))
  }

  // The evidence-set hash tells evidence sets apart.
  ghost predicate Injective(digest: EvidenceSet -> string) {
    forall a, b :: digest(a) == digest(b) ==> a == b
  }

  // Two planned jobs share a key only if they are of the same project and type, and agree on every field that the
  // type encodes; for deliveries these are the final checkpoint and the whole evidence set.
  lemma {:induction false} PlannedJobsShareAKeyOnlyIfSame(p: Project, j: JobType, q: Project, k: JobType, h: Hashes, g: Hashes)
    requires NextJob(p) == Some(j) && NextJob(q) == Some(k)
    requires Clean(p.id, WorkOf(p, h, j)) && Clean(q.id, WorkOf(q, g, k))
    requires Key(p.id, WorkOf(p, h, j)) == Key(q.id, WorkOf(q, g, k))
    ensures p.id == q.id && j == k && WorkOf(p, h, j) == WorkOf(q, g, k)
    ensures j.DeliveryJob? && h.digest == g.digest && Injective(h.digest) ==>
              FinalCheckpoint(p) == FinalCheckpoint(q) && EvidenceSetOf(p) == EvidenceSetOf(q)
  {
    KeysAreInjective(p.id, WorkOf(p, h, j), q.id, WorkOf(q, g, k));
    WorkNamesJob(p, h, j);
    WorkNamesJob(q, g, k);
  }

  // The number of requests for changes among the reviews: none in none, and counted up one by one.
  lemma {:induction false} CycleCountsRequests(a: seq<OwnerReview>, b: seq<OwnerReview>, version: nat)
    ensures FeedbackCycle(a + b) == FeedbackCycle(a) + FeedbackCycle(b)
    ensures FeedbackCycle([]) == 0 && FeedbackCycle([OwnerReview(version, OwnerApproves)]) == 0
    ensures FeedbackCycle([OwnerReview(version, OwnerRequestsChanges)]) == 1
    decreases |a|
  {
    if a == [] {
      assert a + b == b;
    } else {
      CycleCountsRequests(a[1..], b, version);
      assert (a + b)[1..] == a[1..] + b;
    }
  }

  function OrNone(s: string): string { if s == "" then "none" else s }

  // What a planned job of a type is for, read from the record: for every type but provisioning and delivery the feedback
  // cycle, and then the iteration that is worked on, which for a Cursor job still to be started is the next one; the
  // checkpoint; the artifact; the last runtime run and its screenshots; the number of Cursor runs.
  ghost predicate SameWork(p: Project, q: Project, h: Hashes, g: Hashes, job: JobType) {
    var cycle := FeedbackCycle(p.ownerReviews) == FeedbackCycle(q.ownerReviews);
    var iteration := (if p.iteration > 0 then p.iteration else 1) == (if q.iteration > 0 then q.iteration else 1);
    var checkpoint := OrNone(StageCheckpoint(p)) == OrNone(StageCheckpoint(q));
    match job
    case DiscoveryJob => cycle
    case ProvisioningJob => OrNone(h.plan) == OrNone(g.plan)
    case CursorJob =>
      && cycle
      && (p.state == q.state == SpecificationReady ==> p.iteration == q.iteration)
      && (p.state != SpecificationReady && q.state != SpecificationReady ==> iteration)
      && (p.state == SpecificationReady && q.state != SpecificationReady ==>
            p.iteration + 1 == if q.iteration > 0 then q.iteration else 1)
      && (p.state != SpecificationReady && q.state == SpecificationReady ==>
            q.iteration + 1 == if p.iteration > 0 then p.iteration else 1)
    case VerificationJob => cycle && iteration && checkpoint
    case RuntimeJob => cycle && iteration && checkpoint && OrNone(h.artifact) == OrNone(g.artifact)
    case VisualJob => cycle && OrNone(LastRuntimeId(p)) == OrNone(LastRuntimeId(q)) && Screenshots(p, h) == Screenshots(q, g)
    case ReviewJob => cycle && iteration
    case FinalJob => cycle && |p.cursorRuns| == |q.cursorRuns|
    case DeliveryJob =>
      FinalCheckpoint(p) == FinalCheckpoint(q) && h.digest(EvidenceSetOf(p)) == g.digest(EvidenceSetOf(q))
  }

  function LastRuntimeId(p: Project): string {
    if p.runtimeRuns == [] then "" else p.runtimeRuns[|p.runtimeRuns| - 1].id
  }

  // The hash recorded with the last runtime run, or else one computed from its screenshots.
  function Screenshots(p: Project, h: Hashes): string {
    if p.runtimeRuns != [] && p.runtimeRuns[|p.runtimeRuns| - 1].screenshotSetHash != ""
    then p.runtimeRuns[|p.runtimeRuns| - 1].screenshotSetHash else OrNone(h.screenshots)
  }

  // The jobs of two records have the same key exactly when they are of one project, one type, and for the same work: a
  // job is found again for as long as its work is the same, and never taken for another.
  lemma {:induction false} SameKeyIffSameWork(p: Project, j: JobType, q: Project, k: JobType, h: Hashes, g: Hashes)
    requires Clean(p.id, WorkOf(p, h, j)) && Clean(q.id, WorkOf(q, g, k))
    ensures Key(p.id, WorkOf(p, h, j)) == Key(q.id, WorkOf(q, g, k)) <==> p.id == q.id && j == k && SameWork(p, q, h, g, j)
  {
    WorkNamesJob(p, h, j);
    WorkNamesJob(q, g, k);
    if Key(p.id, WorkOf(p, h, j)) == Key(q.id, WorkOf(q, g, k)) {
      KeysAreInjective(p.id, WorkOf(p, h, j), q.id, WorkOf(q, g, k));
    }
    if j == k { WorkIsSameIff(p, q, h, g, j); }
    hide Key, WorkOf, SameWork;
  }

  lemma {:induction false} WorkIsSameIff(p: Project, q: Project, h: Hashes, g: Hashes, job: JobType)
    ensures WorkOf(p, h, job) == WorkOf(q, g, job) <==> SameWork(p, q, h, g, job)
  {
    hide EvidenceSetOf, FinalCheckpoint, StageCheckpoint, FeedbackCycle;
  }

  function JobOf(w: Work): JobType {
    match w
    case DiscoveryWork(_) => DiscoveryJob
    case ProvisioningWork(_) => ProvisioningJob
    case CursorWork(_, _) => CursorJob
    case VerificationWork(_, _, _) => VerificationJob
    case RuntimeWork(_, _, _, _) => RuntimeJob
    case VisualWork(_, _, _) => VisualJob
    case ReviewWork(_, _) => ReviewJob
    case FinalWork(_, _) => FinalJob
    case DeliveryWork(_, _) => DeliveryJob
  }

  lemma {:induction false} WorkNamesJob(p: Project, h: Hashes, job: JobType)
    ensures JobOf(WorkOf(p, h, job)) == job
  {
    hide EvidenceSetOf, FinalCheckpoint;
  }

  // ---- What that means for the queue ----

  ghost predicate Planned(project: string, key: string) {
    exists w :: Clean(project, w) && key == Key(project, w)
  }

  ghost predicate PlannedRows(rows: seq<Queue.Row>) {
    forall i :: 0 <= i < |rows| ==> Planned(rows[i].project, rows[i].key)
  }

  lemma {:induction false} PlannedKeyNamesProject(p: string, q: string, key: string)
    requires Planned(p, key) && Planned(q, key)
    ensures p == q
  {
    var v :| Clean(p, v) && key == Key(p, v);
    var w :| Clean(q, w) && key == Key(q, w);
    KeysAreInjective(p, v, q, w);
  }

  lemma {:induction false} PlannedKeysFit(rows: seq<Queue.Row>, plan: Queue.Plan)
    requires PlannedRows(rows) && Planned(plan.project, plan.key)
    ensures Queue.KeyFits(rows, plan) && Queue.KeysBelong(rows)
  {
    hide Planned;
    forall i | 0 <= i < |rows| && rows[i].key == plan.key ensures rows[i].project == plan.project {
      PlannedKeyNamesProject(rows[i].project, plan.project, plan.key);
    }
    forall i, j | 0 <= i < |rows| && 0 <= j < |rows| && rows[i].key == rows[j].key
      ensures rows[i].project == rows[j].project
    {
      PlannedKeyNamesProject(rows[i].project, rows[j].project, rows[i].key);
    }
  }

  ghost predicate PlansAJob(e: QueueRuns.Event) {
    match e
    case EnqueueEvent(plan) => Planned(plan.project, plan.key)
    case HandoffEvent(_, next) => next.Some? ==> Planned(next.value.project, next.value.key)
    case _ => true
  }

  lemma {:induction false} NextKeepsPlannedRows(c: Queue.Settings, t: QueueRuns.Table, e: QueueRuns.Event)
    requires PlannedRows(t.rows) && PlansAJob(e)
    ensures PlannedRows(QueueRuns.Next(c, t, e).rows)
  {
    hide Planned;
  }

  // When every job that is enqueued or handed on was planned for its project, keys keep to their projects in
  // every run, whatever workers, recoveries and the clock do.
  lemma {:induction false} PlannedRunsFit(c: Queue.Settings, now: int, events: seq<QueueRuns.Event>, k: nat)
    requires k <= |events| && forall e :: e in events ==> PlansAJob(e)
    ensures QueueRuns.RunFits(c, QueueRuns.Table([], now), events, k)
    ensures PlannedRows(QueueRuns.After(c, QueueRuns.Table([], now), events, k).rows)
  {
    if k > 0 {
      hide Planned, Queue.KeyFits, QueueRuns.Next;
      PlannedRunsFit(c, now, events, k - 1);
      var t := QueueRuns.After(c, QueueRuns.Table([], now), events, k - 1);
      NextKeepsPlannedRows(c, t, events[k - 1]);
      PlannedEventFits(t, events[k - 1]);
    }
  }

  lemma {:induction false} PlannedEventFits(t: QueueRuns.Table, e: QueueRuns.Event)
    requires PlannedRows(t.rows) && PlansAJob(e)
    ensures QueueRuns.PlanFits(t, e)
  {
    match e {
      case EnqueueEvent(plan) => PlannedKeysFit(t.rows, plan);
      case HandoffEvent(_, next) => if next.Some? { PlannedKeysFit(t.rows, next.value); }
      case _ =>
    }
  }
}
