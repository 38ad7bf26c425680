// The per-project mutex that withProjectLock builds by chaining promises (src/delivery/decisions.js:8-18), and the
// owner decisions that run under it (src/orchestrator/orchestrator.js:1075-1125). Callers interleave at every await.
module ProjectLock {
  import opened Text
  import opened States
  import opened Records
  import Workflow
  import Delivery
  import Lineage

  // A section waits for its predecessor's chain, then runs on the project it loaded, then settles: its function
  // returned or threw, the lock was released and its own map entry deleted.
  datatype Phase = Waiting | Running(seen: Option<Project>) | Settled(ok: bool)

  datatype Call = Call(
    project: string, decision: OwnerDecision, feedback: string, previous: Option<nat>, phase: Phase)

  // locks maps a project to the call whose chain the next caller waits for; started lists calls in the order
  // their sections began.
  datatype Room = Room(calls: seq<Call>, locks: map<string, nat>, store: map<string, Project>, started: seq<nat>)

  datatype Event =
    | Enter(project: string, decision: OwnerDecision, feedback: string)
    | Start(call: nat)
    | Settle(call: nat)

  // The chain of call k resolves once its predecessor's chain has and call k was released.
  predicate Resolved(calls: seq<Call>, k: nat)
    requires k < |calls|
    decreases k
  {
    && calls[k].phase.Settled?
    && (calls[k].previous.None? || (calls[k].previous.value < k && Resolved(calls, calls[k].previous.value)))
  }

  predicate MayStart(calls: seq<Call>, k: nat)
    requires k < |calls|
  {
    && calls[k].phase.Waiting?
    && (calls[k].previous.None? || (calls[k].previous.value < |calls| && Resolved(calls, calls[k].previous.value)))
  }

  function Load(store: map<string, Project>, id: string): Option<Project> {
    if id in store then Some(store[id]) else None
  }

  // What the section does to the project it loaded; a project that does not exist makes store.get throw.
  function Outcome(seen: Option<Project>, c: Call): (bool, Option<Project>) {
    if seen.None? then (false, None)
    else
      var e := Workflow.OwnerDecides(seen.value, c.decision, c.feedback);
      (e.outcome.Ok?, Some(Workflow.Stored(seen.value, e)))
  }

  function Next(r: Room, e: Event): Room {
    match e
    case Enter(project, decision, feedback) =>
      var previous := if project in r.locks then Some(r.locks[project]) else None;
      r.(calls := r.calls + [Call(project, decision, feedback, previous, Waiting)],
         locks := r.locks[project := |r.calls|])
    case Start(k) =>
      if k < |r.calls| && MayStart(r.calls, k) then
        r.(calls := r.calls[k := r.calls[k].(phase := Running(Load(r.store, r.calls[k].project)))],
           started := r.started + [k])
      else r
    case Settle(k) =>
      if k < |r.calls| && r.calls[k].phase.Running? then
        var c := r.calls[k];
        var (ok, after) := Outcome(c.phase.seen, c);
        r.(calls := r.calls[k := c.(phase := Settled(ok))],
           locks := if c.project in r.locks && r.locks[c.project] == k then r.locks - {c.project} else r.locks,
           store := if after.Some? then r.store[c.project := after.value] else r.store)
      else r
  }

  function After(start: Room, events: seq<Event>): Room
    decreases |events|
  {
    if events == [] then start else Next(After(start, events[..|events| - 1]), events[|events| - 1])
  }

  predicate Empty(r: Room) {
    r.calls == [] && r.locks == map[] && r.started == []
  }

  // ---- The invariant ----

  predicate SettledBefore(calls: seq<Call>, k: nat, project: string)
    requires k <= |calls|
  {
    forall i :: 0 <= i < k && calls[i].project == project ==> calls[i].phase.Settled?
  }

  // A call waits for the one just before it on the same project, or for none when all before it have settled; and
  // it starts only when all before it have settled.
  predicate CallOk(calls: seq<Call>, k: nat)
    requires k < |calls|
  {
    var c := calls[k];
    && (c.previous.Some? ==> c.previous.value < k && calls[c.previous.value].project == c.project
                             && forall i :: c.previous.value < i < k ==> calls[i].project != c.project)
    && (c.previous.None? ==> SettledBefore(calls, k, c.project))
    && (!c.phase.Waiting? ==> SettledBefore(calls, k, c.project))
  }

  predicate CallsOk(calls: seq<Call>) {
    forall k :: 0 <= k < |calls| ==> CallOk(calls, k)
  }

  // The map entry of a project is its last call; without one all its calls have settled.
  ghost predicate LocksOk(r: Room) {
    && (forall p :: p in r.locks ==>
          r.locks[p] < |r.calls| && r.calls[r.locks[p]].project == p
          && forall i :: r.locks[p] < i < |r.calls| ==> r.calls[i].project != p)
    && (forall p :: p !in r.locks ==> SettledBefore(r.calls, |r.calls|, p))
  }

  ghost predicate RoomOk(r: Room) {
    && CallsOk(r.calls)
    && LocksOk(r)
  }

  lemma {:induction false} ResolvedMeansSettled(calls: seq<Call>, k: nat)
    requires k < |calls| && Resolved(calls, k) && CallsOk(calls)
    ensures SettledBefore(calls, k + 1, calls[k].project)
    decreases k
  {
    assert CallOk(calls, k);
  }

  lemma {:induction false} StarterComesAfterAll(calls: seq<Call>, k: nat)
    requires k < |calls| && MayStart(calls, k) && CallsOk(calls)
    ensures SettledBefore(calls, k, calls[k].project)
  {
    assert CallOk(calls, k);
    if calls[k].previous.Some? {
      ResolvedMeansSettled(calls, calls[k].previous.value);
    }
  }

  lemma {:induction false} EnterKeepsRoom(r: Room, project: string, decision: OwnerDecision, feedback: string)
    requires RoomOk(r)
    ensures RoomOk(Next(r, Enter(project, decision, feedback)))
  {
    var after := Next(r, Enter(project, decision, feedback));
    forall k | 0 <= k < |after.calls| ensures CallOk(after.calls, k) {
      if k < |r.calls| {
        assert CallOk(r.calls, k) && after.calls[k] == r.calls[k];
      } else if project !in r.locks {
        assert SettledBefore(r.calls, |r.calls|, project);
      }
    }
    forall p | p !in after.locks ensures SettledBefore(after.calls, |after.calls|, p) {
      assert SettledBefore(r.calls, |r.calls|, p);
    }
  }

  // Starting or settling call k changes its phase only, and leaves SettledBefore true where it was.
  lemma {:induction false} PhaseKeepsCalls(calls: seq<Call>, k: nat, phase: Phase)
    requires k < |calls| && CallsOk(calls)
    requires calls[k].phase.Settled? ==> phase.Settled?
    requires !phase.Waiting? ==> SettledBefore(calls, k, calls[k].project)
    ensures CallsOk(calls[k := calls[k].(phase := phase)])
  {
    var after := calls[k := calls[k].(phase := phase)];
    forall i | 0 <= i < |calls| ensures CallOk(after, i) {
      assert CallOk(calls, i);
    }
  }

  lemma {:induction false} StartKeepsRoom(r: Room, k: nat)
    requires RoomOk(r)
    ensures RoomOk(Next(r, Start(k)))
  {
    if k < |r.calls| && MayStart(r.calls, k) {
      StarterComesAfterAll(r.calls, k);
      PhaseKeepsCalls(r.calls, k, Running(Load(r.store, r.calls[k].project)));
    }
  }

  lemma {:induction false} SettleKeepsRoom(r: Room, k: nat)
    requires RoomOk(r)
    ensures RoomOk(Next(r, Settle(k)))
  {
    hide Workflow.OwnerDecides;
    if k < |r.calls| && r.calls[k].phase.Running? {
      assert CallOk(r.calls, k);
      var (ok, _) := Outcome(r.calls[k].phase.seen, r.calls[k]);
      PhaseKeepsCalls(r.calls, k, Settled(ok));
      var after := Next(r, Settle(k));
      forall p | p !in after.locks ensures SettledBefore(after.calls, |after.calls|, p) {
        if p !in r.locks {
          assert SettledBefore(r.calls, |r.calls|, p);
        }
      }
    }
  }

  lemma {:induction false} RunKeepsRoom(start: Room, events: seq<Event>)
    requires Empty(start)
    ensures RoomOk(After(start, events))
    decreases |events|
  {
    hide Next;
    if events != [] {
      RunKeepsRoom(start, events[..|events| - 1]);
      var r := After(start, events[..|events| - 1]);
      match events[|events| - 1] {
        case Enter(project, decision, feedback) => EnterKeepsRoom(r, project, decision, feedback);
        case Start(k) => StartKeepsRoom(r, k);
        case Settle(k) => SettleKeepsRoom(r, k);
      }
    }
  }

  // ---- Mutual exclusion and order ----

  // In every interleaving at most one section of a project is running.
  lemma {:induction false} AtMostOneRuns(start: Room, events: seq<Event>, i: nat, j: nat)
    requires Empty(start)
    requires var r := After(start, events);
             && i < |r.calls| && j < |r.calls| && r.calls[i].project == r.calls[j].project
             && r.calls[i].phase.Running? && r.calls[j].phase.Running?
    ensures i == j
  {
    hide Next;
    RunKeepsRoom(start, events);
    var r := After(start, events);
    assert CallOk(r.calls, i) && CallOk(r.calls, j);
  }

  // The sections of a project start in the order of the calls.
  predicate InCallOrder(r: Room) {
    && (forall i :: 0 <= i < |r.started| ==> r.started[i] < |r.calls| && !r.calls[r.started[i]].phase.Waiting?)
    && (forall i, j :: 0 <= i < j < |r.started| && r.calls[r.started[i]].project == r.calls[r.started[j]].project ==>
          r.started[i] < r.started[j])
  }

  lemma {:induction false} StartKeepsOrder(r: Room, k: nat)
    requires RoomOk(r) && InCallOrder(r)
    ensures InCallOrder(Next(r, Start(k)))
  {
    if k < |r.calls| && MayStart(r.calls, k) {
      var after := Next(r, Start(k));
      forall i | 0 <= i < |r.started| && r.calls[r.started[i]].project == r.calls[k].project ensures r.started[i] < k {
        assert CallOk(r.calls, r.started[i]);
      }
      assert forall i :: 0 <= i < |r.started| ==> after.started[i] == r.started[i];
    }
  }

  lemma {:induction false} SectionsStartInCallOrder(start: Room, events: seq<Event>)
    requires Empty(start)
    ensures InCallOrder(After(start, events))
    decreases |events|
  {
    if events != [] {
      var r := After(start, events[..|events| - 1]);
      SectionsStartInCallOrder(start, events[..|events| - 1]);
      RunKeepsRoom(start, events[..|events| - 1]);
      OrderStep(r, events[|events| - 1]);
    }
  }

  lemma {:induction false} OrderStep(r: Room, e: Event)
    requires RoomOk(r) && InCallOrder(r)
    ensures InCallOrder(Next(r, e))
  {
    hide Workflow.OwnerDecides;
    if e.Start? { StartKeepsOrder(r, e.call); }
  }

  // Nobody is locked out: while a call waits, some section of its project is running or may start.
  lemma {:induction false} SomebodyCanMove(start: Room, events: seq<Event>, k: nat)
    requires Empty(start)
    requires k < |After(start, events).calls| && After(start, events).calls[k].phase.Waiting?
    ensures var r := After(start, events);
            exists j :: 0 <= j <= k && r.calls[j].project == r.calls[k].project
                        && (r.calls[j].phase.Running? || MayStart(r.calls, j))
  {
    hide Next;
    RunKeepsRoom(start, events);
    FirstUnsettledCanMove(After(start, events), k);
  }

  lemma {:induction false} AllSettledResolves(calls: seq<Call>, k: nat)
    requires k < |calls| && SettledBefore(calls, k + 1, calls[k].project) && CallsOk(calls)
    ensures Resolved(calls, k)
    decreases k
  {
    assert CallOk(calls, k);
    if calls[k].previous.Some? {
      AllSettledResolves(calls, calls[k].previous.value);
    }
  }

  lemma {:induction false} FirstUnsettledCanMove(r: Room, k: nat)
    requires RoomOk(r) && k < |r.calls| && !r.calls[k].phase.Settled?
    ensures exists j :: 0 <= j <= k && r.calls[j].project == r.calls[k].project
                        && (r.calls[j].phase.Running? || MayStart(r.calls, j))
    decreases k
  {
    assert CallOk(r.calls, k);
    if !SettledBefore(r.calls, k, r.calls[k].project) {
      var i :| 0 <= i < k && r.calls[i].project == r.calls[k].project && !r.calls[i].phase.Settled?;
      FirstUnsettledCanMove(r, i);
    } else if r.calls[k].phase.Waiting? {
      if r.calls[k].previous.Some? { AllSettledResolves(r.calls, r.calls[k].previous.value); }
      assert MayStart(r.calls, k);
    }
  }

  // ---- Concurrent owner decisions ----

  // A decision that succeeds finds the project READY and leaves it otherwise; one that throws stores nothing.
  lemma {:induction false} DecisionConsumesReadiness(p: Project, decision: OwnerDecision, feedback: string)
    ensures var e := Workflow.OwnerDecides(p, decision, feedback);
            if e.outcome.Ok? then p.state == ReadyForOwnerReview && Workflow.Stored(p, e).state != ReadyForOwnerReview
            else Workflow.Stored(p, e) == p
  {
    hide Delivery.Decide;
  }

  // A running section works on what is stored, and once a decision on a project succeeded it is not READY.
  predicate DecisionsOk(r: Room) {
    && (forall k :: 0 <= k < |r.calls| && r.calls[k].phase.Running? ==>
          r.calls[k].phase.seen == Load(r.store, r.calls[k].project))
    && (forall k :: 0 <= k < |r.calls| && r.calls[k].phase == Settled(true) ==>
          r.calls[k].project in r.store && r.store[r.calls[k].project].state != ReadyForOwnerReview)
    && (forall i, j :: 0 <= i < j < |r.calls| && r.calls[i].project == r.calls[j].project ==>
          !(r.calls[i].phase == Settled(true) && r.calls[j].phase == Settled(true)))
  }

  lemma {:induction false} SettleKeepsDecisions(r: Room, k: nat)
    requires RoomOk(r) && DecisionsOk(r) && k < |r.calls| && r.calls[k].phase.Running?
    ensures DecisionsOk(Next(r, Settle(k)))
  {
    hide Workflow.OwnerDecides;
    var c := r.calls[k];
    if c.phase.seen.Some? { DecisionConsumesReadiness(c.phase.seen.value, c.decision, c.feedback); }
    forall i | 0 <= i < |r.calls| && i != k && r.calls[i].phase.Running? ensures r.calls[i].project != c.project {
      assert CallOk(r.calls, i) && CallOk(r.calls, k);
    }
  }

  lemma {:induction false} DecisionStep(r: Room, e: Event)
    requires RoomOk(r) && DecisionsOk(r)
    ensures DecisionsOk(Next(r, e))
  {
    hide Workflow.OwnerDecides;
    if e.Settle? && e.call < |r.calls| && r.calls[e.call].phase.Running? {
      SettleKeepsDecisions(r, e.call);
    }
  }

  lemma {:induction false} RunKeepsDecisions(start: Room, events: seq<Event>)
    requires Empty(start)
    ensures DecisionsOk(After(start, events))
    decreases |events|
  {
    if events != [] {
      hide Next;
      RunKeepsDecisions(start, events[..|events| - 1]);
      RunKeepsRoom(start, events[..|events| - 1]);
      DecisionStep(After(start, events[..|events| - 1]), events[|events| - 1]);
    }
  }

  // Of any set of concurrent approve and requestChanges calls on a project, in every interleaving, at most one
  // succeeds.
  lemma {:induction false} AtMostOneDecisionSucceeds(start: Room, events: seq<Event>, i: nat, j: nat)
    requires Empty(start)
    requires var r := After(start, events);
             && i < |r.calls| && j < |r.calls| && r.calls[i].project == r.calls[j].project
             && r.calls[i].phase == Settled(true) && r.calls[j].phase == Settled(true)
    ensures i == j
  {
    hide Next;
    RunKeepsDecisions(start, events);
  }

  // Without the lock two callers may load the same READY project, and then both succeed whenever one would: an
  // approval implies that a request for changes with any feedback would have succeeded too, on the same delivery.
  lemma {:induction false} WithoutTheLockBothSucceed(p: Project, feedback: string)
    requires Trim(feedback) != "" && Workflow.OwnerDecides(p, OwnerApproves, "").outcome.Ok?
    ensures Workflow.OwnerDecides(p, OwnerRequestsChanges, feedback).outcome.Ok?
    ensures Delivery.Decide(p, OwnerApproves, "").ownerReviews[|p.ownerReviews|].deliveryVersion
            == Delivery.Decide(p, OwnerRequestsChanges, feedback).ownerReviews[|p.ownerReviews|].deliveryVersion
  {
    hide Trim, Lineage.DeliveryIsCurrent, Lineage.CurrentIndex, Delivery.HasReview;
  }
}
