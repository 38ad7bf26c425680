// The queue as an object (src/jobs/queue.js): each method is one statement or transaction on the table, and
// reconcile loops over the projects.
module JobQueue {
  import opened Text
  import opened Queue
  import opened JobKeys
  import QueueRuns

  // ---- What reconcile leaves ----

  datatype Reconciled = Reconciled(rows: seq<Row>, resumed: seq<string>)

  // plans[i] is plannedJob of the i-th project, None when no stage is planned for it.
  function ReconcileOne(r: Reconciled, now: int, plan: Option<Plan>): Reconciled {
    if plan.None? || Busy(r.rows, plan.value.project) then r
    else
      var placed := Enqueue(r.rows, now, plan.value);
      Reconciled(placed.rows, if placed.id.Some? then r.resumed + [plan.value.project] else r.resumed)
  }

  function Reconcile(rows: seq<Row>, now: int, plans: seq<Option<Plan>>, k: nat): Reconciled
    requires k <= |plans|
  {
    if k == 0 then Reconciled(rows, []) else ReconcileOne(Reconcile(rows, now, plans, k - 1), now, plans[k - 1])
  }

  ghost predicate AllPlanned(plans: seq<Option<Plan>>) {
    forall i :: 0 <= i < |plans| && plans[i].Some? ==> Planned(plans[i].value.project, plans[i].value.key)
  }

  lemma {:induction false} EnqueueExtends(rows: seq<Row>, now: int, plan: Plan)
    requires TableOk(rows) && PlannedRows(rows) && Planned(plan.project, plan.key) && !Busy(rows, plan.project)
    ensures var r := Enqueue(rows, now, plan);
            && r.rows == rows + [NewRow(plan, now)] && r.id == Some(|rows|)
            && TableOk(r.rows) && PlannedRows(r.rows)
  {
    hide Planned;
    PlannedKeysFit(rows, plan);
    NothingInTheWay(rows, now, plan);
    EnqueueKeepsTable(rows, now, plan);
  }

  lemma {:induction false} BusyGrows(before: seq<Row>, after: seq<Row>, project: string)
    requires before <= after && Busy(before, project)
    ensures Busy(after, project)
  {
    var i :| 0 <= i < |before| && Active(before[i]) && before[i].project == project;
    assert after[i] == before[i];
  }

  // The state of the loop after k projects.
  ghost predicate Swept(rows: seq<Row>, plans: seq<Option<Plan>>, k: nat, r: Reconciled)
    requires k <= |plans|
  {
    && TableOk(r.rows) && PlannedRows(r.rows) && rows <= r.rows
    && (forall i :: 0 <= i < k && plans[i].Some? ==> Busy(r.rows, plans[i].value.project))
    && (forall project :: project in r.resumed <==>
          Busy(r.rows, project) && !Busy(rows, project))
  }

  lemma {:induction false} SweptStep(rows: seq<Row>, now: int, plans: seq<Option<Plan>>, k: nat, r: Reconciled)
    requires k < |plans| && AllPlanned(plans) && Swept(rows, plans, k, r)
    ensures Swept(rows, plans, k + 1, ReconcileOne(r, now, plans[k]))
  {
    hide Planned;
    var after := ReconcileOne(r, now, plans[k]);
    if plans[k].Some? && !Busy(r.rows, plans[k].value.project) {
      var plan := plans[k].value;
      EnqueueExtends(r.rows, now, plan);
      NewlyBusy(r.rows, NewRow(plan, now));
      forall i | 0 <= i < k && plans[i].Some? ensures Busy(after.rows, plans[i].value.project) {
        BusyGrows(r.rows, after.rows, plans[i].value.project);
      }
      if Busy(rows, plan.project) { BusyGrows(rows, r.rows, plan.project); }
    }
  }

  lemma {:induction false} NewlyBusy(rows: seq<Row>, r: Row)
    requires Active(r)
    ensures forall project :: Busy(rows + [r], project) <==> Busy(rows, project) || project == r.project
  {
    forall project ensures Busy(rows + [r], project) <==> Busy(rows, project) || project == r.project {
      if project == r.project { assert (rows + [r])[|rows|] == r; }
      if Busy(rows, project) { BusyGrows(rows, rows + [r], project); }
    }
  }

  lemma {:induction false} BusyMeansOne(rows: seq<Row>, project: string)
    requires TableOk(rows) && Busy(rows, project)
    ensures exists id :: SoleActive(rows, project, id)
  {
    var id :| 0 <= id < |rows| && Active(rows[id]) && rows[id].project == project;
    ActiveIsSole(rows, id);
  }

  // ---- The object ----

  class JobQueue {
    const settings: Settings
    var rows: seq<Row>
    var now: int

    constructor (settings: Settings, now: int)
      ensures this.settings == settings && rows == [] && this.now == now
    {
      this.settings, this.rows, this.now := settings, [], now;
    }

    method EnqueueJob(plan: Plan) returns (id: Option<nat>)
      modifies this`rows
      ensures Placed(rows, id) == Enqueue(old(rows), now, plan)
    {
      var existing := ActiveByKey(rows, plan.key);
      if existing.Some? { return existing; }
      if !Fits(rows, NewRow(plan, now)) { return None; }
      id := Some(|rows|);
      rows := rows + [NewRow(plan, now)];
    }

    method ClaimJob(worker: string, capabilities: set<string>, skipped: set<nat>) returns (ticket: Option<Ticket>)
      modifies this`rows
      ensures var placed := Claim(old(rows), now, settings.leaseMs, worker, capabilities, skipped);
              && rows == placed.rows && (ticket.None? <==> placed.id.None?)
              && (ticket.Some? ==> ticket.value.id == placed.id.value && ticket.value.worker == worker
                                   && QueueRuns.Holds(rows, ticket.value))
    {
      var best := Best(rows, now, capabilities, skipped);
      if best.None? { return None; }
      var row := Claimed(rows[best.value], worker, now + settings.leaseMs);
      rows := rows[best.value := row];
      ticket := Some(Ticket(best.value, worker, row.attempts, row.maxAttempts));
    }

    method RecordHeartbeat(id: nat, worker: string) returns (owned: bool)
      modifies this`rows
      ensures rows == Heartbeat(old(rows), now, settings.leaseMs, id, worker)
      ensures owned <==> LockedBy(old(rows), id, worker)
      ensures owned && settings.leaseMs > 0 ==> Owns(rows, now, id, worker)
    {
      owned := LockedBy(rows, id, worker);
      if owned { rows := rows[id := rows[id].(lease := Some(now + settings.leaseMs))]; }
    }

    // None when the transaction is aborted.
    method HandOff(id: nat, next: Option<Plan>) returns (placed: Option<Placed>)
      modifies this`rows
      ensures placed == CompleteAndHandoff(old(rows), now, id, next)
      ensures rows == if placed.Some? then placed.value.rows else old(rows)
    {
      var done := Finish(rows, id);
      if next.None? {
        rows := done;
        return Some(Placed(rows, None));
      }
      var existing := ActiveByKey(done, next.value.key);
      if existing.Some? {
        rows := done;
        return Some(Placed(rows, existing));
      }
      if !Fits(done, NewRow(next.value, now)) { return None; }
      rows := done + [NewRow(next.value, now)];
      return Some(Placed(rows, Some(|done|)));
    }

    method FailJob(job: Ticket, retryable: bool, terminal: bool) returns (dead: bool)
      modifies this`rows
      ensures rows == Fail(old(rows), now, settings, job, retryable, terminal)
      ensures dead <==> Exhausted(job, retryable, terminal)
    {
      dead := Exhausted(job, retryable, terminal);
      if job.id >= |rows| { return; }
      if dead {
        rows := rows[job.id := Unlocked(rows[job.id], Dead, rows[job.id].availableAt)];
      } else {
        var delay := RetryDelay(job.attempts, settings.retryBaseMs, settings.retryMaxMs);
        var requeued := rows[job.id := Unlocked(rows[job.id], Queued, now + delay)];
        if IndexesHold(requeued) { rows := requeued; }
      }
    }

    // reconcile: afterwards every project with a planned stage has exactly one active job, nothing that was in the
    // table has changed, and the projects reported are exactly those that had none before and have one now.
    method ReconcileProjects(plans: seq<Option<Plan>>) returns (resumed: seq<string>)
      requires TableOk(rows) && PlannedRows(rows) && AllPlanned(plans)
      modifies this`rows
      ensures Reconciled(rows, resumed) == Reconcile(old(rows), now, plans, |plans|)
      ensures TableOk(rows) && old(rows) <= rows
      ensures forall i :: 0 <= i < |plans| && plans[i].Some? ==> exists id :: SoleActive(rows, plans[i].value.project, id)
      ensures forall project :: project in resumed <==> Busy(rows, project) && !Busy(old(rows), project)
    {
      resumed := [];
      var i := 0;
      while i < |plans|
        invariant 0 <= i <= |plans|
        invariant Reconciled(rows, resumed) == Reconcile(old(rows), now, plans, i)
        invariant Swept(old(rows), plans, i, Reconciled(rows, resumed))
      {
        SweptStep(old(rows), now, plans, i, Reconciled(rows, resumed));
        var plan := plans[i];
        if plan.Some? && !Busy(rows, plan.value.project) {
          var id := EnqueueJob(plan.value);
          if id.Some? { resumed := resumed + [plan.value.project]; }
        }
        i := i + 1;
      }
      forall k | 0 <= k < |plans| && plans[k].Some? ensures exists id :: SoleActive(rows, plans[k].value.project, id) {
        BusyMeansOne(rows, plans[k].value.project);
      }
    }
  }
}
