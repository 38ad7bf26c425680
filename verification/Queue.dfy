// The lease-based job queue of src/jobs/queue.js over the jobs table and its two partial unique indexes
// (src/db/schema.js:166-170). Every statement or transaction is one atomic step.
module Queue {
  import opened Text

  datatype Status = Queued | Running | Completed | Dead

  // A row's id is its index; created_at grows with it.
  datatype Row = Row(
    project: string, key: string, capabilities: set<string>, status: Status, priority: int, attempts: nat,
    maxAttempts: nat, availableAt: int, lockedBy: Option<string>, lease: Option<int>)

  // What plannedJob and the extras of enqueue say about a job; availableAt is None for NOW().
  datatype Plan = Plan(
    project: string, key: string, capabilities: set<string>, priority: int, maxAttempts: nat, availableAt: Option<int>)

  // The job a worker holds in memory since it claimed it.
  datatype Ticket = Ticket(id: nat, worker: string, attempts: nat, maxAttempts: nat)

  datatype Settings = Settings(maxAttempts: nat, leaseMs: nat, retryBaseMs: nat, retryMaxMs: nat)

  predicate Active(r: Row) {
    r.status == Queued || r.status == Running
  }

  // ---- The unique indexes ----

  predicate Distinct(a: Row, b: Row) {
    a.project != b.project && a.key != b.key
  }

  // jobs_one_active_per_project and jobs_active_idempotency
  predicate IndexesHold(rows: seq<Row>) {
    forall i, j :: 0 <= i < j < |rows| && Active(rows[i]) && Active(rows[j]) ==> Distinct(rows[i], rows[j])
  }

  predicate Fits(rows: seq<Row>, r: Row) {
    forall i :: 0 <= i < |rows| && Active(rows[i]) ==> Distinct(rows[i], r)
  }

  function ActiveByKey(rows: seq<Row>, key: string): (r: Option<nat>)
    ensures r.Some? ==> r.value < |rows| && Active(rows[r.value]) && rows[r.value].key == key
    ensures r.None? ==> forall i :: 0 <= i < |rows| && Active(rows[i]) ==> rows[i].key != key
  {
    if rows == [] then None
    else if Active(rows[|rows| - 1]) && rows[|rows| - 1].key == key then Some(|rows| - 1)
    else ActiveByKey(rows[..|rows| - 1], key)
  }

  predicate Busy(rows: seq<Row>, project: string) {
    exists i :: 0 <= i < |rows| && Active(rows[i]) && rows[i].project == project
  }

  // ---- Statements ----

  function NewRow(plan: Plan, now: int): Row {
    Row(plan.project, plan.key, plan.capabilities, Queued, plan.priority, 0, plan.maxAttempts,
        if plan.availableAt.Some? then plan.availableAt.value else now, None, None)
  }

  datatype Placed = Placed(rows: seq<Row>, id: Option<nat>)

  // queue.js:16-47; a duplicate key error is answered by the active job with that key, if there is one.
  function Enqueue(rows: seq<Row>, now: int, plan: Plan): Placed {
    var existing := ActiveByKey(rows, plan.key);
    if existing.Some? then Placed(rows, existing)
    else if !Fits(rows, NewRow(plan, now)) then Placed(rows, None)
    else Placed(rows + [NewRow(plan, now)], Some(|rows|))
  }

  predicate Claimable(r: Row, now: int, capabilities: set<string>) {
    r.status == Queued && r.availableAt <= now && r.capabilities <= capabilities
  }

  // ORDER BY priority, created_at LIMIT 1, over the rows no concurrent transaction has locked.
  function Best(rows: seq<Row>, now: int, capabilities: set<string>, skipped: set<nat>): (r: Option<nat>)
    ensures r.Some? ==> r.value < |rows| && r.value !in skipped && Claimable(rows[r.value], now, capabilities)
    ensures r.Some? ==> forall i :: 0 <= i < |rows| && i !in skipped && Claimable(rows[i], now, capabilities) ==>
              rows[r.value].priority < rows[i].priority || (rows[r.value].priority == rows[i].priority && r.value <= i)
    ensures r.None? ==> forall i :: 0 <= i < |rows| && i !in skipped ==> !Claimable(rows[i], now, capabilities)
  {
    if rows == [] then None
    else
      var n := |rows| - 1;
      var before := Best(rows[..n], now, capabilities, skipped);
      if n in skipped || !Claimable(rows[n], now, capabilities) then before
      else if before.None? || rows[n].priority < rows[before.value].priority then Some(n)
      else before
  }

  function Claimed(r: Row, worker: string, lease: int): Row {
    r.(status := Running, lockedBy := Some(worker), lease := Some(lease), attempts := r.attempts + 1)
  }

  function Claim(rows: seq<Row>, now: int, leaseMs: nat, worker: string, capabilities: set<string>, skipped: set<nat>): Placed {
    var best := Best(rows, now, capabilities, skipped);
    if best.None? then Placed(rows, None)
    else Placed(rows[best.value := Claimed(rows[best.value], worker, now + leaseMs)], best)
  }

  predicate LockedBy(rows: seq<Row>, id: nat, worker: string) {
    id < |rows| && rows[id].status == Running && rows[id].lockedBy == Some(worker)
  }

  function Heartbeat(rows: seq<Row>, now: int, leaseMs: nat, id: nat, worker: string): seq<Row> {
    if LockedBy(rows, id, worker) then rows[id := rows[id].(lease := Some(now + leaseMs))] else rows
  }

  predicate Owns(rows: seq<Row>, now: int, id: nat, worker: string) {
    LockedBy(rows, id, worker) && rows[id].lease.Some? && rows[id].lease.value > now
  }

  function Unlocked(r: Row, status: Status, availableAt: int): Row {
    r.(status := status, lockedBy := None, lease := None, availableAt := availableAt)
  }

  function Finish(rows: seq<Row>, id: nat): (r: seq<Row>)
    ensures |r| == |rows|
  {
    if id < |rows| then rows[id := Unlocked(rows[id], Completed, rows[id].availableAt)] else rows
  }

  // queue.js:110-144. None when the insertion trips an index: the transaction is aborted and completes nothing.
  function CompleteAndHandoff(rows: seq<Row>, now: int, id: nat, next: Option<Plan>): Option<Placed> {
    var done := Finish(rows, id);
    if next.None? then Some(Placed(done, None))
    else
      var existing := ActiveByKey(done, next.value.key);
      if existing.Some? then Some(Placed(done, existing))
      else if !Fits(done, NewRow(next.value, now)) then None
      else Some(Placed(done + [NewRow(next.value, now)], Some(|done|)))
  }

  function Power(n: nat): (r: nat)
    ensures r >= 1
  {
    if n == 0 then 1 else 2 * Power(n - 1)
  }

  function Min(a: nat, b: nat): nat { if a <= b then a else b }

  // classify.js:41-44
  function RetryDelay(attempts: nat, base: nat, max: nat): nat {
    Min(max, base * Power(if attempts == 0 then 0 else attempts - 1))
  }

  // fromJobRow reads max_attempts 0 as 8
  function Limit(maxAttempts: nat): nat { if maxAttempts == 0 then 8 else maxAttempts }

  predicate Exhausted(job: Ticket, retryable: bool, terminal: bool) {
    terminal || !retryable || job.attempts >= Limit(job.maxAttempts)
  }

  // queue.js:146-162; requeueing a row that meanwhile would trip an index fails and changes nothing.
  function Fail(rows: seq<Row>, now: int, c: Settings, job: Ticket, retryable: bool, terminal: bool): seq<Row> {
    if job.id >= |rows| then rows
    else if Exhausted(job, retryable, terminal) then
      rows[job.id := Unlocked(rows[job.id], Dead, rows[job.id].availableAt)]
    else
      var delay := RetryDelay(job.attempts, c.retryBaseMs, c.retryMaxMs);
      var requeued := rows[job.id := Unlocked(rows[job.id], Queued, now + delay)];
      if IndexesHold(requeued) then requeued else rows
  }

  predicate Expired(r: Row, now: int) {
    r.status == Running && r.lease.Some? && r.lease.value <= now
  }

  function RecoveredRow(r: Row, id: nat, now: int, except: set<nat>): Row {
    if Expired(r, now) && id !in except then Unlocked(r, Queued, now) else r
  }

  function Recover(rows: seq<Row>, now: int, except: set<nat>): (r: seq<Row>)
    ensures |r| == |rows| && forall i :: 0 <= i < |rows| ==> r[i] == RecoveredRow(rows[i], i, now, except)
  {
    seq(|rows|, i requires 0 <= i < |rows| => RecoveredRow(rows[i], i, now, except))
  }

  function Release(rows: seq<Row>, now: int, id: nat, worker: string): seq<Row> {
    if LockedBy(rows, id, worker) then rows[id := Unlocked(rows[id], Queued, now)] else rows
  }

  // ---- The table invariant ----

  // RUNNING holds exactly when a worker and a lease are recorded.
  predicate LockedIffRunning(r: Row) {
    (r.status == Running <==> r.lockedBy.Some?) && (r.status == Running <==> r.lease.Some?)
  }

  // An idempotency key belongs to one project (see JobKeys).
  predicate KeysBelong(rows: seq<Row>) {
    forall i, j :: 0 <= i < |rows| && 0 <= j < |rows| && rows[i].key == rows[j].key ==> rows[i].project == rows[j].project
  }

  predicate KeyFits(rows: seq<Row>, plan: Plan) {
    forall i :: 0 <= i < |rows| && rows[i].key == plan.key ==> rows[i].project == plan.project
  }

  predicate TableOk(rows: seq<Row>) {
    && IndexesHold(rows)
    && (forall i :: 0 <= i < |rows| ==> LockedIffRunning(rows[i]))
    && KeysBelong(rows)
  }

  predicate SameKey(a: Row, b: Row) {
    a.project == b.project && a.key == b.key
  }

  // Rewriting one row without making an inactive row active keeps the table sound.
  lemma {:induction false} RewriteKeepsTable(rows: seq<Row>, id: nat, r: Row)
    requires TableOk(rows) && id < |rows| && SameKey(rows[id], r) && LockedIffRunning(r)
    requires Active(r) ==> Active(rows[id]) || IndexesHold(rows[id := r])
    ensures TableOk(rows[id := r])
  {
  }

  lemma {:induction false} AppendKeepsTable(rows: seq<Row>, plan: Plan, now: int)
    requires TableOk(rows) && KeyFits(rows, plan) && Fits(rows, NewRow(plan, now))
    ensures TableOk(rows + [NewRow(plan, now)])
  {
  }

  lemma {:induction false} RecoverKeepsTable(rows: seq<Row>, now: int, except: set<nat>)
    requires TableOk(rows)
    ensures TableOk(Recover(rows, now, except))
  {
    var after := Recover(rows, now, except);
    assert forall i :: 0 <= i < |rows| ==> SameKey(rows[i], after[i]) && Active(after[i]) == Active(rows[i]);
  }

  // ---- Handoff ----

  // The rows of a project that are active.
  predicate SoleActive(rows: seq<Row>, project: string, id: nat) {
    && id < |rows| && Active(rows[id]) && rows[id].project == project
    && forall i :: 0 <= i < |rows| && Active(rows[i]) && rows[i].project == project ==> i == id
  }

  lemma {:induction false} ActiveIsSole(rows: seq<Row>, id: nat)
    requires IndexesHold(rows) && id < |rows| && Active(rows[id])
    ensures SoleActive(rows, rows[id].project, id)
  {
  }

  lemma {:induction false} FinishFrees(rows: seq<Row>, id: nat)
    requires TableOk(rows) && id < |rows| && Active(rows[id])
    ensures TableOk(Finish(rows, id)) && !Busy(Finish(rows, id), rows[id].project)
  {
    RewriteKeepsTable(rows, id, Unlocked(rows[id], Completed, rows[id].availableAt));
  }

  // A caller that still holds its row never trips an index, and leaves exactly one active job for the project
  // when a stage is planned and none otherwise.
  lemma {:induction false} OwnerHandoffLosesNothing(rows: seq<Row>, now: int, id: nat, next: Option<Plan>)
    requires TableOk(rows) && id < |rows| && rows[id].status == Running
    requires next.Some? ==> next.value.project == rows[id].project && KeyFits(rows, next.value)
    ensures var result := CompleteAndHandoff(rows, now, id, next);
            && result.Some? && TableOk(result.value.rows) && result.value.rows[id].status == Completed
            && if next.Some? then
                 && result.value.id == Some(|rows|)
                 && SoleActive(result.value.rows, rows[id].project, |rows|)
                 && result.value.rows[|rows|] == NewRow(next.value, now)
               else result.value.id.None? && !Busy(result.value.rows, rows[id].project)
  {
    FinishFrees(rows, id);
    var done := Finish(rows, id);
    if next.Some? {
      assert KeyFits(done, next.value);
      NothingInTheWay(done, now, next.value);
      AppendKeepsTable(done, next.value, now);
      ActiveIsSole(done + [NewRow(next.value, now)], |rows|);
    }
  }

  lemma {:induction false} NothingInTheWay(rows: seq<Row>, now: int, plan: Plan)
    requires !Busy(rows, plan.project) && KeyFits(rows, plan)
    ensures ActiveByKey(rows, plan.key).None? && Fits(rows, NewRow(plan, now))
  {
  }

  // ---- Enqueueing ----

  lemma {:induction false} EnqueueKeepsTable(rows: seq<Row>, now: int, plan: Plan)
    requires TableOk(rows) && KeyFits(rows, plan)
    ensures TableOk(Enqueue(rows, now, plan).rows)
  {
    if Fits(rows, NewRow(plan, now)) { AppendKeepsTable(rows, plan, now); }
  }

  // Enqueueing again finds the job that is there and changes nothing.
  lemma {:induction false} EnqueueIsIdempotent(rows: seq<Row>, now: int, later: int, plan: Plan)
    requires TableOk(rows) && KeyFits(rows, plan)
    ensures var first := Enqueue(rows, now, plan);
            first.id.Some? ==> Enqueue(first.rows, later, plan) == first
  {
    EnqueueKeepsTable(rows, now, plan);
    var first := Enqueue(rows, now, plan);
    if first.id.Some? {
      var again := ActiveByKey(first.rows, plan.key);
      assert Active(first.rows[first.id.value]) && first.rows[first.id.value].key == plan.key;
      assert again.Some?;
    }
  }

  // A job is created exactly when neither its key nor its project is taken, and otherwise nothing changes.
  lemma {:induction false} EnqueueCreatesIffFree(rows: seq<Row>, now: int, plan: Plan)
    requires TableOk(rows) && KeyFits(rows, plan)
    ensures var r := Enqueue(rows, now, plan);
            && (r.rows != rows <==> !Busy(rows, plan.project))
            && (r.id.None? <==> Busy(rows, plan.project) && ActiveByKey(rows, plan.key).None?)
            && Busy(r.rows, plan.project)
            && (forall other :: other != plan.project ==> Busy(r.rows, other) == Busy(rows, other))
  {
    var r := Enqueue(rows, now, plan);
    if !Busy(rows, plan.project) {
      NothingInTheWay(rows, now, plan);
      assert Active(r.rows[|rows|]) && r.rows[|rows|].project == plan.project;
      forall other | other != plan.project ensures Busy(r.rows, other) == Busy(rows, other) {
        assert forall i :: 0 <= i < |rows| ==> r.rows[i] == rows[i];
      }
    }
  }
}
