// What a claim asks of a job and what it does to it, over single claims and over whole runs, and what a new job is
// (src/jobs/queue.js:16-90).
module QueueClaims {
  import opened Text
  import opened Queue
  import opened QueueRuns

  // The row waits for a worker with these capabilities: it is queued, it is due, and the worker has every
  // capability that it requires.
  predicate WaitsFor(r: Row, now: int, capabilities: set<string>) {
    r.status == Queued && r.availableAt <= now && forall c :: c in r.capabilities ==> c in capabilities
  }

  predicate IsOffered(rows: seq<Row>, now: int, capabilities: set<string>, skipped: set<nat>, i: nat) {
    i < |rows| && i !in skipped && WaitsFor(rows[i], now, capabilities)
  }

  // Row i comes before row j: by priority, then by age.
  predicate ComesBefore(rows: seq<Row>, i: nat, j: nat)
    requires i < |rows| && j < |rows|
  {
    rows[i].priority < rows[j].priority || (rows[i].priority == rows[j].priority && i < j)
  }

  // The row as the claiming worker finds it.
  predicate TakenBy(before: Row, after: Row, worker: string, lease: int) {
    && after.status == Running && after.lockedBy == Some(worker) && after.lease == Some(lease)
    && after.attempts == before.attempts + 1
    && after.project == before.project && after.key == before.key && after.capabilities == before.capabilities
    && after.priority == before.priority && after.maxAttempts == before.maxAttempts
    && after.availableAt == before.availableAt
  }

  // A claim takes a job exactly when one that nobody has locked waits for such a worker. It takes the one that comes
  // before every other, for the length of the lease, and touches nothing else.
  lemma {:induction false} ClaimTakesTheFirstOffered(rows: seq<Row>, now: int, leaseMs: nat, worker: string,
                                                     capabilities: set<string>, skipped: set<nat>)
    ensures var r := Claim(rows, now, leaseMs, worker, capabilities, skipped);
            && (r.id.Some? <==> exists i :: IsOffered(rows, now, capabilities, skipped, i))
            && (r.id.None? ==> r.rows == rows)
            && (r.id.Some? ==>
                  && IsOffered(rows, now, capabilities, skipped, r.id.value)
                  && (forall i :: IsOffered(rows, now, capabilities, skipped, i) && i != r.id.value ==>
                        ComesBefore(rows, r.id.value, i))
                  && |r.rows| == |rows|
                  && TakenBy(rows[r.id.value], r.rows[r.id.value], worker, now + leaseMs)
                  && forall i :: 0 <= i < |rows| && i != r.id.value ==> r.rows[i] == rows[i])
  {
    forall r: Row ensures WaitsFor(r, now, capabilities) <==> Claimable(r, now, capabilities) {
      assert r.capabilities <= capabilities <==> forall c :: c in r.capabilities ==> c in capabilities;
    }
    var best := Best(rows, now, capabilities, skipped);
    if best.Some? { assert IsOffered(rows, now, capabilities, skipped, best.value); }
  }

  // ---- Runs ----

  predicate IsRunning(rows: seq<Row>, i: nat) {
    i < |rows| && rows[i].status == Running
  }

  // Whoever calls what: a job that is not running starts to run at an event exactly when the event is a claim, the job
  // waits for that worker and comes before every other that does.
  ghost predicate StartsRunning(t: Table, e: Event, i: nat) {
    && e.ClaimEvent? && IsOffered(t.rows, t.now, e.capabilities, e.skipped, i)
    && forall j :: IsOffered(t.rows, t.now, e.capabilities, e.skipped, j) && j != i ==> ComesBefore(t.rows, i, j)
  }

  lemma {:induction false} OnlyClaimsStart(c: Settings, t: Table, e: Event, i: nat)
    requires !e.ClaimEvent? && !IsRunning(t.rows, i)
    ensures !IsRunning(Next(c, t, e).rows, i)
  {
    hide Fits, ActiveByKey, IndexesHold, RetryDelay, Exhausted;
  }

  lemma {:induction false} RunningIffClaimed(c: Settings, t: Table, e: Event, i: nat)
    requires !IsRunning(t.rows, i)
    ensures IsRunning(Next(c, t, e).rows, i) <==> StartsRunning(t, e, i)
  {
    if e.ClaimEvent? {
      ClaimTakesTheFirstOffered(t.rows, t.now, c.leaseMs, e.worker, e.capabilities, e.skipped);
      hide Claim, WaitsFor;
      var r := Claim(t.rows, t.now, c.leaseMs, e.worker, e.capabilities, e.skipped);
      if StartsRunning(t, e, i) { assert r.id.Some? && (r.id.value != i ==> ComesBefore(t.rows, r.id.value, i)); }
    } else {
      OnlyClaimsStart(c, t, e, i);
    }
  }

  // The job was started by the event at m and has been running until k.
  ghost predicate RunsSince(c: Settings, start: Table, events: seq<Event>, m: nat, k: nat, i: nat)
    requires m < k <= |events|
  {
    && StartsRunning(After(c, start, events, m), events[m], i)
    && forall n :: m < n <= k ==> IsRunning(After(c, start, events, n).rows, i)
  }

  // In every run, each job that is running was started by the claim of a worker that has every capability the job
  // requires, when it was due and first in line, and has been running ever since.
  lemma {:induction false} RunningWasClaimed(c: Settings, now: int, events: seq<Event>, k: nat, i: nat)
    requires k <= |events| && IsRunning(After(c, Table([], now), events, k).rows, i)
    ensures exists m :: 0 <= m < k && RunsSince(c, Table([], now), events, m, k, i)
  {
    hide Next, StartsRunning, IsRunning;
    var start := Table([], now);
    if k == 0 {
      NoRowRuns(i);
    } else if IsRunning(After(c, start, events, k - 1).rows, i) {
      RunningWasClaimed(c, now, events, k - 1, i);
      var m :| 0 <= m < k - 1 && RunsSince(c, start, events, m, k - 1, i);
      RunsOn(c, start, events, m, k, i);
    } else {
      RunningIffClaimed(c, After(c, start, events, k - 1), events[k - 1], i);
      RunsFromNow(c, start, events, k, i);
    }
  }

  lemma {:induction false} NoRowRuns(i: nat)
    ensures !IsRunning([], i)
  {
  }

  lemma {:induction false} RunsOn(c: Settings, start: Table, events: seq<Event>, m: nat, k: nat, i: nat)
    requires m + 1 < k <= |events| && RunsSince(c, start, events, m, k - 1, i)
    requires IsRunning(After(c, start, events, k).rows, i)
    ensures RunsSince(c, start, events, m, k, i)
  {
    hide After, StartsRunning, IsRunning;
  }

  lemma {:induction false} RunsFromNow(c: Settings, start: Table, events: seq<Event>, k: nat, i: nat)
    requires 0 < k <= |events| && StartsRunning(After(c, start, events, k - 1), events[k - 1], i)
    requires IsRunning(After(c, start, events, k).rows, i)
    ensures RunsSince(c, start, events, k - 1, k, i)
  {
    hide After, StartsRunning, IsRunning;
  }

  // ---- New jobs ----

  // What the plan of a stage becomes.
  predicate IsNewJob(r: Row, plan: Plan, now: int) {
    && r.project == plan.project && r.key == plan.key && r.capabilities == plan.capabilities
    && r.priority == plan.priority && r.maxAttempts == plan.maxAttempts
    && r.status == Queued && r.attempts == 0 && r.lockedBy.None? && r.lease.None?
    && (plan.availableAt.Some? ==> r.availableAt == plan.availableAt.value)
    && (plan.availableAt.None? ==> r.availableAt == now)
  }

  // In every run the number of jobs grows at an event by the one job that is planned, or not at all; and no event
  // changes the project, the key, the capabilities, the priority or the limit of a job.
  lemma {:induction false} JobsAreWhatWasPlanned(c: Settings, t: Table, e: Event)
    ensures var rows := Next(c, t, e).rows;
            && |t.rows| <= |rows| <= |t.rows| + 1
            && (|rows| > |t.rows| && e.EnqueueEvent? ==> IsNewJob(rows[|t.rows|], e.plan, t.now))
            && (|rows| > |t.rows| && e.HandoffEvent? ==> e.next.Some? && IsNewJob(rows[|t.rows|], e.next.value, t.now))
            && (|rows| > |t.rows| ==> e.EnqueueEvent? || e.HandoffEvent?)
            && forall i :: 0 <= i < |t.rows| ==>
                 && rows[i].project == t.rows[i].project && rows[i].key == t.rows[i].key
                 && rows[i].capabilities == t.rows[i].capabilities && rows[i].priority == t.rows[i].priority
                 && rows[i].maxAttempts == t.rows[i].maxAttempts
  {
    hide Fits, ActiveByKey, IndexesHold, RetryDelay, Exhausted;
  }

  // ---- What the other statements do to a row ----

  // The row lost its worker and its lease and kept everything else but its status and the time it is due.
  predicate IsUnlocked(before: Row, after: Row, status: Status, availableAt: int) {
    && after.status == status && after.lockedBy.None? && after.lease.None? && after.availableAt == availableAt
    && after == before.(status := status, lockedBy := None, lease := None, availableAt := availableAt)
  }

  // Lease recovery queues, as due now, exactly the running rows whose lease has run out and that the caller does not
  // except; every other row stays.
  lemma {:induction false} RecoveryReturnsExpired(rows: seq<Row>, now: int, except: set<nat>, i: nat)
    requires i < |rows|
    ensures var after, r := Recover(rows, now, except), rows[i];
            && |after| == |rows|
            && if r.status == Running && r.lease.Some? && r.lease.value <= now && i !in except
               then IsUnlocked(r, after[i], Queued, now) else after[i] == r
  {
  }

  // A heartbeat and a release change the one row that is running for that worker: its lease, or its being locked.
  lemma {:induction false} OnlyTheHolderReports(rows: seq<Row>, now: int, leaseMs: nat, id: nat, worker: string, i: nat)
    requires i < |rows|
    ensures var beat, released := Heartbeat(rows, now, leaseMs, id, worker), Release(rows, now, id, worker);
            && |beat| == |released| == |rows|
            && if i == id && rows[i].status == Running && rows[i].lockedBy == Some(worker)
               then beat[i] == rows[i].(lease := Some(now + leaseMs)) && IsUnlocked(rows[i], released[i], Queued, now)
               else beat[i] == released[i] == rows[i]
  {
  }

  // A worker owns a row while it is running for it and its lease has not run out.
  lemma {:induction false} OwnsUntilTheLeaseEnds(rows: seq<Row>, now: int, id: nat, worker: string)
    ensures Owns(rows, now, id, worker) <==>
            id < |rows| && rows[id].status == Running && rows[id].lockedBy == Some(worker)
            && rows[id].lease.Some? && now < rows[id].lease.value
  {
  }

  // A success ends the row that it names, whoever sends it, and adds at most the next job; a failure sends it to be
  // queued later or to the dead letters.
  lemma {:induction false} ReportsUnlock(rows: seq<Row>, now: int, c: Settings, job: Ticket, next: Option<Plan>,
                                         retryable: bool, terminal: bool)
    requires job.id < |rows|
    ensures var done, failed := CompleteAndHandoff(rows, now, job.id, next), Fail(rows, now, c, job, retryable, terminal);
            && (done.Some? ==> |rows| <= |done.value.rows| <= |rows| + 1
                               && IsUnlocked(rows[job.id], done.value.rows[job.id], Completed, rows[job.id].availableAt))
            && |failed| == |rows|
            && (failed != rows ==>
                  || IsUnlocked(rows[job.id], failed[job.id], Dead, rows[job.id].availableAt)
                  || IsUnlocked(rows[job.id], failed[job.id], Queued,
                                now + RetryDelay(job.attempts, c.retryBaseMs, c.retryMaxMs)))
            && forall i :: 0 <= i < |rows| && i != job.id ==>
                 failed[i] == rows[i] && (done.Some? ==> done.value.rows[i] == rows[i])
  {
    hide Fits, ActiveByKey, IndexesHold, RetryDelay, Exhausted;
  }
}
