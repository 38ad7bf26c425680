// Runs of the job queue: any interleaving of workers, enqueues, recoveries and the clock.
module QueueRuns {
  import opened Text
  import opened Queue

  datatype Event =
    | EnqueueEvent(plan: Plan)
    | ClaimEvent(worker: string, capabilities: set<string>, skipped: set<nat>)
    | HeartbeatEvent(id: nat, worker: string)
    | HandoffEvent(ticket: Ticket, next: Option<Plan>)
    | FailEvent(ticket: Ticket, retryable: bool, terminal: bool)
    | RecoverEvent(except: set<nat>)
    | ReleaseEvent(id: nat, worker: string)
    | WaitEvent(ms: nat)

  datatype Table = Table(rows: seq<Row>, now: int)

  function Next(c: Settings, t: Table, e: Event): Table {
    match e
    case EnqueueEvent(plan) => t.(rows := Enqueue(t.rows, t.now, plan).rows)
    case ClaimEvent(worker, capabilities, skipped) =>
      t.(rows := Claim(t.rows, t.now, c.leaseMs, worker, capabilities, skipped).rows)
    case HeartbeatEvent(id, worker) => t.(rows := Heartbeat(t.rows, t.now, c.leaseMs, id, worker))
    case HandoffEvent(ticket, next) =>
      var result := CompleteAndHandoff(t.rows, t.now, ticket.id, next);
      if result.Some? then t.(rows := result.value.rows) else t
    case FailEvent(ticket, retryable, terminal) => t.(rows := Fail(t.rows, t.now, c, ticket, retryable, terminal))
    case RecoverEvent(except) => t.(rows := Recover(t.rows, t.now, except))
    case ReleaseEvent(id, worker) => t.(rows := Release(t.rows, t.now, id, worker))
    case WaitEvent(ms) => t.(now := t.now + ms)
  }

  // The table after the first k events.
  function After(c: Settings, start: Table, events: seq<Event>, k: nat): Table
    requires k <= |events|
  {
    if k == 0 then start else Next(c, After(c, start, events, k - 1), events[k - 1])
  }

  // Which row a claim takes.
  function ClaimedRow(t: Table, e: Event): Option<nat> {
    match e
    case ClaimEvent(worker, capabilities, skipped) => Best(t.rows, t.now, capabilities, skipped)
    case _ => None
  }

  // The caller of completeAndHandoff or fail still holds the row it claimed.
  predicate Holds(rows: seq<Row>, ticket: Ticket) {
    && LockedBy(rows, ticket.id, ticket.worker)
    && rows[ticket.id].attempts == ticket.attempts && rows[ticket.id].maxAttempts == ticket.maxAttempts
  }

  predicate PlanFits(t: Table, e: Event) {
    match e
    case EnqueueEvent(plan) => KeyFits(t.rows, plan)
    case HandoffEvent(ticket, next) => next.Some? ==> KeyFits(t.rows, next.value)
    case _ => true
  }

  // Workers complete and fail only what they hold; everything else is adversarial.
  predicate Honest(t: Table, e: Event) {
    match e
    case HandoffEvent(ticket, next) =>
      Holds(t.rows, ticket) && (next.Some? ==> next.value.project == t.rows[ticket.id].project)
    case FailEvent(ticket, retryable, terminal) => Holds(t.rows, ticket)
    case _ => true
  }

  // The first k events start from a sound table and keep keys to their projects.
  predicate RunFits(c: Settings, start: Table, events: seq<Event>, k: nat)
    requires k <= |events|
  {
    if k == 0 then TableOk(start.rows)
    else RunFits(c, start, events, k - 1) && PlanFits(After(c, start, events, k - 1), events[k - 1])
  }

  predicate HonestRun(c: Settings, start: Table, events: seq<Event>, k: nat)
    requires k <= |events|
  {
    if k == 0 then TableOk(start.rows)
    else
      && HonestRun(c, start, events, k - 1)
      && PlanFits(After(c, start, events, k - 1), events[k - 1])
      && Honest(After(c, start, events, k - 1), events[k - 1])
  }

  // ---- The table invariant over every run, honest or not ----

  lemma {:induction false} HandoffKeepsTable(rows: seq<Row>, now: int, id: nat, next: Option<Plan>)
    requires TableOk(rows) && (next.Some? ==> KeyFits(rows, next.value))
    ensures var r := CompleteAndHandoff(rows, now, id, next); r.Some? ==> TableOk(r.value.rows)
  {
    var done := Finish(rows, id);
    if id < |rows| { RewriteKeepsTable(rows, id, done[id]); }
    if next.Some? && Fits(done, NewRow(next.value, now)) { AppendKeepsTable(done, next.value, now); }
  }

  lemma {:induction false} FailKeepsTable(rows: seq<Row>, now: int, c: Settings, job: Ticket, retryable: bool, terminal: bool)
    requires TableOk(rows)
    ensures TableOk(Fail(rows, now, c, job, retryable, terminal))
  {
    if job.id < |rows| {
      var after := Fail(rows, now, c, job, retryable, terminal);
      if after != rows { RewriteKeepsTable(rows, job.id, after[job.id]); }
    }
  }

  lemma {:induction false} NextKeepsTable(c: Settings, t: Table, e: Event)
    requires TableOk(t.rows) && PlanFits(t, e)
    ensures TableOk(Next(c, t, e).rows) && |t.rows| <= |Next(c, t, e).rows| && t.now <= Next(c, t, e).now
  {
    match e {
      case EnqueueEvent(plan) => EnqueueKeepsTable(t.rows, t.now, plan);
      case ClaimEvent(worker, capabilities, skipped) =>
        var best := ClaimedRow(t, e);
        if best.Some? {
          RewriteKeepsTable(t.rows, best.value, Claimed(t.rows[best.value], worker, t.now + c.leaseMs));
        }
      case HeartbeatEvent(id, worker) =>
        if LockedBy(t.rows, id, worker) { RewriteKeepsTable(t.rows, id, t.rows[id].(lease := Some(t.now + c.leaseMs))); }
      case HandoffEvent(ticket, next) => HandoffKeepsTable(t.rows, t.now, ticket.id, next);
      case FailEvent(ticket, retryable, terminal) => FailKeepsTable(t.rows, t.now, c, ticket, retryable, terminal);
      case RecoverEvent(except) => RecoverKeepsTable(t.rows, t.now, except);
      case ReleaseEvent(id, worker) =>
        if LockedBy(t.rows, id, worker) { RewriteKeepsTable(t.rows, id, Unlocked(t.rows[id], Queued, t.now)); }
      case WaitEvent(ms) =>
    }
  }

  // RUNNING holds exactly when a worker and a lease are recorded, and the unique indexes hold, in every run.
  lemma {:induction false} RunKeepsTable(c: Settings, start: Table, events: seq<Event>, k: nat)
    requires k <= |events| && RunFits(c, start, events, k)
    ensures TableOk(After(c, start, events, k).rows)
  {
    hide TableOk, PlanFits, Next;
    if k > 0 {
      RunKeepsTable(c, start, events, k - 1);
      NextKeepsTable(c, After(c, start, events, k - 1), events[k - 1]);
    }
  }

  // ---- What one event does to one row ----

  predicate Ended(r: Row) {
    r.status == Completed || r.status == Dead
  }

  predicate CompletedBy(e: Event, id: nat, w: string) {
    e.HandoffEvent? && e.ticket.id == id && e.ticket.worker == w
  }

  // Worker w lets go of row id without completing it: it fails or releases it.
  predicate LetsGo(e: Event, id: nat, w: string) {
    || (e.FailEvent? && e.ticket.id == id && e.ticket.worker == w)
    || (e.ReleaseEvent? && e.id == id && e.worker == w)
  }

  // A recovery takes row id at a time no earlier than its lease expiry.
  predicate RecoversRow(t: Table, e: Event, id: nat) {
    e.RecoverEvent? && id !in e.except && id < |t.rows| && Expired(t.rows[id], t.now)
  }

  // While w holds a row, only w and a recovery after the lease expired can end that; otherwise the row changes by
  // w's own heartbeats only.
  lemma {:induction false} HeldRowStep(c: Settings, t: Table, e: Event, id: nat, w: string)
    requires TableOk(t.rows) && PlanFits(t, e) && Honest(t, e) && LockedBy(t.rows, id, w)
    ensures ClaimedRow(t, e) != Some(id)
    ensures var rows := Next(c, t, e).rows;
            || LetsGo(e, id, w) || RecoversRow(t, e, id)
            || (id < |rows| && if CompletedBy(e, id, w) then Ended(rows[id])
                               else rows[id] == if e == HeartbeatEvent(id, w) then t.rows[id].(lease := Some(t.now + c.leaseMs))
                                                else t.rows[id])
  {
  }

  // A completed or dead row stays as it is.
  lemma {:induction false} EndedRowStep(c: Settings, t: Table, e: Event, id: nat)
    requires Honest(t, e) && id < |t.rows| && Ended(t.rows[id])
    ensures ClaimedRow(t, e) != Some(id)
    ensures id < |Next(c, t, e).rows| && Next(c, t, e).rows[id] == t.rows[id]
  {
  }

  lemma {:induction false} HonestRunIsSound(c: Settings, start: Table, events: seq<Event>, k: nat)
    requires k <= |events| && HonestRun(c, start, events, k)
    ensures TableOk(After(c, start, events, k).rows)
  {
    hide TableOk, PlanFits, Honest, Next;
    if k > 0 {
      HonestRunIsSound(c, start, events, k - 1);
      NextKeepsTable(c, After(c, start, events, k - 1), events[k - 1]);
    }
  }

  // ---- Lease exclusivity ----

  // What became of a row that w held: still held, with the lease of w's last claim or heartbeat; ended for good;
  // or given up at some event that is w's own or a recovery no earlier than the last lease expiry.
  predicate GivenUp(c: Settings, start: Table, events: seq<Event>, k: nat, id: nat, w: string, lease: int)
    requires k < |events|
  {
    var t := After(c, start, events, k);
    LetsGo(events[k], id, w) || (RecoversRow(t, events[k], id) && lease <= t.now)
  }

  // The lease that w set last, given that it claimed the row at event i.
  function LastLease(c: Settings, start: Table, events: seq<Event>, i: nat, k: nat, id: nat, w: string): int
    requires i < k <= |events|
    decreases k
  {
    var now := After(c, start, events, k - 1).now;
    if k == i + 1 || events[k - 1] == HeartbeatEvent(id, w) then now + c.leaseMs
    else LastLease(c, start, events, i, k - 1, id, w)
  }

  predicate HeldAt(c: Settings, start: Table, events: seq<Event>, i: nat, k: nat, id: nat, w: string)
    requires i < k <= |events|
  {
    var rows := After(c, start, events, k).rows;
    LockedBy(rows, id, w) && rows[id].lease == Some(LastLease(c, start, events, i, k, id, w))
  }

  lemma {:induction false} ClaimHolds(c: Settings, start: Table, events: seq<Event>, i: nat, id: nat, w: string)
    requires i < |events| && events[i].ClaimEvent? && events[i].worker == w
    requires ClaimedRow(After(c, start, events, i), events[i]) == Some(id)
    ensures HeldAt(c, start, events, i, i + 1, id, w)
  {
  }

  // Held by w with the lease it set last, or ended for good.
  predicate KeptAt(c: Settings, start: Table, events: seq<Event>, i: nat, k: nat, id: nat, w: string)
    requires i < k <= |events|
  {
    var rows := After(c, start, events, k).rows;
    HeldAt(c, start, events, i, k, id, w) || (id < |rows| && Ended(rows[id]))
  }

  lemma {:induction false} KeptStep(c: Settings, start: Table, events: seq<Event>, i: nat, k: nat, id: nat, w: string)
    requires i < k < |events| && KeptAt(c, start, events, i, k, id, w)
    requires var t := After(c, start, events, k); TableOk(t.rows) && PlanFits(t, events[k]) && Honest(t, events[k])
    requires !GivenUp(c, start, events, k, id, w, LastLease(c, start, events, i, k, id, w))
    ensures KeptAt(c, start, events, i, k + 1, id, w)
  {
    var t := After(c, start, events, k);
    if Ended(t.rows[id]) {
      EndedRowStep(c, t, events[k], id);
    } else {
      HeldRowStep(c, t, events[k], id, w);
    }
  }

  // As long as nothing gives the row up, w holds it or it has ended.
  lemma {:induction false} KeptUntilGivenUp(c: Settings, start: Table, events: seq<Event>, i: nat, k: nat, id: nat, w: string)
    requires i < k <= |events| && HonestRun(c, start, events, k)
    requires HeldAt(c, start, events, i, i + 1, id, w)
    requires forall m :: i < m < k ==> !GivenUp(c, start, events, m, id, w, LastLease(c, start, events, i, m, id, w))
    ensures KeptAt(c, start, events, i, k, id, w)
    decreases k
  {
    hide TableOk, PlanFits, Honest, Next, HeldAt, GivenUp;
    if k > i + 1 {
      KeptUntilGivenUp(c, start, events, i, k - 1, id, w);
      HonestStep(c, start, events, k - 1);
      KeptStep(c, start, events, i, k - 1, id, w);
    }
  }

  lemma {:induction false} HonestStep(c: Settings, start: Table, events: seq<Event>, k: nat)
    requires k < |events| && HonestRun(c, start, events, k + 1)
    ensures var t := After(c, start, events, k); TableOk(t.rows) && PlanFits(t, events[k]) && Honest(t, events[k])
  {
    HonestRunIsSound(c, start, events, k);
  }

  // After worker w claimed a job, no claim of it succeeds until w failed or released it, or a recovery took it
  // at a time no earlier than the last lease expiry that w set by its claim or a heartbeat.
  lemma {:induction false} LeaseIsExclusive(c: Settings, start: Table, events: seq<Event>, i: nat, j: nat, id: nat, w: string)
    requires i < j < |events| && HonestRun(c, start, events, j)
    requires events[i].ClaimEvent? && events[i].worker == w
    requires ClaimedRow(After(c, start, events, i), events[i]) == Some(id)
    requires ClaimedRow(After(c, start, events, j), events[j]) == Some(id)
    ensures exists k :: i < k < j && GivenUp(c, start, events, k, id, w, LastLease(c, start, events, i, k, id, w))
  {
    if forall k :: i < k < j ==> !GivenUp(c, start, events, k, id, w, LastLease(c, start, events, i, k, id, w)) {
      ClaimHolds(c, start, events, i, id, w);
      KeptUntilGivenUp(c, start, events, i, j, id, w);
    }
  }

  // ---- Callers that do not hold the row ----

  // Some worker other than w loses a row it holds.
  predicate TakesFromOther(c: Settings, t: Table, e: Event, w: string) {
    exists id: nat :: id < |t.rows| && LosesHold(c, t, e, w, id)
  }

  predicate LosesHold(c: Settings, t: Table, e: Event, w: string, id: nat)
    requires id < |t.rows|
  {
    && t.rows[id].status == Running && t.rows[id].lockedBy.Some? && t.rows[id].lockedBy != Some(w)
    && !LockedBy(Next(c, t, e).rows, id, t.rows[id].lockedBy.value)
  }

  // The row of the ticket is running, but not for the caller: what `owns` would tell it.
  predicate HeldByOther(t: Table, ticket: Ticket) {
    ticket.id < |t.rows| && t.rows[ticket.id].status == Running && !LockedBy(t.rows, ticket.id, ticket.worker)
  }

  lemma {:induction false} HandoffTouchesItsRow(c: Settings, t: Table, ticket: Ticket, next: Option<Plan>, id: nat)
    requires id < |t.rows| && id != ticket.id
    ensures id < |Next(c, t, HandoffEvent(ticket, next)).rows|
    ensures Next(c, t, HandoffEvent(ticket, next)).rows[id] == t.rows[id]
  {
  }

  // completeAndHandoff does not check the owner: whatever stage is planned next, it takes a row away from another
  // worker exactly when the caller's row is running for someone else at that moment.
  lemma {:induction false} HandoffTakesIffHeldByOther(c: Settings, t: Table, ticket: Ticket, next: Option<Plan>)
    requires TableOk(t.rows) && PlanFits(t, HandoffEvent(ticket, next))
    requires next.Some? && ticket.id < |t.rows| ==> next.value.project == t.rows[ticket.id].project
    ensures TakesFromOther(c, t, HandoffEvent(ticket, next), ticket.worker) <==> HeldByOther(t, ticket)
  {
    var e := HandoffEvent(ticket, next);
    if HeldByOther(t, ticket) {
      OwnerHandoffLosesNothing(t.rows, t.now, ticket.id, next);
      assert LosesHold(c, t, e, ticket.worker, ticket.id);
    }
    forall id: nat | id < |t.rows| && LosesHold(c, t, e, ticket.worker, id) ensures HeldByOther(t, ticket) {
      if id != ticket.id { HandoffTouchesItsRow(c, t, ticket, next, id); }
    }
  }

  // Nor does fail.
  lemma {:induction false} FailTakesIffHeldByOther(c: Settings, t: Table, ticket: Ticket, retryable: bool, terminal: bool)
    requires TableOk(t.rows)
    ensures TakesFromOther(c, t, FailEvent(ticket, retryable, terminal), ticket.worker) <==> HeldByOther(t, ticket)
  {
    var e := FailEvent(ticket, retryable, terminal);
    if HeldByOther(t, ticket) {
      var delay := RetryDelay(ticket.attempts, c.retryBaseMs, c.retryMaxMs);
      RewriteKeepsTable(t.rows, ticket.id, Unlocked(t.rows[ticket.id], Queued, t.now + delay));
      assert LosesHold(c, t, e, ticket.worker, ticket.id);
    }
  }

  lemma {:induction false} OneRowClaim(c: Settings, r: Row, now: int, worker: string)
    requires Claimable(r, now, {})
    ensures Next(c, Table([r], now), ClaimEvent(worker, {}, {})) == Table([Claimed(r, worker, now + c.leaseMs)], now)
  {
    assert [r][..0] == [];
    assert [r][0 := Claimed(r, worker, now + c.leaseMs)] == [Claimed(r, worker, now + c.leaseMs)];
  }
}
