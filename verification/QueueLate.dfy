// What callers that no longer hold their row do to the queue: completeAndHandoff and fail check neither the owner nor
// the status of the row (src/jobs/queue.js:110-162).
module QueueLate {
  import opened Text
  import opened Queue
  import opened QueueRuns
  import opened QueueAttempts

  // ---- Ended jobs that run again ----

  // A report of a failure that is not yet final, on a completed or dead row whose project and key are free.
  predicate Revives(t: Table, e: Event, id: nat) {
    && id < |t.rows| && Ended(t.rows[id])
    && e.FailEvent? && e.ticket.id == id && !Exhausted(e.ticket, e.retryable, e.terminal)
    && HasRoom(t.rows, id)
  }

  predicate IsActive(rows: seq<Row>, id: nat) {
    id < |rows| && Active(rows[id])
  }

  // One event makes an ended row active exactly when it revives it.
  lemma {:induction false} ReviveStep(c: Settings, t: Table, e: Event, id: nat)
    requires TableOk(t.rows) && id < |t.rows| && Ended(t.rows[id])
    ensures id < |Next(c, t, e).rows| && (Active(Next(c, t, e).rows[id]) <==> Revives(t, e, id))
  {
    match e {
      case FailEvent(ticket, retryable, terminal) => FailOnEnded(c, t, e, id);
      case HandoffEvent(ticket, next) => HandoffOnEnded(c, t, e, id);
      case _ => EndedOtherwise(c, t, e, id);
    }
  }

  lemma {:induction false} FailOnEnded(c: Settings, t: Table, e: Event, id: nat)
    requires TableOk(t.rows) && id < |t.rows| && Ended(t.rows[id]) && e.FailEvent?
    ensures id < |Next(c, t, e).rows| && (Active(Next(c, t, e).rows[id]) <==> Revives(t, e, id))
  {
    hide TableOk, RetryDelay, Exhausted, HasRoom, IndexesHold;
    TableMeansIndexes(t.rows);
    if e.ticket.id == id && !Exhausted(e.ticket, e.retryable, e.terminal) {
      RequeueIffRoom(t.rows, id, t.now + RetryDelay(e.ticket.attempts, c.retryBaseMs, c.retryMaxMs));
    }
  }

  lemma {:induction false} HandoffOnEnded(c: Settings, t: Table, e: Event, id: nat)
    requires id < |t.rows| && Ended(t.rows[id]) && e.HandoffEvent?
    ensures id < |Next(c, t, e).rows| && !Active(Next(c, t, e).rows[id])
  {
    hide Fits, ActiveByKey;
  }

  lemma {:induction false} EndedOtherwise(c: Settings, t: Table, e: Event, id: nat)
    requires id < |t.rows| && Ended(t.rows[id]) && !e.FailEvent? && !e.HandoffEvent?
    ensures id < |Next(c, t, e).rows| && !Active(Next(c, t, e).rows[id])
  {
    hide Fits, ActiveByKey;
  }

  // In every run a job that has ended is active at some later moment exactly when a late failure report revived it.
  lemma {:induction false} EndedRunsAgainIff(c: Settings, start: Table, events: seq<Event>, i: nat, k: nat, id: nat)
    requires i <= k <= |events| && RunFits(c, start, events, k)
    requires id < |After(c, start, events, i).rows| && Ended(After(c, start, events, i).rows[id])
    ensures (exists m :: i < m <= k && IsActive(After(c, start, events, m).rows, id))
            <==> exists m :: i <= m < k && Revives(After(c, start, events, m), events[m], id)
  {
    hide TableOk, PlanFits, Next, Revives, RunFits;
    if m :| i < m <= k && IsActive(After(c, start, events, m).rows, id) {
      ActiveWasRevived(c, start, events, i, m, k, id);
    }
    if m :| i <= m < k && Revives(After(c, start, events, m), events[m], id) {
      RevivedIsActive(c, start, events, m, k, id);
    }
  }

  lemma {:induction false} RevivedIsActive(c: Settings, start: Table, events: seq<Event>, m: nat, k: nat, id: nat)
    requires m < k <= |events| && RunFits(c, start, events, k) && Revives(After(c, start, events, m), events[m], id)
    ensures IsActive(After(c, start, events, m + 1).rows, id)
  {
    PrefixFits(c, start, events, m, k);
    RunKeepsTable(c, start, events, m);
    ReviveStep(c, After(c, start, events, m), events[m], id);
  }

  lemma {:induction false} ActiveWasRevived(c: Settings, start: Table, events: seq<Event>, i: nat, m: nat, k: nat, id: nat)
    requires i < m <= k <= |events| && RunFits(c, start, events, k)
    requires id < |After(c, start, events, i).rows| && Ended(After(c, start, events, i).rows[id])
    requires IsActive(After(c, start, events, m).rows, id)
    ensures exists n :: i <= n < m && Revives(After(c, start, events, n), events[n], id)
    decreases m
  {
    hide TableOk, PlanFits, Next, Revives, RunFits;
    var t := After(c, start, events, m - 1);
    if m - 1 > i && IsActive(t.rows, id) {
      ActiveWasRevived(c, start, events, i, m - 1, k, id);
    } else {
      PrefixFits(c, start, events, m - 1, k);
      RunKeepsTable(c, start, events, m - 1);
      RowsStay(c, start, events, i, m - 1, id);
      EndedOrActive(t.rows[id]);
      ReviveStep(c, t, events[m - 1], id);
    }
  }

  lemma {:induction false} EndedOrActive(r: Row)
    ensures Active(r) || Ended(r)
  {
  }

  lemma {:induction false} RowsStay(c: Settings, start: Table, events: seq<Event>, i: nat, k: nat, id: nat)
    requires i <= k <= |events| && id < |After(c, start, events, i).rows|
    ensures id < |After(c, start, events, k).rows|
    decreases k
  {
    hide Next;
    if i < k {
      RowsStay(c, start, events, i, k - 1, id);
      RowsOnlyGrow(c, After(c, start, events, k - 1), events[k - 1]);
    }
  }

  // ---- What a late report changes ----

  function StatusOf(rows: seq<Row>, id: nat): Option<Status> {
    if id < |rows| then Some(rows[id].status) else None
  }

  // fail, sent by a caller that does not hold the row, changes its status exactly when the row is running for another
  // worker; or the failure is final and the row not dead; or it is not and the row has ended and its place is free.
  lemma {:induction false} LateFailChangesIff(c: Settings, t: Table, ticket: Ticket, retryable: bool, terminal: bool)
    requires TableOk(t.rows) && ticket.id < |t.rows| && !LockedBy(t.rows, ticket.id, ticket.worker)
    ensures var r := t.rows[ticket.id];
            StatusOf(Next(c, t, FailEvent(ticket, retryable, terminal)).rows, ticket.id) != Some(r.status)
            <==> || HeldByOther(t, ticket)
                 || (Exhausted(ticket, retryable, terminal) && r.status != Dead)
                 || (!Exhausted(ticket, retryable, terminal) && Ended(r) && HasRoom(t.rows, ticket.id))
  {
    hide TableOk, RetryDelay, Exhausted, HasRoom, IndexesHold;
    TableMeansIndexes(t.rows);
    if !Exhausted(ticket, retryable, terminal) {
      RequeueIffRoom(t.rows, ticket.id, t.now + RetryDelay(ticket.attempts, c.retryBaseMs, c.retryMaxMs));
    }
  }

  // completeAndHandoff, sent by a caller that does not hold the row, changes its status exactly when the row is not
  // completed already and the next stage, if one is planned, trips no index.
  lemma {:induction false} LateHandoffChangesIff(c: Settings, t: Table, ticket: Ticket, next: Option<Plan>)
    requires ticket.id < |t.rows| && !LockedBy(t.rows, ticket.id, ticket.worker)
    ensures StatusOf(Next(c, t, HandoffEvent(ticket, next)).rows, ticket.id) != Some(t.rows[ticket.id].status)
            <==> t.rows[ticket.id].status != Completed
                 && (next.None? || ActiveByKey(Finish(t.rows, ticket.id), next.value.key).Some?
                     || Fits(Finish(t.rows, ticket.id), NewRow(next.value, t.now)))
  {
    hide Fits, ActiveByKey;
  }

  // ---- Runs ----

  const SETTINGS := Settings(8, 10, 1, 100)

  // The row of a one-row table, through the events of the runs below.
  lemma {:induction false} OneRowEvents(r: Row, now: int, w: string)
    ensures Claimable(r, now, {}) ==>
              Next(SETTINGS, Table([r], now), ClaimEvent(w, {}, {})) == Table([Claimed(r, w, now + 10)], now)
    ensures Next(SETTINGS, Table([r], now), WaitEvent(10)) == Table([r], now + 10)
    ensures Expired(r, now) ==> Next(SETTINGS, Table([r], now), RecoverEvent({})) == Table([Unlocked(r, Queued, now)], now)
    ensures Next(SETTINGS, Table([r], now), HandoffEvent(Ticket(0, w, r.attempts, r.maxAttempts), None))
            == Table([Unlocked(r, Completed, r.availableAt)], now)
  {
    if Claimable(r, now, {}) { OneRowClaim(SETTINGS, r, now, w); }
    assert Recover([r], now, {}) == [RecoveredRow(r, 0, now, {})];
  }

  lemma {:induction false} OneRowFailure(r: Row, now: int, w: string, attempts: nat)
    requires attempts >= 1
    ensures Next(SETTINGS, Table([r], now), FailEvent(Ticket(0, w, attempts, r.maxAttempts), true, false))
            == Table([if attempts >= Limit(r.maxAttempts) then Unlocked(r, Dead, r.availableAt)
                      else Unlocked(r, Queued, now + RetryDelay(attempts, 1, 100))], now)
  {
    assert IndexesHold([Unlocked(r, Queued, now + RetryDelay(attempts, 1, 100))]);
  }

  // The first delay of these runs.
  lemma {:induction false} FirstDelay()
    ensures RetryDelay(1, 1, 100) == 1
  {
    assert Power(0) == 1;
  }

  lemma {:induction false} Enqueued(plan: Plan, now: int)
    ensures Next(SETTINGS, Table([], now), EnqueueEvent(plan)) == Table([NewRow(plan, now)], now)
  {
    assert [] + [NewRow(plan, now)] == [NewRow(plan, now)];
  }

  // One more event of a run, from a table that is known.
  lemma {:induction false} OneMore(events: seq<Event>, k: nat, t: Table)
    requires k < |events| && RunFits(SETTINGS, Table([], 0), events, k)
    requires After(SETTINGS, Table([], 0), events, k) == t && PlanFits(t, events[k])
    ensures RunFits(SETTINGS, Table([], 0), events, k + 1)
    ensures After(SETTINGS, Table([], 0), events, k + 1) == Next(SETTINGS, t, events[k])
  {
    hide Next, PlanFits;
  }

  // A run that begins like this: "a" claims the job, its lease expires, and "b" claims the recovered row.
  predicate TakenOver(events: seq<Event>, maxAttempts: nat) {
    && |events| >= 5
    && events[0] == EnqueueEvent(Plan("p", "k", {}, 100, maxAttempts, None)) && events[1] == ClaimEvent("a", {}, {})
    && events[2] == WaitEvent(10) && events[3] == RecoverEvent({}) && events[4] == ClaimEvent("b", {}, {})
  }

  function FirstRow(maxAttempts: nat): Row {
    NewRow(Plan("p", "k", {}, 100, maxAttempts, None), 0)
  }

  function RecoveredOnce(maxAttempts: nat): Row {
    Unlocked(Claimed(FirstRow(maxAttempts), "a", 10), Queued, 10)
  }

  lemma {:induction false} TakeOver(events: seq<Event>, maxAttempts: nat)
    requires TakenOver(events, maxAttempts)
    ensures RunFits(SETTINGS, Table([], 0), events, 5)
    ensures After(SETTINGS, Table([], 0), events, 3) == Table([Claimed(FirstRow(maxAttempts), "a", 10)], 10)
    ensures After(SETTINGS, Table([], 0), events, 4) == Table([RecoveredOnce(maxAttempts)], 10)
    ensures After(SETTINGS, Table([], 0), events, 5) == Table([Claimed(RecoveredOnce(maxAttempts), "b", 20)], 10)
  {
    hide Next, After, RunFits;
    var plan := Plan("p", "k", {}, 100, maxAttempts, None);
    var r0 := FirstRow(maxAttempts);
    var r1 := Claimed(r0, "a", 10);
    Enqueued(plan, 0);
    OneRowEvents(r0, 0, "a");
    OneRowEvents(r1, 0, "a");
    OneRowEvents(r1, 10, "a");
    OneRowEvents(RecoveredOnce(maxAttempts), 10, "b");
    NothingYet(events);
    OneMore(events, 0, Table([], 0));
    OneMore(events, 1, Table([r0], 0));
    OneMore(events, 2, Table([r1], 0));
    OneMore(events, 3, Table([r1], 10));
    OneMore(events, 4, Table([RecoveredOnce(maxAttempts)], 10));
  }

  lemma {:induction false} NothingYet(events: seq<Event>)
    ensures RunFits(SETTINGS, Table([], 0), events, 0) && After(SETTINGS, Table([], 0), events, 0) == Table([], 0)
  {
  }

  lemma {:induction false} RecoveredHappens(r: Row, now: int)
    requires Expired(r, now)
    ensures Happens(Table([r], now), RecoverEvent({}), 0, Return)
  {
  }

  lemma {:induction false} ClaimHappens(r: Row, now: int, w: string)
    requires Claimable(r, now, {})
    ensures Happens(Table([r], now), ClaimEvent(w, {}, {}), 0, Claim)
  {
    assert [r][..0] == [];
  }

  lemma {:induction false} RequeueHappens(r: Row, now: int, w: string, attempts: nat)
    requires r.status != Queued && attempts < Limit(r.maxAttempts)
    ensures Happens(Table([r], now), FailEvent(Ticket(0, w, attempts, r.maxAttempts), true, false), 0, Requeue)
    ensures Ended(r) ==> Revives(Table([r], now), FailEvent(Ticket(0, w, attempts, r.maxAttempts), true, false), 0)
  {
  }

  // A worker that lost its lease reports success, and takes the job away from the one that works on it.
  lemma {:induction false} ALateWorkerTakesTheJob()
    ensures var events := [EnqueueEvent(Plan("p", "k", {}, 100, 8, None)), ClaimEvent("a", {}, {}), WaitEvent(10),
                           RecoverEvent({}), ClaimEvent("b", {}, {}), HandoffEvent(Ticket(0, "a", 1, 8), None)];
            var t := After(SETTINGS, Table([], 0), events, 5);
            && RunFits(SETTINGS, Table([], 0), events, 5) && LockedBy(t.rows, 0, "b")
            && HeldByOther(t, events[5].ticket) && TakesFromOther(SETTINGS, t, events[5], "a")
  {
    hide Next, After, RunFits, TableOk, TakesFromOther;
    var events := [EnqueueEvent(Plan("p", "k", {}, 100, 8, None)), ClaimEvent("a", {}, {}), WaitEvent(10),
                   RecoverEvent({}), ClaimEvent("b", {}, {}), HandoffEvent(Ticket(0, "a", 1, 8), None)];
    TakeOver(events, 8);
    RunKeepsTable(SETTINGS, Table([], 0), events, 5);
    HandoffTakesIffHeldByOther(SETTINGS, After(SETTINGS, Table([], 0), events, 5), Ticket(0, "a", 1, 8), None);
  }

  // A job that allows one attempt: the second claim passes its limit.
  lemma {:induction false} ARecoveredJobPassesItsLimit()
    ensures var events := [EnqueueEvent(Plan("p", "k", {}, 100, 1, None)), ClaimEvent("a", {}, {}), WaitEvent(10),
                           RecoverEvent({}), ClaimEvent("b", {}, {})];
            && RunFits(SETTINGS, Table([], 0), events, 5)
            && PastLimit(After(SETTINGS, Table([], 0), events, 5).rows, 0)
            && ClaimedWhenSpent(SETTINGS, Table([], 0), events, 3, 4, 0)
            && Happens(After(SETTINGS, Table([], 0), events, 3), events[3], 0, Return)
  {
    hide Next, After, RunFits, Happens;
    var events := [EnqueueEvent(Plan("p", "k", {}, 100, 1, None)), ClaimEvent("a", {}, {}), WaitEvent(10),
                   RecoverEvent({}), ClaimEvent("b", {}, {})];
    TakeOver(events, 1);
    RecoveredHappens(Claimed(FirstRow(1), "a", 10), 10);
    ClaimHappens(RecoveredOnce(1), 10, "b");
  }

  // After the takeover one event ends the row of "b", the late failure of "a" puts it back, and "c" claims it.
  lemma {:induction false} LateFailureAfter(events: seq<Event>, maxAttempts: nat, ended: Row)
    requires TakenOver(events, maxAttempts) && |events| == 9 && maxAttempts >= 2 && Ended(ended)
    requires ended == Unlocked(Claimed(RecoveredOnce(maxAttempts), "b", 20), ended.status, 10)
    requires PlanFits(Table([Claimed(RecoveredOnce(maxAttempts), "b", 20)], 10), events[5])
    requires Next(SETTINGS, Table([Claimed(RecoveredOnce(maxAttempts), "b", 20)], 10), events[5]) == Table([ended], 10)
    requires events[6] == FailEvent(Ticket(0, "a", 1, maxAttempts), true, false)
    requires events[7] == WaitEvent(10) && events[8] == ClaimEvent("c", {}, {})
    ensures RunFits(SETTINGS, Table([], 0), events, 9)
    ensures After(SETTINGS, Table([], 0), events, 6) == Table([ended], 10)
    ensures After(SETTINGS, Table([], 0), events, 9) == Table([Claimed(Unlocked(ended, Queued, 11), "c", 30)], 20)
    ensures Happens(Table([ended], 10), events[6], 0, Requeue) && Revives(Table([ended], 10), events[6], 0)
    ensures Happens(After(SETTINGS, Table([], 0), events, 8), events[8], 0, Claim)
  {
    hide Next, After, RunFits, Happens, Revives, RetryDelay;
    TakeOver(events, maxAttempts);
    OneMore(events, 5, Table([Claimed(RecoveredOnce(maxAttempts), "b", 20)], 10));
    FirstDelay();
    OneRowFailure(ended, 10, "a", 1);
    var back := Unlocked(ended, Queued, 11);
    OneRowEvents(back, 10, "c");
    OneRowEvents(back, 20, "c");
    OneMore(events, 6, Table([ended], 10));
    OneMore(events, 7, Table([back], 10));
    OneMore(events, 8, Table([back], 20));
    RequeueHappens(ended, 10, "a", 1);
    ClaimHappens(back, 20, "c");
  }

  // A job that allows two attempts: "b" fails for the second time, which is final, and then the late failure of "a",
  // whose ticket says one attempt, puts the dead job back for a third.
  lemma {:induction false} ALateFailurePassesTheLimit()
    ensures var events := [EnqueueEvent(Plan("p", "k", {}, 100, 2, None)), ClaimEvent("a", {}, {}), WaitEvent(10),
                           RecoverEvent({}), ClaimEvent("b", {}, {}), FailEvent(Ticket(0, "b", 2, 2), true, false),
                           FailEvent(Ticket(0, "a", 1, 2), true, false), WaitEvent(10), ClaimEvent("c", {}, {})];
            && RunFits(SETTINGS, Table([], 0), events, 9)
            && PastLimit(After(SETTINGS, Table([], 0), events, 9).rows, 0)
            && ClaimedWhenSpent(SETTINGS, Table([], 0), events, 6, 8, 0)
            && Happens(After(SETTINGS, Table([], 0), events, 6), events[6], 0, Requeue)
  {
    hide Next, After, RunFits, Happens, RetryDelay;
    var events := [EnqueueEvent(Plan("p", "k", {}, 100, 2, None)), ClaimEvent("a", {}, {}), WaitEvent(10),
                   RecoverEvent({}), ClaimEvent("b", {}, {}), FailEvent(Ticket(0, "b", 2, 2), true, false),
                   FailEvent(Ticket(0, "a", 1, 2), true, false), WaitEvent(10), ClaimEvent("c", {}, {})];
    var held := Claimed(RecoveredOnce(2), "b", 20);
    OneRowFailure(held, 10, "b", 2);
    LateFailureAfter(events, 2, Unlocked(held, Dead, 10));
  }

  // A completed job is executed again: "b" took it over from "a" and completed it, "a" reports a failure late, and
  // "c" claims the job.
  lemma {:induction false} ACompletedJobRunsAgain()
    ensures var events := [EnqueueEvent(Plan("p", "k", {}, 100, 8, None)), ClaimEvent("a", {}, {}), WaitEvent(10),
                           RecoverEvent({}), ClaimEvent("b", {}, {}), HandoffEvent(Ticket(0, "b", 2, 8), None),
                           FailEvent(Ticket(0, "a", 1, 8), true, false), WaitEvent(10), ClaimEvent("c", {}, {})];
            && RunFits(SETTINGS, Table([], 0), events, 9)
            && StatusOf(After(SETTINGS, Table([], 0), events, 6).rows, 0) == Some(Completed)
            && Revives(After(SETTINGS, Table([], 0), events, 6), events[6], 0)
            && LockedBy(After(SETTINGS, Table([], 0), events, 9).rows, 0, "c")
  {
    hide Next, After, RunFits, Revives;
    var events := [EnqueueEvent(Plan("p", "k", {}, 100, 8, None)), ClaimEvent("a", {}, {}), WaitEvent(10),
                   RecoverEvent({}), ClaimEvent("b", {}, {}), HandoffEvent(Ticket(0, "b", 2, 8), None),
                   FailEvent(Ticket(0, "a", 1, 8), true, false), WaitEvent(10), ClaimEvent("c", {}, {})];
    var held := Claimed(RecoveredOnce(8), "b", 20);
    OneRowEvents(held, 10, "b");
    LateFailureAfter(events, 8, Unlocked(held, Completed, 10));
  }
}
