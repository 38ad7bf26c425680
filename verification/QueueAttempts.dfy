// Attempts, dead letters and back-off over runs of the job queue.
module QueueAttempts {
  import opened Text
  import opened Queue
  import opened QueueRuns

  // ---- What can happen to a row ----

  // A claim takes it; lease recovery or a release puts it back without a check of its attempts; a failure report
  // puts it back although it was not queued, whoever sends it; a late report ends it while it is queued.
  datatype Happening = Claim | Return | Requeue | Withdrawal

  // No other active row has the project or the key of row id.
  predicate HasRoom(rows: seq<Row>, id: nat)
    requires id < |rows|
  {
    forall i :: 0 <= i < |rows| && i != id && Active(rows[i]) ==> Distinct(rows[i], rows[id])
  }

  predicate ReturnsRow(t: Table, e: Event, id: nat) {
    RecoversRow(t, e, id) || (e.ReleaseEvent? && e.id == id && LockedBy(t.rows, id, e.worker))
  }

  predicate RequeuesRow(t: Table, e: Event, id: nat) {
    && e.FailEvent? && e.ticket.id == id && !Exhausted(e.ticket, e.retryable, e.terminal)
    && id < |t.rows| && t.rows[id].status != Queued
    && (Active(t.rows[id]) || HasRoom(t.rows, id))
  }

  predicate WithdrawsRow(t: Table, e: Event, id: nat) {
    && id < |t.rows| && t.rows[id].status == Queued
    && ((e.FailEvent? && e.ticket.id == id && Exhausted(e.ticket, e.retryable, e.terminal))
        || (e.HandoffEvent? && e.ticket.id == id && CompleteAndHandoff(t.rows, t.now, id, e.next).Some?))
  }

  predicate Happens(t: Table, e: Event, id: nat, h: Happening) {
    match h
    case Claim => ClaimedRow(t, e) == Some(id)
    case Return => ReturnsRow(t, e, id)
    case Requeue => RequeuesRow(t, e, id)
    case Withdrawal => WithdrawsRow(t, e, id)
  }

  function Bit(b: bool): nat { if b then 1 else 0 }

  // How often it happens to row id in the first k events.
  function Count(c: Settings, start: Table, events: seq<Event>, k: nat, id: nat, h: Happening): nat
    requires k <= |events|
  {
    if k == 0 then 0
    else Count(c, start, events, k - 1, id, h) + Bit(Happens(After(c, start, events, k - 1), events[k - 1], id, h))
  }

  // ---- One event and one row ----

  // One event does at most one of these to a row, changes its attempts by a claim only, and moves it into or out of
  // QUEUED by them only; its limit never changes.
  predicate Balanced(t: Table, e: Event, before: Row, after: Row, id: nat) {
    && after.attempts == before.attempts + Bit(Happens(t, e, id, Claim))
    && after.maxAttempts == before.maxAttempts
    && Bit(after.status != Queued) + Bit(Happens(t, e, id, Return)) + Bit(Happens(t, e, id, Requeue))
       == Bit(before.status != Queued) + Bit(Happens(t, e, id, Claim)) + Bit(Happens(t, e, id, Withdrawal))
  }

  lemma {:induction false} RequeueIffRoom(rows: seq<Row>, id: nat, availableAt: int)
    requires IndexesHold(rows) && id < |rows|
    ensures IndexesHold(rows[id := Unlocked(rows[id], Queued, availableAt)]) <==> Active(rows[id]) || HasRoom(rows, id)
  {
    var r := Unlocked(rows[id], Queued, availableAt);
    var after := rows[id := r];
    if IndexesHold(after) {
      forall i | 0 <= i < |rows| && i != id && Active(rows[i]) ensures Distinct(rows[i], rows[id]) {
        assert after[i] == rows[i] && Active(after[id]);
      }
    } else {
      var i, j :| 0 <= i < j < |rows| && Active(after[i]) && Active(after[j]) && !Distinct(after[i], after[j]);
      assert i == id || j == id;
    }
  }

  lemma {:induction false} FailStep(c: Settings, t: Table, ticket: Ticket, retryable: bool, terminal: bool, id: nat)
    requires TableOk(t.rows) && id < |t.rows|
    ensures var e := FailEvent(ticket, retryable, terminal);
            var rows := Next(c, t, e).rows;
            && id < |rows| && Balanced(t, e, t.rows[id], rows[id], id)
  {
    hide TableOk, KeysBelong, RetryDelay, Exhausted, HasRoom, IndexesHold;
    TableMeansIndexes(t.rows);
    if ticket.id == id && !Exhausted(ticket, retryable, terminal) {
      RequeueIffRoom(t.rows, id, t.now + RetryDelay(ticket.attempts, c.retryBaseMs, c.retryMaxMs));
    }
  }

  lemma {:induction false} TableMeansIndexes(rows: seq<Row>)
    requires TableOk(rows)
    ensures IndexesHold(rows) && forall i :: 0 <= i < |rows| ==> LockedIffRunning(rows[i])
  {
  }

  lemma {:induction false} HandoffStep(c: Settings, t: Table, ticket: Ticket, next: Option<Plan>, id: nat)
    requires id < |t.rows|
    ensures var e := HandoffEvent(ticket, next);
            var rows := Next(c, t, e).rows;
            && id < |rows| && Balanced(t, e, t.rows[id], rows[id], id)
  {
    hide Fits, ActiveByKey;
  }

  // Whoever the callers are.
  lemma {:induction false} RowStep(c: Settings, t: Table, e: Event, id: nat)
    requires TableOk(t.rows) && id < |t.rows|
    ensures id < |Next(c, t, e).rows| && Balanced(t, e, t.rows[id], Next(c, t, e).rows[id], id)
  {
    match e {
      case FailEvent(ticket, retryable, terminal) => FailStep(c, t, ticket, retryable, terminal, id);
      case HandoffEvent(ticket, next) => HandoffStep(c, t, ticket, next, id);
      case _ => PlainStep(c, t, e, id);
    }
  }

  lemma {:induction false} PlainStep(c: Settings, t: Table, e: Event, id: nat)
    requires !e.FailEvent? && !e.HandoffEvent? && id < |t.rows|
    ensures id < |Next(c, t, e).rows| && Balanced(t, e, t.rows[id], Next(c, t, e).rows[id], id)
  {
    hide HasRoom, Fits, ActiveByKey;
  }

  // ---- Rows before they exist ----

  lemma {:induction false} NewRowStep(c: Settings, t: Table, e: Event, id: nat)
    requires id >= |t.rows| && id < |Next(c, t, e).rows|
    ensures Next(c, t, e).rows[id].attempts == 0 && Next(c, t, e).rows[id].status == Queued
  {
  }

  lemma {:induction false} NoRowNothing(t: Table, e: Event, id: nat, h: Happening)
    requires id >= |t.rows|
    ensures !Happens(t, e, id, h)
  {
  }

  lemma {:induction false} RowsOnlyGrow(c: Settings, t: Table, e: Event)
    ensures |t.rows| <= |Next(c, t, e).rows|
  {
    hide Fits, ActiveByKey, IndexesHold;
  }

  lemma {:induction false} NothingBeforeTheRow(c: Settings, start: Table, events: seq<Event>, k: nat, id: nat, h: Happening)
    requires k <= |events| && id >= |After(c, start, events, k).rows|
    ensures Count(c, start, events, k, id, h) == 0
  {
    hide Next, Happens;
    if k > 0 {
      var t := After(c, start, events, k - 1);
      RowsOnlyGrow(c, t, events[k - 1]);
      NothingBeforeTheRow(c, start, events, k - 1, id, h);
      NoRowNothing(t, events[k - 1], id, h);
    }
  }

  // ---- Attempt conservation ----

  // In every run, late callers included, a job's attempts are exactly its claims, and its claims are paid for: with
  // the withdrawals of queued rows they are its returns and requeues, and one more while it is not queued.
  lemma {:induction false} AttemptsAreConserved(c: Settings, now: int, events: seq<Event>, k: nat, id: nat)
    requires k <= |events| && RunFits(c, Table([], now), events, k)
    requires id < |After(c, Table([], now), events, k).rows|
    ensures var start := Table([], now);
            var r := After(c, start, events, k).rows[id];
            && r.attempts == Count(c, start, events, k, id, Claim)
            && r.attempts + Count(c, start, events, k, id, Withdrawal)
               == Count(c, start, events, k, id, Return) + Count(c, start, events, k, id, Requeue)
                  + Bit(r.status != Queued)
  {
    hide TableOk, PlanFits, Next, Happens;
    var start := Table([], now);
    if k > 0 {
      var t := After(c, start, events, k - 1);
      RunKeepsTable(c, start, events, k - 1);
      if id < |t.rows| {
        AttemptsAreConserved(c, now, events, k - 1, id);
        RowStep(c, t, events[k - 1], id);
      } else {
        FreshRow(c, start, events, k, id);
      }
    }
  }

  lemma {:induction false} FreshRow(c: Settings, start: Table, events: seq<Event>, k: nat, id: nat)
    requires 0 < k <= |events| && |After(c, start, events, k - 1).rows| <= id < |After(c, start, events, k).rows|
    ensures var r := After(c, start, events, k).rows[id]; r.attempts == 0 && r.status == Queued
    ensures forall h :: Count(c, start, events, k, id, h) == 0
  {
    hide Next, Happens;
    var t := After(c, start, events, k - 1);
    NewRowStep(c, t, events[k - 1], id);
    forall h ensures Count(c, start, events, k, id, h) == 0 {
      NothingBeforeTheRow(c, start, events, k - 1, id, h);
      NoRowNothing(t, events[k - 1], id, h);
    }
  }

  // ---- When a job passes its limit ----

  predicate Spent(rows: seq<Row>, id: nat) {
    id < |rows| && rows[id].attempts >= Limit(rows[id].maxAttempts)
  }

  predicate PastLimit(rows: seq<Row>, id: nat) {
    id < |rows| && rows[id].attempts > Limit(rows[id].maxAttempts)
  }

  // A row without attempts left is put back: by a recovery or a release, or by a failure report whose ticket still
  // had some, which is a late one.
  predicate PutsBackSpent(t: Table, e: Event, id: nat) {
    Spent(t.rows, id) && (Happens(t, e, id, Return) || Happens(t, e, id, Requeue))
  }

  // A row passes its limit at an event exactly when that event claims it with no attempt left.
  lemma {:induction false} PastLimitStep(c: Settings, t: Table, e: Event, id: nat)
    requires TableOk(t.rows)
    ensures PastLimit(Next(c, t, e).rows, id) <==> PastLimit(t.rows, id) || (Spent(t.rows, id) && Happens(t, e, id, Claim))
  {
    hide TableOk, Next, Happens;
    if id < |t.rows| {
      RowStep(c, t, e, id);
    } else if id < |Next(c, t, e).rows| {
      NewRowStep(c, t, e, id);
    }
  }

  predicate SpentInQueue(rows: seq<Row>, id: nat) {
    Spent(rows, id) && rows[id].status == Queued
  }

  // A row is queued with no attempt left exactly when it was and is left alone, or is put back so.
  lemma {:induction false} SpentInQueueStep(c: Settings, t: Table, e: Event, id: nat)
    requires TableOk(t.rows)
    ensures SpentInQueue(Next(c, t, e).rows, id) <==>
              || (SpentInQueue(t.rows, id) && !Happens(t, e, id, Claim) && !Happens(t, e, id, Withdrawal))
              || PutsBackSpent(t, e, id)
  {
    hide TableOk;
    if id < |t.rows| {
      RowStep(c, t, e, id);
      OneAtATime(t, e, id);
      hide Next, Happens;
    } else {
      hide Happens;
      NoRowNothing(t, e, id, Return);
      NoRowNothing(t, e, id, Requeue);
      if id < |Next(c, t, e).rows| { NewRowStep(c, t, e, id); }
    }
  }

  lemma {:induction false} OneAtATime(t: Table, e: Event, id: nat)
    requires id < |t.rows|
    ensures Happens(t, e, id, Claim) || Happens(t, e, id, Withdrawal) ==> t.rows[id].status == Queued
    ensures Happens(t, e, id, Return) || Happens(t, e, id, Requeue) ==> t.rows[id].status != Queued
    ensures Bit(Happens(t, e, id, Claim)) + Bit(Happens(t, e, id, Return)) + Bit(Happens(t, e, id, Requeue))
            + Bit(Happens(t, e, id, Withdrawal)) <= 1
  {
    hide HasRoom, Exhausted, CompleteAndHandoff;
  }

  // A job is queued with no attempt left only if an earlier event put it back so.
  lemma {:induction false} SpentWasPutBack(c: Settings, now: int, events: seq<Event>, k: nat, id: nat)
    requires k <= |events| && RunFits(c, Table([], now), events, k)
    requires SpentInQueue(After(c, Table([], now), events, k).rows, id)
    ensures exists i :: 0 <= i < k && PutsBackSpent(After(c, Table([], now), events, i), events[i], id)
  {
    hide TableOk, PlanFits, Next, PutsBackSpent, SpentInQueue, Happens;
    if k == 0 {
      NoRowIsSpent(id);
    } else {
      var t := After(c, Table([], now), events, k - 1);
      RunKeepsTable(c, Table([], now), events, k - 1);
      SpentInQueueStep(c, t, events[k - 1], id);
      if SpentInQueue(t.rows, id) { SpentWasPutBack(c, now, events, k - 1, id); }
    }
  }

  lemma {:induction false} NoRowIsSpent(id: nat)
    ensures !SpentInQueue([], id) && !PastLimit([], id)
  {
  }

  lemma {:induction false} SpentStays(c: Settings, start: Table, events: seq<Event>, i: nat, k: nat, id: nat)
    requires i <= k <= |events| && RunFits(c, start, events, k)
    ensures Spent(After(c, start, events, i).rows, id) ==> Spent(After(c, start, events, k).rows, id)
    ensures PastLimit(After(c, start, events, i).rows, id) ==> PastLimit(After(c, start, events, k).rows, id)
    decreases k
  {
    hide TableOk, PlanFits, Next, Happens;
    if i < k {
      SpentStays(c, start, events, i, k - 1, id);
      var t := After(c, start, events, k - 1);
      RunKeepsTable(c, start, events, k - 1);
      if id < |t.rows| { RowStep(c, t, events[k - 1], id); }
    }
  }

  // Row id is put back without an attempt left at event i, and claimed at event j.
  predicate ClaimedWhenSpent(c: Settings, start: Table, events: seq<Event>, i: nat, j: nat, id: nat)
    requires i < j < |events|
  {
    && PutsBackSpent(After(c, start, events, i), events[i], id)
    && Happens(After(c, start, events, j), events[j], id, Claim)
  }

  lemma {:induction false} ClaimPassesLimit(c: Settings, start: Table, events: seq<Event>, i: nat, j: nat, k: nat, id: nat)
    requires i < j < k <= |events| && RunFits(c, start, events, k) && ClaimedWhenSpent(c, start, events, i, j, id)
    ensures PastLimit(After(c, start, events, k).rows, id)
  {
    hide TableOk, PlanFits, Next, Happens, PastLimit;
    PrefixFits(c, start, events, j, k);
    SpentStays(c, start, events, i, j, id);
    RunKeepsTable(c, start, events, j);
    PastLimitStep(c, After(c, start, events, j), events[j], id);
    SpentStays(c, start, events, j + 1, k, id);
  }

  lemma {:induction false} PrefixFits(c: Settings, start: Table, events: seq<Event>, j: nat, k: nat)
    requires j <= k <= |events| && RunFits(c, start, events, k)
    ensures RunFits(c, start, events, j)
    decreases k
  {
    if j < k { PrefixFits(c, start, events, j, k - 1); }
  }

  lemma {:induction false} PastLimitWasClaimed(c: Settings, now: int, events: seq<Event>, k: nat, id: nat)
    requires k <= |events| && RunFits(c, Table([], now), events, k)
    requires PastLimit(After(c, Table([], now), events, k).rows, id)
    ensures exists i, j :: 0 <= i < j < k && ClaimedWhenSpent(c, Table([], now), events, i, j, id)
  {
    hide TableOk, PlanFits, Next, PutsBackSpent, PastLimit;
    if k == 0 {
      NoRowIsSpent(id);
    } else {
      var t := After(c, Table([], now), events, k - 1);
      RunKeepsTable(c, Table([], now), events, k - 1);
      PastLimitStep(c, t, events[k - 1], id);
      if PastLimit(t.rows, id) {
        PastLimitWasClaimed(c, now, events, k - 1, id);
      } else {
        SpentWasPutBack(c, now, events, k - 1, id);
        var i :| 0 <= i < k - 1 && PutsBackSpent(After(c, Table([], now), events, i), events[i], id);
        assert ClaimedWhenSpent(c, Table([], now), events, i, k - 1, id);
      }
    }
  }

  // In every run a job has passed its limit exactly when it was put back without an attempt left and then claimed.
  lemma {:induction false} PastLimitIff(c: Settings, now: int, events: seq<Event>, k: nat, id: nat)
    requires k <= |events| && RunFits(c, Table([], now), events, k)
    ensures PastLimit(After(c, Table([], now), events, k).rows, id)
            <==> exists i, j :: 0 <= i < j < k && ClaimedWhenSpent(c, Table([], now), events, i, j, id)
  {
    hide PastLimit, ClaimedWhenSpent, RunFits, After;
    if PastLimit(After(c, Table([], now), events, k).rows, id) {
      PastLimitWasClaimed(c, now, events, k, id);
    }
    forall i, j | 0 <= i < j < k && ClaimedWhenSpent(c, Table([], now), events, i, j, id)
      ensures PastLimit(After(c, Table([], now), events, k).rows, id)
    {
      ClaimPassesLimit(c, Table([], now), events, i, j, k, id);
    }
  }

  // ---- Callers that hold the row ----

  // They never put a spent row back by a failure, and never end a queued one.
  lemma {:induction false} HonestNeverRequeuesSpent(t: Table, e: Event, id: nat)
    requires Honest(t, e)
    ensures !Happens(t, e, id, Withdrawal)
    ensures PutsBackSpent(t, e, id) <==> Spent(t.rows, id) && Happens(t, e, id, Return)
  {
  }

  lemma {:induction false} HonestNeverWithdraws(c: Settings, start: Table, events: seq<Event>, k: nat, id: nat)
    requires k <= |events| && HonestRun(c, start, events, k)
    ensures Count(c, start, events, k, id, Withdrawal) == 0 && RunFits(c, start, events, k)
  {
    hide TableOk, PlanFits, Honest, Next, Happens;
    if k > 0 {
      HonestNeverWithdraws(c, start, events, k - 1, id);
      HonestNeverRequeuesSpent(After(c, start, events, k - 1), events[k - 1], id);
    }
  }

  // The exact count when every caller holds its row: an attempt for every return and every requeue, and one more
  // while the job is not queued.
  lemma {:induction false} HonestAttemptsAreExact(c: Settings, now: int, events: seq<Event>, k: nat, id: nat)
    requires k <= |events| && HonestRun(c, Table([], now), events, k)
    requires id < |After(c, Table([], now), events, k).rows|
    ensures var start := Table([], now);
            var r := After(c, start, events, k).rows[id];
            r.attempts == Count(c, start, events, k, id, Return) + Count(c, start, events, k, id, Requeue)
                          + Bit(r.status != Queued)
  {
    hide TableOk, PlanFits, Honest, Next, Happens;
    HonestNeverWithdraws(c, Table([], now), events, k, id);
    AttemptsAreConserved(c, now, events, k, id);
  }

  // Then a job passes its limit exactly when a recovery or a release put it back spent and it was claimed.
  lemma {:induction false} HonestPastLimitIff(c: Settings, now: int, events: seq<Event>, k: nat, id: nat)
    requires k <= |events| && HonestRun(c, Table([], now), events, k)
    ensures PastLimit(After(c, Table([], now), events, k).rows, id)
            <==> exists i, j :: 0 <= i < j < k && ClaimedWhenSpent(c, Table([], now), events, i, j, id)
                                && Happens(After(c, Table([], now), events, i), events[i], id, Return)
  {
    hide TableOk, PlanFits, Honest, Next, Happens, PastLimit;
    HonestNeverWithdraws(c, Table([], now), events, k, id);
    PastLimitIff(c, now, events, k, id);
    forall i, j | 0 <= i < j < k && ClaimedWhenSpent(c, Table([], now), events, i, j, id)
      ensures Happens(After(c, Table([], now), events, i), events[i], id, Return)
    {
      HonestAt(c, Table([], now), events, i, k);
      HonestNeverRequeuesSpent(After(c, Table([], now), events, i), events[i], id);
    }
  }

  lemma {:induction false} HonestAt(c: Settings, start: Table, events: seq<Event>, i: nat, k: nat)
    requires i < k <= |events| && HonestRun(c, start, events, k)
    ensures Honest(After(c, start, events, i), events[i])
    decreases k
  {
    if i < k - 1 { HonestAt(c, start, events, i, k - 1); }
  }

  // ---- Late callers that use each ticket once ----

  // The tickets of failure reports that put row id back carry distinct attempts of it.
  function UsedTickets(c: Settings, start: Table, events: seq<Event>, k: nat, id: nat): set<nat>
    requires k <= |events|
  {
    if k == 0 then {}
    else
      UsedTickets(c, start, events, k - 1, id)
      + (if Happens(After(c, start, events, k - 1), events[k - 1], id, Requeue) then {events[k - 1].ticket.attempts} else {})
  }

  // Failure reports on row id come with tickets a claim of it gave out, each in at most one report.
  ghost predicate TicketsUsedOnce(c: Settings, start: Table, events: seq<Event>, k: nat, id: nat)
    requires k <= |events|
  {
    && (forall m :: 0 <= m < k && events[m].FailEvent? && events[m].ticket.id == id ==>
          && events[m].ticket.attempts >= 1
          && id < |After(c, start, events, m).rows|
          && events[m].ticket.maxAttempts == After(c, start, events, m).rows[id].maxAttempts)
    && (forall m, n :: 0 <= m < n < k && events[m].FailEvent? && events[n].FailEvent?
                       && events[m].ticket.id == id == events[n].ticket.id ==>
          events[m].ticket.attempts != events[n].ticket.attempts)
  }

  lemma {:induction false} UsedTicketsComeFromReports(c: Settings, start: Table, events: seq<Event>, k: nat, id: nat, a: nat)
    requires k <= |events| && a in UsedTickets(c, start, events, k, id)
    ensures exists m :: 0 <= m < k && events[m].FailEvent? && events[m].ticket.id == id && events[m].ticket.attempts == a
                        && !Exhausted(events[m].ticket, events[m].retryable, events[m].terminal)
  {
    hide After, Exhausted;
    if a in UsedTickets(c, start, events, k - 1, id) {
      UsedTicketsComeFromReports(c, start, events, k - 1, id, a);
    }
  }

  lemma {:induction false} RequeuesAreUsedTickets(c: Settings, start: Table, events: seq<Event>, k: nat, id: nat)
    requires k <= |events| && TicketsUsedOnce(c, start, events, k, id)
    ensures Count(c, start, events, k, id, Requeue) == |UsedTickets(c, start, events, k, id)|
  {
    hide After;
    if k > 0 {
      RequeuesAreUsedTickets(c, start, events, k - 1, id);
      if Happens(After(c, start, events, k - 1), events[k - 1], id, Requeue) {
        var a := events[k - 1].ticket.attempts;
        if a in UsedTickets(c, start, events, k - 1, id) {
          UsedTicketsComeFromReports(c, start, events, k - 1, id, a);
        }
      }
    }
  }

  lemma {:induction false} SmallSet(s: set<nat>, n: nat)
    requires forall x :: x in s ==> 1 <= x <= n
    ensures |s| <= n
  {
    if n == 0 {
      assert s == {} by { assert forall x :: x !in s; }
    } else {
      SmallSet(s - {n}, n - 1);
      assert n in s ==> |s| == |s - {n}| + 1;
      assert n !in s ==> s - {n} == s;
    }
  }

  lemma {:induction false} LimitNeverChanges(c: Settings, start: Table, events: seq<Event>, m: nat, k: nat, id: nat)
    requires m <= k <= |events| && RunFits(c, start, events, k) && id < |After(c, start, events, m).rows|
    ensures id < |After(c, start, events, k).rows|
    ensures After(c, start, events, k).rows[id].maxAttempts == After(c, start, events, m).rows[id].maxAttempts
    decreases k
  {
    hide TableOk, PlanFits, Next, Happens;
    if m < k {
      LimitNeverChanges(c, start, events, m, k - 1, id);
      RunKeepsTable(c, start, events, k - 1);
      RowStep(c, After(c, start, events, k - 1), events[k - 1], id);
    }
  }

  // Late callers or not: when each ticket is reported at most once, a job's attempts are at most its limit and its
  // returns.
  lemma {:induction false} AttemptsAreBounded(c: Settings, now: int, events: seq<Event>, k: nat, id: nat)
    requires k <= |events| && RunFits(c, Table([], now), events, k) && TicketsUsedOnce(c, Table([], now), events, k, id)
    requires id < |After(c, Table([], now), events, k).rows|
    ensures var r := After(c, Table([], now), events, k).rows[id];
            r.attempts <= Limit(r.maxAttempts) + Count(c, Table([], now), events, k, id, Return)
  {
    hide TableOk, PlanFits, Next, Happens, After, RunFits;
    var start := Table([], now);
    var r := After(c, start, events, k).rows[id];
    var used := UsedTickets(c, start, events, k, id);
    AttemptsAreConserved(c, now, events, k, id);
    RequeuesAreUsedTickets(c, start, events, k, id);
    forall a | a in used ensures 1 <= a <= Limit(r.maxAttempts) - 1 {
      UsedTicketsComeFromReports(c, start, events, k, id, a);
      var m :| 0 <= m < k && events[m].FailEvent? && events[m].ticket.id == id && events[m].ticket.attempts == a
               && !Exhausted(events[m].ticket, events[m].retryable, events[m].terminal);
      LimitNeverChanges(c, start, events, m, k, id);
    }
    SmallSet(used, Limit(r.maxAttempts) - 1);
  }

  // ---- Dead letters and back-off ----

  // A failure by the holder dead-letters the row exactly when it is terminal, not retryable or the limit is
  // reached; otherwise the row is queued until its delay has passed.
  lemma {:induction false} FailureIsDeadLetterOrDelay(rows: seq<Row>, now: int, c: Settings, job: Ticket, retryable: bool, terminal: bool)
    requires TableOk(rows) && Holds(rows, job)
    ensures var after := Fail(rows, now, c, job, retryable, terminal);
            && |after| == |rows| && (forall i :: 0 <= i < |rows| && i != job.id ==> after[i] == rows[i])
            && if terminal || !retryable
                  || rows[job.id].attempts >= (if rows[job.id].maxAttempts == 0 then 8 else rows[job.id].maxAttempts)
               then after[job.id].status == Dead
               else after[job.id].status == Queued
                    && after[job.id].availableAt == now + RetryDelay(rows[job.id].attempts, c.retryBaseMs, c.retryMaxMs)
  {
    var delay := RetryDelay(job.attempts, c.retryBaseMs, c.retryMaxMs);
    RewriteKeepsTable(rows, job.id, Unlocked(rows[job.id], Queued, now + delay));
  }

  lemma {:induction false} PowerGrows(a: nat, b: nat)
    requires a <= b
    ensures Power(a) <= Power(b)
  {
    if a < b { PowerGrows(a, b - 1); }
  }

  // The delay never passes its cap, starts at the base, and never shrinks as attempts grow.
  lemma {:induction false} DelayIsCappedAndMonotone(a: nat, b: nat, base: nat, max: nat)
    requires a <= b
    ensures RetryDelay(a, base, max) <= RetryDelay(b, base, max) <= max
    ensures a <= 1 ==> RetryDelay(a, base, max) == Min(max, base)
  {
    PowerGrows(if a == 0 then 0 else a - 1, if b == 0 then 0 else b - 1);
    MultiplyGrows(base, Power(if a == 0 then 0 else a - 1), Power(if b == 0 then 0 else b - 1));
  }

  // From the first attempt on each failure doubles the delay, up to the cap.
  lemma {:induction false} DelayDoubles(a: nat, base: nat, max: nat)
    ensures a >= 1 ==> RetryDelay(a + 1, base, max) == Min(max, 2 * RetryDelay(a, base, max))
    ensures RetryDelay(0, base, max) == RetryDelay(1, base, max) == if base <= max then base else max
  {
    if a >= 1 {
      var d := base * Power(a - 1);
      assert base * Power(a) == 2 * d by {
        assert Power(a) == 2 * Power(a - 1);
      }
    }
  }

  lemma {:induction false} MultiplyGrows(x: nat, a: nat, b: nat)
    requires a <= b
    ensures x * a <= x * b
  {
  }

  lemma {:induction false} QueuedRowStep(c: Settings, t: Table, e: Event, id: nat)
    requires TableOk(t.rows) && PlanFits(t, e) && Honest(t, e) && id < |t.rows| && t.rows[id].status == Queued
    ensures !Happens(t, e, id, Claim) ==> id < |Next(c, t, e).rows| && Next(c, t, e).rows[id] == t.rows[id]
  {
  }

  lemma {:induction false} QueuedRowWaits(c: Settings, start: Table, events: seq<Event>, i: nat, k: nat, id: nat)
    requires i <= k <= |events| && HonestRun(c, start, events, k)
    requires id < |After(c, start, events, i).rows| && After(c, start, events, i).rows[id].status == Queued
    requires forall m :: i <= m < k ==> !Happens(After(c, start, events, m), events[m], id, Claim)
    ensures id < |After(c, start, events, k).rows|
    ensures After(c, start, events, k).rows[id] == After(c, start, events, i).rows[id]
    decreases k
  {
    hide TableOk, PlanFits, Honest, Next, Happens;
    if i < k {
      QueuedRowWaits(c, start, events, i, k - 1, id);
      HonestStep(c, start, events, k - 1);
      QueuedRowStep(c, After(c, start, events, k - 1), events[k - 1], id);
    }
  }

  lemma {:induction false} FailedRowIsDelayed(c: Settings, t: Table, e: Event)
    requires TableOk(t.rows) && Honest(t, e)
    requires e.FailEvent? && !Exhausted(e.ticket, e.retryable, e.terminal)
    ensures var rows := Next(c, t, e).rows;
            && e.ticket.id < |rows| && rows[e.ticket.id].status == Queued
            && rows[e.ticket.id].availableAt == t.now + RetryDelay(e.ticket.attempts, c.retryBaseMs, c.retryMaxMs)
  {
    FailureIsDeadLetterOrDelay(t.rows, t.now, c, e.ticket, e.retryable, e.terminal);
  }

  lemma {:induction false} ClaimsOnlyAvailable(t: Table, e: Event, id: nat)
    requires Happens(t, e, id, Claim)
    ensures id < |t.rows| && t.rows[id].availableAt <= t.now
  {
  }

  // A failed job that is queued again is never claimed before its delay has passed.
  lemma {:induction false} NoClaimBeforeTheDelay(c: Settings, start: Table, events: seq<Event>, i: nat, j: nat, id: nat)
    requires i < j < |events| && HonestRun(c, start, events, j)
    requires events[i].FailEvent? && events[i].ticket.id == id
    requires !Exhausted(events[i].ticket, events[i].retryable, events[i].terminal)
    requires forall m :: i + 1 <= m < j ==> !Happens(After(c, start, events, m), events[m], id, Claim)
    requires Happens(After(c, start, events, j), events[j], id, Claim)
    ensures After(c, start, events, j).now >=
              After(c, start, events, i).now + RetryDelay(events[i].ticket.attempts, c.retryBaseMs, c.retryMaxMs)
  {
    hide TableOk, PlanFits, Honest, Next, Happens, Exhausted, RetryDelay;
    DelayedAfterFailure(c, start, events, i, j, id);
    QueuedRowWaits(c, start, events, i + 1, j, id);
    ClaimsOnlyAvailable(After(c, start, events, j), events[j], id);
  }

  lemma {:induction false} DelayedAfterFailure(c: Settings, start: Table, events: seq<Event>, i: nat, j: nat, id: nat)
    requires i < j < |events| && HonestRun(c, start, events, j)
    requires events[i].FailEvent? && events[i].ticket.id == id
    requires !Exhausted(events[i].ticket, events[i].retryable, events[i].terminal)
    ensures var t := After(c, start, events, i + 1);
            && id < |t.rows| && t.rows[id].status == Queued
            && t.rows[id].availableAt == After(c, start, events, i).now
                                         + RetryDelay(events[i].ticket.attempts, c.retryBaseMs, c.retryMaxMs)
  {
    hide TableOk, PlanFits, Honest, Exhausted, RetryDelay;
    PrefixIsHonest(c, start, events, i + 1, j);
    HonestStep(c, start, events, i);
    FailedRowIsDelayed(c, After(c, start, events, i), events[i]);
  }

  lemma {:induction false} PrefixIsHonest(c: Settings, start: Table, events: seq<Event>, i: nat, j: nat)
    requires i <= j <= |events| && HonestRun(c, start, events, j)
    ensures HonestRun(c, start, events, i)
    decreases j
  {
    if i < j { PrefixIsHonest(c, start, events, i, j - 1); }
  }
}
