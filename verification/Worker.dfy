// A worker alone with a project (src/worker/worker.js:59-113, src/jobs/queue.js:110-162): it executes the planned job,
// again as long as its failures may be retried, hands off, and goes on with the next one.
module Worker {
  import opened Text
  import opened States
  import opened Records
  import opened Workflow
  import opened WorkflowProofs
  import Delivery
  import Orchestrator
  import JobLifetime
  import WorkflowSafety

  // What one execution of a job leaves in the store, also when the project has moved on since it was planned.
  lemma {:induction false} ExecutionStores(cfg: Config, world: World, p: Project, job: JobType)
    requires Inv(cfg, p) && Pending(job, p) && cfg.queue && ProvisionsOrThrows(world)
    ensures var e := Job(cfg, world, p, job);
            var q := Stored(p, e);
            && Inv(cfg, q) && Pending(job, q) && p.history <= q.history
            && |q.history| + Remaining(cfg, q) <= |p.history| + Remaining(cfg, p)
            && (e.outcome.Ok? ==> Remaining(cfg, q) < Remaining(cfg, p) || (q == p && NextJob(p) != Some(job)))
  {
    hide Inv, Job, Pending, NextJob, SoundStep, IsActive;
    var e := Job(cfg, world, p, job);
    JobProgress(cfg, world, p, job);
    if e != Silent(p) {
      Orchestrator.StoredAfter(cfg, world, p, e);
    }
    if e.saves != [] {
      assert e.saves[|e.saves| - 1] in e.saves;
      JobLifetime.JobStaysPending(cfg, world, p, job, e.saves[|e.saves| - 1]);
    }
  }

  lemma {:induction false} StaysPlanned(p: Project, q: Project, job: JobType)
    requires q.state == p.state && NextJob(p) == Some(job) && Pending(job, q)
    ensures NextJob(q) == Some(job)
  {
    hide MustProvision;
  }

  lemma {:induction false} HistoryTellsState(log: seq<Edge>, s: State, t: State)
    requires Walk(log, s) && Walk(log, t)
    ensures s == t
  {
  }

  // A job that is no longer planned met a project that has moved on.
  lemma {:induction false} MovedOn(cfg: Config, p: Project, q: Project, job: JobType)
    requires Inv(cfg, p) && Inv(cfg, q) && p.history <= q.history
    requires NextJob(p) == Some(job) && Pending(job, q) && NextJob(q) != Some(job)
    ensures |p.history| < |q.history|
  {
    hide RunsOk, RunsFit, SpecFits, ProvisionsFirst, Cert, Delivery.LedgerOk, Walk, NextJob, Pending;
    if |p.history| == |q.history| {
      assert p.history == q.history;
      HistoryTellsState(p.history, p.state, q.state);
      StaysPlanned(p, q, job);
    }
  }

  class Solitary {
    const cfg: Config
    const limit: nat
    var stored: Project

    constructor (cfg: Config, limit: nat, p: Project)
      ensures this.cfg == cfg && this.limit == limit && stored == p
    {
      this.cfg, this.limit, stored := cfg, limit, p;
    }

    // One job, from its first claim to its handoff or its dead letter; worlds(n) answers its n-th execution. Alone
    // with the project the worker keeps its row, so the attempts are the claims.
    method ExecuteClaimed(job: JobType, worlds: nat -> World, isFinal: Code -> bool) returns (o: Outcome, attempts: nat)
      requires Inv(cfg, stored) && cfg.queue && NextJob(stored) == Some(job) && limit > 0
      requires forall n :: ProvisionsOrThrows(worlds(n))
      modifies this
      ensures Inv(cfg, stored) && old(stored.history) <= stored.history && 1 <= attempts <= limit
      ensures |stored.history| + Remaining(cfg, stored) <= |old(stored.history)| + Remaining(cfg, old(stored))
      ensures o.Ok? ==> Remaining(cfg, stored) < Remaining(cfg, old(stored))
      ensures o.Threw? ==> isFinal(o.code) || attempts == limit
    {
      hide Pending, NextJob, Job, ProvisionsOrThrows, Remaining, IsActive;
      hide RunsOk, RunsFit, SpecFits, ProvisionsFirst, Walk, Cert, Delivery.LedgerOk;
      PlannedIsPending(stored);
      ghost var before := stored;
      attempts := 0;
      o := Threw(StageFailed);
      while attempts == 0 || (o.Threw? && !isFinal(o.code) && attempts < limit)
        invariant attempts <= limit && Inv(cfg, stored) && Pending(job, stored) && before.history <= stored.history
        invariant |stored.history| + Remaining(cfg, stored) <= |before.history| + Remaining(cfg, before)
        invariant attempts > 0 && o.Ok? ==> Remaining(cfg, stored) < Remaining(cfg, before)
        decreases limit - attempts
      {
        ExecutionStores(cfg, worlds(attempts), stored, job);
        if NextJob(stored) != Some(job) { MovedOn(cfg, before, stored, job); }
        var engine := new Orchestrator.Engine(cfg, worlds(attempts), stored);
        o := engine.ExecuteJob(job);
        stored := engine.stored;
        attempts := attempts + 1;
      }
    }

    // A failure that is final, or the last one allowed, is a dead letter and fails the project. The work always ends,
    // within the bound on transitions, with nothing planned, and never with an uncertified delivery.
    method Work(worlds: nat -> World, isFinal: Code -> bool)
      requires Inv(cfg, stored) && cfg.queue && limit > 0 && forall n :: ProvisionsOrThrows(worlds(n))
      modifies this
      ensures Inv(cfg, stored) && NextJob(stored).None?
      ensures old(stored.history) <= stored.history
      ensures |stored.history| <= |old(stored.history)| + Remaining(cfg, old(stored))
      ensures stored.state == ReadyForOwnerReview && !stored.demo ==> WorkflowSafety.OwnerReviewCertificate(cfg, stored)
    {
      hide NextJob, ProvisionsOrThrows, Remaining, WorkflowSafety.OwnerReviewCertificate, IsActive;
      hide RunsOk, RunsFit, SpecFits, ProvisionsFirst, Walk, Cert, Delivery.LedgerOk;
      ghost var before := stored;
      var o := Ok;
      var executed := 0;
      while NextJob(stored).Some? && o.Ok?
        invariant Inv(cfg, stored) && before.history <= stored.history
        invariant |stored.history| + Remaining(cfg, stored) <= |before.history| + Remaining(cfg, before)
        decreases o.Ok?, Remaining(cfg, stored)
      {
        var attempts;
        var from := executed;
        o, attempts := ExecuteClaimed(NextJob(stored).value, n => worlds(from + n), isFinal);
        executed := executed + attempts;
      }
      if o.Threw? {
        Orchestrator.FailureStores(cfg, stored);
        var engine := new Orchestrator.Engine(cfg, worlds(executed), stored);
        var _ := engine.RecordFailure();
        stored := engine.stored;
      }
      InvCertifies(cfg, stored);
    }
  }

  lemma {:induction false} InvCertifies(cfg: Config, p: Project)
    requires Inv(cfg, p)
    ensures p.state == ReadyForOwnerReview && !p.demo ==> WorkflowSafety.OwnerReviewCertificate(cfg, p)
  {
    hide WorkflowSafety.OwnerReviewCertificate;
    if p.state == ReadyForOwnerReview && !p.demo { WorkflowSafety.CertMeans(cfg, p); }
  }
}
