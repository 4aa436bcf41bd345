/** How one row of the job queue moves in one step, whoever takes it. */
module JobSteps {
  import opened Timestamps
  import opened Domain
  import opened Workflow
  import opened Invariants
  import opened Progress
  import opened Runs
  import opened StepSafety

  /** The worker reports on this job and still holds its lease. */
  predicate Reports(s: Service, step: Step, j: Id) {
    && step.Report? && !step.lost && step.owner in s.workers && s.workers[step.owner].Reporting?
    && s.workers[step.owner].jobId == j && HoldsLease(s.db, j, step.owner)
  }

  predicate Takes(s: Service, step: Step, j: Id) {
    && step.TakeJob? && step.jobId == j && step.owner in s.workers && s.workers[step.owner].Idle?
    && NextDue(s.db.jobs, j, step.now)
  }

  predicate TakesBack(s: Service, step: Step, j: Id) {
    && step.StartWorker? && step.owner !in s.workers && j in s.db.jobs && LeaseExpired(s.db.jobs[j], step.now)
  }

  function BackoffOf(job: Job): nat { Backoff(if job.attempts >= 0 then job.attempts else 0) }

  function Completed(job: Job): Job { job.(status := JobCompleted, leaseOwner := "", leaseUntil := None) }

  /** A reported failure, decided by the row's own attempts. */
  function Failed(job: Job, now: Instant): Job {
    var final := job.attempts >= job.maxAttempts;
    job.(status := if final then JobFailed else JobPending, leaseOwner := "", leaseUntil := None,
         availableAt := if final then now else now + BackoffOf(job))
  }

  function NextRow(c: Config, s: Service, step: Step, j: Id): Job
    requires j in s.db.jobs
  {
    var job := s.db.jobs[j];
    if Takes(s, step, j) then
      job.(status := JobRunning, attempts := job.attempts + 1, leaseOwner := step.owner, leaseUntil := Some(step.now + c.lease))
    else if TakesBack(s, step, j) then
      job.(status := JobPending, leaseOwner := "", leaseUntil := None, availableAt := step.now)
    else if Reports(s, step, j) then
      if s.workers[step.owner].succeeded then Completed(job) else Failed(job, step.now)
    else job
  }

  lemma RequestsGrowJobs(c: Config, s: Service, step: Step)
    requires ServiceInv(c, s) && IsRequest(step)
    ensures JobsGrow(s.db.jobs, Exec(c, s, step).db.jobs)
  {
    hide Exec, Inv, Advances;
    if step.DispatchCase? {
      DispatchRequestKeeps(c, s, step);
    } else if step.ApproveClaim? {
      ApproveRequestKeeps(c, s, step);
    } else if step.ClaimAccounts? || step.Confirm? {
      ClaimRequestKeeps(c, s, step);
    } else {
      CaseRequestKeeps(c, s, step);
    }
  }

  lemma HandlersKeepJobs(c: Config, s: Service, step: Step)
    requires ServiceInv(c, s) && step.Handle?
    ensures Exec(c, s, step).db.jobs == s.db.jobs
  {
    hide Inv, EffectDone, RunHandler, RetriesBounded;
    if step.owner in s.workers && s.workers[step.owner].Working? {
      var w := s.workers[step.owner];
      assert TaskOk(s, step.owner, w);
      HandlerKeeps(s.db, w.jobId, w.snapshot, c.limit);
    }
  }

  lemma TakingMoves(c: Config, s: Service, step: Step, j: Id)
    requires step.TakeJob? && j in s.db.jobs
    ensures var jobs := Exec(c, s, step).db.jobs; jobs.Keys == s.db.jobs.Keys && jobs[j] == NextRow(c, s, step, j)
  {
    hide Due, QueuedBefore;
  }

  lemma RestartsMove(c: Config, s: Service, step: Step, j: Id)
    requires (step.StartWorker? || step.Crash?) && j in s.db.jobs
    ensures var jobs := Exec(c, s, step).db.jobs; jobs.Keys == s.db.jobs.Keys && jobs[j] == NextRow(c, s, step, j)
  {
    hide TextLessEq, TakenBack;
  }

  /** A worker that holds the lease has the row's attempts in its snapshot. */
  lemma ReportedRow(d: Database, id: Id, snapshot: Job, owner: string, succeeded: bool, now: Instant, j: Id)
    requires j in d.jobs && id in d.jobs
    requires HoldsLease(d, id, owner) ==> d.jobs[id].attempts == snapshot.attempts >= 0 && d.jobs[id].maxAttempts == snapshot.maxAttempts
    ensures var o := if succeeded then CompleteJob(d, id, owner)
                     else FailJob(d, id, snapshot, owner, now, now + Backoff(if snapshot.attempts >= 0 then snapshot.attempts else 0));
            var jobs := After(d, o).jobs;
            && jobs.Keys == d.jobs.Keys
            && jobs[j] == if j == id && HoldsLease(d, id, owner)
                          then if succeeded then Completed(d.jobs[j]) else Failed(d.jobs[j], now) else d.jobs[j]
  {
    hide Backoff;
  }

  lemma ReportsMove(c: Config, s: Service, step: Step, j: Id)
    requires ServiceInv(c, s) && step.Report? && j in s.db.jobs
    ensures var jobs := Exec(c, s, step).db.jobs; jobs.Keys == s.db.jobs.Keys && jobs[j] == NextRow(c, s, step, j)
  {
    hide Inv, EffectDone, RetriesBounded, CompleteJob, FailJob, Completed, Failed, HoldsLease, Backoff;
    if step.owner in s.workers && s.workers[step.owner].Reporting? {
      var w := s.workers[step.owner];
      assert TaskOk(s, step.owner, w);
      ReportedRow(s.db, w.jobId, w.snapshot, step.owner, w.succeeded, step.now, j);
    }
  }

  /** Every step moves every existing row to its NextRow. */
  lemma RowMoves(c: Config, s: Service, step: Step, j: Id)
    requires ServiceInv(c, s) && j in s.db.jobs
    ensures var jobs := Exec(c, s, step).db.jobs; j in jobs && jobs[j] == NextRow(c, s, step, j)
  {
    hide Exec, ServiceInv, NextDue, LeaseExpired, Failed, Completed;
    if IsRequest(step) {
      RequestsGrowJobs(c, s, step);
    } else if step.Handle? {
      HandlersKeepJobs(c, s, step);
    } else if step.TakeJob? {
      TakingMoves(c, s, step, j);
    } else if step.Report? {
      ReportsMove(c, s, step, j);
    } else {
      RestartsMove(c, s, step, j);
    }
  }

  lemma ReportKeys(d: Database, w: Task, owner: string, now: Instant)
    requires w.Reporting?
    ensures After(d, CompleteJob(d, w.jobId, owner)).jobs.Keys == d.jobs.Keys
    ensures forall retryAt :: After(d, FailJob(d, w.jobId, w.snapshot, owner, now, retryAt)).jobs.Keys == d.jobs.Keys
  {}

  lemma DueExists(jobs: map<Id, Job>, j: Id, now: Instant)
    requires NextDue(jobs, j, now)
    ensures j in jobs && jobs[j].status == JobPending
  {}

  lemma OtherKeys(c: Config, s: Service, step: Step)
    requires ServiceInv(c, s) && !IsRequest(step) && !step.Handle?
    ensures Exec(c, s, step).db.jobs.Keys == s.db.jobs.Keys
  {
    hide ServiceInv, Backoff, NextDue, Recovered, TakenBack, CompleteJob, FailJob;
    match step
    case TakeJob(_, id, now) => if NextDue(s.db.jobs, id, now) { DueExists(s.db.jobs, id, now); }
    case Report(owner, now, _) =>
      if owner in s.workers && s.workers[owner].Reporting? { ReportKeys(s.db, s.workers[owner], owner, now); }
    case _ =>
  }

  lemma WorkersAddNoJobs(c: Config, s: Service, step: Step)
    requires ServiceInv(c, s) && !IsRequest(step)
    ensures Exec(c, s, step).db.jobs.Keys == s.db.jobs.Keys
  {
    hide Exec, ServiceInv, NextRow;
    if step.Handle? {
      HandlersKeepJobs(c, s, step);
    } else {
      OtherKeys(c, s, step);
    }
  }

  /** Rows that appear come from requests and start out pending and untried. */
  lemma RowAppears(c: Config, s: Service, step: Step, j: Id)
    requires ServiceInv(c, s) && j !in s.db.jobs && j in Exec(c, s, step).db.jobs
    ensures IsRequest(step)
    ensures var job := Exec(c, s, step).db.jobs[j];
            job.status == JobPending && job.attempts == 0 && job.maxAttempts > 0
  {
    hide Exec, ServiceInv;
    if IsRequest(step) {
      RequestsGrowJobs(c, s, step);
    } else {
      WorkersAddNoJobs(c, s, step);
    }
  }
}
