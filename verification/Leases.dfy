/** The lease protocol of the job queue under every interleaving of workers,
    crashes and recoveries: fencing, exactly-once effects, bounded retries. */
module Leases {
  import opened Timestamps
  import opened Domain
  import opened Workflow
  import opened Invariants
  import opened Progress
  import opened Runs
  import opened StepSafety
  import opened JobSteps
  import opened Queue
  import TextOrder

  /** A worker still works on the snapshot it once claimed. */
  predicate Holds(s: Service, owner: string, jobId: Id, snapshot: Job) {
    && owner in s.workers && !s.workers[owner].Idle?
    && s.workers[owner].jobId == jobId && s.workers[owner].snapshot == snapshot
  }

  lemma HeldSnapshotOk(c: Config, s: Service, owner: string, jobId: Id, snapshot: Job)
    requires Reachable(c, s) && Holds(s, owner, jobId, snapshot)
    ensures SnapshotOk(s, owner, jobId, snapshot)
  {
    hide Inv, EffectDone;
    ReachableOk(c, s);
    assert TaskOk(s, owner, s.workers[owner]);
  }

  lemma JobsOnwards(c: Config, s: Service, steps: seq<Step>, j: Id)
    requires Reachable(c, s) && j in s.db.jobs
    ensures var e := Run(c, s, steps).db;
            && j in e.jobs && s.db.jobs[j].attempts <= e.jobs[j].attempts
            && (Terminal(s.db.jobs[j].status) ==> e.jobs[j] == s.db.jobs[j])
            && e.jobs[j].maxAttempts == s.db.jobs[j].maxAttempts
  {
    hide Reachable, CasesAdvance, InquiriesAdvance, ResultsAdvance, ClaimsAdvance, LinksAdvance, PayoutsAdvance, KeysAdvance, LedgersFrozen;
    Onwards(c, s, steps);
  }

  lemma TakingCounts(c: Config, s: Service, owner: string, jobId: Id, now: Instant)
    requires Exec(c, s, TakeJob(owner, jobId, now)) != s
    ensures var t := Exec(c, s, TakeJob(owner, jobId, now));
            jobId in s.db.jobs && jobId in t.db.jobs && t.db.jobs[jobId].attempts == s.db.jobs[jobId].attempts + 1
  {
    hide QueuedBefore, TextLessEq;
  }

  /** A snapshot that lags behind the row has lost its lease. */
  lemma StaleReport(c: Config, s: Service, owner: string, jobId: Id, snapshot: Job, at: Instant, retryAt: Instant, lost: bool)
    requires Holds(s, owner, jobId, snapshot) && SnapshotOk(s, owner, jobId, snapshot)
    requires snapshot.attempts < s.db.jobs[jobId].attempts
    ensures CompleteJob(s.db, jobId, owner) == RolledBack(Conflict)
    ensures FailJob(s.db, jobId, snapshot, owner, at, retryAt) == RolledBack(Conflict)
    ensures Exec(c, s, Report(owner, at, lost)).db == s.db
  {}

  /** Fencing: once another owner has claimed the job again, a worker still
      holding the old snapshot can neither complete nor fail it, whatever
      happens in between; its report changes no row. */
  lemma LeaseFencing(c: Config, s: Service, owner: string, jobId: Id, snapshot: Job, other: string, now: Instant,
                     steps: seq<Step>, at: Instant, retryAt: Instant, lost: bool)
    requires Reachable(c, s) && Holds(s, owner, jobId, snapshot)
    requires Exec(c, s, TakeJob(other, jobId, now)) != s
    requires Holds(Run(c, Exec(c, s, TakeJob(other, jobId, now)), steps), owner, jobId, snapshot)
    ensures var t := Run(c, Exec(c, s, TakeJob(other, jobId, now)), steps);
            && CompleteJob(t.db, jobId, owner) == RolledBack(Conflict)
            && FailJob(t.db, jobId, snapshot, owner, at, retryAt) == RolledBack(Conflict)
            && Exec(c, t, Report(owner, at, lost)).db == t.db
  {
    hide Reachable, Exec, CompleteJob, FailJob;
    var taken := Exec(c, s, TakeJob(other, jobId, now));
    var t := Run(c, taken, steps);
    TakingCounts(c, s, other, jobId, now);
    HeldSnapshotOk(c, s, owner, jobId, snapshot);
    OneStep(c, s, TakeJob(other, jobId, now));
    JobsOnwards(c, taken, steps, jobId);
    Onwards(c, taken, steps);
    HeldSnapshotOk(c, t, owner, jobId, snapshot);
    StaleReport(c, t, owner, jobId, snapshot, at, retryAt, lost);
  }

  /** The row has moved on from the lease of attempt number `attempts`. */
  predicate MovedOn(d: Database, j: Id, attempts: int) {
    && j in d.jobs
    && (d.jobs[j].attempts > attempts || (d.jobs[j].attempts == attempts && d.jobs[j].status != JobRunning))
  }

  lemma MovedOnStays(c: Config, s: Service, step: Step, j: Id, attempts: int)
    requires ServiceInv(c, s) && MovedOn(s.db, j, attempts)
    ensures MovedOn(Exec(c, s, step).db, j, attempts)
  {
    hide Exec, ServiceInv, NextDue, LeaseExpired, Backoff;
    RowMoves(c, s, step, j);
  }

  lemma {:induction false} MovedOnForGood(c: Config, s: Service, steps: seq<Step>, j: Id, attempts: int)
    requires ServiceInv(c, s) && MovedOn(s.db, j, attempts)
    ensures MovedOn(Run(c, s, steps).db, j, attempts)
    decreases |steps|
  {
    hide Exec, ServiceInv, MovedOn, Advances;
    if steps != [] {
      MovedOnStays(c, s, steps[0], j, attempts);
      ExecKeeps(c, s, steps[0]);
      MovedOnForGood(c, Exec(c, s, steps[0]), steps[1..], j, attempts);
    }
  }

  lemma RecoveryMovesOn(c: Config, s: Service, owner: string, jobId: Id, snapshot: Job, starter: string, now: Instant)
    requires ServiceInv(c, s) && Holds(s, owner, jobId, snapshot) && SnapshotOk(s, owner, jobId, snapshot)
    requires TakesBack(s, StartWorker(starter, now), jobId)
    ensures MovedOn(Exec(c, s, StartWorker(starter, now)).db, jobId, snapshot.attempts)
  {
    hide Exec, ServiceInv, TextLessEq;
    RowMoves(c, s, StartWorker(starter, now), jobId);
  }

  lemma LateReport(c: Config, t: Service, owner: string, jobId: Id, snapshot: Job, at: Instant, retryAt: Instant, lost: bool)
    requires Holds(t, owner, jobId, snapshot) && SnapshotOk(t, owner, jobId, snapshot) && MovedOn(t.db, jobId, snapshot.attempts)
    ensures CompleteJob(t.db, jobId, owner) == RolledBack(Conflict)
    ensures FailJob(t.db, jobId, snapshot, owner, at, retryAt) == RolledBack(Conflict)
    ensures Exec(c, t, Report(owner, at, lost)).db == t.db
  {
    hide Backoff;
  }

  /** Fencing from the recovery on: once a starting worker has taken the lease
      back, the old holder can neither complete nor fail the job, whether or not
      anybody has claimed it again. */
  lemma RecoveryFences(c: Config, s: Service, owner: string, jobId: Id, snapshot: Job, starter: string, now: Instant,
                       steps: seq<Step>, at: Instant, retryAt: Instant, lost: bool)
    requires Reachable(c, s) && Holds(s, owner, jobId, snapshot) && TakesBack(s, StartWorker(starter, now), jobId)
    requires Holds(Run(c, Exec(c, s, StartWorker(starter, now)), steps), owner, jobId, snapshot)
    ensures var t := Run(c, Exec(c, s, StartWorker(starter, now)), steps);
            && CompleteJob(t.db, jobId, owner) == RolledBack(Conflict)
            && FailJob(t.db, jobId, snapshot, owner, at, retryAt) == RolledBack(Conflict)
            && Exec(c, t, Report(owner, at, lost)).db == t.db
  {
    hide Reachable, ServiceInv, Inv, Exec, CompleteJob, FailJob, TakesBack, Holds, MovedOn, Advances;
    var next := Exec(c, s, StartWorker(starter, now));
    ReachableOk(c, s);
    HeldSnapshotOk(c, s, owner, jobId, snapshot);
    RecoveryMovesOn(c, s, owner, jobId, snapshot, starter, now);
    OneStep(c, s, StartWorker(starter, now));
    ReachableOk(c, next);
    MovedOnForGood(c, next, steps, jobId, snapshot.attempts);
    Onwards(c, next, steps);
    HeldSnapshotOk(c, Run(c, next, steps), owner, jobId, snapshot);
    LateReport(c, Run(c, next, steps), owner, jobId, snapshot, at, retryAt, lost);
  }

  /** Names are what fences: a job just claimed is closed to every owner name
      but the claimer's, and open to anybody who goes by that name. */
  lemma NamesFence(c: Config, s: Service, owner: string, jobId: Id, now: Instant, name: string, snapshot: Job, at: Instant,
                   retryAt: Instant)
    requires Exec(c, s, TakeJob(owner, jobId, now)) != s
    ensures var d := Exec(c, s, TakeJob(owner, jobId, now)).db;
            && (CompleteJob(d, jobId, name) == RolledBack(Conflict) <==> name != owner)
            && (FailJob(d, jobId, snapshot, name, at, retryAt) == RolledBack(Conflict) <==> name != owner)
  {
    hide NextDue;
  }

  /** Whenever FailJob or CompleteJob succeeds for a worker, the lease is that
      worker's own current one: its snapshot's attempts are the row's. */
  lemma ReportsAreCurrent(c: Config, s: Service, owner: string, now: Instant, retryAt: Instant)
    requires Reachable(c, s) && owner in s.workers && s.workers[owner].Reporting?
    ensures var w := s.workers[owner];
            CompleteJob(s.db, w.jobId, owner).Committed? || FailJob(s.db, w.jobId, w.snapshot, owner, now, retryAt).Committed?
            ==> s.db.jobs[w.jobId].attempts == w.snapshot.attempts && s.db.jobs[w.jobId].maxAttempts == w.snapshot.maxAttempts
  {
    hide Reachable;
    HeldSnapshotOk(c, s, owner, s.workers[owner].jobId, s.workers[owner].snapshot);
  }

  // ------------------------------------------------------------ exactly once

  predicate InquiryWaits(d: Database, q: Id) {
    q !in d.inquiries || d.inquiries[q].status == InquiryPending
  }

  predicate PayoutWaits(d: Database, p: Id) {
    p !in d.payouts || d.payouts[p].status == PayoutPending
  }

  /** How many steps of the run take inquiry `q` out of `pending`. */
  ghost function Dispatches(c: Config, s: Service, steps: seq<Step>, q: Id): nat
    decreases |steps|
  {
    if steps == [] then 0
    else
      var next := Exec(c, s, steps[0]);
      (if InquiryWaits(s.db, q) && !InquiryWaits(next.db, q) then 1 else 0) + Dispatches(c, next, steps[1..], q)
  }

  lemma WaitingEndsOnce(d: Database, e: Database, q: Id)
    requires Advances(d, e)
    ensures !InquiryWaits(d, q) ==> !InquiryWaits(e, q)
  {}

  lemma {:induction false} DispatchesCounted(c: Config, s: Service, steps: seq<Step>, q: Id)
    requires ServiceInv(c, s)
    ensures Dispatches(c, s, steps, q)
            == if InquiryWaits(s.db, q) && !InquiryWaits(Run(c, s, steps).db, q) then 1 else 0
    decreases |steps|
  {
    hide ServiceInv, Advances, Exec, InquiryWaits;
    if steps != [] {
      var next := Exec(c, s, steps[0]);
      ExecKeeps(c, s, steps[0]);
      DispatchesCounted(c, next, steps[1..], q);
      RunKeeps(c, next, steps[1..]);
      WaitingEndsOnce(s.db, next.db, q);
      WaitingEndsOnce(next.db, Run(c, next, steps[1..]).db, q);
    }
  }

  /** However often its job runs, an inquiry is dispatched once: the count is 1
      exactly when the run takes it from waiting to dispatched, and else 0. */
  lemma DispatchedOnce(c: Config, s: Service, steps: seq<Step>, q: Id)
    requires Reachable(c, s)
    ensures Dispatches(c, s, steps, q)
            == if InquiryWaits(s.db, q) && !InquiryWaits(Run(c, s, steps).db, q) then 1 else 0
  {
    hide ServiceInv, Reachable, Dispatches, Run;
    ReachableOk(c, s);
    DispatchesCounted(c, s, steps, q);
  }

  /** A completed job has had its effect: the inquiry is past `pending` with the
      job's own reference, the payout is past `pending`. */
  lemma CompletedMeansDone(c: Config, s: Service, j: Id)
    requires Reachable(c, s) && j in s.db.jobs && s.db.jobs[j].status == JobCompleted
    ensures var job := s.db.jobs[j];
            match job.kind
            case DispatchInquiry => job.resourceId in s.db.inquiries && !InquiryWaits(s.db, job.resourceId)
                                    && s.db.inquiries[job.resourceId].externalRef == "outbox-" + j
            case ExecutePayout => job.resourceId in s.db.payouts && !PayoutWaits(s.db, job.resourceId)
  {
    hide Inv, Reachable;
    ReachableOk(c, s);
    InvJobs(s.db, c.limit);
    assert JobOk(j, s.db.jobs[j], s.db.inquiries, s.db.payouts);
  }

  /** Handlers are idempotent: running one again changes nothing. */
  lemma HandlerIdempotent(c: Config, s: Service, j: Id)
    requires Reachable(c, s) && j in s.db.jobs
    ensures RunHandler(s.db, j, s.db.jobs[j]).Committed?
    ensures var e := RunHandler(s.db, j, s.db.jobs[j]).database; RunHandler(e, j, s.db.jobs[j]) == Committed(e, ())
  {
    hide Inv, Reachable, Advances;
    ReachableOk(c, s);
    HandlerKeeps(s.db, j, s.db.jobs[j], c.limit);
    var e := RunHandler(s.db, j, s.db.jobs[j]).database;
    match s.db.jobs[j].kind
    case DispatchInquiry => InvInquiries(e, s.db.jobs[j].resourceId, c.limit);
    case ExecutePayout => InvPayout(e, s.db.jobs[j].resourceId, c.limit);
  }

  // -------------------------------------------------------------- due times

  /** A claimed job was due, up to an error of less than a second in the text
      comparison; and a job more than a second overdue is never passed over as
      not yet due. */
  lemma DueUpToOneSecond(jobs: map<Id, Job>, j: Id, now: Instant)
    requires j in jobs && jobs[j].status == JobPending && FourDigitYear(now) && FourDigitYear(jobs[j].availableAt)
    ensures NextDue(jobs, j, now) ==> jobs[j].availableAt < now + SECOND
    ensures jobs[j].availableAt + SECOND <= now ==> Due(jobs[j], now)
  {
    TextTestErrsBelowOneSecond(jobs[j].availableAt, now);
  }

  /** A worker takes the oldest due job: none that became available a second or
      more before it waits, on whole seconds none that became available before it,
      and of the jobs of one time it takes the one with the smallest id. */
  lemma OldestTaken(c: Config, s: Service, owner: string, id: Id, now: Instant, j: Id)
    requires Exec(c, s, TakeJob(owner, id, now)) != s
    requires j in s.db.jobs && s.db.jobs[j].status == JobPending && TextLessEq(s.db.jobs[j].availableAt, now)
    ensures id in s.db.jobs
    ensures var job, a, b := s.db.jobs[id], s.db.jobs[id].availableAt, s.db.jobs[j].availableAt;
            && (FourDigitYear(a) && FourDigitYear(b) ==> a < b + SECOND && (a % SECOND == 0 && b % SECOND == 0 ==> a <= b))
            && (a == b ==> id == j || TextOrder.Less(id, j))
            && Exec(c, s, TakeJob(owner, id, now)).db == s.db.(jobs := s.db.jobs[id :=
                 Job(job.kind, job.resourceId, JobRunning, job.attempts + 1, job.maxAttempts, a, owner, Some(now + c.lease))])
  {
    hide NextDue, TextLessEq, FourDigitYear;
    NextIsDue(s.db.jobs, id, now);
    OldestFirst(s.db.jobs, id, now, j);
  }

  /** The same for the test RecoverExpiredJobs makes on leases ... */
  lemma LeasesEndUpToOneSecond(job: Job, now: Instant)
    requires job.status == JobRunning && job.leaseUntil.Some? && FourDigitYear(now) && FourDigitYear(job.leaseUntil.value)
    ensures LeaseExpired(job, now) ==> job.leaseUntil.value < now + SECOND
    ensures job.leaseUntil.value + SECOND <= now ==> LeaseExpired(job, now)
  {
    TextTestErrsBelowOneSecond(job.leaseUntil.value, now);
  }

  /** ... and for the test GetIdempotency makes on keys. */
  lemma KeysLiveUpToOneSecond(d: Database, key: string, now: Instant)
    requires key in d.keys && FourDigitYear(now) && FourDigitYear(d.keys[key].expiresAt)
    ensures LiveKey(d, key, now) ==> now < d.keys[key].expiresAt + SECOND
    ensures now + SECOND <= d.keys[key].expiresAt ==> LiveKey(d, key, now)
  {
    TextTestErrsBelowOneSecond(d.keys[key].expiresAt, now);
  }

  // ----------------------------------------------------- while a lease lasts

  /** A step that neither reports for the owner nor restarts a worker when the
      lease could already count as expired. */
  predicate Spares(step: Step, owner: string, until: Instant) {
    && (step.StartWorker? ==> step.now + SECOND <= until && FourDigitYear(step.now))
    && (step.Report? ==> step.owner != owner)
  }

  predicate LeasedTo(d: Database, j: Id, owner: string, until: Instant) {
    HoldsLease(d, j, owner) && d.jobs[j].leaseUntil == Some(until)
  }

  lemma StepSpares(c: Config, s: Service, step: Step, j: Id, owner: string, until: Instant)
    requires ServiceInv(c, s) && LeasedTo(s.db, j, owner, until) && FourDigitYear(until) && Spares(step, owner, until)
    ensures LeasedTo(Exec(c, s, step).db, j, owner, until)
  {
    hide Exec, ServiceInv, TextLessEq, FourDigitYear, QueuedBefore, Backoff;
    RowMoves(c, s, step, j);
    if step.StartWorker? { TextTestErrsBelowOneSecond(until, step.now); }
  }

  lemma {:induction false} RunSpares(c: Config, s: Service, steps: seq<Step>, j: Id, owner: string, until: Instant)
    requires ServiceInv(c, s) && LeasedTo(s.db, j, owner, until) && FourDigitYear(until)
    requires forall i | 0 <= i < |steps| :: Spares(steps[i], owner, until)
    ensures LeasedTo(Run(c, s, steps).db, j, owner, until)
    decreases |steps|
  {
    hide Exec, ServiceInv, Spares, LeasedTo, FourDigitYear;
    if steps != [] {
      StepSpares(c, s, steps[0], j, owner, until);
      ExecKeeps(c, s, steps[0]);
      RunSpares(c, Exec(c, s, steps[0]), steps[1..], j, owner, until);
    }
  }

  lemma TakenIsLeased(c: Config, s: Service, owner: string, jobId: Id, now: Instant)
    requires Exec(c, s, TakeJob(owner, jobId, now)) != s
    ensures LeasedTo(Exec(c, s, TakeJob(owner, jobId, now)).db, jobId, owner, now + c.lease)
  {
    hide Due, QueuedBefore;
  }

  /** A lease protects its job: until its owner reports, or a worker starts in
      the last second of the lease or later, no run takes the job away, not even
      after a crash of the owner. */
  lemma LeaseProtects(c: Config, s: Service, owner: string, jobId: Id, now: Instant, steps: seq<Step>)
    requires Reachable(c, s) && Exec(c, s, TakeJob(owner, jobId, now)) != s && FourDigitYear(now + c.lease)
    requires forall i | 0 <= i < |steps| :: Spares(steps[i], owner, now + c.lease)
    ensures LeasedTo(Run(c, Exec(c, s, TakeJob(owner, jobId, now)), steps).db, jobId, owner, now + c.lease)
  {
    hide ServiceInv, Reachable, Spares, Advances, FourDigitYear, Run, Exec, LeasedTo, Inv;
    TakenIsLeased(c, s, owner, jobId, now);
    var taken := Exec(c, s, TakeJob(owner, jobId, now));
    OneStep(c, s, TakeJob(owner, jobId, now));
    ReachableOk(c, taken);
    RunSpares(c, taken, steps, jobId, owner, now + c.lease);
  }
}
