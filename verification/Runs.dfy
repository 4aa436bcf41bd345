/** The service as one state machine: requests, deliveries, workers, crashes and
    recoveries interleave; each step is one committed transaction. */
module Runs {
  import opened Timestamps
  import opened Domain
  import opened Workflow
  import opened Invariants

  /** limitMinor, maxAttempts and the lease duration. */
  datatype Config = Config(limit: int, maxAttempts: int, lease: nat)

  /** What a live worker is doing; `snapshot` is the job row as it claimed it. */
  datatype Task = Idle | Working(jobId: Id, snapshot: Job) | Reporting(jobId: Id, snapshot: Job, succeeded: bool)

  /** `recoveries` counts, for the statements below only, how often a job's
      lease was taken back. */
  datatype Service = Service(db: Database, workers: map<string, Task>, recoveries: map<Id, nat>)

  /** Whether the handler runs undisturbed, fails before its effect, or has its
      effect but reports an error. */
  datatype Handling = Undisturbed | FailsBefore | FailsAfter

  datatype Step =
    | SubmitCase(actor: Principal, input: SubmitInput, key: string, now: Instant, newCaseId: Id)
    | ReviewCase(actor: Principal, caseId: Id, expected: int)
    | DispatchCase(actor: Principal, caseId: Id, requestKey: string, expected: int, requests: seq<Request>, now: Instant)
    | Deliver(inquiryId: Id, delivery: ResultInput, newAccountIds: seq<Id>)
    | ClaimAccounts(actor: Principal, caseId: Id, accountIds: seq<Id>, newClaimId: Id)
    | ApproveClaim(actor: Principal, claimId: Id, payoutKey: string, expected: int, newPayoutId: Id, newJobId: Id, now: Instant)
    | Confirm(payoutId: Id, providerRef: string)
    | StartWorker(owner: string, now: Instant)
    | TakeJob(owner: string, jobId: Id, now: Instant)
    | Handle(owner: string, handling: Handling)
    | Report(owner: string, now: Instant, lost: bool)
    | Crash(owner: string)

  function Initial(): Service { Service(EmptyDatabase(), map[], map[]) }

  /** The database after a transaction, rolled back or not. */
  function After<T>(d: Database, o: Outcome<T>): Database {
    match o
    case Committed(d1, _) => d1
    case RolledBack(_) => d
  }

  function Recoveries(s: Service, j: Id): nat {
    if j in s.recoveries then s.recoveries[j] else 0
  }

  function Pow2(n: nat): nat { if n == 0 then 1 else 2 * Pow2(n - 1) }

  /** The delay processOne asks for after attempt number `attempts`. */
  function Backoff(attempts: int): nat
    requires attempts >= 0
  {
    Pow2(if attempts < 6 then attempts else 6) * SECOND
  }

  function TakenBack(s: Service, now: Instant): map<Id, nat> {
    map j | j in s.db.jobs :: Recoveries(s, j) + if LeaseExpired(s.db.jobs[j], now) then 1 else 0
  }

  ghost function RunTask(s: Service, owner: string, handling: Handling): Service
    requires owner in s.workers && s.workers[owner].Working?
  {
    var w := s.workers[owner];
    var o := RunHandler(s.db, w.jobId, w.snapshot);
    var done := handling != FailsBefore && o.Committed?;
    s.(db := if done then o.database else s.db,
       workers := s.workers[owner := Reporting(w.jobId, w.snapshot, done && handling == Undisturbed)])
  }

  function ReportOutcome(s: Service, owner: string, now: Instant): Outcome<()>
    requires owner in s.workers && s.workers[owner].Reporting?
  {
    var w := s.workers[owner];
    if w.succeeded then CompleteJob(s.db, w.jobId, owner)
    else FailJob(s.db, w.jobId, w.snapshot, owner, now,
                 now + Backoff(if w.snapshot.attempts >= 0 then w.snapshot.attempts else 0))
  }

  /** A step that is not possible leaves the service as it is.  Owner names of
      live workers are distinct. */
  ghost function Exec(c: Config, s: Service, step: Step): Service {
    match step
    case SubmitCase(actor, input, key, now, id) => s.(db := After(s.db, Submit(s.db, actor, input, key, now, id)))
    case ReviewCase(actor, id, expected) => s.(db := After(s.db, StartReview(s.db, actor, id, expected)))
    case DispatchCase(actor, id, requestKey, expected, rs, now) =>
      s.(db := After(s.db, Dispatch(s.db, actor, id, requestKey, expected, rs, c.maxAttempts, now)))
    case Deliver(id, delivery, ids) => s.(db := After(s.db, RecordResult(s.db, id, delivery, ids)))
    case ClaimAccounts(actor, id, accountIds, claimId) =>
      s.(db := After(s.db, CreateClaim(s.db, actor, id, accountIds, claimId, c.limit)))
    case ApproveClaim(actor, id, payoutKey, expected, payoutId, jobId, now) =>
      s.(db := After(s.db, Approve(s.db, actor, id, payoutKey, expected, payoutId, jobId, c.maxAttempts, now)))
    case Confirm(id, providerRef) => s.(db := After(s.db, ConfirmPayout(s.db, id, providerRef)))
    case StartWorker(owner, now) =>
      if owner in s.workers then s
      else Service(RecoverExpiredJobs(s.db, now), s.workers[owner := Idle], TakenBack(s, now))
    case TakeJob(owner, id, now) =>
      if owner in s.workers && s.workers[owner].Idle? && NextDue(s.db.jobs, id, now) then
        var job := Leased(s.db.jobs[id], owner, now + c.lease);
        s.(db := s.db.(jobs := s.db.jobs[id := job]), workers := s.workers[owner := Working(id, job)])
      else s
    case Handle(owner, handling) =>
      if owner in s.workers && s.workers[owner].Working? then RunTask(s, owner, handling) else s
    case Report(owner, now, lost) =>
      if owner in s.workers && s.workers[owner].Reporting? then
        s.(db := if lost then s.db else After(s.db, ReportOutcome(s, owner, now)), workers := s.workers[owner := Idle])
      else s
    case Crash(owner) => s.(workers := s.workers - {owner})
  }

  ghost function Run(c: Config, s: Service, steps: seq<Step>): Service
    decreases |steps|
  {
    if steps == [] then s else Run(c, Exec(c, s, steps[0]), steps[1..])
  }

  lemma {:induction false} RunAppend(c: Config, s: Service, xs: seq<Step>, ys: seq<Step>)
    ensures Run(c, s, xs + ys) == Run(c, Run(c, s, xs), ys)
    decreases |xs|
  {
    if xs == [] {
      assert xs + ys == ys;
    } else {
      assert (xs + ys)[0] == xs[0] && (xs + ys)[1..] == xs[1..] + ys;
      RunAppend(c, Exec(c, s, xs[0]), xs[1..], ys);
    }
  }

  // ------------------------------------------------- workers and leases

  /** A busy worker's snapshot agrees with the row, apart from what later
      claims changed; while it holds the lease, the attempts agree too. */
  ghost predicate SnapshotOk(s: Service, owner: string, jobId: Id, snapshot: Job) {
    && jobId in s.db.jobs
    && s.db.jobs[jobId].kind == snapshot.kind && s.db.jobs[jobId].resourceId == snapshot.resourceId
    && s.db.jobs[jobId].maxAttempts == snapshot.maxAttempts
    && 1 <= snapshot.attempts <= s.db.jobs[jobId].attempts
    && (HoldsLease(s.db, jobId, owner) ==> s.db.jobs[jobId].attempts == snapshot.attempts)
  }

  ghost predicate TaskOk(s: Service, owner: string, w: Task) {
    match w
    case Idle => true
    case Working(jobId, snapshot) => SnapshotOk(s, owner, jobId, snapshot)
    case Reporting(jobId, snapshot, succeeded) =>
      && SnapshotOk(s, owner, jobId, snapshot)
      && (succeeded ==> EffectDone(jobId, snapshot, s.db.inquiries, s.db.payouts))
  }

  ghost predicate WorkersOk(s: Service) {
    forall w | w in s.workers :: TaskOk(s, w, s.workers[w])
  }

  /** The retry bound, with room for one more attempt while pending. */
  predicate AttemptsOk(job: Job, recoveries: nat) {
    match job.status
    case JobPending => 0 <= job.attempts < job.maxAttempts + recoveries
    case JobRunning => 1 <= job.attempts <= job.maxAttempts + recoveries && job.leaseUntil.Some?
    case JobCompleted => 1 <= job.attempts <= job.maxAttempts + recoveries
    case JobFailed => job.maxAttempts <= job.attempts <= job.maxAttempts + recoveries
  }

  ghost predicate RetriesBounded(s: Service) {
    forall j | j in s.db.jobs :: AttemptsOk(s.db.jobs[j], Recoveries(s, j))
  }

  ghost predicate ServiceInv(c: Config, s: Service) {
    Inv(s.db, c.limit) && WorkersOk(s) && RetriesBounded(s)
  }
}
