/** Every step of the service keeps the invariant and only advances rows; hence
    every run does. */
module StepSafety {
  import opened Timestamps
  import opened Domain
  import opened Workflow
  import opened Invariants
  import opened Preservation
  import opened ClaimPreservation
  import opened Progress
  import opened Runs

  /** Jobs that exist stay; new ones are pending and untried. */
  ghost predicate JobsGrow(x: map<Id, Job>, y: map<Id, Job>) {
    && (forall j | j in x :: j in y && y[j] == x[j])
    && (forall j | j in y && j !in x :: y[j].status == JobPending && y[j].attempts == 0 && y[j].maxAttempts > 0)
  }

  /** A request does not disturb the workers. */
  lemma RequestKeepsWorkers(s: Service, e: Database)
    requires WorkersOk(s) && RetriesBounded(s) && JobsGrow(s.db.jobs, e.jobs)
    requires InquiriesAdvance(s.db.inquiries, e.inquiries) && PayoutsAdvance(s.db.payouts, e.payouts)
    ensures WorkersOk(s.(db := e)) && RetriesBounded(s.(db := e))
  {}

  /** One row of worker_jobs changes in place, keeping its identity. */
  lemma JobMoved(d: Database, id: Id, job: Job)
    requires JobsOk(d.jobs, d.inquiries, d.payouts) && JobsCover(d.jobs, d.inquiries.Keys, d.payouts.Keys)
    requires id in d.jobs && job.kind == d.jobs[id].kind && job.resourceId == d.jobs[id].resourceId
    requires job.maxAttempts == d.jobs[id].maxAttempts
    requires job.status == JobCompleted ==> EffectDone(id, job, d.inquiries, d.payouts)
    ensures JobsOk(d.jobs[id := job], d.inquiries, d.payouts)
    ensures JobsCover(d.jobs[id := job], d.inquiries.Keys, d.payouts.Keys)
  {
    var jobs := d.jobs[id := job];
    assert JobOk(id, d.jobs[id], d.inquiries, d.payouts);
    forall q | q in d.inquiries ensures HasJob(jobs, DispatchInquiry, q) { CoverKept(d.jobs, id, job, DispatchInquiry, q); }
    forall p | p in d.payouts ensures HasJob(jobs, ExecutePayout, p) { CoverKept(d.jobs, id, job, ExecutePayout, p); }
  }

  /** The invariant of the whole database when only worker_jobs changes. */
  lemma JobsReplaced(d: Database, jobs: map<Id, Job>, limit: int)
    requires Inv(d, limit)
    requires JobsOk(jobs, d.inquiries, d.payouts) && JobsCover(jobs, d.inquiries.Keys, d.payouts.Keys)
    ensures Inv(d.(jobs := jobs), limit)
  {}

  lemma JobsReplacedAdvances(d: Database, jobs: map<Id, Job>)
    requires JobsAdvance(d.jobs, jobs)
    ensures Advances(d, d.(jobs := jobs))
  {
    hide CasesAdvance, InquiriesAdvance, ResultsAdvance, ClaimsAdvance, LinksAdvance, PayoutsAdvance, JobsAdvance, KeysAdvance, LedgersFrozen;
    TablesAdvanceSelf(d);
  }

  /** The database part of a step that changes one job row. */
  lemma JobStep(d: Database, id: Id, job: Job, limit: int)
    requires Inv(d, limit) && id in d.jobs && job.kind == d.jobs[id].kind && job.resourceId == d.jobs[id].resourceId
    requires job.maxAttempts == d.jobs[id].maxAttempts && d.jobs[id].attempts <= job.attempts && !Terminal(d.jobs[id].status)
    requires job.status == JobCompleted ==> EffectDone(id, job, d.inquiries, d.payouts)
    ensures Inv(d.(jobs := d.jobs[id := job]), limit) && Advances(d, d.(jobs := d.jobs[id := job]))
  {
    hide JobsOk, JobsCover, EffectDone, Advances, CasesOk, Barrier, CasesClaimed, KeysOk, CaseTrails, ClaimTrails, InquiryTrails, PayoutsOk,
      InstitutionsDistinct, AccountsOk, AccountKeysUnique, ClaimsOk, ReservationsOk, MoneyConserved, InquiriesOk;
    JobMoved(d, id, job);
    JobsReplaced(d, d.jobs[id := job], limit);
    JobsReplacedAdvances(d, d.jobs[id := job]);
  }

  /** A job row that another worker's task does not depend on, or whose attempts
      went up, leaves that task in order. */
  lemma TasksKept(s: Service, s': Service, id: Id, job: Job, except: string)
    requires WorkersOk(s) && id in s.db.jobs && s'.db == s.db.(jobs := s.db.jobs[id := job])
    requires job.kind == s.db.jobs[id].kind && job.resourceId == s.db.jobs[id].resourceId
    requires job.maxAttempts == s.db.jobs[id].maxAttempts && job.attempts >= s.db.jobs[id].attempts
    requires job.status == JobRunning ==> job.leaseOwner == except
    requires forall w | w in s'.workers && w != except :: w in s.workers && s'.workers[w] == s.workers[w]
    ensures forall w | w in s'.workers && w != except :: TaskOk(s', w, s'.workers[w])
  {}

  lemma RetriesKept(s: Service, s': Service, id: Id, job: Job)
    requires RetriesBounded(s) && id in s.db.jobs && s'.db.jobs == s.db.jobs[id := job] && s'.recoveries == s.recoveries
    requires AttemptsOk(s.db.jobs[id], Recoveries(s, id)) ==> AttemptsOk(job, Recoveries(s, id))
    ensures RetriesBounded(s')
  {}

  // ------------------------------------------------------------- worker steps

  lemma PendingAttempts(s: Service, id: Id)
    requires RetriesBounded(s) && id in s.db.jobs && s.db.jobs[id].status == JobPending
    ensures s.db.jobs[id].attempts >= 0
  {}

  lemma TakeJobKeeps(c: Config, s: Service, owner: string, id: Id, now: Instant)
    requires ServiceInv(c, s) && owner in s.workers && s.workers[owner].Idle? && NextDue(s.db.jobs, id, now)
    ensures ServiceInv(c, Exec(c, s, TakeJob(owner, id, now))) && Advances(s.db, Exec(c, s, TakeJob(owner, id, now)).db)
  {
    hide Inv, Advances, QueuedBefore, RetriesBounded, TextLessEq;
    var s' := Exec(c, s, TakeJob(owner, id, now));
    var job := Leased(s.db.jobs[id], owner, now + c.lease);
    JobStep(s.db, id, job, c.limit);
    RetriesKept(s, s', id, job);
    assert s.db.jobs[id].attempts >= 0 by { PendingAttempts(s, id); }
    TasksKept(s, s', id, job, owner);
    assert WorkersOk(s');
  }

  lemma SameEffect(id: Id, a: Job, b: Job, d: Database)
    requires a.kind == b.kind && a.resourceId == b.resourceId
    ensures EffectDone(id, a, d.inquiries, d.payouts) == EffectDone(id, b, d.inquiries, d.payouts)
  {}

  lemma SameRetries(s: Service, s': Service)
    requires RetriesBounded(s) && s'.db.jobs == s.db.jobs && s'.recoveries == s.recoveries
    ensures RetriesBounded(s')
  {}

  lemma ReportKeeps(c: Config, s: Service, owner: string, now: Instant, lost: bool)
    requires ServiceInv(c, s) && owner in s.workers && s.workers[owner].Reporting?
    ensures ServiceInv(c, Exec(c, s, Report(owner, now, lost))) && Advances(s.db, Exec(c, s, Report(owner, now, lost)).db)
  {
    hide Inv, Advances, Backoff, RetriesBounded, EffectDone;
    var s' := Exec(c, s, Report(owner, now, lost));
    var w := s.workers[owner];
    assert TaskOk(s, owner, w);
    if lost || !HoldsLease(s.db, w.jobId, owner) {
      assert s'.db == s.db;
      AdvancesSelf(s.db);
      forall v | v in s'.workers ensures TaskOk(s', v, s'.workers[v]) { assert TaskOk(s, v, s.workers[v]); }
      assert RetriesBounded(s') by { SameRetries(s, s'); }
    } else {
      var job := s'.db.jobs[w.jobId];
      assert s'.db == s.db.(jobs := s.db.jobs[w.jobId := job]);
      assert EffectDone(w.jobId, w.snapshot, s.db.inquiries, s.db.payouts) ==> EffectDone(w.jobId, job, s.db.inquiries, s.db.payouts) by {
        SameEffect(w.jobId, w.snapshot, job, s.db);
      }
      JobStep(s.db, w.jobId, job, c.limit);
      RetriesKept(s, s', w.jobId, job);
      TasksKept(s, s', w.jobId, job, owner);
    }
  }

  lemma InvJobs(d: Database, limit: int)
    requires Inv(d, limit)
    ensures JobsOk(d.jobs, d.inquiries, d.payouts) && JobsCover(d.jobs, d.inquiries.Keys, d.payouts.Keys)
  {}

  lemma InvInquiries(d: Database, q: Id, limit: int)
    requires Inv(d, limit) && q in d.inquiries
    ensures InquiryOk(d.inquiries[q], |PartsOf(d.results, q)|)
  {}

  lemma DispatchHandlerKeeps(d: Database, id: Id, q: Id, limit: int)
    requires Inv(d, limit) && id in d.jobs && d.jobs[id].kind == DispatchInquiry && d.jobs[id].resourceId == q
    ensures MarkDispatched(d, q, "outbox-" + id).Committed?
    ensures var e := MarkDispatched(d, q, "outbox-" + id).database;
            && Inv(e, limit) && Advances(d, e) && e.jobs == d.jobs
            && q in e.inquiries && e.inquiries[q].status != InquiryPending && e.inquiries[q].externalRef == "outbox-" + id
  {
    hide Inv, Advances;
    InvJobs(d, limit);
    assert JobOk(id, d.jobs[id], d.inquiries, d.payouts);
    assert InquiryOk(d.inquiries[q], |PartsOf(d.results, q)|) by { InvInquiries(d, q, limit); }
    MarkDispatchedKeeps(d, q, id, limit);
    MarkDispatchedAdvances(d, q, "outbox-" + id);
  }

  lemma InvPayout(d: Database, p: Id, limit: int)
    requires Inv(d, limit) && p in d.payouts
    ensures PayoutOk(d.payouts[p], d.claims)
  {}

  lemma PayoutHandlerKeeps(d: Database, id: Id, p: Id, limit: int)
    requires Inv(d, limit) && id in d.jobs && d.jobs[id].kind == ExecutePayout && d.jobs[id].resourceId == p
    ensures MarkPayoutSubmitted(d, p).Committed?
    ensures var e := MarkPayoutSubmitted(d, p).database;
            Inv(e, limit) && Advances(d, e) && e.jobs == d.jobs && p in e.payouts && e.payouts[p].status != PayoutPending
  {
    hide Inv, Advances;
    InvJobs(d, limit);
    assert JobOk(id, d.jobs[id], d.inquiries, d.payouts);
    InvPayout(d, p, limit);
    MarkPayoutSubmittedKeeps(d, p, limit);
    MarkPayoutSubmittedAdvances(d, p);
  }

  /** A handler, run for the job it was registered for, never fails by itself:
      its transaction commits, keeps the database in order and has the effect. */
  lemma HandlerKeeps(d: Database, id: Id, job: Job, limit: int)
    requires Inv(d, limit) && id in d.jobs && d.jobs[id].kind == job.kind && d.jobs[id].resourceId == job.resourceId
    ensures RunHandler(d, id, job).Committed?
    ensures var e := RunHandler(d, id, job).database;
            && Inv(e, limit) && Advances(d, e) && e.jobs == d.jobs && EffectDone(id, job, e.inquiries, e.payouts)
  {
    hide Inv, Advances, MarkDispatched, MarkPayoutSubmitted;
    match job.kind
    case DispatchInquiry => DispatchHandlerKeeps(d, id, job.resourceId, limit);
    case ExecutePayout => PayoutHandlerKeeps(d, id, job.resourceId, limit);
  }

  lemma SameJobsGrow(jobs: map<Id, Job>)
    ensures JobsGrow(jobs, jobs)
  {}

  lemma TaskJob(s: Service, owner: string, w: Task)
    requires TaskOk(s, owner, w) && w.Working?
    ensures w.jobId in s.db.jobs && s.db.jobs[w.jobId].kind == w.snapshot.kind && s.db.jobs[w.jobId].resourceId == w.snapshot.resourceId
  {}

  lemma HandledWorkers(s: Service, s': Service, owner: string)
    requires owner in s.workers && s.workers[owner].Working? && WorkersOk(s.(db := s'.db))
    requires exists succeeded ::
               && s'.workers == s.workers[owner := Reporting(s.workers[owner].jobId, s.workers[owner].snapshot, succeeded)]
               && (succeeded ==> EffectDone(s.workers[owner].jobId, s.workers[owner].snapshot, s'.db.inquiries, s'.db.payouts))
    ensures WorkersOk(s')
  {
    hide EffectDone;
    forall v | v in s'.workers ensures TaskOk(s', v, s'.workers[v]) {
      assert TaskOk(s.(db := s'.db), v, s.workers[v]);
    }
  }

  lemma HandleKeeps(c: Config, s: Service, owner: string, handling: Handling)
    requires ServiceInv(c, s) && owner in s.workers && s.workers[owner].Working?
    ensures ServiceInv(c, Exec(c, s, Handle(owner, handling))) && Advances(s.db, Exec(c, s, Handle(owner, handling)).db)
  {
    hide Inv, RunHandler, TaskOk, RetriesBounded;
    hide CasesAdvance, ResultsAdvance, ClaimsAdvance, LinksAdvance, InquiriesAdvance, PayoutsAdvance, JobsAdvance, KeysAdvance, LedgersFrozen;
    var s' := Exec(c, s, Handle(owner, handling));
    var w := s.workers[owner];
    assert TaskOk(s, owner, w);
    TaskJob(s, owner, w);
    AdvancesSelf(s.db);
    HandlerKeeps(s.db, w.jobId, w.snapshot, c.limit);
    SameJobsGrow(s.db.jobs);
    RequestKeepsWorkers(s, s'.db);
    assert WorkersOk(s.(db := s'.db)) && RetriesBounded(s.(db := s'.db));
    HandledWorkers(s, s', owner);
    SameRetries(s.(db := s'.db), s');
  }

  lemma RecoveredJob(job: Job, now: Instant)
    ensures var r := Recovered(job, now);
            && r.kind == job.kind && r.resourceId == job.resourceId && r.maxAttempts == job.maxAttempts && r.attempts == job.attempts
            && (r != job ==> job.status == JobRunning && r.status == JobPending)
  {}

  lemma RecoveredJobOk(d: Database, now: Instant, j: Id)
    requires j in d.jobs && JobOk(j, d.jobs[j], d.inquiries, d.payouts)
    ensures JobOk(j, Recovered(d.jobs[j], now), d.inquiries, d.payouts)
  {
    hide Recovered, EffectDone;
    RecoveredJob(d.jobs[j], now);
  }

  lemma RecoveredAdvance(d: Database, now: Instant)
    ensures JobsAdvance(d.jobs, RecoverExpiredJobs(d, now).jobs)
  {
    hide Recovered;
    forall j | j in d.jobs { RecoveredJob(d.jobs[j], now); }
  }

  lemma RecoveredCover(d: Database, now: Instant, kind: JobKind, id: Id)
    requires HasJob(d.jobs, kind, id)
    ensures HasJob(RecoverExpiredJobs(d, now).jobs, kind, id)
  {
    hide TextLessEq;
    var jobs := RecoverExpiredJobs(d, now).jobs;
    var j :| j in d.jobs && d.jobs[j].kind == kind && d.jobs[j].resourceId == id;
    assert jobs[j].kind == kind && jobs[j].resourceId == id;
  }

  lemma RecoveredJobsOk(d: Database, now: Instant)
    requires JobsOk(d.jobs, d.inquiries, d.payouts) && JobsCover(d.jobs, d.inquiries.Keys, d.payouts.Keys)
    ensures var jobs := RecoverExpiredJobs(d, now).jobs;
            && JobsOk(jobs, d.inquiries, d.payouts) && JobsCover(jobs, d.inquiries.Keys, d.payouts.Keys) && JobsAdvance(d.jobs, jobs)
  {
    hide Recovered, JobOk, HasJob, JobsAdvance;
    var jobs := RecoverExpiredJobs(d, now).jobs;
    forall j | j in jobs ensures JobOk(j, jobs[j], d.inquiries, d.payouts) { RecoveredJobOk(d, now, j); }
    forall j | j in d.jobs ensures jobs[j].kind == d.jobs[j].kind && jobs[j].resourceId == d.jobs[j].resourceId {
      RecoveredJob(d.jobs[j], now);
    }
    RecoveredAdvance(d, now);
    forall q | q in d.inquiries ensures HasJob(jobs, DispatchInquiry, q) { RecoveredCover(d, now, DispatchInquiry, q); }
    forall p | p in d.payouts ensures HasJob(jobs, ExecutePayout, p) { RecoveredCover(d, now, ExecutePayout, p); }
  }

  lemma RecoveryKeepsJobs(d: Database, now: Instant, limit: int)
    requires Inv(d, limit)
    ensures Inv(RecoverExpiredJobs(d, now), limit) && Advances(d, RecoverExpiredJobs(d, now))
  {
    hide TextLessEq, Advances, CasesOk, Barrier, CasesClaimed, KeysOk, CaseTrails, ClaimTrails, InquiryTrails, PayoutsOk,
      InstitutionsDistinct, AccountsOk, AccountKeysUnique, ClaimsOk, ReservationsOk, MoneyConserved, InquiriesOk;
    var jobs := RecoverExpiredJobs(d, now).jobs;
    RecoveredJobsOk(d, now);
    JobsReplaced(d, jobs, limit);
    JobsReplacedAdvances(d, jobs);
  }

  lemma StartWorkerKeeps(c: Config, s: Service, owner: string, now: Instant)
    requires ServiceInv(c, s) && owner !in s.workers
    ensures ServiceInv(c, Exec(c, s, StartWorker(owner, now))) && Advances(s.db, Exec(c, s, StartWorker(owner, now)).db)
  {
    hide Inv, Advances, EffectDone, TextLessEq;
    var s' := Exec(c, s, StartWorker(owner, now));
    RecoveryKeepsJobs(s.db, now, c.limit);
    assert RetriesBounded(s') by {
      forall j | j in s'.db.jobs ensures AttemptsOk(s'.db.jobs[j], Recoveries(s', j)) {
        assert AttemptsOk(s.db.jobs[j], Recoveries(s, j));
      }
    }
    forall w | w in s'.workers ensures TaskOk(s', w, s'.workers[w]) {
      if w != owner { assert TaskOk(s, w, s.workers[w]); }
    }
  }

  lemma CrashKeeps(c: Config, s: Service, owner: string)
    requires ServiceInv(c, s)
    ensures ServiceInv(c, Exec(c, s, Crash(owner)))
  {
    hide Inv, EffectDone;
    var s' := Exec(c, s, Crash(owner));
    forall w | w in s'.workers ensures TaskOk(s', w, s'.workers[w]) { assert TaskOk(s, w, s.workers[w]); }
    assert RetriesBounded(s');
  }

  // ------------------------------------------------------------ request steps

  predicate IsRequest(step: Step) {
    step.SubmitCase? || step.ReviewCase? || step.DispatchCase? || step.Deliver? || step.ClaimAccounts?
    || step.ApproveClaim? || step.Confirm?
  }

  lemma CaseRequestKeeps(c: Config, s: Service, step: Step)
    requires Inv(s.db, c.limit) && (step.SubmitCase? || step.ReviewCase? || step.Deliver?)
    ensures var e := Exec(c, s, step).db;
            Inv(e, c.limit) && Advances(s.db, e) && e.jobs == s.db.jobs
  {
    hide Inv, Advances, UpsertAll, AfterResult, ValidInput, LiveKey;
    AdvancesSelf(s.db);
    match step
    case SubmitCase(actor, input, key, now, id) =>
      if Submit(s.db, actor, input, key, now, id).Committed? {
        SubmitKeeps(s.db, actor, input, key, now, id, c.limit);
        SubmitAdvances(s.db, actor, input, key, now, id);
      }
    case ReviewCase(actor, id, expected) =>
      if StartReview(s.db, actor, id, expected).Committed? {
        StartReviewKeeps(s.db, actor, id, expected, c.limit);
        StartReviewAdvances(s.db, actor, id, expected);
      }
    case Deliver(id, delivery, ids) =>
      if RecordResult(s.db, id, delivery, ids).Committed? {
        RecordResultKeeps(s.db, id, delivery, ids, c.limit);
        RecordResultAdvances(s.db, id, delivery, ids, c.limit);
      }
  }

  lemma InvPayouts(d: Database, limit: int)
    requires Inv(d, limit)
    ensures PayoutsOk(d.payouts, d.claims)
  {}

  lemma ClaimRequestKeeps(c: Config, s: Service, step: Step)
    requires Inv(s.db, c.limit) && (step.ClaimAccounts? || step.Confirm?)
    ensures var e := Exec(c, s, step).db;
            Inv(e, c.limit) && Advances(s.db, e) && e.jobs == s.db.jobs
  {
    hide Inv, Advances, AllEligible, Balances;
    AdvancesSelf(s.db);
    match step
    case ClaimAccounts(actor, id, accountIds, claimId) =>
      if CreateClaim(s.db, actor, id, accountIds, claimId, c.limit).Committed? {
        CreateClaimKeeps(s.db, actor, id, accountIds, claimId, c.limit);
        CreateClaimAdvances(s.db, actor, id, accountIds, claimId, c.limit);
      }
    case Confirm(id, providerRef) =>
      if ConfirmPayout(s.db, id, providerRef).Committed? {
        ConfirmPayoutKeeps(s.db, id, providerRef, c.limit);
        InvPayouts(s.db, c.limit);
        ConfirmPayoutAdvances(s.db, id, providerRef);
      }
  }

  lemma DispatchRequestKeeps(c: Config, s: Service, step: Step)
    requires Inv(s.db, c.limit) && step.DispatchCase?
    ensures var e := Exec(c, s, step).db;
            Inv(e, c.limit) && Advances(s.db, e) && JobsGrow(s.db.jobs, e.jobs)
  {
    hide Inv, Advances, InsertRequests;
    AdvancesSelf(s.db);
    var DispatchCase(actor, id, requestKey, expected, rs, now) := step;
    if Dispatch(s.db, actor, id, requestKey, expected, rs, c.maxAttempts, now).Committed? {
      DispatchKeeps(s.db, actor, id, requestKey, expected, rs, c.maxAttempts, now, c.limit);
      DispatchAdvances(s.db, actor, id, requestKey, expected, rs, c.maxAttempts, now);
      DispatchedJobs(s.db, id, requestKey, rs, c.maxAttempts, now);
    }
  }

  lemma ApproveRequestKeeps(c: Config, s: Service, step: Step)
    requires Inv(s.db, c.limit) && step.ApproveClaim?
    ensures var e := Exec(c, s, step).db;
            Inv(e, c.limit) && Advances(s.db, e) && JobsGrow(s.db.jobs, e.jobs)
  {
    hide Inv, Advances, Reserve, Reservable, CanInsertPayout;
    AdvancesSelf(s.db);
    var ApproveClaim(actor, id, payoutKey, expected, payoutId, jobId, now) := step;
    if Approve(s.db, actor, id, payoutKey, expected, payoutId, jobId, c.maxAttempts, now).Committed? {
      ApproveKeeps(s.db, actor, id, payoutKey, expected, payoutId, jobId, c.maxAttempts, now, c.limit);
      ApproveAdvances(s.db, actor, id, payoutKey, expected, payoutId, jobId, c.maxAttempts, now);
    }
  }

  lemma RequestKeeps(c: Config, s: Service, step: Step)
    requires ServiceInv(c, s) && IsRequest(step)
    ensures ServiceInv(c, Exec(c, s, step)) && Advances(s.db, Exec(c, s, step).db)
  {
    hide Inv, WorkersOk, RetriesBounded, Submit, StartReview, Dispatch, RecordResult, CreateClaim, Approve, ConfirmPayout;
    hide CasesAdvance, ResultsAdvance, ClaimsAdvance, LinksAdvance, InquiriesAdvance, PayoutsAdvance, JobsAdvance, KeysAdvance, LedgersFrozen;
    if step.DispatchCase? {
      DispatchRequestKeeps(c, s, step);
    } else if step.ApproveClaim? {
      ApproveRequestKeeps(c, s, step);
    } else if step.ClaimAccounts? || step.Confirm? {
      ClaimRequestKeeps(c, s, step);
    } else {
      CaseRequestKeeps(c, s, step);
    }
    RequestKeepsWorkers(s, Exec(c, s, step).db);
    assert Exec(c, s, step) == s.(db := Exec(c, s, step).db);
  }

  // --------------------------------------------------------------------- runs

  lemma WorkerStepKeeps(c: Config, s: Service, step: Step)
    requires ServiceInv(c, s) && !IsRequest(step)
    ensures ServiceInv(c, Exec(c, s, step)) && Advances(s.db, Exec(c, s, step).db)
  {
    hide ServiceInv, Advances, NextDue, RunTask, ReportOutcome;
    AdvancesSelf(s.db);
    match step
    case StartWorker(owner, now) => if owner !in s.workers { StartWorkerKeeps(c, s, owner, now); }
    case TakeJob(owner, id, now) =>
      if owner in s.workers && s.workers[owner].Idle? && NextDue(s.db.jobs, id, now) { TakeJobKeeps(c, s, owner, id, now); }
    case Handle(owner, handling) => if owner in s.workers && s.workers[owner].Working? { HandleKeeps(c, s, owner, handling); }
    case Report(owner, now, lost) => if owner in s.workers && s.workers[owner].Reporting? { ReportKeeps(c, s, owner, now, lost); }
    case Crash(owner) => CrashKeeps(c, s, owner);
  }

  lemma ExecKeeps(c: Config, s: Service, step: Step)
    requires ServiceInv(c, s)
    ensures ServiceInv(c, Exec(c, s, step)) && Advances(s.db, Exec(c, s, step).db)
  {
    if IsRequest(step) {
      RequestKeeps(c, s, step);
    } else {
      WorkerStepKeeps(c, s, step);
    }
  }

  lemma ServiceCases(c: Config, s: Service)
    requires ServiceInv(c, s)
    ensures CasesOk(s.db.cases)
  {}

  /** Every run keeps the invariant, and rows only advance along it. */
  lemma {:induction false} RunKeeps(c: Config, s: Service, steps: seq<Step>)
    requires ServiceInv(c, s)
    ensures ServiceInv(c, Run(c, s, steps)) && Advances(s.db, Run(c, s, steps).db)
    decreases |steps|
  {
    hide ServiceInv, Advances, Exec;
    if steps == [] {
      AdvancesSelf(s.db);
    } else {
      var next := Exec(c, s, steps[0]);
      ExecKeeps(c, s, steps[0]);
      RunKeeps(c, next, steps[1..]);
      ServiceCases(c, s);
      ServiceCases(c, next);
      AdvancesTwice(s.db, next.db, Run(c, s, steps).db);
    }
  }

  lemma InitialInv(c: Config)
    ensures ServiceInv(c, Initial())
  {}

  /** Every reachable state satisfies the invariant. */
  lemma ReachableInv(c: Config, steps: seq<Step>)
    ensures ServiceInv(c, Run(c, Initial(), steps))
  {
    InitialInv(c);
    RunKeeps(c, Initial(), steps);
  }

  ghost predicate Reachable(c: Config, s: Service) {
    exists steps :: Run(c, Initial(), steps) == s
  }

  lemma ReachableOk(c: Config, s: Service)
    requires Reachable(c, s)
    ensures ServiceInv(c, s) && Inv(s.db, c.limit)
  {
    var steps :| Run(c, Initial(), steps) == s;
    ReachableInv(c, steps);
  }

  lemma Onwards(c: Config, s: Service, steps: seq<Step>)
    requires Reachable(c, s)
    ensures Reachable(c, Run(c, s, steps)) && Advances(s.db, Run(c, s, steps).db)
  {
    var before :| Run(c, Initial(), before) == s;
    RunAppend(c, Initial(), before, steps);
    assert Run(c, Initial(), before + steps) == Run(c, s, steps);
    ReachableInv(c, before);
    RunKeeps(c, s, steps);
  }

  lemma OneStep(c: Config, s: Service, step: Step)
    requires Reachable(c, s)
    ensures Reachable(c, Exec(c, s, step)) && Advances(s.db, Exec(c, s, step).db)
  {
    hide Exec, Reachable, Advances;
    Onwards(c, s, [step]);
    assert Run(c, s, [step]) == Run(c, Exec(c, s, step), []);
  }
}
