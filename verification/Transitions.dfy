/** Which steps move which status: everything follows its table, apart from the
    confirmation of a payout. */
module Transitions {
  import opened Timestamps
  import opened Domain
  import opened Sums
  import opened Workflow
  import opened Invariants
  import opened Progress
  import opened Runs
  import opened StepSafety

  // ------------------------------------------------------------- the tables

  /** Where each status of a case can be entered from. */
  lemma CaseEntries(a: CaseStatus)
    ensures !a.CanTransition(CaseDraft)
    ensures a.CanTransition(CaseSubmitted) <==> a == CaseDraft
    ensures a.CanTransition(CaseReviewing) <==> a == CaseSubmitted
    ensures a.CanTransition(CaseInquiring) <==> a == CaseReviewing
    ensures a.CanTransition(CaseEligible) <==> a == CaseInquiring
    ensures a.CanTransition(CaseClaiming) <==> a == CaseEligible
    ensures a.CanTransition(CaseClosed) <==> a in {CaseEligible, CaseClaiming}
    ensures a.CanTransition(CaseRejected) <==> a in {CaseSubmitted, CaseReviewing, CaseInquiring}
  {}

  /** The same for an inquiry: only `partial` may be entered from itself. */
  lemma InquiryEntries(a: InquiryStatus)
    ensures !a.CanTransition(InquiryPending)
    ensures a.CanTransition(InquiryDispatched) <==> a == InquiryPending
    ensures a.CanTransition(InquiryPartial) <==> a in {InquiryDispatched, InquiryPartial}
    ensures a.CanTransition(InquiryCompleted) <==> a in {InquiryDispatched, InquiryPartial}
    ensures a.CanTransition(InquiryFailed) <==> a in {InquiryPending, InquiryDispatched, InquiryPartial}
  {}

  /** The same for a claim. */
  lemma ClaimEntries(a: ClaimStatus)
    ensures !a.CanTransition(ClaimDraft)
    ensures a.CanTransition(ClaimPending) <==> a == ClaimDraft
    ensures a.CanTransition(ClaimApproved) <==> a == ClaimPending
    ensures a.CanTransition(ClaimPaying) <==> a == ClaimApproved
    ensures a.CanTransition(ClaimPaid) <==> a == ClaimPaying
    ensures a.CanTransition(ClaimRejected) <==> a == ClaimPending
    ensures a.CanTransition(ClaimCancelled) <==> a in {ClaimDraft, ClaimPending, ClaimApproved}
  {}

  // ----------------------------------------------------- along the tables

  /** Rows stay or move along the table of their status; new ones start at its
      first persisted status. */
  ghost predicate CasesFollow(x: map<Id, EstateCase>, y: map<Id, EstateCase>) {
    && (forall k | k in x :: k in y && (y[k] == x[k] || (x[k].status.CanTransition(y[k].status) && y[k].version == x[k].version + 1)))
    && (forall k | k in y && k !in x :: y[k].status == CaseSubmitted && y[k].version == 1)
  }

  ghost predicate InquiriesFollow(x: map<Id, Inquiry>, y: map<Id, Inquiry>) {
    && (forall q | q in x :: q in y && (y[q] == x[q] || (x[q].status.CanTransition(y[q].status) && y[q].version == x[q].version + 1)))
    && (forall q | q in y && q !in x :: y[q].status == InquiryPending && y[q].version == 1)
  }

  ghost predicate ClaimsFollow(x: map<Id, Claim>, y: map<Id, Claim>) {
    && (forall k | k in x :: k in y && (y[k] == x[k] || (x[k].status.CanTransition(y[k].status) && y[k].version == x[k].version + 1)))
    && (forall k | k in y && k !in x :: y[k].status == ClaimPending && y[k].version == 1)
  }

  predicate PayoutFollows(a: Payout, b: Payout) {
    || b == a
    || (b.attempts == a.attempts + 1
        && ((a.status == PayoutPending && b.status == PayoutSubmitted)
            || (a.status in {PayoutPending, PayoutSubmitted} && b.status == PayoutConfirmed)))
  }

  ghost predicate PayoutsFollow(x: map<Id, Payout>, y: map<Id, Payout>) {
    && (forall p | p in x :: p in y && PayoutFollows(x[p], y[p]))
    && (forall p | p in y && p !in x :: y[p].status == PayoutPending && y[p].attempts == 0)
  }

  ghost predicate Follows(d: Database, e: Database) {
    CasesFollow(d.cases, e.cases) && InquiriesFollow(d.inquiries, e.inquiries) && PayoutsFollow(d.payouts, e.payouts)
  }

  lemma FollowSelf(d: Database)
    ensures Follows(d, d) && ClaimsFollow(d.claims, d.claims)
  {}

  lemma CaseFollows(x: map<Id, EstateCase>, k: Id, item: EstateCase)
    requires k in x && x[k].status.CanTransition(item.status) && item.version == x[k].version + 1
    ensures CasesFollow(x, x[k := item])
  {}

  lemma InquiryFollows(x: map<Id, Inquiry>, q: Id, item: Inquiry)
    requires q in x && x[q].status.CanTransition(item.status) && item.version == x[q].version + 1
    ensures InquiriesFollow(x, x[q := item])
  {}

  lemma PayoutMoveFollows(x: map<Id, Payout>, p: Id, row: Payout)
    requires p in x && PayoutFollows(x[p], row)
    ensures PayoutsFollow(x, x[p := row])
  {}

  // ------------------------------------------------------ every transaction

  lemma SubmitFollows(d: Database, actor: Principal, input: SubmitInput, key: string, now: Instant, id: Id)
    ensures var e := After(d, Submit(d, actor, input, key, now, id)); Follows(d, e) && e.claims == d.claims
  {
    hide LiveKey;
  }

  lemma ReviewFollows(d: Database, actor: Principal, id: Id, expected: int)
    ensures var e := After(d, StartReview(d, actor, id, expected)); Follows(d, e) && e.claims == d.claims
  {
    hide CasesFollow, InquiriesFollow, PayoutsFollow, ClaimsFollow;
    hide CaseStatus.CanTransition;
    FollowSelf(d);
    if id in d.cases && d.cases[id].status.CanTransition(CaseReviewing) {
      CaseFollows(d.cases, id, d.cases[id].Transition(CaseReviewing).value);
    }
  }

  lemma InsertedFollow(d: Database, caseId: Id, requestKey: string, rs: seq<Request>, maxAttempts: int, now: Instant)
    requires InsertRequests(d, caseId, requestKey, rs, maxAttempts, now).Committed?
    ensures var e := InsertRequests(d, caseId, requestKey, rs, maxAttempts, now).database;
            InquiriesFollow(d.inquiries, e.inquiries) && e == d.(inquiries := e.inquiries, jobs := e.jobs)
  {
    hide InsertRequests;
    RequestsInserted(d, caseId, requestKey, rs, maxAttempts, now);
    var e := InsertRequests(d, caseId, requestKey, rs, maxAttempts, now).database;
    forall q | q in e.inquiries && q !in d.inquiries ensures e.inquiries[q].status == InquiryPending && e.inquiries[q].version == 1 {
      var i :| 0 <= i < |rs| && rs[i].inquiryId == q;
      assert Inserted(e, caseId, requestKey, rs[i], maxAttempts, now);
    }
  }

  lemma DispatchFollows(d: Database, actor: Principal, caseId: Id, requestKey: string, expected: int, rs: seq<Request>,
                        maxAttempts: int, now: Instant)
    ensures var e := After(d, Dispatch(d, actor, caseId, requestKey, expected, rs, maxAttempts, now));
            Follows(d, e) && e.claims == d.claims
  {
    hide InsertRequests, CasesFollow, InquiriesFollow, PayoutsFollow, ClaimsFollow;
    FollowSelf(d);
    if InsertRequests(d, caseId, requestKey, rs, maxAttempts, now).Committed? {
      InsertedFollow(d, caseId, requestKey, rs, maxAttempts, now);
      if caseId in d.cases && d.cases[caseId].status.CanTransition(CaseInquiring) {
        CaseFollows(d.cases, caseId, d.cases[caseId].Transition(CaseInquiring).value);
      }
    }
  }

  lemma AfterResultFollows(cases: map<Id, EstateCase>, inquiries: map<Id, Inquiry>, caseId: Id)
    ensures var o := AfterResult(cases, inquiries, caseId); o.Ok? ==> CasesFollow(cases, o.value)
  {
    hide Complete;
  }

  lemma DeliverFollows(d: Database, id: Id, input: ResultInput, ids: seq<Id>)
    ensures var e := After(d, RecordResult(d, id, input, ids)); Follows(d, e) && e.claims == d.claims
  {
    hide UpsertAll, AfterResult, ValidInput, PartsOf, CasesFollow, InquiriesFollow, PayoutsFollow, ClaimsFollow;
    FollowSelf(d);
    if id in d.inquiries && NextPart(d.inquiries[id]).Ok? {
      var q := NextPart(d.inquiries[id]).value;
      InquiryFollows(d.inquiries, id, q);
      AfterResultFollows(d.cases, d.inquiries[id := q], q.caseId);
    }
  }

  lemma CreateFollows(d: Database, actor: Principal, caseId: Id, ids: seq<Id>, claimId: Id, limit: int)
    ensures var e := After(d, CreateClaim(d, actor, caseId, ids, claimId, limit)); Follows(d, e) && ClaimsFollow(d.claims, e.claims)
  {
    hide Selected, Balances, AllEligible, Sum;
  }

  lemma ApproveFollows(d: Database, actor: Principal, claimId: Id, payoutKey: string, expected: int, payoutId: Id, jobId: Id,
                       maxAttempts: int, now: Instant)
    ensures var e := After(d, Approve(d, actor, claimId, payoutKey, expected, payoutId, jobId, maxAttempts, now));
            Follows(d, e) && ClaimsFollow(d.claims, e.claims)
  {
    hide Reserve, Reservable, CanInsertJob;
  }

  lemma ConfirmFollows(d: Database, payoutId: Id, providerRef: string)
    ensures Follows(d, After(d, ConfirmPayout(d, payoutId, providerRef)))
  {
    hide MarkPaid;
  }

  lemma DispatchedFollows(d: Database, q: Id, reference: string)
    ensures var e := After(d, MarkDispatched(d, q, reference));
            Follows(d, e) && e.claims == d.claims && e.cases == d.cases
  {
    hide CasesFollow, InquiriesFollow, PayoutsFollow, ClaimsFollow;
    FollowSelf(d);
    if q in d.inquiries && d.inquiries[q].status.CanTransition(InquiryDispatched) {
      InquiryFollows(d.inquiries, q, d.inquiries[q].Transition(InquiryDispatched).value.(externalRef := reference));
    }
  }

  lemma SubmittedFollows(d: Database, p: Id)
    ensures var e := After(d, MarkPayoutSubmitted(d, p)); Follows(d, e) && e.claims == d.claims && e.cases == d.cases
  {
    hide CasesFollow, InquiriesFollow, PayoutsFollow, ClaimsFollow;
    FollowSelf(d);
    if p in d.payouts && d.payouts[p].status == PayoutPending {
      PayoutMoveFollows(d.payouts, p, d.payouts[p].(status := PayoutSubmitted, attempts := d.payouts[p].attempts + 1));
    }
  }

  lemma HandlerFollows(d: Database, id: Id, job: Job)
    ensures var e := After(d, RunHandler(d, id, job)); Follows(d, e) && e.claims == d.claims && e.cases == d.cases
  {
    hide MarkDispatched, MarkPayoutSubmitted;
    match job.kind
    case DispatchInquiry => DispatchedFollows(d, job.resourceId, "outbox-" + id);
    case ExecutePayout => SubmittedFollows(d, job.resourceId);
  }

  lemma SameFollows(d: Database, e: Database)
    requires e.cases == d.cases && e.inquiries == d.inquiries && e.payouts == d.payouts && e.claims == d.claims
    ensures Follows(d, e) && ClaimsFollow(d.claims, e.claims)
  {}

  lemma CompletionTables(d: Database, id: Id, owner: string)
    ensures var e := After(d, CompleteJob(d, id, owner)); e == d.(jobs := e.jobs)
  {}

  lemma FailureTables(d: Database, id: Id, snapshot: Job, owner: string, now: Instant, retryAt: Instant)
    ensures var e := After(d, FailJob(d, id, snapshot, owner, now, retryAt)); e == d.(jobs := e.jobs)
  {}

  lemma ReportTables(s: Service, owner: string, now: Instant)
    requires owner in s.workers && s.workers[owner].Reporting?
    ensures var e := After(s.db, ReportOutcome(s, owner, now)); e == s.db.(jobs := e.jobs)
  {
    hide CompleteJob, FailJob, Backoff;
    var w := s.workers[owner];
    CompletionTables(s.db, w.jobId, owner);
    FailureTables(s.db, w.jobId, w.snapshot, owner, now, now + Backoff(if w.snapshot.attempts >= 0 then w.snapshot.attempts else 0));
  }

  lemma RecoveryTables(d: Database, now: Instant)
    ensures RecoverExpiredJobs(d, now) == d.(jobs := RecoverExpiredJobs(d, now).jobs)
  {}

  lemma WorkerFollows(c: Config, s: Service, step: Step)
    requires !IsRequest(step)
    ensures var e := Exec(c, s, step).db; Follows(s.db, e) && e.claims == s.db.claims
  {
    hide Follows, ClaimsFollow, NextDue, Backoff, CompleteJob, FailJob, RunHandler, RecoverExpiredJobs;
    var e := Exec(c, s, step).db;
    SameFollows(s.db, s.db);
    match step
    case Handle(owner, handling) =>
      if owner in s.workers && s.workers[owner].Working? { HandlerFollows(s.db, s.workers[owner].jobId, s.workers[owner].snapshot); }
    case Report(owner, now, lost) =>
      if owner in s.workers && s.workers[owner].Reporting? {
        ReportTables(s, owner, now);
        SameFollows(s.db, e);
      }
    case StartWorker(owner, now) =>
      RecoveryTables(s.db, now);
      SameFollows(s.db, e);
    case TakeJob(_, _, _) => SameFollows(s.db, e);
    case Crash(_) => SameFollows(s.db, e);
  }

  /** Every step moves cases, inquiries and payouts along their tables, one
      version at a time; and claims too, unless it is a confirmation. */
  lemma StepFollows(c: Config, s: Service, step: Step)
    ensures Follows(s.db, Exec(c, s, step).db)
    ensures !step.Confirm? ==> ClaimsFollow(s.db.claims, Exec(c, s, step).db.claims)
  {
    hide Follows, Submit, StartReview, Dispatch, RecordResult, CreateClaim, Approve, ConfirmPayout;
    if IsRequest(step) {
      match step
      case SubmitCase(actor, input, key, now, id) => SubmitFollows(s.db, actor, input, key, now, id);
      case ReviewCase(actor, id, expected) => ReviewFollows(s.db, actor, id, expected);
      case DispatchCase(actor, id, requestKey, expected, rs, now) =>
        DispatchFollows(s.db, actor, id, requestKey, expected, rs, c.maxAttempts, now);
      case Deliver(id, input, ids) => DeliverFollows(s.db, id, input, ids);
      case ClaimAccounts(actor, id, ids, claimId) => CreateFollows(s.db, actor, id, ids, claimId, c.limit);
      case ApproveClaim(actor, id, payoutKey, expected, payoutId, jobId, now) =>
        ApproveFollows(s.db, actor, id, payoutKey, expected, payoutId, jobId, c.maxAttempts, now);
      case Confirm(id, providerRef) => ConfirmFollows(s.db, id, providerRef);
    } else {
      WorkerFollows(c, s, step);
    }
  }

  // ------------------------------------------------- leaving the claim table

  predicate LeavesTable(x: map<Id, Claim>, y: map<Id, Claim>, k: Id) {
    k in x && k in y && x[k].status != y[k].status && !x[k].status.CanTransition(y[k].status)
  }

  /** The step confirms a payout of the claim that is still open. */
  predicate ConfirmsOpen(d: Database, step: Step, k: Id) {
    && step.Confirm? && step.payoutId in d.payouts && d.payouts[step.payoutId].claimId == k
    && d.payouts[step.payoutId].status in {PayoutPending, PayoutSubmitted}
  }

  lemma ConfirmationLeaves(d: Database, payoutId: Id, providerRef: string, k: Id)
    requires k in d.claims && (payoutId in d.payouts ==> PayoutOk(d.payouts[payoutId], d.claims))
    ensures var e := After(d, ConfirmPayout(d, payoutId, providerRef));
            LeavesTable(d.claims, e.claims, k) <==> ConfirmsOpen(d, Confirm(payoutId, providerRef), k)
  {}

  lemma ConfirmationPays(d: Database, payoutId: Id, providerRef: string, k: Id)
    requires ConfirmsOpen(d, Confirm(payoutId, providerRef), k) ==> PayoutOk(d.payouts[payoutId], d.claims)
    ensures ConfirmsOpen(d, Confirm(payoutId, providerRef), k) ==>
              var e := After(d, ConfirmPayout(d, payoutId, providerRef));
              k in d.claims && d.claims[k].status == ClaimApproved && k in e.claims && e.claims[k].status == ClaimPaid
  {}

  lemma Stays(x: map<Id, Claim>, y: map<Id, Claim>, k: Id)
    requires ClaimsFollow(x, y) && k in x
    ensures !LeavesTable(x, y, k)
  {}

  /** Of all steps, exactly the confirmations of an open payout move its claim
      outside the table; they move it from approved to paid. */
  lemma OnlyConfirmationsLeaveTheTable(c: Config, s: Service, step: Step, k: Id)
    requires Reachable(c, s) && k in s.db.claims
    ensures LeavesTable(s.db.claims, Exec(c, s, step).db.claims, k) <==> ConfirmsOpen(s.db, step, k)
    ensures ConfirmsOpen(s.db, step, k) ==>
              s.db.claims[k].status == ClaimApproved && k in Exec(c, s, step).db.claims && Exec(c, s, step).db.claims[k].status == ClaimPaid
  {
    hide Reachable, ServiceInv, Inv, Follows, LeavesTable, ConfirmPayout;
    StepFollows(c, s, step);
    ReachableOk(c, s);
    if step.Confirm? {
      if step.payoutId in s.db.payouts { InvPayout(s.db, step.payoutId, c.limit); }
      ConfirmationLeaves(s.db, step.payoutId, step.providerRef, k);
      ConfirmationPays(s.db, step.payoutId, step.providerRef, k);
    } else {
      Stays(s.db.claims, Exec(c, s, step).db.claims, k);
    }
  }

  // ------------------------------------------------------ opening a case once

  predicate IsEligible(d: Database, k: Id) { k in d.cases && d.cases[k].status == CaseEligible }

  /** How many steps of the run make the case eligible. */
  ghost function Openings(c: Config, s: Service, steps: seq<Step>, k: Id): nat
    decreases |steps|
  {
    if steps == [] then 0
    else
      var next := Exec(c, s, steps[0]);
      (if !IsEligible(s.db, k) && IsEligible(next.db, k) then 1 else 0) + Openings(c, next, steps[1..], k)
  }

  predicate Opened(d: Database, k: Id) { k in d.cases && PastInquiring(d.cases[k].status) }

  lemma OpeningStep(d: Database, e: Database, k: Id)
    requires CasesFollow(d.cases, e.cases)
    ensures !IsEligible(d, k) && IsEligible(e, k) <==> !Opened(d, k) && Opened(e, k)
    ensures Opened(d, k) && CasesOk(d.cases) && CasesOk(e.cases) ==> Opened(e, k)
  {}

  lemma OpeningStepIn(c: Config, s: Service, step: Step, k: Id)
    requires ServiceInv(c, s)
    ensures var d, e := s.db, Exec(c, s, step).db;
            && (!IsEligible(d, k) && IsEligible(e, k) <==> !Opened(d, k) && Opened(e, k))
            && (Opened(d, k) ==> Opened(e, k))
  {
    hide ServiceInv, Exec, IsEligible, Opened, Advances, CasesFollow, InquiriesFollow, PayoutsFollow, ClaimsFollow;
    StepFollows(c, s, step);
    ExecKeeps(c, s, step);
    ServiceCases(c, s);
    ServiceCases(c, Exec(c, s, step));
    OpeningStep(s.db, Exec(c, s, step).db, k);
  }

  lemma {:induction false} OpeningsCounted(c: Config, s: Service, steps: seq<Step>, k: Id)
    requires ServiceInv(c, s)
    ensures Opened(s.db, k) ==> Opened(Run(c, s, steps).db, k)
    ensures Openings(c, s, steps, k) == if !Opened(s.db, k) && Opened(Run(c, s, steps).db, k) then 1 else 0
    decreases |steps|
  {
    hide ServiceInv, Exec, IsEligible, Opened, Advances;
    if steps != [] {
      OpeningStepIn(c, s, steps[0], k);
      ExecKeeps(c, s, steps[0]);
      OpeningsCounted(c, Exec(c, s, steps[0]), steps[1..], k);
    }
  }

  /** Over any run a case becomes eligible at most once: exactly once if the run
      takes it past `inquiring`, and else never. */
  lemma OpenedOnce(c: Config, s: Service, steps: seq<Step>, k: Id)
    requires Reachable(c, s)
    ensures Openings(c, s, steps, k) == if !Opened(s.db, k) && Opened(Run(c, s, steps).db, k) then 1 else 0
  {
    hide ServiceInv, Reachable, Openings, Run;
    ReachableOk(c, s);
    OpeningsCounted(c, s, steps, k);
  }

  // ----------------------------------------------- submitting a payout once

  predicate Submits(x: map<Id, Payout>, y: map<Id, Payout>, p: Id) {
    p in x && p in y && x[p].status == PayoutPending && y[p].status == PayoutSubmitted
  }

  /** How many steps of the run take payout `p` from pending to submitted. */
  ghost function Submissions(c: Config, s: Service, steps: seq<Step>, p: Id): nat
    decreases |steps|
  {
    if steps == [] then 0
    else
      var next := Exec(c, s, steps[0]);
      (if Submits(s.db.payouts, next.db.payouts, p) then 1 else 0) + Submissions(c, next, steps[1..], p)
  }

  /** A confirmed payout shows by its attempts whether it was submitted before. */
  predicate WasSubmitted(payouts: map<Id, Payout>, p: Id) {
    p in payouts && (payouts[p].status == PayoutSubmitted || (payouts[p].status == PayoutConfirmed && payouts[p].attempts == 2))
  }

  lemma SubmissionStep(d: Database, e: Database, p: Id)
    requires PayoutsFollow(d.payouts, e.payouts) && (p in d.payouts ==> PayoutOk(d.payouts[p], d.claims))
    ensures Submits(d.payouts, e.payouts, p) <==> !WasSubmitted(d.payouts, p) && WasSubmitted(e.payouts, p)
    ensures WasSubmitted(d.payouts, p) ==> WasSubmitted(e.payouts, p)
  {}

  lemma {:induction false} SubmissionsCounted(c: Config, s: Service, steps: seq<Step>, p: Id)
    requires ServiceInv(c, s)
    ensures var e := Run(c, s, steps).db;
            && (WasSubmitted(s.db.payouts, p) ==> WasSubmitted(e.payouts, p))
            && Submissions(c, s, steps, p) == if !WasSubmitted(s.db.payouts, p) && WasSubmitted(e.payouts, p) then 1 else 0
    decreases |steps|
  {
    hide Inv, WorkersOk, RetriesBounded, Exec, Submits, WasSubmitted, Advances, CasesFollow, InquiriesFollow, PayoutsFollow, ClaimsFollow,
      PayoutOk;
    if steps != [] {
      var next := Exec(c, s, steps[0]);
      StepFollows(c, s, steps[0]);
      ExecKeeps(c, s, steps[0]);
      if p in s.db.payouts { InvPayout(s.db, p, c.limit); }
      SubmissionStep(s.db, next.db, p);
      SubmissionsCounted(c, next, steps[1..], p);
    }
  }

  /** However often its job runs, a payout is submitted at most once, and exactly
      once if the run ends with it submitted, or confirmed after submission. */
  lemma SubmittedOnce(c: Config, s: Service, steps: seq<Step>, p: Id)
    requires Reachable(c, s)
    ensures Submissions(c, s, steps, p)
            == if !WasSubmitted(s.db.payouts, p) && WasSubmitted(Run(c, s, steps).db.payouts, p) then 1 else 0
  {
    hide ServiceInv, Reachable, Submissions, Run;
    ReachableOk(c, s);
    SubmissionsCounted(c, s, steps, p);
  }
}
