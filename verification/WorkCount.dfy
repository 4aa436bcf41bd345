/** The bound on a case's work is exact: every step that changes the case does
    one unit of work, and complete runs reach the bound. */
module WorkCount {
  import opened Timestamps
  import opened Domain
  import opened Sums
  import opened Workflow
  import opened Invariants
  import opened Progress
  import opened Runs
  import opened StepSafety
  import opened Transitions
  import opened DeliveryOrder
  import opened WorkBound

  // ------------------------------------------------- one row at a time

  /** Old rows stay, apart from one. */
  ghost predicate OnlyMoves<V>(x: map<Id, V>, y: map<Id, V>, k: Id) {
    forall j | j in x && j != k :: j in y && y[j] == x[j]
  }

  lemma InquiryBump(d: Database, e: Database, caseId: Id, k: Id)
    requires InquiriesFollow(d.inquiries, e.inquiries) && InquiriesAdvance(d.inquiries, e.inquiries)
    requires OnlyMoves(d.inquiries, e.inquiries, k)
    ensures Sum(InquiryWorks(InquiriesOf(e, caseId))) <= Sum(InquiryWorks(InquiriesOf(d, caseId))) + 1
  {
    hide Sum;
    SumOneMore(InquiryWorks(InquiriesOf(d, caseId)), InquiryWorks(InquiriesOf(e, caseId)), k);
  }

  lemma ClaimBump(d: Database, e: Database, caseId: Id, k: Id)
    requires ClaimsFollow(d.claims, e.claims) && ClaimsAdvance(d.claims, e.claims) && OnlyMoves(d.claims, e.claims, k)
    ensures Sum(ClaimWorks(ClaimsOf(e, caseId))) <= Sum(ClaimWorks(ClaimsOf(d, caseId))) + 1
  {
    hide Sum, Reaches;
    SumOneMore(ClaimWorks(ClaimsOf(d, caseId)), ClaimWorks(ClaimsOf(e, caseId)), k);
  }

  lemma PayoutRowsBump(before: map<Id, Payout>, after: map<Id, Payout>, x: map<Id, Payout>, y: map<Id, Payout>, k: Id)
    requires PayoutsFollow(before, after) && OnlyMoves(before, after, k) && x.Keys <= y.Keys
    requires forall p | p in x :: p in before && x[p] == before[p]
    requires forall p | p in y :: p in after && y[p] == after[p] && (p in before ==> p in x)
    ensures Sum(PayoutWorks(y)) <= Sum(PayoutWorks(x)) + 1
  {
    hide Sum;
    SumOneMore(PayoutWorks(x), PayoutWorks(y), k);
  }

  lemma PayoutBump(d: Database, e: Database, caseId: Id, k: Id)
    requires PayoutsFollow(d.payouts, e.payouts) && PayoutsAdvance(d.payouts, e.payouts) && ClaimsAdvance(d.claims, e.claims)
    requires PayoutsOk(d.payouts, d.claims) && PayoutsOk(e.payouts, e.claims) && OnlyMoves(d.payouts, e.payouts, k)
    ensures Sum(PayoutWorks(PayoutsOf(e, caseId))) <= Sum(PayoutWorks(PayoutsOf(d, caseId))) + 1
  {
    PayoutsGrow(d, e, caseId);
    hide Sum, PayoutsOk, PayoutsAdvance, ClaimsAdvance, PayoutsFollow, OnlyMoves, PayoutWorks, PaysFor;
    PayoutRowsBump(d.payouts, e.payouts, PayoutsOf(d, caseId), PayoutsOf(e, caseId), k);
  }

  ghost predicate OldRowsStay<V>(x: map<Id, V>, y: map<Id, V>) { forall j | j in x :: j in y && y[j] == x[j] }

  /** Claims change from approved to paid only. */
  ghost predicate OnlyPays(x: map<Id, Claim>, y: map<Id, Claim>) {
    x.Keys == y.Keys && forall k | k in x :: y[k] == x[k] || PaidBetween(x, y, k)
  }

  /** Which table a step changes, in old rows: cases; one inquiry; one claim; or
      one payout, with the claim it pays. */
  ghost predicate OneTable(d: Database, e: Database, k: Id) {
    || (OnlyMoves(d.inquiries, e.inquiries, k) && CasesSettle(d.cases, e.cases) && e.claims == d.claims && e.payouts == d.payouts)
    || (e.cases == d.cases && e.inquiries == d.inquiries && OnlyMoves(d.claims, e.claims, k) && OldRowsStay(d.payouts, e.payouts)
        && ClaimsFollow(d.claims, e.claims))
    || (e.cases == d.cases && e.inquiries == d.inquiries && OnlyPays(d.claims, e.claims) && OnlyMoves(d.payouts, e.payouts, k))
    || (OldRowsStay(d.inquiries, e.inquiries) && OldRowsStay(d.claims, e.claims) && OldRowsStay(d.payouts, e.payouts)
        && ClaimsFollow(d.claims, e.claims))
  }

  /** The row a step may change. */
  function Target(s: Service, step: Step): Id {
    match step
    case Deliver(id, _, _) => id
    case ApproveClaim(_, id, _, _, _, _, _) => id
    case Confirm(id, _) => id
    case Handle(owner, _) => if owner in s.workers && s.workers[owner].Working? then s.workers[owner].snapshot.resourceId else ""
    case _ => ""
  }

  lemma DeliverOne(d: Database, id: Id, input: ResultInput, ids: seq<Id>)
    ensures var e := After(d, RecordResult(d, id, input, ids));
            OnlyMoves(d.inquiries, e.inquiries, id) && e.claims == d.claims && e.payouts == d.payouts
  {
    hide UpsertAll, AfterResult, ValidInput, PartsOf, NextPart;
  }

  lemma DeliverMoves(d: Database, id: Id, input: ResultInput, ids: seq<Id>)
    ensures OneTable(d, After(d, RecordResult(d, id, input, ids)), id)
  {
    hide CasesSettle;
    DeliverSettles(d, id, input, ids);
    DeliverOne(d, id, input, ids);
  }

  lemma ApproveMoves(d: Database, actor: Principal, claimId: Id, payoutKey: string, expected: int, payoutId: Id, jobId: Id,
                     maxAttempts: int, now: Instant)
    ensures OneTable(d, After(d, Approve(d, actor, claimId, payoutKey, expected, payoutId, jobId, maxAttempts, now)), claimId)
  {
    hide ClaimsFollow, CasesSettle, Reserve, Reservable, CanInsertJob;
    ApproveFollows(d, actor, claimId, payoutKey, expected, payoutId, jobId, maxAttempts, now);
  }

  lemma ConfirmMoves(d: Database, payoutId: Id, providerRef: string)
    requires payoutId in d.payouts ==> PayoutOk(d.payouts[payoutId], d.claims)
    ensures OneTable(d, After(d, ConfirmPayout(d, payoutId, providerRef)), payoutId)
  {
    hide ClaimsFollow, CasesSettle;
  }

  lemma DispatchedMoves(d: Database, q: Id, reference: string)
    ensures OneTable(d, After(d, MarkDispatched(d, q, reference)), q)
  {
    hide ClaimsFollow, CasesSettle;
    SettlesSelf(d.cases);
  }

  lemma SubmittedMoves(d: Database, p: Id)
    ensures OneTable(d, After(d, MarkPayoutSubmitted(d, p)), p)
  {
    hide ClaimsFollow, CasesSettle;
  }

  lemma HandlerMoves(d: Database, id: Id, job: Job)
    ensures OneTable(d, After(d, RunHandler(d, id, job)), job.resourceId)
  {
    hide MarkDispatched, MarkPayoutSubmitted;
    match job.kind
    case DispatchInquiry => DispatchedMoves(d, job.resourceId, "outbox-" + id);
    case ExecutePayout => SubmittedMoves(d, job.resourceId);
  }

  lemma OldStay(d: Database, e: Database, k: Id)
    requires OldRowsStay(d.inquiries, e.inquiries) && OldRowsStay(d.claims, e.claims) && OldRowsStay(d.payouts, e.payouts)
    requires ClaimsFollow(d.claims, e.claims)
    ensures OneTable(d, e, k)
  {}

  lemma DispatchRows(d: Database, actor: Principal, caseId: Id, requestKey: string, expected: int, rs: seq<Request>,
                     maxAttempts: int, now: Instant)
    ensures var e := After(d, Dispatch(d, actor, caseId, requestKey, expected, rs, maxAttempts, now));
            OldRowsStay(d.inquiries, e.inquiries) && e.claims == d.claims && e.payouts == d.payouts
  {
    hide InsertRequests;
    if InsertRequests(d, caseId, requestKey, rs, maxAttempts, now).Committed? {
      RequestsInserted(d, caseId, requestKey, rs, maxAttempts, now);
    }
  }

  lemma CreateRows(d: Database, actor: Principal, caseId: Id, ids: seq<Id>, claimId: Id, limit: int)
    ensures var e := After(d, CreateClaim(d, actor, caseId, ids, claimId, limit));
            e.inquiries == d.inquiries && OldRowsStay(d.claims, e.claims) && e.payouts == d.payouts
  {
    hide Selected, Balances, AllEligible, Sum;
  }

  lemma RequestMoves(c: Config, s: Service, step: Step)
    requires step.SubmitCase? || step.ReviewCase? || step.DispatchCase? || step.ClaimAccounts?
    ensures OneTable(s.db, Exec(c, s, step).db, "")
  {
    hide OneTable, Follows, ClaimsFollow;
    StepFollows(c, s, step);
    match step {
      case SubmitCase(actor, input, key, now, id) => SubmitRows(s.db, actor, input, key, now, id);
      case ReviewCase(actor, id, expected) => ReviewRows(s.db, actor, id, expected);
      case DispatchCase(actor, id, requestKey, expected, rs, now) =>
        DispatchRows(s.db, actor, id, requestKey, expected, rs, c.maxAttempts, now);
      case ClaimAccounts(actor, id, ids, claimId) => CreateRows(s.db, actor, id, ids, claimId, c.limit);
    }
    hide Submit, StartReview, Dispatch, CreateClaim;
    OldStay(s.db, Exec(c, s, step).db, "");
  }

  /** Steps on the queue touch only the queue. */
  lemma QueueTables(c: Config, s: Service, step: Step)
    requires !IsRequest(step) && !step.Handle?
    ensures var e := Exec(c, s, step).db; e == s.db.(jobs := e.jobs)
  {
    hide NextDue, ReportOutcome, RecoverExpiredJobs, TakenBack;
    match step
    case Report(owner, now, _) => if owner in s.workers && s.workers[owner].Reporting? { ReportTables(s, owner, now); }
    case StartWorker(_, now) => RecoveryTables(s.db, now);
    case _ =>
  }

  lemma QueueMoves(d: Database, e: Database, k: Id)
    requires e == d.(jobs := e.jobs) && ClaimsFollow(d.claims, d.claims)
    ensures OneTable(d, e, k)
  {
    hide OneTable;
    OldStay(d, e, k);
  }

  lemma HandleMoves(c: Config, s: Service, step: Step)
    requires step.Handle?
    ensures OneTable(s.db, Exec(c, s, step).db, Target(s, step))
  {
    hide OneTable, RunHandler, ClaimsFollow;
    FollowSelf(s.db);
    QueueMoves(s.db, s.db, Target(s, step));
    if step.owner in s.workers && s.workers[step.owner].Working? {
      HandlerMoves(s.db, s.workers[step.owner].jobId, s.workers[step.owner].snapshot);
    }
  }

  lemma WorkerMoves(c: Config, s: Service, step: Step)
    requires !IsRequest(step)
    ensures OneTable(s.db, Exec(c, s, step).db, Target(s, step))
  {
    hide OneTable, ClaimsFollow, Exec;
    if step.Handle? {
      HandleMoves(c, s, step);
    } else {
      QueueTables(c, s, step);
      FollowSelf(s.db);
      QueueMoves(s.db, Exec(c, s, step).db, Target(s, step));
    }
  }

  lemma StepMoves(c: Config, s: Service, step: Step)
    requires ServiceInv(c, s)
    ensures OneTable(s.db, Exec(c, s, step).db, Target(s, step))
  {
    hide OneTable, Inv, WorkersOk, RetriesBounded, RecordResult, Approve, ConfirmPayout, PayoutOk;
    if !IsRequest(step) {
      WorkerMoves(c, s, step);
    } else {
      match step
      case Deliver(id, input, ids) => DeliverMoves(s.db, id, input, ids);
      case ApproveClaim(actor, id, payoutKey, expected, payoutId, jobId, now) =>
        ApproveMoves(s.db, actor, id, payoutKey, expected, payoutId, jobId, c.maxAttempts, now);
      case Confirm(id, providerRef) =>
        if id in s.db.payouts { InvPayout(s.db, id, c.limit); }
        ConfirmMoves(s.db, id, providerRef);
      case _ =>
        hide Exec;
        RequestMoves(c, s, step);
    }
  }

  // --------------------------------------------------- at most one unit of work

  /** What the bumps need to know of two databases one step apart. */
  ghost predicate OneStepApart(d: Database, e: Database) {
    && CasesFollow(d.cases, e.cases) && CasesOk(d.cases) && CasesOk(e.cases)
    && InquiriesFollow(d.inquiries, e.inquiries) && InquiriesAdvance(d.inquiries, e.inquiries)
    && ClaimsAdvance(d.claims, e.claims)
    && PayoutsFollow(d.payouts, e.payouts) && PayoutsAdvance(d.payouts, e.payouts)
    && PayoutsOk(d.payouts, d.claims) && PayoutsOk(e.payouts, e.claims)
  }

  lemma CaseBump(d: Database, e: Database, caseId: Id)
    requires CasesFollow(d.cases, e.cases) && CasesOk(d.cases) && CasesOk(e.cases) && caseId in d.cases
    ensures caseId in e.cases && CaseWork(e.cases[caseId].status) <= CaseWork(d.cases[caseId].status) + 1
    ensures CasesSettle(d.cases, e.cases) ==> CaseWork(e.cases[caseId].status) == CaseWork(d.cases[caseId].status)
  {}

  lemma PaidBump(d: Database, e: Database, caseId: Id)
    requires OnlyPays(d.claims, e.claims) && ClaimsAdvance(d.claims, e.claims)
    ensures Sum(ClaimWorks(ClaimsOf(e, caseId))) == Sum(ClaimWorks(ClaimsOf(d, caseId)))
  {
    hide Sum, Reaches;
    SumWithZeros(ClaimWorks(ClaimsOf(d, caseId)), ClaimWorks(ClaimsOf(e, caseId)));
  }

  lemma SameTables(d: Database, e: Database, caseId: Id)
    ensures d.inquiries == e.inquiries ==> InquiriesOf(d, caseId) == InquiriesOf(e, caseId)
    ensures d.claims == e.claims ==> ClaimsOf(d, caseId) == ClaimsOf(e, caseId)
    ensures d.claims == e.claims && d.payouts == e.payouts ==> PayoutsOf(d, caseId) == PayoutsOf(e, caseId)
    ensures forall k :: OldRowsStay(d.inquiries, e.inquiries) ==> OnlyMoves(d.inquiries, e.inquiries, k)
    ensures forall k :: OldRowsStay(d.claims, e.claims) ==> OnlyMoves(d.claims, e.claims, k)
    ensures forall k :: OldRowsStay(d.payouts, e.payouts) ==> OnlyMoves(d.payouts, e.payouts, k)
  {}

  lemma StillInquiries(d: Database, e: Database, caseId: Id)
    requires InquiriesFollow(d.inquiries, e.inquiries) && InquiriesAdvance(d.inquiries, e.inquiries) && OldRowsStay(d.inquiries, e.inquiries)
    ensures Sum(InquiryWorks(InquiriesOf(e, caseId))) == Sum(InquiryWorks(InquiriesOf(d, caseId)))
  {
    hide Sum;
    SumWithZeros(InquiryWorks(InquiriesOf(d, caseId)), InquiryWorks(InquiriesOf(e, caseId)));
  }

  lemma StillClaims(d: Database, e: Database, caseId: Id)
    requires ClaimsFollow(d.claims, e.claims) && OldRowsStay(d.claims, e.claims)
    ensures Sum(ClaimWorks(ClaimsOf(e, caseId))) == Sum(ClaimWorks(ClaimsOf(d, caseId)))
  {
    hide Sum;
    SumWithZeros(ClaimWorks(ClaimsOf(d, caseId)), ClaimWorks(ClaimsOf(e, caseId)));
  }

  lemma StillPayouts(d: Database, e: Database, caseId: Id)
    requires PayoutsFollow(d.payouts, e.payouts) && PayoutsAdvance(d.payouts, e.payouts) && ClaimsAdvance(d.claims, e.claims)
    requires PayoutsOk(d.payouts, d.claims) && PayoutsOk(e.payouts, e.claims) && OldRowsStay(d.payouts, e.payouts)
    ensures Sum(PayoutWorks(PayoutsOf(e, caseId))) == Sum(PayoutWorks(PayoutsOf(d, caseId)))
  {
    PayoutsGrow(d, e, caseId);
    hide Sum, PayoutsOk, PayoutsAdvance, ClaimsAdvance;
    SumWithZeros(PayoutWorks(PayoutsOf(d, caseId)), PayoutWorks(PayoutsOf(e, caseId)));
  }

  lemma AtMostOne(d: Database, e: Database, caseId: Id, k: Id)
    requires OneStepApart(d, e) && OneTable(d, e, k) && caseId in d.cases
    ensures caseId in e.cases && Work(RowsOf(e, caseId)) <= Work(RowsOf(d, caseId)) + 1
  {
    hide Sum, CasesFollow, InquiriesFollow, ClaimsFollow, PayoutsFollow, InquiriesAdvance, ClaimsAdvance, PayoutsAdvance, PayoutsOk, CasesOk,
      InquiriesOf, ClaimsOf, PayoutsOf, InquiryWorks, ClaimWorks, PayoutWorks, CasesSettle, OnlyMoves, OldRowsStay, OnlyPays, CaseWork;
    CaseBump(d, e, caseId);
    SameTables(d, e, caseId);
    if OnlyMoves(d.inquiries, e.inquiries, k) && CasesSettle(d.cases, e.cases) && e.claims == d.claims && e.payouts == d.payouts {
      InquiryBump(d, e, caseId, k);
    } else if e.cases == d.cases && e.inquiries == d.inquiries && OnlyMoves(d.claims, e.claims, k)
              && OldRowsStay(d.payouts, e.payouts) && ClaimsFollow(d.claims, e.claims) {
      ClaimBump(d, e, caseId, k);
      StillPayouts(d, e, caseId);
    } else if e.cases == d.cases && e.inquiries == d.inquiries && OnlyPays(d.claims, e.claims) && OnlyMoves(d.payouts, e.payouts, k) {
      PaidBump(d, e, caseId);
      PayoutBump(d, e, caseId, k);
    } else {
      StillInquiries(d, e, caseId);
      StillClaims(d, e, caseId);
      StillPayouts(d, e, caseId);
    }
  }

  // ------------------------------------------------------------- over a run

  lemma StepApart(c: Config, s: Service, step: Step)
    requires ServiceInv(c, s)
    ensures OneStepApart(s.db, Exec(c, s, step).db)
  {
    hide Exec, Inv, WorkersOk, RetriesBounded, CasesFollow, InquiriesFollow, ClaimsFollow, PayoutsFollow;
    hide CasesAdvance, InquiriesAdvance, ResultsAdvance, ClaimsAdvance, LinksAdvance, PayoutsAdvance, JobsAdvance, KeysAdvance,
      LedgersFrozen, CasesOk, PayoutsOk;
    StepFollows(c, s, step);
    ExecKeeps(c, s, step);
    InvTables(s.db, c.limit);
    InvTables(Exec(c, s, step).db, c.limit);
  }

  /** A step does exactly one unit of work on a case it changes, and none on any
      other. */
  lemma StepDoesOne(c: Config, s: Service, step: Step, caseId: Id)
    requires ServiceInv(c, s) && caseId in s.db.cases
    ensures var d, e := s.db, Exec(c, s, step).db;
            caseId in e.cases
            && Work(RowsOf(e, caseId)) == Work(RowsOf(d, caseId)) + if RowsOf(d, caseId) == RowsOf(e, caseId) then 0 else 1
  {
    hide Exec, ServiceInv, OneStepApart, OneTable, Work, RowsOf;
    StepWork(c, s, step, caseId);
    StepApart(c, s, step);
    StepMoves(c, s, step);
    AtMostOne(s.db, Exec(c, s, step).db, caseId, Target(s, step));
  }

  lemma {:induction false} RunCounts(c: Config, s: Service, steps: seq<Step>, caseId: Id)
    requires ServiceInv(c, s) && caseId in s.db.cases
    ensures var e := Run(c, s, steps).db;
            caseId in e.cases && Work(RowsOf(e, caseId)) == Work(RowsOf(s.db, caseId)) + Changes(c, s, steps, caseId)
    decreases |steps|
  {
    hide Exec, ServiceInv, RowsOf, Work, Advances;
    if steps != [] {
      StepDoesOne(c, s, steps[0], caseId);
      ExecKeeps(c, s, steps[0]);
      RunCounts(c, Exec(c, s, steps[0]), steps[1..], caseId);
    }
  }

  /** The versions count history: over every run, the steps that change the case
      are exactly the work its rows have gained. */
  lemma WorkIsCounted(c: Config, s: Service, steps: seq<Step>, caseId: Id)
    requires Reachable(c, s) && caseId in s.db.cases
    ensures caseId in Run(c, s, steps).db.cases
    ensures Changes(c, s, steps, caseId) == Work(RowsOf(Run(c, s, steps).db, caseId)) - Work(RowsOf(s.db, caseId))
  {
    hide Reachable, ServiceInv, Run, Changes, RowsOf, Work;
    ReachableOk(c, s);
    RunCounts(c, s, steps, caseId);
  }

  /** From submission on, over any run, at most 6 + n + (sum of expected parts)
      steps change a row of a case with n inquiries, whatever the number of
      requests, deliveries, retries and crashes. */
  lemma WorkIsBounded(c: Config, s: Service, steps: seq<Step>, caseId: Id)
    requires Reachable(c, s) && caseId in s.db.cases
    ensures var qs := InquiriesOf(Run(c, s, steps).db, caseId);
            Changes(c, s, steps, caseId) <= 6 + |qs| + Sum(ExpectedParts(qs))
  {
    hide Sum, Reachable, Changes, InquiriesOf, ExpectedParts, Run, Advances, RowsOf, Work, Inv, ServiceInv;
    WorkIsCounted(c, s, steps, caseId);
    ReachableOk(c, s);
    Onwards(c, s, steps);
    ReachableOk(c, Run(c, s, steps));
    WorkBounds(s.db, caseId, c.limit);
    WorkBounds(Run(c, s, steps).db, caseId, c.limit);
  }

  // ------------------------------------------------------ reaching the bound

  /** The case's claim has been paid, by a payout that was submitted first. */
  ghost predicate FullyPaid(d: Database, caseId: Id) {
    exists p :: PaysFor(d, p, caseId) && d.payouts[p].status == PayoutConfirmed && d.payouts[p].attempts == 2
  }

  lemma FreshWork(d: Database, caseId: Id)
    requires caseId in d.cases && d.cases[caseId].status == CaseSubmitted && BarrierAt(CaseSubmitted, d.inquiries, caseId)
    requires CasesClaimed(d.cases, d.claims)
    ensures Work(RowsOf(d, caseId)) == 0
  {
    hide Sum;
    assert InquiryWorks(InquiriesOf(d, caseId)) == map[];
    forall k | k in d.claims ensures d.claims[k].caseId != caseId { assert Claimed(d.cases, d.claims[k]); }
    assert ClaimWorks(ClaimsOf(d, caseId)) == map[] && PayoutWorks(PayoutsOf(d, caseId)) == map[];
    SumOfNothing(InquiryWorks(InquiriesOf(d, caseId)));
    SumOfNothing(ClaimWorks(ClaimsOf(d, caseId)));
    SumOfNothing(PayoutWorks(PayoutsOf(d, caseId)));
  }

  lemma FullInquiries(d: Database, caseId: Id)
    requires InquiriesOk(d.cases.Keys, d.inquiries, d.results) && Complete(d.inquiries, caseId)
    ensures var qs := InquiriesOf(d, caseId); Sum(InquiryWorks(qs)) == |qs| + Sum(ExpectedParts(qs))
  {
    hide Sum;
    var qs := InquiriesOf(d, caseId);
    forall q | q in qs ensures qs[q].version - 1 == qs[q].expectedParts + 1 {
      assert InquiryOk(d.inquiries[q], |PartsOf(d.results, q)|);
    }
    SumAddOne(ExpectedParts(qs), InquiryWorks(qs));
    assert ExpectedParts(qs).Keys == qs.Keys && |ExpectedParts(qs).Keys| == |qs.Keys|;
  }

  lemma PaidWork(d: Database, caseId: Id, p: Id)
    requires CasesClaimed(d.cases, d.claims) && PayoutsOk(d.payouts, d.claims)
    requires PaysFor(d, p, caseId) && d.payouts[p].status == PayoutConfirmed && d.payouts[p].attempts == 2
    ensures Sum(ClaimWorks(ClaimsOf(d, caseId))) >= 1 && Sum(PayoutWorks(PayoutsOf(d, caseId))) >= 2
    ensures caseId in d.cases && d.cases[caseId].status == CaseClaiming
  {
    hide Sum;
    var k := d.payouts[p].claimId;
    assert PayoutOk(d.payouts[p], d.claims) && Claimed(d.cases, d.claims[k]);
    forall q | q in d.payouts ensures 0 <= d.payouts[q].attempts { assert PayoutOk(d.payouts[q], d.claims); }
    var cs, ps := ClaimWorks(ClaimsOf(d, caseId)), PayoutWorks(PayoutsOf(d, caseId));
    SumLowerBound(cs, k);
    SumLowerBound(ps, p);
  }

  /** Less than the full work of a payout means it is not the case. */
  lemma UnpaidWork(d: Database, caseId: Id)
    requires CasesClaimed(d.cases, d.claims) && PayoutsOk(d.payouts, d.claims) && !FullyPaid(d, caseId)
    ensures Sum(PayoutWorks(PayoutsOf(d, caseId))) <= 1
  {
    hide Sum, Claimed;
    var ps := PayoutsOf(d, caseId);
    forall p | p in ps ensures ps[p].attempts <= 1 {
      assert PayoutOk(d.payouts[p], d.claims) && PaysFor(d, p, caseId);
    }
    SumOfOne(PayoutWorks(ps), 1);
  }

  lemma FullWork(d: Database, caseId: Id, limit: int)
    requires Inv(d, limit) && caseId in d.cases
    ensures var qs := InquiriesOf(d, caseId);
            Work(RowsOf(d, caseId)) == 6 + |qs| + Sum(ExpectedParts(qs)) <==> FullyPaid(d, caseId)
  {
    hide Sum, InquiryWorks, ClaimWorks, PayoutWorks, InquiriesOf, ClaimsOf, PayoutsOf, ExpectedParts, CasesOk, InquiriesOk, ClaimsOk,
      PayoutsOk, CasesClaimed, Inv, Complete, HasInquiry;
    InvTables(d, limit);
    InquiryWorkBound(d, caseId);
    ClaimWorkBound(d, caseId);
    PayoutWorkBound(d, caseId);
    if p :| PaysFor(d, p, caseId) && d.payouts[p].status == PayoutConfirmed && d.payouts[p].attempts == 2 {
      PaidWork(d, caseId, p);
      assert BarrierAt(d.cases[caseId].status, d.inquiries, caseId);
      FullInquiries(d, caseId);
    } else {
      UnpaidWork(d, caseId);
    }
  }

  lemma SubmittedBarrier(d: Database, caseId: Id)
    requires Barrier(d.cases, d.inquiries) && caseId in d.cases && d.cases[caseId].status == CaseSubmitted
    ensures BarrierAt(CaseSubmitted, d.inquiries, caseId)
  {}

  /** Of all runs from a submitted case, exactly those reach the bound that end
      with its claim paid by a payout submitted before. */
  lemma BoundReached(c: Config, s: Service, steps: seq<Step>, caseId: Id)
    requires Reachable(c, s) && caseId in s.db.cases && s.db.cases[caseId].status == CaseSubmitted
    ensures var e := Run(c, s, steps).db; var qs := InquiriesOf(e, caseId);
            Changes(c, s, steps, caseId) == 6 + |qs| + Sum(ExpectedParts(qs)) <==> FullyPaid(e, caseId)
  {
    hide Reachable, ServiceInv, Inv, Run, Changes, RowsOf, Work, Sum, InquiriesOf, ExpectedParts, FullyPaid, Barrier, CasesClaimed, Advances,
      BarrierAt;
    ReachableOk(c, s);
    InvTables(s.db, c.limit);
    SubmittedBarrier(s.db, caseId);
    FreshWork(s.db, caseId);
    WorkIsCounted(c, s, steps, caseId);
    Onwards(c, s, steps);
    ReachableOk(c, Run(c, s, steps));
    FullWork(Run(c, s, steps).db, caseId, c.limit);
  }
}
