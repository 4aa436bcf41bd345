/** How much work a case can cause: its versions count its history, and so bound
    the number of steps that ever change it. */
module WorkBound {
  import opened Timestamps
  import opened Domain
  import opened Sums
  import opened Workflow
  import opened Invariants
  import opened Progress
  import opened Runs
  import opened StepSafety

  /** The workflow rows of one case. */
  datatype CaseRows = CaseRows(
    item: EstateCase, inquiries: map<Id, Inquiry>, claims: map<Id, Claim>, payouts: map<Id, Payout>)

  predicate PaysFor(d: Database, p: Id, caseId: Id) {
    p in d.payouts && d.payouts[p].claimId in d.claims && d.claims[d.payouts[p].claimId].caseId == caseId
  }

  function InquiriesOf(d: Database, caseId: Id): map<Id, Inquiry> {
    map q | q in d.inquiries && d.inquiries[q].caseId == caseId :: d.inquiries[q]
  }

  function ClaimsOf(d: Database, caseId: Id): map<Id, Claim> {
    map c | c in d.claims && d.claims[c].caseId == caseId :: d.claims[c]
  }

  function PayoutsOf(d: Database, caseId: Id): map<Id, Payout> {
    map p | p in d.payouts && PaysFor(d, p, caseId) :: d.payouts[p]
  }

  function RowsOf(d: Database, caseId: Id): CaseRows
    requires caseId in d.cases
  {
    CaseRows(d.cases[caseId], InquiriesOf(d, caseId), ClaimsOf(d, caseId), PayoutsOf(d, caseId))
  }

  // ---------------------------------------------------------------- work done

  /** Becoming eligible is part of recording the last result, and being paid
      part of confirming the payout; neither counts twice. */
  function CaseWork(s: CaseStatus): int {
    match s
    case CaseReviewing => 1
    case CaseInquiring => 2
    case CaseEligible => 2
    case CaseClaiming => 3
    case _ => 0
  }

  function ClaimWork(s: ClaimStatus): int { if s == ClaimPending then 0 else 1 }

  function InquiryWorks(qs: map<Id, Inquiry>): map<Id, int> { map q | q in qs :: qs[q].version - 1 }
  function ClaimWorks(cs: map<Id, Claim>): map<Id, int> { map c | c in cs :: ClaimWork(cs[c].status) }
  function PayoutWorks(ps: map<Id, Payout>): map<Id, int> { map p | p in ps :: ps[p].attempts }
  function ExpectedParts(qs: map<Id, Inquiry>): map<Id, int> { map q | q in qs :: qs[q].expectedParts }

  ghost function Work(r: CaseRows): int {
    CaseWork(r.item.status) + Sum(InquiryWorks(r.inquiries)) + Sum(ClaimWorks(r.claims)) + Sum(PayoutWorks(r.payouts))
  }

  // ------------------------------------------------ new rows move their parent

  predicate ChangesCase(x: map<Id, EstateCase>, y: map<Id, EstateCase>, c: Id) { c in x && c in y && x[c] != y[c] }

  /** New inquiries, claims and payouts come with a change of their case or claim. */
  ghost predicate NewInquiries(d: Database, e: Database) {
    forall q | q in e.inquiries && q !in d.inquiries && e.inquiries[q].caseId in d.cases ::
      ChangesCase(d.cases, e.cases, e.inquiries[q].caseId)
  }

  ghost predicate NewClaims(d: Database, e: Database) {
    forall c | c in e.claims && c !in d.claims && e.claims[c].caseId in d.cases ::
      ChangesCase(d.cases, e.cases, e.claims[c].caseId)
  }

  ghost predicate NewPayouts(d: Database, e: Database) {
    forall p | p in e.payouts && p !in d.payouts ::
      var c := e.payouts[p].claimId;
      c in d.claims && c in e.claims && d.claims[c] != e.claims[c]
  }

  ghost predicate NewRows(d: Database, e: Database) { NewInquiries(d, e) && NewClaims(d, e) && NewPayouts(d, e) }

  lemma DispatchNewRows(c: Config, s: Service, step: Step)
    requires step.DispatchCase?
    ensures NewRows(s.db, Exec(c, s, step).db)
  {
    hide InsertRequests;
    var DispatchCase(actor, id, requestKey, expected, rs, now) := step;
    if InsertRequests(s.db, id, requestKey, rs, c.maxAttempts, now).Committed? {
      RequestsInserted(s.db, id, requestKey, rs, c.maxAttempts, now);
      var d1 := InsertRequests(s.db, id, requestKey, rs, c.maxAttempts, now).database;
      forall q | q in d1.inquiries && q !in s.db.inquiries ensures d1.inquiries[q].caseId == id {
        var i :| 0 <= i < |rs| && rs[i].inquiryId == q;
        assert Inserted(d1, id, requestKey, rs[i], c.maxAttempts, now);
      }
    }
  }

  lemma ClaimNewRows(c: Config, s: Service, step: Step)
    requires step.ClaimAccounts? || step.ApproveClaim? || step.Confirm?
    ensures NewRows(s.db, Exec(c, s, step).db)
  {
    hide AllEligible, Balances, Selected, Reserve, Reservable, CanInsertPayout, CanInsertJob, Sum;
  }

  lemma SubmitRows(d: Database, actor: Principal, input: SubmitInput, key: string, now: Instant, id: Id)
    ensures var e := After(d, Submit(d, actor, input, key, now, id));
            e.inquiries == d.inquiries && e.claims == d.claims && e.payouts == d.payouts
  {
    hide LiveKey;
  }

  lemma ReviewRows(d: Database, actor: Principal, id: Id, expected: int)
    ensures var e := After(d, StartReview(d, actor, id, expected));
            e.inquiries == d.inquiries && e.claims == d.claims && e.payouts == d.payouts
  {}

  lemma DeliverRows(d: Database, id: Id, input: ResultInput, ids: seq<Id>)
    ensures var e := After(d, RecordResult(d, id, input, ids));
            e.inquiries.Keys == d.inquiries.Keys && e.claims == d.claims && e.payouts == d.payouts
  {
    hide UpsertAll, AfterResult, ValidInput, PartsOf;
  }

  /** Nothing new, nothing to show for it. */
  lemma SameRows(d: Database, e: Database)
    requires e.inquiries.Keys == d.inquiries.Keys && e.claims == d.claims && e.payouts.Keys == d.payouts.Keys
    ensures NewRows(d, e)
  {}

  lemma CaseNewRows(c: Config, s: Service, step: Step)
    requires step.SubmitCase? || step.ReviewCase? || step.Deliver?
    ensures NewRows(s.db, Exec(c, s, step).db)
  {
    hide NewRows, Submit, StartReview, RecordResult;
    match step {
      case SubmitCase(actor, input, key, now, id) => SubmitRows(s.db, actor, input, key, now, id);
      case ReviewCase(actor, id, expected) => ReviewRows(s.db, actor, id, expected);
      case Deliver(id, input, ids) => DeliverRows(s.db, id, input, ids);
    }
    SameRows(s.db, Exec(c, s, step).db);
  }

  lemma DispatchMarks(d: Database, q: Id, reference: string)
    ensures var e := After(d, MarkDispatched(d, q, reference));
            e.inquiries.Keys == d.inquiries.Keys && e == d.(inquiries := e.inquiries)
  {}

  lemma PayoutMarks(d: Database, p: Id)
    ensures var e := After(d, MarkPayoutSubmitted(d, p)); e.payouts.Keys == d.payouts.Keys && e == d.(payouts := e.payouts)
  {}

  lemma HandlerNewRows(d: Database, id: Id, job: Job)
    ensures NewRows(d, After(d, RunHandler(d, id, job)))
  {
    hide NewRows, MarkDispatched, MarkPayoutSubmitted;
    match job.kind
    case DispatchInquiry =>
      DispatchMarks(d, job.resourceId, "outbox-" + id);
      SameRows(d, After(d, MarkDispatched(d, job.resourceId, "outbox-" + id)));
    case ExecutePayout =>
      PayoutMarks(d, job.resourceId);
      SameRows(d, After(d, MarkPayoutSubmitted(d, job.resourceId)));
  }

  lemma ReportNewRows(s: Service, owner: string, now: Instant)
    requires owner in s.workers && s.workers[owner].Reporting?
    ensures NewRows(s.db, After(s.db, ReportOutcome(s, owner, now)))
  {}

  lemma WorkerNewRows(c: Config, s: Service, step: Step)
    requires !IsRequest(step)
    ensures NewRows(s.db, Exec(c, s, step).db)
  {
    hide NextDue, Backoff, CompleteJob, FailJob, RunHandler, NewRows;
    var e := Exec(c, s, step).db;
    SameRows(s.db, s.db);
    match step
    case Handle(owner, handling) =>
      if owner in s.workers && s.workers[owner].Working? { HandlerNewRows(s.db, s.workers[owner].jobId, s.workers[owner].snapshot); }
    case Report(owner, now, lost) =>
      if owner in s.workers && s.workers[owner].Reporting? { ReportNewRows(s, owner, now); }
    case _ => SameRows(s.db, e);
  }

  lemma StepNewRows(c: Config, s: Service, step: Step)
    ensures NewRows(s.db, Exec(c, s, step).db)
  {
    hide NewRows, Exec;
    if step.DispatchCase? {
      DispatchNewRows(c, s, step);
    } else if step.ClaimAccounts? || step.ApproveClaim? || step.Confirm? {
      ClaimNewRows(c, s, step);
    } else if IsRequest(step) {
      CaseNewRows(c, s, step);
    } else {
      WorkerNewRows(c, s, step);
    }
  }

  // -------------------------------------------------------- every step's work

  lemma CaseMoves(d: Database, e: Database, caseId: Id)
    requires CasesOk(d.cases) && CasesOk(e.cases) && CasesAdvance(d.cases, e.cases) && caseId in d.cases
    ensures caseId in e.cases && CaseWork(d.cases[caseId].status) <= CaseWork(e.cases[caseId].status)
    ensures d.cases[caseId] != e.cases[caseId] ==>
              CaseWork(d.cases[caseId].status) < CaseWork(e.cases[caseId].status)
              || (d.cases[caseId].status == CaseInquiring && e.cases[caseId].status == CaseEligible)
  {}

  lemma InquiriesGrow(d: Database, e: Database, caseId: Id)
    requires InquiriesAdvance(d.inquiries, e.inquiries) && InquiriesOk(e.cases.Keys, e.inquiries, e.results)
    ensures var x, y := InquiriesOf(d, caseId), InquiriesOf(e, caseId);
            && x.Keys <= y.Keys && (forall q | q in y :: 1 <= y[q].version)
            && (forall q | q in x :: x[q].version <= y[q].version && (x[q] != y[q] ==> x[q].version < y[q].version))
  {}

  /** Inquiries of the case only move on; a new one shows in the case row. */
  lemma InquiriesMove(d: Database, e: Database, caseId: Id)
    requires InquiriesAdvance(d.inquiries, e.inquiries) && NewInquiries(d, e) && caseId in d.cases && caseId in e.cases
    requires InquiriesOk(e.cases.Keys, e.inquiries, e.results)
    ensures Sum(InquiryWorks(InquiriesOf(d, caseId))) <= Sum(InquiryWorks(InquiriesOf(e, caseId)))
    ensures d.cases[caseId] == e.cases[caseId] && InquiriesOf(d, caseId) != InquiriesOf(e, caseId) ==>
              Sum(InquiryWorks(InquiriesOf(d, caseId))) < Sum(InquiryWorks(InquiriesOf(e, caseId)))
  {
    hide Sum;
    var x, y := InquiriesOf(d, caseId), InquiriesOf(e, caseId);
    InquiriesGrow(d, e, caseId);
    assert d.cases[caseId] == e.cases[caseId] ==> y.Keys <= x.Keys;
    hide InquiriesOf, InquiriesAdvance, InquiriesOk;
    SumOfRows(x, y, InquiryWorks(x), InquiryWorks(y));
  }

  /** The last inquiry of a case completes by moving on. */
  lemma InquiriesComplete(d: Database, e: Database, caseId: Id)
    requires InquiriesAdvance(d.inquiries, e.inquiries) && InquiriesOk(e.cases.Keys, e.inquiries, e.results)
    requires !Complete(d.inquiries, caseId) && Complete(e.inquiries, caseId)
    ensures Sum(InquiryWorks(InquiriesOf(d, caseId))) < Sum(InquiryWorks(InquiriesOf(e, caseId)))
  {
    hide Sum;
    var q :| q in d.inquiries && d.inquiries[q].caseId == caseId && d.inquiries[q].status != InquiryCompleted;
    InquiriesGrow(d, e, caseId);
    var x, y := InquiryWorks(InquiriesOf(d, caseId)), InquiryWorks(InquiriesOf(e, caseId));
    assert x[q] < y[q];
    SumMonotone(x, y);
  }

  ghost predicate PaidBetween(x: map<Id, Claim>, y: map<Id, Claim>, c: Id) {
    c in x && c in y && x[c].status == ClaimApproved && y[c].status == ClaimPaid
  }

  lemma OneClaimMoves(d: Database, e: Database, c: Id, limit: int)
    requires ClaimsAdvance(d.claims, e.claims) && c in d.claims
    requires ClaimsOk(d.accounts, d.claims, d.links, limit) && ClaimsOk(e.accounts, e.claims, e.links, limit)
    ensures c in e.claims && e.claims[c].caseId == d.claims[c].caseId
    ensures ClaimWork(d.claims[c].status) <= ClaimWork(e.claims[c].status)
    ensures d.claims[c] == e.claims[c] || PaidBetween(d.claims, e.claims, c)
            || ClaimWork(d.claims[c].status) < ClaimWork(e.claims[c].status)
  {
    hide Sum, Reaches, Backs;
    assert ClaimOk(d.accounts, c, d.claims[c], LinksOf(d.links, c), limit);
    assert ClaimOk(e.accounts, c, e.claims[c], LinksOf(e.links, c), limit);
  }

  lemma ClaimsGrow(d: Database, e: Database, caseId: Id, limit: int)
    requires ClaimsAdvance(d.claims, e.claims)
    requires ClaimsOk(d.accounts, d.claims, d.links, limit) && ClaimsOk(e.accounts, e.claims, e.links, limit)
    ensures var x, y := ClaimsOf(d, caseId), ClaimsOf(e, caseId);
            && x.Keys <= y.Keys
            && (forall c | c in x :: ClaimWork(x[c].status) <= ClaimWork(y[c].status))
            && (forall c | c in x && x[c] != y[c] && !PaidBetween(d.claims, e.claims, c) ::
                  ClaimWork(x[c].status) < ClaimWork(y[c].status))
            && (forall c | c in d.claims && c in y :: c in x)
  {
    hide ClaimsAdvance, ClaimsOk, ClaimWork;
    forall c | c in d.claims ensures c in e.claims && e.claims[c].caseId == d.claims[c].caseId { OneClaimMoves(d, e, c, limit); }
    forall c | c in ClaimsOf(d, caseId) { OneClaimMoves(d, e, c, limit); }
  }

  lemma ClaimWorkNonNegative()
    ensures forall s :: 0 <= ClaimWork(s)
  {}

  lemma ClaimsMove(d: Database, e: Database, caseId: Id, limit: int)
    requires ClaimsAdvance(d.claims, e.claims) && NewClaims(d, e) && caseId in d.cases && caseId in e.cases
    requires ClaimsOk(d.accounts, d.claims, d.links, limit) && ClaimsOk(e.accounts, e.claims, e.links, limit)
    ensures Sum(ClaimWorks(ClaimsOf(d, caseId))) <= Sum(ClaimWorks(ClaimsOf(e, caseId)))
    ensures d.cases[caseId] == e.cases[caseId] && ClaimsOf(d, caseId) != ClaimsOf(e, caseId)
            && (forall c | c in d.claims && d.claims[c].caseId == caseId :: !PaidBetween(d.claims, e.claims, c)) ==>
              Sum(ClaimWorks(ClaimsOf(d, caseId))) < Sum(ClaimWorks(ClaimsOf(e, caseId)))
  {
    hide Sum, ClaimsAdvance, ClaimsOk, PaidBetween;
    var x, y := ClaimsOf(d, caseId), ClaimsOf(e, caseId);
    ClaimsGrow(d, e, caseId, limit);
    ClaimWorkNonNegative();
    assert d.cases[caseId] == e.cases[caseId] ==> y.Keys <= x.Keys;
    assert forall c | c in x :: c in d.claims && d.claims[c].caseId == caseId;
    hide ClaimsOf, ClaimWork;
    SumMonotone(ClaimWorks(x), ClaimWorks(y));
    if forall c | c in d.claims && d.claims[c].caseId == caseId :: !PaidBetween(d.claims, e.claims, c) {
      SumOfRows(x, y, ClaimWorks(x), ClaimWorks(y));
    }
  }

  lemma PayoutsGrow(d: Database, e: Database, caseId: Id)
    requires ClaimsAdvance(d.claims, e.claims) && PayoutsAdvance(d.payouts, e.payouts)
    requires PayoutsOk(d.payouts, d.claims) && PayoutsOk(e.payouts, e.claims)
    ensures var x, y := PayoutsOf(d, caseId), PayoutsOf(e, caseId);
            && x.Keys <= y.Keys && (forall p | p in y :: 0 <= y[p].attempts)
            && (forall p | p in x :: x[p].attempts <= y[p].attempts && (x[p] != y[p] ==> x[p].attempts < y[p].attempts))
            && (forall p | p in d.payouts && p in y :: p in x)
  {}

  lemma NoNewPayouts(d: Database, e: Database, caseId: Id)
    requires NewPayouts(d, e) && ClaimsOf(d, caseId) == ClaimsOf(e, caseId)
    ensures forall p | p in PayoutsOf(e, caseId) :: p in d.payouts
  {
    forall p | p in PayoutsOf(e, caseId) ensures p in d.payouts {
      var k := e.payouts[p].claimId;
      assert k in ClaimsOf(e, caseId) && ClaimsOf(e, caseId)[k] == e.claims[k];
    }
  }

  lemma PayoutsMove(d: Database, e: Database, caseId: Id)
    requires ClaimsAdvance(d.claims, e.claims) && PayoutsAdvance(d.payouts, e.payouts) && NewPayouts(d, e)
    requires PayoutsOk(d.payouts, d.claims) && PayoutsOk(e.payouts, e.claims)
    ensures Sum(PayoutWorks(PayoutsOf(d, caseId))) <= Sum(PayoutWorks(PayoutsOf(e, caseId)))
    ensures ClaimsOf(d, caseId) == ClaimsOf(e, caseId) && PayoutsOf(d, caseId) != PayoutsOf(e, caseId) ==>
              Sum(PayoutWorks(PayoutsOf(d, caseId))) < Sum(PayoutWorks(PayoutsOf(e, caseId)))
  {
    hide Sum, ClaimsAdvance, PayoutsAdvance, PayoutsOk;
    var x, y := PayoutsOf(d, caseId), PayoutsOf(e, caseId);
    PayoutsGrow(d, e, caseId);
    if ClaimsOf(d, caseId) == ClaimsOf(e, caseId) {
      NoNewPayouts(d, e, caseId);
    }
    hide PayoutsOf, ClaimsOf;
    SumOfRows(x, y, PayoutWorks(x), PayoutWorks(y));
  }

  /** A claim is paid by the confirmation of its payout. */
  lemma PaidByPayout(d: Database, e: Database, c: Id)
    requires ClaimsAdvance(d.claims, e.claims) && PayoutsAdvance(d.payouts, e.payouts) && PaidBetween(d.claims, e.claims, c)
    requires PayoutsOk(d.payouts, d.claims) && PayoutsOk(e.payouts, e.claims)
    ensures PayoutsOf(d, d.claims[c].caseId) != PayoutsOf(e, d.claims[c].caseId)
    ensures Sum(PayoutWorks(PayoutsOf(d, d.claims[c].caseId))) < Sum(PayoutWorks(PayoutsOf(e, d.claims[c].caseId)))
  {
    hide Sum, Reaches;
    var caseId := d.claims[c].caseId;
    assert HasPayout(d.payouts, c);
    var p :| p in d.payouts && d.payouts[p].claimId == c;
    assert PayoutOk(d.payouts[p], d.claims) && PayoutOk(e.payouts[p], e.claims);
    assert p in PayoutsOf(d, caseId) && p in PayoutsOf(e, caseId);
    PayoutsGrow(d, e, caseId);
    var x, y := PayoutWorks(PayoutsOf(d, caseId)), PayoutWorks(PayoutsOf(e, caseId));
    assert x[p] < y[p];
    SumMonotone(x, y);
  }

  lemma InvTables(d: Database, limit: int)
    requires Inv(d, limit)
    ensures CasesOk(d.cases) && Barrier(d.cases, d.inquiries) && InquiriesOk(d.cases.Keys, d.inquiries, d.results)
    ensures ClaimsOk(d.accounts, d.claims, d.links, limit) && PayoutsOk(d.payouts, d.claims) && CasesClaimed(d.cases, d.claims)
  {}

  /** A step that changes any row of a case adds to the work done on it. */
  lemma StepWork(c: Config, s: Service, step: Step, caseId: Id)
    requires ServiceInv(c, s) && caseId in s.db.cases
    ensures var d, e := s.db, Exec(c, s, step).db;
            && caseId in e.cases && Work(RowsOf(d, caseId)) <= Work(RowsOf(e, caseId))
            && (RowsOf(d, caseId) != RowsOf(e, caseId) ==> Work(RowsOf(d, caseId)) < Work(RowsOf(e, caseId)))
  {
    hide Exec, Sum, Inv, WorkersOk, RetriesBounded, InquiryWorks, ClaimWorks, PayoutWorks, InquiriesOf, ClaimsOf, PayoutsOf;
    hide CasesAdvance, InquiriesAdvance, ResultsAdvance, ClaimsAdvance, LinksAdvance, PayoutsAdvance, JobsAdvance, KeysAdvance, LedgersFrozen;
    hide CasesOk, InquiriesOk, ClaimsOk, PayoutsOk, CasesClaimed, NewInquiries, NewClaims, NewPayouts, Complete, HasInquiry;
    var d, e := s.db, Exec(c, s, step).db;
    ExecKeeps(c, s, step);
    StepNewRows(c, s, step);
    InvTables(d, c.limit);
    InvTables(e, c.limit);
    CaseMoves(d, e, caseId);
    InquiriesMove(d, e, caseId);
    ClaimsMove(d, e, caseId, c.limit);
    PayoutsMove(d, e, caseId);
    assert BarrierAt(d.cases[caseId].status, d.inquiries, caseId) && BarrierAt(e.cases[caseId].status, e.inquiries, caseId);
    if k :| k in d.claims && d.claims[k].caseId == caseId && PaidBetween(d.claims, e.claims, k) { PaidByPayout(d, e, k); }
    if !Complete(d.inquiries, caseId) && Complete(e.inquiries, caseId) { InquiriesComplete(d, e, caseId); }
  }

  // -------------------------------------------------------------- over a run

  /** How many steps of a run change a row of the case. */
  ghost function Changes(c: Config, s: Service, steps: seq<Step>, caseId: Id): nat
    decreases |steps|
  {
    if steps == [] then 0
    else
      var t := Exec(c, s, steps[0]);
      Changes(c, t, steps[1..], caseId)
      + if caseId in s.db.cases && caseId in t.db.cases && RowsOf(s.db, caseId) == RowsOf(t.db, caseId) then 0 else 1
  }

  lemma InquiryWorkBound(d: Database, caseId: Id)
    requires InquiriesOk(d.cases.Keys, d.inquiries, d.results)
    ensures var qs := InquiriesOf(d, caseId); 0 <= Sum(InquiryWorks(qs)) <= |qs| + Sum(ExpectedParts(qs))
  {
    hide Sum;
    var qs := InquiriesOf(d, caseId);
    forall q | q in qs ensures 0 <= qs[q].version - 1 <= qs[q].expectedParts + 1 {
      assert InquiryOk(d.inquiries[q], |PartsOf(d.results, q)|);
    }
    var parts := ExpectedParts(qs);
    var bounds := map q | q in qs :: qs[q].expectedParts + 1;
    SumMonotone(InquiryWorks(qs), bounds);
    SumNonNegative(InquiryWorks(qs));
    SumAddOne(parts, bounds);
    assert parts.Keys == qs.Keys && |parts.Keys| == |qs.Keys|;
  }

  lemma ClaimWorkBound(d: Database, caseId: Id)
    requires CasesClaimed(d.cases, d.claims)
    ensures 0 <= Sum(ClaimWorks(ClaimsOf(d, caseId))) <= 1
  {}

  lemma PayoutWorkBound(d: Database, caseId: Id)
    requires CasesClaimed(d.cases, d.claims) && PayoutsOk(d.payouts, d.claims)
    ensures 0 <= Sum(PayoutWorks(PayoutsOf(d, caseId))) <= 2
  {}

  lemma WorkBounds(d: Database, caseId: Id, limit: int)
    requires Inv(d, limit) && caseId in d.cases
    ensures var qs := InquiriesOf(d, caseId); 0 <= Work(RowsOf(d, caseId)) <= 6 + |qs| + Sum(ExpectedParts(qs))
  {
    hide Sum, InquiryWorks, ClaimWorks, PayoutWorks, InquiriesOf, ClaimsOf, PayoutsOf, ExpectedParts,
      CasesOk, InquiriesOk, ClaimsOk, PayoutsOk, CasesClaimed, Barrier, Inv;
    InvTables(d, limit);
    InquiryWorkBound(d, caseId);
    ClaimWorkBound(d, caseId);
    PayoutWorkBound(d, caseId);
  }
}
