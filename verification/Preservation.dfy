/** Every transaction keeps the invariant. */
module Preservation {
  import opened Timestamps
  import opened Domain
  import opened Workflow
  import opened Invariants

  // ------------------------------------------------------------------ cases

  lemma KeyAdded(keys: map<string, IdempotencyRecord>, cases: map<Id, EstateCase>, caseId: Id, item: EstateCase,
                 key: string, record: IdempotencyRecord)
    requires KeysOk(keys, cases) && caseId !in cases && key !in keys
    requires record.resourceId == caseId && record.actor == item.claimant
    ensures KeysOk(keys[key := record], cases[caseId := item])
  {
    var after := keys[key := record];
    forall c | c in cases[caseId := item] ensures HasSubmissionKey(after, c) {
      if c == caseId {
        assert after[key].resourceId == caseId;
      } else {
        var k :| k in keys && keys[k].resourceId == c;
        assert after[k].resourceId == c;
      }
    }
  }

  lemma KeysIgnoreStatus(keys: map<string, IdempotencyRecord>, cases: map<Id, EstateCase>, caseId: Id, item: EstateCase)
    requires KeysOk(keys, cases) && caseId in cases && item.claimant == cases[caseId].claimant
    ensures KeysOk(keys, cases[caseId := item])
  {}

  lemma CaseAdded(d: Database, caseId: Id, item: EstateCase)
    requires CasesOk(d.cases) && Barrier(d.cases, d.inquiries) && InquiriesOk(d.cases.Keys, d.inquiries, d.results)
    requires CasesClaimed(d.cases, d.claims)
    requires caseId !in d.cases && item.status == CaseSubmitted && item.version == 1
    ensures var cases := d.cases[caseId := item];
            && CasesOk(cases) && Barrier(cases, d.inquiries) && InquiriesOk(cases.Keys, d.inquiries, d.results)
            && CasesClaimed(cases, d.claims)
  {}

  lemma ClaimedIgnores(cases: map<Id, EstateCase>, claims: map<Id, Claim>, caseId: Id, item: EstateCase)
    requires CasesClaimed(cases, claims) && caseId in cases && cases[caseId].status != CaseClaiming
    ensures CasesClaimed(cases[caseId := item], claims)
  {}

  /** A case row moves to another status. */
  lemma CaseMoved(d: Database, inquiries: map<Id, Inquiry>, caseId: Id, item: EstateCase)
    requires CasesOk(d.cases) && CasesClaimed(d.cases, d.claims) && KeysOk(d.keys, d.cases)
    requires caseId in d.cases && d.cases[caseId].status != CaseClaiming
    requires d.cases[caseId].Transition(item.status) == Ok(item)
    requires forall c | c in d.cases && c != caseId :: BarrierAt(d.cases[c].status, inquiries, c)
    requires BarrierAt(item.status, inquiries, caseId)
    ensures var cases := d.cases[caseId := item];
            && CasesOk(cases) && Barrier(cases, inquiries) && CasesClaimed(cases, d.claims) && KeysOk(d.keys, cases)
  {
    hide KeysOk, CasesClaimed, HasInquiry, Complete;
    KeysIgnoreStatus(d.keys, d.cases, caseId, item);
    ClaimedIgnores(d.cases, d.claims, caseId, item);
  }

  lemma SubmitKeeps(d: Database, actor: Principal, input: SubmitInput, key: string, now: Instant, caseId: Id, limit: int)
    requires Inv(d, limit) && Submit(d, actor, input, key, now, caseId).Committed?
    ensures Inv(Submit(d, actor, input, key, now, caseId).database, limit)
  {
    hide LiveKey, Trail, CasesOk, Barrier, InquiriesOk, CasesClaimed, KeysOk, CaseTrails, ClaimTrails, InquiryTrails,
      InstitutionsDistinct, AccountsOk, AccountKeysUnique, ClaimsOk, ReservationsOk, PayoutsOk, MoneyConserved, JobsOk, JobsCover;
    if !LiveKey(d, key, now) {
      var item := EstateCase(actor.userId, CaseSubmitted, 1);
      var record := IdempotencyRecord(actor.userId, "POST", "/v1/cases", Sha256(input), caseId, now + DAY_OF_KEYS);
      var e := AuditEvent(actor.userId, "case.submitted", CaseObject, caseId);
      CaseAdded(d, caseId, item);
      KeyAdded(d.keys, d.cases, caseId, item, key, record);
      TrailsElsewhere(d.audit, e, d);
      CaseTrailStep(d.audit, d.cases, e, item);
    }
  }

  lemma StartReviewKeeps(d: Database, actor: Principal, caseId: Id, expected: int, limit: int)
    requires Inv(d, limit) && StartReview(d, actor, caseId, expected).Committed?
    ensures Inv(StartReview(d, actor, caseId, expected).database, limit)
  {
    hide Trail, CasesOk, InquiriesOk, CasesClaimed, KeysOk, CaseTrails, ClaimTrails, InquiryTrails,
      InstitutionsDistinct, AccountsOk, AccountKeysUnique, ClaimsOk, ReservationsOk, PayoutsOk, MoneyConserved, JobsOk, JobsCover;
    var item := d.cases[caseId].Transition(CaseReviewing).value;
    var e := AuditEvent(actor.userId, "case.review_started", CaseObject, caseId);
    CaseMoved(d, d.inquiries, caseId, item);
    TrailsElsewhere(d.audit, e, d);
    CaseTrailStep(d.audit, d.cases, e, item);
    assert d.cases[caseId := item].Keys == d.cases.Keys;
  }

  // --------------------------------------------------------------- dispatch

  /** What the dispatch loop keeps while it fills the inquiries of `caseId`. */
  ghost predicate Dispatching(d: Database, caseId: Id, requestKey: string) {
    && caseId in d.cases
    && InquiriesOk(d.cases.Keys, d.inquiries, d.results) && InstitutionsDistinct(d.inquiries)
    && AccountsOk(d.accounts, d.inquiries)
    && JobsOk(d.jobs, d.inquiries, d.payouts) && JobsCover(d.jobs, d.inquiries.Keys, d.payouts.Keys)
    && (forall q | q in d.inquiries && d.inquiries[q].caseId == caseId :: d.inquiries[q].requestKey == requestKey)
    && (forall c | c in d.cases && c != caseId :: BarrierAt(d.cases[c].status, d.inquiries, c))
    && InquiryTrails(d.audit, d.inquiries)
  }

  function WithRequest(d: Database, caseId: Id, requestKey: string, r: Request, maxAttempts: int, now: Instant): Database {
    d.(inquiries := d.inquiries[r.inquiryId := NewInquiry(caseId, requestKey, r)],
       jobs := d.jobs[r.jobId := NewJob(DispatchInquiry, r.inquiryId, maxAttempts, now)])
  }

  lemma BarrierElsewhere(inquiries: map<Id, Inquiry>, id: Id, q: Inquiry, c: Id, status: CaseStatus)
    requires q.caseId != c && (id in inquiries ==> inquiries[id].caseId != c)
    requires BarrierAt(status, inquiries, c)
    ensures BarrierAt(status, inquiries[id := q], c)
  {
    var after := inquiries[id := q];
    assert HasInquiry(inquiries, c) <==> HasInquiry(after, c) by {
      if HasInquiry(inquiries, c) {
        var r :| r in inquiries && inquiries[r].caseId == c;
        assert after[r].caseId == c;
      }
    }
    assert Complete(inquiries, c) <==> Complete(after, c) by {
      if Complete(after, c) {
        forall r | r in inquiries && inquiries[r].caseId == c ensures inquiries[r].status == InquiryCompleted {
          assert after[r] == inquiries[r];
        }
      }
    }
  }

  lemma NewInquiryOk(q: Inquiry)
    requires q.status == InquiryPending && q.receivedParts == 0 && q.version == 1 && q.externalRef == "" && q.expectedParts > 0
    ensures InquiryOk(q, 0)
  {}

  lemma InstitutionAdded(inquiries: map<Id, Inquiry>, id: Id, q: Inquiry)
    requires InstitutionsDistinct(inquiries)
    requires forall r | r in inquiries :: !(inquiries[r].caseId == q.caseId && inquiries[r].institution == q.institution)
    ensures InstitutionsDistinct(inquiries[id := q])
  {}

  lemma AccountsKept(accounts: map<Id, Account>, inquiries: map<Id, Inquiry>, id: Id, q: Inquiry)
    requires AccountsOk(accounts, inquiries)
    requires id in inquiries ==> q.caseId == inquiries[id].caseId && q.institution == inquiries[id].institution
    ensures AccountsOk(accounts, inquiries[id := q])
  {
    forall a | a in accounts ensures AccountOk(accounts[a], inquiries[id := q]) { assert AccountOk(accounts[a], inquiries); }
  }

  lemma NewInquiryTrail(audit: seq<AuditEvent>, inquiries: map<Id, Inquiry>, id: Id, q: Inquiry)
    requires InquiryTrails(audit, inquiries) && id !in inquiries && q.receivedParts == 0
    ensures InquiryTrails(audit, inquiries[id := q])
  {
    hide Trail;
    assert InquiryTrail(0) == [];
  }

  lemma InquiryInserted(d: Database, caseId: Id, requestKey: string, id: Id, q: Inquiry)
    requires Dispatching(d, caseId, requestKey) && CanInsertInquiry(d, id, q)
    requires q.caseId == caseId && q.requestKey == requestKey && q.status == InquiryPending
    requires q.receivedParts == 0 && q.version == 1 && q.externalRef == ""
    ensures var inquiries := d.inquiries[id := q];
            && InquiriesOk(d.cases.Keys, inquiries, d.results) && InstitutionsDistinct(inquiries)
            && AccountsOk(d.accounts, inquiries) && InquiryTrails(d.audit, inquiries)
  {
    hide JobsOk, JobsCover, BarrierAt, InquiryTrails, InstitutionsDistinct, AccountsOk, InquiryOk;
    var inquiries := d.inquiries[id := q];
    assert PartsOf(d.results, id) == map[];
    NewInquiryOk(q);
    InstitutionAdded(d.inquiries, id, q);
    AccountsKept(d.accounts, d.inquiries, id, q);
    NewInquiryTrail(d.audit, d.inquiries, id, q);
  }

  lemma CoverKept(jobs: map<Id, Job>, id: Id, job: Job, kind: JobKind, resourceId: Id)
    requires HasJob(jobs, kind, resourceId)
    requires id in jobs ==> job.kind == jobs[id].kind && job.resourceId == jobs[id].resourceId
    ensures HasJob(jobs[id := job], kind, resourceId)
  {
    var j :| j in jobs && jobs[j].kind == kind && jobs[j].resourceId == resourceId;
    var after := jobs[id := job];
    assert after[j].kind == kind && after[j].resourceId == resourceId;
  }

  lemma DispatchJobInserted(d: Database, inquiryId: Id, q: Inquiry, jobId: Id, job: Job)
    requires JobsOk(d.jobs, d.inquiries, d.payouts) && JobsCover(d.jobs, d.inquiries.Keys, d.payouts.Keys)
    requires inquiryId !in d.inquiries && q.status == InquiryPending
    requires CanInsertJob(d, jobId, job) && job.kind == DispatchInquiry && job.resourceId == inquiryId && job.status == JobPending
    ensures var inquiries, jobs := d.inquiries[inquiryId := q], d.jobs[jobId := job];
            JobsOk(jobs, inquiries, d.payouts) && JobsCover(jobs, inquiries.Keys, d.payouts.Keys)
  {
    var inquiries, jobs := d.inquiries[inquiryId := q], d.jobs[jobId := job];
    forall j | j in jobs ensures JobOk(j, jobs[j], inquiries, d.payouts) {
      if j != jobId { assert JobOk(j, d.jobs[j], d.inquiries, d.payouts); }
    }
    forall r | r in inquiries ensures HasJob(jobs, DispatchInquiry, r) {
      if r == inquiryId {
        assert jobs[jobId].resourceId == r;
      } else {
        CoverKept(d.jobs, jobId, job, DispatchInquiry, r);
      }
    }
    forall p | p in d.payouts ensures HasJob(jobs, ExecutePayout, p) {
      CoverKept(d.jobs, jobId, job, ExecutePayout, p);
    }
  }

  lemma RequestInserted(d: Database, caseId: Id, requestKey: string, r: Request, maxAttempts: int, now: Instant)
    requires Dispatching(d, caseId, requestKey)
    requires CanInsertInquiry(d, r.inquiryId, NewInquiry(caseId, requestKey, r))
    requires CanInsertJob(d, r.jobId, NewJob(DispatchInquiry, r.inquiryId, maxAttempts, now))
    ensures Dispatching(WithRequest(d, caseId, requestKey, r, maxAttempts, now), caseId, requestKey)
    ensures !Complete(WithRequest(d, caseId, requestKey, r, maxAttempts, now).inquiries, caseId)
  {
    hide InquiriesOk, InstitutionsDistinct, AccountsOk, JobsOk, JobsCover, InquiryTrails, BarrierAt;
    var q := NewInquiry(caseId, requestKey, r);
    var d' := WithRequest(d, caseId, requestKey, r, maxAttempts, now);
    InquiryInserted(d, caseId, requestKey, r.inquiryId, q);
    DispatchJobInserted(d, r.inquiryId, q, r.jobId, d'.jobs[r.jobId]);
    forall c | c in d.cases && c != caseId ensures BarrierAt(d.cases[c].status, d'.inquiries, c) {
      BarrierElsewhere(d.inquiries, r.inquiryId, q, c, d.cases[c].status);
    }
    assert d'.inquiries[r.inquiryId].status == InquiryPending;
  }

  /** The whole loop: only inquiries and jobs change, and the case ends up with
      an open inquiry. */
  lemma {:induction false} InsertRequestsKeeps(d: Database, caseId: Id, requestKey: string, rs: seq<Request>,
                                               maxAttempts: int, now: Instant)
    requires Dispatching(d, caseId, requestKey)
    requires InsertRequests(d, caseId, requestKey, rs, maxAttempts, now).Committed?
    ensures var d1 := InsertRequests(d, caseId, requestKey, rs, maxAttempts, now).database;
            && Dispatching(d1, caseId, requestKey) && d1 == d.(inquiries := d1.inquiries, jobs := d1.jobs)
            && (rs != [] || !Complete(d.inquiries, caseId) ==> !Complete(d1.inquiries, caseId))
    decreases |rs|
  {
    hide Dispatching, CanInsertInquiry, CanInsertJob, Complete;
    if rs != [] {
      RequestInserted(d, caseId, requestKey, rs[0], maxAttempts, now);
      InsertRequestsKeeps(WithRequest(d, caseId, requestKey, rs[0], maxAttempts, now), caseId, requestKey, rs[1..], maxAttempts, now);
    }
  }

  lemma DispatchKeeps(d: Database, actor: Principal, caseId: Id, requestKey: string, expected: int,
                      rs: seq<Request>, maxAttempts: int, now: Instant, limit: int)
    requires Inv(d, limit) && Dispatch(d, actor, caseId, requestKey, expected, rs, maxAttempts, now).Committed?
    ensures Inv(Dispatch(d, actor, caseId, requestKey, expected, rs, maxAttempts, now).database, limit)
  {
    hide Trail, CasesOk, InquiriesOk, CasesClaimed, KeysOk, CaseTrails, ClaimTrails, InquiryTrails, Complete, InsertRequests,
      InstitutionsDistinct, AccountsOk, AccountKeysUnique, ClaimsOk, ReservationsOk, PayoutsOk, MoneyConserved, JobsOk, JobsCover;
    assert !HasInquiry(d.inquiries, caseId);
    assert Dispatching(d, caseId, requestKey);
    InsertRequestsKeeps(d, caseId, requestKey, rs, maxAttempts, now);
    var d1 := InsertRequests(d, caseId, requestKey, rs, maxAttempts, now).database;
    var item := d.cases[caseId].Transition(CaseInquiring).value;
    var e := AuditEvent(actor.userId, "inquiries.dispatched", CaseObject, caseId);
    CaseMoved(d1, d1.inquiries, caseId, item);
    TrailsElsewhere(d1.audit, e, d1);
    CaseTrailStep(d1.audit, d1.cases, e, item);
    assert d.cases[caseId := item].Keys == d.cases.Keys;
  }

  // ------------------------------------------------------- reconciliation

  /** Rows of other cases and reserved rows stay; no row becomes reserved. */
  ghost predicate Merged(before: map<Id, Account>, after: map<Id, Account>, caseId: Id) {
    && before.Keys <= after.Keys
    && forall a | a in after ::
         || (a in before && after[a] == before[a])
         || (&& after[a].key.caseId == caseId && after[a].reservedBy == None
             && (a in before ==> before[a].key == after[a].key && before[a].reservedBy == None))
  }

  lemma UpsertKeeps(accounts: map<Id, Account>, inquiries: map<Id, Inquiry>, id: Id, inquiryId: Id, r: AccountResult)
    requires AccountsOk(accounts, inquiries) && AccountKeysUnique(accounts) && inquiryId in inquiries && ValidResult(r)
    requires Upsert(accounts, id, inquiryId, KeyOf(inquiries[inquiryId], r), r.holding).Ok?
    ensures var after := Upsert(accounts, id, inquiryId, KeyOf(inquiries[inquiryId], r), r.holding).value;
            && AccountsOk(after, inquiries) && AccountKeysUnique(after)
            && Merged(accounts, after, inquiries[inquiryId].caseId)
  {
    var key := KeyOf(inquiries[inquiryId], r);
    var after := Upsert(accounts, id, inquiryId, key, r.holding).value;
    if exists row :: HasKey(accounts, row, key) {
      var row :| HasKey(accounts, row, key);
      forall b | HasKey(accounts, b, key) ensures b == row {}
    } else {
      forall a | a in accounts ensures accounts[a].key != key {
        assert !HasKey(accounts, a, key);
      }
    }
  }

  lemma MergedTwice(a: map<Id, Account>, b: map<Id, Account>, c: map<Id, Account>, caseId: Id)
    requires Merged(a, b, caseId) && Merged(b, c, caseId)
    ensures Merged(a, c, caseId)
  {}

  lemma {:induction false} UpsertAllKeeps(accounts: map<Id, Account>, inquiries: map<Id, Inquiry>, inquiryId: Id,
                                          rs: seq<AccountResult>, ids: seq<Id>)
    requires AccountsOk(accounts, inquiries) && AccountKeysUnique(accounts) && inquiryId in inquiries
    requires forall i | 0 <= i < |rs| :: ValidResult(rs[i])
    requires UpsertAll(accounts, inquiryId, inquiries[inquiryId], rs, ids).Ok?
    ensures var after := UpsertAll(accounts, inquiryId, inquiries[inquiryId], rs, ids).value;
            && AccountsOk(after, inquiries) && AccountKeysUnique(after)
            && Merged(accounts, after, inquiries[inquiryId].caseId)
    decreases |rs|
  {
    hide AccountsOk, AccountKeysUnique, Upsert, KeyOf;
    if rs != [] {
      hide Merged;
      var q := inquiries[inquiryId];
      UpsertKeeps(accounts, inquiries, ids[0], inquiryId, rs[0]);
      var next := Upsert(accounts, ids[0], inquiryId, KeyOf(q, rs[0]), rs[0].holding).value;
      UpsertAllKeeps(next, inquiries, inquiryId, rs[1..], ids[1..]);
      MergedTwice(accounts, next, UpsertAll(accounts, inquiryId, q, rs, ids).value, q.caseId);
    }
  }

  /** Merging into a case that is not being claimed leaves the claims alone. */
  lemma MergedKeepsClaims(d: Database, after: map<Id, Account>, caseId: Id, limit: int)
    requires CasesClaimed(d.cases, d.claims) && ClaimsOk(d.accounts, d.claims, d.links, limit)
    requires Merged(d.accounts, after, caseId) && caseId in d.cases && d.cases[caseId].status != CaseClaiming
    ensures ClaimsOk(after, d.claims, d.links, limit)
  {}

  lemma MergedKeepsReservations(d: Database, after: map<Id, Account>, caseId: Id)
    requires Merged(d.accounts, after, caseId)
    ensures ReservationsOk(d.accounts, d.claims, d.links) ==> ReservationsOk(after, d.claims, d.links)
    ensures MoneyConserved(d.payouts, d.accounts) ==> MoneyConserved(d.payouts, after)
  {
    assert ReservedBalances(after) == ReservedBalances(d.accounts);
  }

  /** An open inquiry belongs to a case that is inquiring. */
  lemma OpenInquiryCase(d: Database, inquiryId: Id)
    requires Barrier(d.cases, d.inquiries) && InquiriesOk(d.cases.Keys, d.inquiries, d.results)
    requires inquiryId in d.inquiries && d.inquiries[inquiryId].status != InquiryCompleted
    ensures d.inquiries[inquiryId].caseId in d.cases && d.cases[d.inquiries[inquiryId].caseId].status == CaseInquiring
  {}

  /** The tables around one inquiry that moves on. */
  lemma InquiryMoved(d: Database, id: Id, q: Inquiry, results: ResultTable)
    requires InquiriesOk(d.cases.Keys, d.inquiries, d.results) && InstitutionsDistinct(d.inquiries)
    requires AccountsOk(d.accounts, d.inquiries) && id in d.inquiries
    requires q.caseId == d.inquiries[id].caseId && q.institution == d.inquiries[id].institution
    requires InquiryOk(q, |PartsOf(results, id)|) && results.Keys <= d.inquiries.Keys
    requires forall r | r != id :: PartsOf(results, r) == PartsOf(d.results, r)
    ensures var inquiries := d.inquiries[id := q];
            && InquiriesOk(d.cases.Keys, inquiries, results) && InstitutionsDistinct(inquiries)
            && AccountsOk(d.accounts, inquiries)
  {
    hide AccountsOk, InquiryOk;
    var inquiries := d.inquiries[id := q];
    forall r | r in inquiries ensures inquiries[r].caseId in d.cases.Keys && InquiryOk(inquiries[r], |PartsOf(results, r)|) {
      if r != id { assert inquiries[r] == d.inquiries[r]; }
    }
    AccountsKept(d.accounts, d.inquiries, id, q);
  }

  lemma InquiryMovedJobs(d: Database, id: Id, q: Inquiry)
    requires JobsOk(d.jobs, d.inquiries, d.payouts) && id in d.inquiries && q.status != InquiryPending
    requires forall j | j in d.jobs && d.jobs[j].kind == DispatchInquiry && d.jobs[j].resourceId == id :: q.externalRef == "outbox-" + j
    ensures JobsOk(d.jobs, d.inquiries[id := q], d.payouts)
  {}

  lemma OtherBarriersKept(d: Database, id: Id, q: Inquiry)
    requires Barrier(d.cases, d.inquiries) && id in d.inquiries && q.caseId == d.inquiries[id].caseId
    ensures forall c | c in d.cases && c != q.caseId :: BarrierAt(d.cases[c].status, d.inquiries[id := q], c)
  {
    forall c | c in d.cases && c != q.caseId ensures BarrierAt(d.cases[c].status, d.inquiries[id := q], c) {
      BarrierElsewhere(d.inquiries, id, q, c, d.cases[c].status);
    }
  }

  /** The inner transition of RecordResult never fails, and keeps the barrier. */
  lemma BarrierAfterResult(d: Database, id: Id, q: Inquiry)
    requires CasesOk(d.cases) && Barrier(d.cases, d.inquiries) && CasesClaimed(d.cases, d.claims) && KeysOk(d.keys, d.cases)
    requires id in d.inquiries && q.caseId == d.inquiries[id].caseId
    requires q.caseId in d.cases && d.cases[q.caseId].status == CaseInquiring
    ensures var inquiries := d.inquiries[id := q]; var after := AfterResult(d.cases, inquiries, q.caseId);
            && after.Ok? && after.value.Keys == d.cases.Keys
            && CasesOk(after.value) && Barrier(after.value, inquiries)
            && CasesClaimed(after.value, d.claims) && KeysOk(d.keys, after.value)
            && (CaseTrails(d.audit, d.cases) ==> CaseTrails(d.audit, after.value))
            && (forall c | c in d.cases && c != q.caseId :: after.value[c] == d.cases[c])
            && after.value[q.caseId].status == if Complete(inquiries, q.caseId) then CaseEligible else CaseInquiring
  {
    hide KeysOk, CasesClaimed, CasesOk, Trail;
    var inquiries, c := d.inquiries[id := q], q.caseId;
    OtherBarriersKept(d, id, q);
    assert inquiries[id].caseId == c;
    assert HasInquiry(inquiries, c);
    if Complete(inquiries, c) {
      CaseMoved(d, inquiries, c, d.cases[c].Transition(CaseEligible).value);
    }
  }

  /** The database after an accepted part. */
  ghost function Recorded(d: Database, id: Id, q: Inquiry, input: ResultInput, accounts: map<Id, Account>): Database {
    var inquiries := d.inquiries[id := q];
    var after := AfterResult(d.cases, inquiries, q.caseId);
    d.(results := d.results[id := PartsOf(d.results, id)[input.partKey := Sha256(input)]],
       accounts := accounts, inquiries := inquiries, cases := if after.Ok? then after.value else d.cases,
       audit := d.audit + [AuditEvent("system", "inquiry.result_recorded", InquiryObject, id)])
  }

  /** A part that is accepted: the key is new and the inquiry open. */
  ghost predicate Accepts(d: Database, id: Id, input: ResultInput) {
    && id in d.inquiries && ValidInput(input) && input.partKey !in PartsOf(d.results, id)
    && d.inquiries[id].status in {InquiryDispatched, InquiryPartial}
  }

  lemma RecordResultShape(d: Database, id: Id, input: ResultInput, ids: seq<Id>)
    requires RecordResult(d, id, input, ids).Committed? && input.partKey !in PartsOf(d.results, id)
    ensures Accepts(d, id, input) && UpsertAll(d.accounts, id, d.inquiries[id], input.accounts, ids).Ok?
    ensures NextPart(d.inquiries[id]).Ok?
    ensures RecordResult(d, id, input, ids).database
            == Recorded(d, id, NextPart(d.inquiries[id]).value, input,
                        UpsertAll(d.accounts, id, d.inquiries[id], input.accounts, ids).value)
  {}

  lemma NextPartOk(d: Database, id: Id, input: ResultInput)
    requires Accepts(d, id, input) && InquiriesOk(d.cases.Keys, d.inquiries, d.results)
    ensures NextPart(d.inquiries[id]).Ok?
    ensures var q, q1, parts := d.inquiries[id], NextPart(d.inquiries[id]).value, PartsOf(d.results, id);
            && q1.caseId == q.caseId && q1.institution == q.institution && q1.externalRef == q.externalRef
            && q.receivedParts >= 0 && q1.receivedParts == q.receivedParts + 1 && q1.status != InquiryPending
            && InquiryOk(q1, |parts[input.partKey := Sha256(input)]|)
            && d.results[id := parts].Keys <= d.inquiries.Keys
  {}

  lemma ReferenceKept(d: Database, id: Id)
    requires JobsOk(d.jobs, d.inquiries, d.payouts) && id in d.inquiries && d.inquiries[id].status != InquiryPending
    ensures forall j | j in d.jobs && d.jobs[j].kind == DispatchInquiry && d.jobs[j].resourceId == id ::
              d.inquiries[id].externalRef == "outbox-" + j
  {}

  lemma RecordedInquiries(d: Database, id: Id, input: ResultInput, accounts: map<Id, Account>)
    requires Accepts(d, id, input) && AccountsOk(accounts, d.inquiries)
    requires InquiriesOk(d.cases.Keys, d.inquiries, d.results) && InstitutionsDistinct(d.inquiries)
    requires JobsOk(d.jobs, d.inquiries, d.payouts) && InquiryTrails(d.audit, d.inquiries)
    ensures NextPart(d.inquiries[id]).Ok?
    ensures var r := Recorded(d, id, NextPart(d.inquiries[id]).value, input, accounts);
            && InquiriesOk(d.cases.Keys, r.inquiries, r.results) && InstitutionsDistinct(r.inquiries)
            && AccountsOk(accounts, r.inquiries) && JobsOk(d.jobs, r.inquiries, d.payouts)
            && InquiryTrails(r.audit, r.inquiries) && r.inquiries.Keys == d.inquiries.Keys
  {
    hide InstitutionsDistinct, AccountsOk, InquiryTrails, InquiriesOk, JobsOk, Trail, AfterResult, ValidInput;
    NextPartOk(d, id, input);
    var q1 := NextPart(d.inquiries[id]).value;
    InquiryMoved(d.(accounts := accounts), id, q1,
                 d.results[id := PartsOf(d.results, id)[input.partKey := Sha256(input)]]);
    ReferenceKept(d, id);
    InquiryMovedJobs(d, id, q1);
    InquiryTrailStep(d.audit, d.inquiries, AuditEvent("system", "inquiry.result_recorded", InquiryObject, id), q1);
  }

  lemma AcceptedKeeps(d: Database, id: Id, input: ResultInput, ids: seq<Id>, limit: int)
    requires Inv(d, limit) && Accepts(d, id, input) && NextPart(d.inquiries[id]).Ok?
    requires UpsertAll(d.accounts, id, d.inquiries[id], input.accounts, ids).Ok?
    ensures Inv(Recorded(d, id, NextPart(d.inquiries[id]).value, input,
                         UpsertAll(d.accounts, id, d.inquiries[id], input.accounts, ids).value), limit)
  {
    hide Trail, CasesOk, CasesClaimed, KeysOk, CaseTrails, ClaimTrails, InquiryTrails, Complete, UpsertAll, AfterResult,
      InstitutionsDistinct, AccountsOk, AccountKeysUnique, ClaimsOk, ReservationsOk, PayoutsOk, MoneyConserved, JobsOk, JobsCover,
      Barrier, InquiriesOk, Merged, ValidResult;
    var q1 := NextPart(d.inquiries[id]).value;
    OpenInquiryCase(d, id);
    UpsertAllKeeps(d.accounts, d.inquiries, id, input.accounts, ids);
    var accounts := UpsertAll(d.accounts, id, d.inquiries[id], input.accounts, ids).value;
    MergedKeepsClaims(d, accounts, q1.caseId, limit);
    MergedKeepsReservations(d, accounts, q1.caseId);
    RecordedInquiries(d, id, input, accounts);
    BarrierAfterResult(d, id, q1);
    var r := Recorded(d, id, q1, input, accounts);
    TrailsElsewhere(d.audit, AuditEvent("system", "inquiry.result_recorded", InquiryObject, id), r);
  }

  lemma RecordResultKeeps(d: Database, inquiryId: Id, input: ResultInput, ids: seq<Id>, limit: int)
    requires Inv(d, limit) && RecordResult(d, inquiryId, input, ids).Committed?
    ensures Inv(RecordResult(d, inquiryId, input, ids).database, limit)
  {
    hide Trail, CasesOk, CasesClaimed, KeysOk, CaseTrails, ClaimTrails, InquiryTrails, Complete, UpsertAll, AfterResult,
      InstitutionsDistinct, AccountsOk, AccountKeysUnique, ClaimsOk, ReservationsOk, PayoutsOk, MoneyConserved, JobsOk, JobsCover,
      Barrier, InquiriesOk, Merged, ValidResult;
    if input.partKey in PartsOf(d.results, inquiryId) {
      assert RecordResult(d, inquiryId, input, ids).database == d;
    } else {
      RecordResultShape(d, inquiryId, input, ids);
      AcceptedKeeps(d, inquiryId, input, ids, limit);
    }
  }

  lemma StillOpen(inquiries: map<Id, Inquiry>, id: Id, q: Inquiry)
    requires q.status != InquiryCompleted
    ensures !Complete(inquiries[id := q], q.caseId)
  {
    assert inquiries[id := q][id] == q;
  }

  lemma BarrierStill(d: Database, id: Id, q: Inquiry)
    requires Barrier(d.cases, d.inquiries) && id in d.inquiries && q.caseId == d.inquiries[id].caseId
    requires q.caseId in d.cases ==> d.cases[q.caseId].status == CaseInquiring && !Complete(d.inquiries[id := q], q.caseId)
    ensures Barrier(d.cases, d.inquiries[id := q])
  {
    hide Complete, HasInquiry;
    OtherBarriersKept(d, id, q);
  }

  lemma MarkDispatchedKeeps(d: Database, inquiryId: Id, jobId: Id, limit: int)
    requires Inv(d, limit) && jobId in d.jobs && d.jobs[jobId].kind == DispatchInquiry && d.jobs[jobId].resourceId == inquiryId
    requires MarkDispatched(d, inquiryId, "outbox-" + jobId).Committed?
    ensures Inv(MarkDispatched(d, inquiryId, "outbox-" + jobId).database, limit)
  {
    hide Trail, CasesOk, CasesClaimed, KeysOk, CaseTrails, ClaimTrails, Complete,
      InstitutionsDistinct, AccountsOk, AccountKeysUnique, ClaimsOk, ReservationsOk, PayoutsOk, MoneyConserved, JobsCover, Barrier;
    var q := d.inquiries[inquiryId];
    if q.status == InquiryPending {
      var q1 := q.Transition(InquiryDispatched).value.(externalRef := "outbox-" + jobId);
      InquiryMoved(d, inquiryId, q1, d.results);
      InquiryMovedJobs(d, inquiryId, q1);
      OpenInquiryCase(d, inquiryId);
      assert !Complete(d.inquiries[inquiryId := q1], q.caseId) by {
        StillOpen(d.inquiries, inquiryId, q1);
      }
      BarrierStill(d, inquiryId, q1);
      assert InquiryTrails(d.audit, d.inquiries[inquiryId := q1]);
      assert d.inquiries[inquiryId := q1].Keys == d.inquiries.Keys;
    }
  }
}
