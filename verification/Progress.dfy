/** What a transaction may do to rows that exist: the direction in which every
    table moves.  The relations compose, so they hold across whole runs. */
module Progress {
  import opened Timestamps
  import opened Domain
  import opened Sums
  import opened Workflow
  import opened Invariants
  import opened Preservation
  import opened ClaimPreservation

  // ---------------------------------------------------------- claim statuses

  predicate StatusPath(p: seq<ClaimStatus>) {
    p != [] && forall i | 0 <= i < |p| - 1 :: p[i].CanTransition(p[i + 1])
  }

  /** The reflexive transitive closure of the claim transition table. */
  ghost predicate Reaches(a: ClaimStatus, b: ClaimStatus) {
    exists p :: StatusPath(p) && p[0] == a && p[|p| - 1] == b
  }

  lemma ReachesSelf(a: ClaimStatus)
    ensures Reaches(a, a)
  {
    assert StatusPath([a]);
  }

  lemma ReachesTransitive(a: ClaimStatus, b: ClaimStatus, c: ClaimStatus)
    requires Reaches(a, b) && Reaches(b, c)
    ensures Reaches(a, c)
  {
    var p: seq<ClaimStatus> :| StatusPath(p) && p[0] == a && p[|p| - 1] == b;
    var q: seq<ClaimStatus> :| StatusPath(q) && q[0] == b && q[|q| - 1] == c;
    var r := p + q[1..];
    forall i | 0 <= i < |r| - 1 ensures r[i].CanTransition(r[i + 1]) {
      if i >= |p| - 1 { assert q[i - |p| + 1].CanTransition(q[i - |p| + 2]); }
    }
    assert StatusPath(r) && r[|r| - 1] == c;
  }

  /** ConfirmPayout's step is not in the table, but in its closure. */
  lemma PaidThroughPaying()
    ensures !ClaimApproved.CanTransition(ClaimPaid) && Reaches(ClaimApproved, ClaimPaid)
  {
    assert StatusPath([ClaimApproved, ClaimPaying, ClaimPaid]);
  }

  // -------------------------------------------------------- table by table

  ghost predicate CasesAdvance(x: map<Id, EstateCase>, y: map<Id, EstateCase>) {
    forall c | c in x :: c in y && y[c].claimant == x[c].claimant && x[c].version <= y[c].version
      && (x[c].version == y[c].version ==> x[c] == y[c])
  }

  ghost predicate InquiriesAdvance(x: map<Id, Inquiry>, y: map<Id, Inquiry>) {
    forall q | q in x :: q in y && y[q].caseId == x[q].caseId && y[q].institution == x[q].institution
      && y[q].expectedParts == x[q].expectedParts && x[q].version <= y[q].version
      && (x[q].version == y[q].version ==> x[q] == y[q])
      && (x[q].status != InquiryPending ==> y[q].status != InquiryPending && y[q].externalRef == x[q].externalRef)
  }

  ghost predicate ResultsAdvance(x: ResultTable, y: ResultTable) {
    forall q, k | k in PartsOf(x, q) :: k in PartsOf(y, q) && PartsOf(y, q)[k] == PartsOf(x, q)[k]
  }

  ghost predicate ClaimAdvances(a: Claim, b: Claim) {
    b.caseId == a.caseId && b.claimant == a.claimant && b.total == a.total && b.currency == a.currency
    && a.version <= b.version && (a.version == b.version ==> a == b) && Reaches(a.status, b.status)
    && (a.status != ClaimPending ==> b.status != ClaimPending && b.approvedBy == a.approvedBy)
  }

  ghost predicate ClaimsAdvance(x: map<Id, Claim>, y: map<Id, Claim>) {
    forall c | c in x :: c in y && ClaimAdvances(x[c], y[c])
  }

  ghost predicate LinksAdvance(claims: map<Id, Claim>, x: LinkTable, y: LinkTable) {
    forall c | c in claims :: LinksOf(y, c) == LinksOf(x, c)
  }

  ghost predicate PayoutsAdvance(x: map<Id, Payout>, y: map<Id, Payout>) {
    forall p | p in x :: p in y && y[p].claimId == x[p].claimId && y[p].amount == x[p].amount
      && y[p].idempotencyKey == x[p].idempotencyKey && x[p].attempts <= y[p].attempts
      && (x[p].attempts == y[p].attempts ==> y[p] == x[p])
      && (x[p].status != PayoutPending ==> y[p].status != PayoutPending)
      && (x[p].status == PayoutConfirmed ==> y[p] == x[p])
  }

  predicate Terminal(s: JobStatus) { s == JobCompleted || s == JobFailed }

  ghost predicate JobsAdvance(x: map<Id, Job>, y: map<Id, Job>) {
    forall j | j in x :: j in y && y[j].kind == x[j].kind && y[j].resourceId == x[j].resourceId
      && y[j].maxAttempts == x[j].maxAttempts && x[j].attempts <= y[j].attempts
      && (Terminal(x[j].status) ==> y[j] == x[j])
  }

  ghost predicate KeysAdvance(x: map<string, IdempotencyRecord>, y: map<string, IdempotencyRecord>) {
    forall k | k in x :: k in y && y[k] == x[k]
  }

  /** The part of an account that money is computed from. */
  ghost function Ledger(accounts: map<Id, Account>, caseId: Id): map<Id, (AccountKey, Id, Holding)> {
    map a | a in accounts && accounts[a].key.caseId == caseId :: (accounts[a].key, accounts[a].inquiryId, accounts[a].holding)
  }

  predicate PastInquiring(s: CaseStatus) { s == CaseEligible || s == CaseClaiming }

  /** Cases that have left `inquiring` keep exactly their accounts and balances. */
  ghost predicate LedgersFrozen(cases: map<Id, EstateCase>, x: map<Id, Account>, y: map<Id, Account>) {
    forall c | c in cases && PastInquiring(cases[c].status) :: Ledger(y, c) == Ledger(x, c)
  }

  ghost predicate Advances(d: Database, e: Database) {
    && CasesAdvance(d.cases, e.cases) && InquiriesAdvance(d.inquiries, e.inquiries)
    && ResultsAdvance(d.results, e.results) && ClaimsAdvance(d.claims, e.claims)
    && LinksAdvance(d.claims, d.links, e.links) && PayoutsAdvance(d.payouts, e.payouts)
    && JobsAdvance(d.jobs, e.jobs) && KeysAdvance(d.keys, e.keys)
    && LedgersFrozen(d.cases, d.accounts, e.accounts) && d.audit <= e.audit
  }

  lemma ClaimsAdvanceSelf(x: map<Id, Claim>)
    ensures ClaimsAdvance(x, x)
  {
    forall c | c in x { ReachesSelf(x[c].status); }
  }

  lemma TablesAdvanceSelf(d: Database)
    ensures CasesAdvance(d.cases, d.cases) && InquiriesAdvance(d.inquiries, d.inquiries)
    ensures ResultsAdvance(d.results, d.results) && ClaimsAdvance(d.claims, d.claims)
    ensures LinksAdvance(d.claims, d.links, d.links) && PayoutsAdvance(d.payouts, d.payouts)
    ensures JobsAdvance(d.jobs, d.jobs) && KeysAdvance(d.keys, d.keys)
    ensures LedgersFrozen(d.cases, d.accounts, d.accounts)
  {
    ClaimsAdvanceSelf(d.claims);
  }

  lemma AdvancesSelf(d: Database)
    ensures Advances(d, d)
  {
    TablesAdvanceSelf(d);
  }

  lemma ClaimsAdvanceTwice(x: map<Id, Claim>, y: map<Id, Claim>, z: map<Id, Claim>)
    requires ClaimsAdvance(x, y) && ClaimsAdvance(y, z)
    ensures ClaimsAdvance(x, z)
  {
    hide Reaches;
    forall c | c in x { ReachesTransitive(x[c].status, y[c].status, z[c].status); }
  }

  lemma TablesAdvanceTwice(d: Database, e: Database, f: Database)
    requires Advances(d, e) && Advances(e, f)
    ensures CasesAdvance(d.cases, f.cases) && InquiriesAdvance(d.inquiries, f.inquiries)
    ensures PayoutsAdvance(d.payouts, f.payouts) && JobsAdvance(d.jobs, f.jobs) && KeysAdvance(d.keys, f.keys)
  {}

  /** A case past `inquiring` stays there. */
  lemma StaysPast(cases: map<Id, EstateCase>, after: map<Id, EstateCase>, c: Id)
    requires CasesOk(cases) && CasesOk(after) && CasesAdvance(cases, after) && c in cases && PastInquiring(cases[c].status)
    ensures c in after && PastInquiring(after[c].status)
  {}

  lemma AdvancesTwice(d: Database, e: Database, f: Database)
    requires Advances(d, e) && Advances(e, f) && CasesOk(d.cases) && CasesOk(e.cases)
    ensures Advances(d, f)
  {
    hide CasesAdvance, InquiriesAdvance, PayoutsAdvance, JobsAdvance, KeysAdvance, Ledger;
    TablesAdvanceTwice(d, e, f);
    ClaimsAdvanceTwice(d.claims, e.claims, f.claims);
    assert LinksAdvance(d.claims, d.links, f.links) by {
      hide ClaimAdvances;
    }
    forall c | c in d.cases && PastInquiring(d.cases[c].status) ensures Ledger(f.accounts, c) == Ledger(d.accounts, c) {
      StaysPast(d.cases, e.cases, c);
    }
  }

  // ------------------------------------------- every transaction advances

  lemma CaseMovedAdvances(cases: map<Id, EstateCase>, c: Id, item: EstateCase)
    requires c in cases ==> item.claimant == cases[c].claimant && item.version > cases[c].version
    ensures CasesAdvance(cases, cases[c := item])
  {}

  lemma InquiryMovedAdvances(inquiries: map<Id, Inquiry>, id: Id, q: Inquiry)
    requires id in inquiries && q.caseId == inquiries[id].caseId && q.institution == inquiries[id].institution
    requires q.expectedParts == inquiries[id].expectedParts && q.version > inquiries[id].version && q.status != InquiryPending
    requires inquiries[id].status != InquiryPending ==> q.externalRef == inquiries[id].externalRef
    ensures InquiriesAdvance(inquiries, inquiries[id := q])
  {}

  lemma PayoutMovedAdvances(payouts: map<Id, Payout>, id: Id, p: Payout)
    requires id in payouts ==> (
               && p.claimId == payouts[id].claimId && p.amount == payouts[id].amount
               && p.idempotencyKey == payouts[id].idempotencyKey && p.attempts > payouts[id].attempts
               && p.status != PayoutPending && payouts[id].status != PayoutConfirmed)
    ensures PayoutsAdvance(payouts, payouts[id := p])
  {}

  lemma SubmitAdvances(d: Database, actor: Principal, input: SubmitInput, key: string, now: Instant, caseId: Id)
    requires Submit(d, actor, input, key, now, caseId).Committed?
    ensures Advances(d, Submit(d, actor, input, key, now, caseId).database)
  {
    hide LiveKey, CasesAdvance, InquiriesAdvance, ResultsAdvance, ClaimsAdvance, LinksAdvance, PayoutsAdvance, JobsAdvance, LedgersFrozen;
    TablesAdvanceSelf(d);
    if !LiveKey(d, key, now) { CaseMovedAdvances(d.cases, caseId, EstateCase(actor.userId, CaseSubmitted, 1)); }
  }

  lemma StartReviewAdvances(d: Database, actor: Principal, caseId: Id, expected: int)
    requires StartReview(d, actor, caseId, expected).Committed?
    ensures Advances(d, StartReview(d, actor, caseId, expected).database)
  {
    hide CasesAdvance, InquiriesAdvance, ResultsAdvance, ClaimsAdvance, LinksAdvance, PayoutsAdvance, JobsAdvance, KeysAdvance, LedgersFrozen;
    TablesAdvanceSelf(d);
    CaseMovedAdvances(d.cases, caseId, d.cases[caseId].Transition(CaseReviewing).value);
  }

  ghost predicate Inserted(e: Database, caseId: Id, requestKey: string, r: Request, maxAttempts: int, now: Instant) {
    && r.inquiryId in e.inquiries
    && e.inquiries[r.inquiryId] == Inquiry(caseId, r.institution, requestKey, InquiryPending, "", r.expectedParts, 0, 1)
    && r.jobId in e.jobs
    && e.jobs[r.jobId] == Job(DispatchInquiry, r.inquiryId, JobPending, 0, maxAttempts, now, "", None)
  }

  /** Nothing but inquiries and jobs is added. */
  ghost predicate OldKept(d: Database, e: Database) {
    && e == d.(inquiries := e.inquiries, jobs := e.jobs)
    && (forall q | q in d.inquiries :: q in e.inquiries && e.inquiries[q] == d.inquiries[q])
    && (forall j | j in d.jobs :: j in e.jobs && e.jobs[j] == d.jobs[j])
  }

  /** What is added was asked for. */
  ghost predicate OnlyRequested(d: Database, e: Database, rs: seq<Request>) {
    && (forall q | q in e.inquiries && q !in d.inquiries :: exists i :: 0 <= i < |rs| && rs[i].inquiryId == q)
    && (forall j | j in e.jobs && j !in d.jobs :: exists i :: 0 <= i < |rs| && rs[i].jobId == j)
  }

  /** What was asked for is added. */
  ghost predicate EachInserted(d: Database, e: Database, caseId: Id, requestKey: string, rs: seq<Request>, maxAttempts: int, now: Instant) {
    forall i | 0 <= i < |rs| ::
      Inserted(e, caseId, requestKey, rs[i], maxAttempts, now) && rs[i].inquiryId !in d.inquiries && rs[i].jobId !in d.jobs
  }

  lemma FirstKept(d: Database, e: Database, caseId: Id, requestKey: string, r: Request, maxAttempts: int, now: Instant)
    requires r.inquiryId !in d.inquiries && r.jobId !in d.jobs
    requires OldKept(WithRequest(d, caseId, requestKey, r, maxAttempts, now), e)
    ensures OldKept(d, e) && Inserted(e, caseId, requestKey, r, maxAttempts, now)
  {
    var d1 := WithRequest(d, caseId, requestKey, r, maxAttempts, now);
    assert r.inquiryId in d1.inquiries && r.jobId in d1.jobs;
    assert forall q | q in d.inquiries :: q in d1.inquiries && d1.inquiries[q] == d.inquiries[q];
    assert forall j | j in d.jobs :: j in d1.jobs && d1.jobs[j] == d.jobs[j];
  }

  lemma FirstRequested(d: Database, d1: Database, e: Database, rs: seq<Request>)
    requires rs != [] && OnlyRequested(d1, e, rs[1..])
    requires d1.inquiries.Keys == d.inquiries.Keys + {rs[0].inquiryId} && d1.jobs.Keys == d.jobs.Keys + {rs[0].jobId}
    ensures OnlyRequested(d, e, rs)
  {
    forall q | q in e.inquiries && q !in d.inquiries ensures exists i :: 0 <= i < |rs| && rs[i].inquiryId == q {
      if q != rs[0].inquiryId {
        var i :| 0 <= i < |rs[1..]| && rs[1..][i].inquiryId == q;
        assert rs[i + 1].inquiryId == q;
      }
    }
    forall j | j in e.jobs && j !in d.jobs ensures exists i :: 0 <= i < |rs| && rs[i].jobId == j {
      if j != rs[0].jobId {
        var i :| 0 <= i < |rs[1..]| && rs[1..][i].jobId == j;
        assert rs[i + 1].jobId == j;
      }
    }
  }

  lemma FirstInserted(d: Database, d1: Database, e: Database, caseId: Id, requestKey: string, rs: seq<Request>, maxAttempts: int, now: Instant)
    requires rs != [] && EachInserted(d1, e, caseId, requestKey, rs[1..], maxAttempts, now)
    requires Inserted(e, caseId, requestKey, rs[0], maxAttempts, now) && rs[0].inquiryId !in d.inquiries && rs[0].jobId !in d.jobs
    requires d.inquiries.Keys <= d1.inquiries.Keys && d.jobs.Keys <= d1.jobs.Keys
    ensures EachInserted(d, e, caseId, requestKey, rs, maxAttempts, now)
  {
    hide Inserted;
    forall i | 0 <= i < |rs|
      ensures Inserted(e, caseId, requestKey, rs[i], maxAttempts, now) && rs[i].inquiryId !in d.inquiries && rs[i].jobId !in d.jobs
    {
      if i > 0 { assert rs[i] == rs[1..][i - 1]; }
    }
  }

  /** A committed loop of a dispatch inserted its first request under new ids and went on. */
  lemma FirstRound(d: Database, caseId: Id, requestKey: string, rs: seq<Request>, maxAttempts: int, now: Instant)
    requires rs != [] && InsertRequests(d, caseId, requestKey, rs, maxAttempts, now).Committed?
    ensures var d1 := WithRequest(d, caseId, requestKey, rs[0], maxAttempts, now);
            && maxAttempts > 0 && rs[0].inquiryId !in d.inquiries && rs[0].jobId !in d.jobs
            && d1.inquiries.Keys == d.inquiries.Keys + {rs[0].inquiryId} && d1.jobs.Keys == d.jobs.Keys + {rs[0].jobId}
            && InsertRequests(d, caseId, requestKey, rs, maxAttempts, now)
               == InsertRequests(d1, caseId, requestKey, rs[1..], maxAttempts, now)
  {}

  /** The loop of a dispatch inserts exactly what was asked for. */
  lemma {:induction false} RequestsInserted(d: Database, caseId: Id, requestKey: string, rs: seq<Request>, maxAttempts: int, now: Instant)
    requires InsertRequests(d, caseId, requestKey, rs, maxAttempts, now).Committed?
    ensures rs != [] ==> maxAttempts > 0
    ensures var e := InsertRequests(d, caseId, requestKey, rs, maxAttempts, now).database;
            OldKept(d, e) && OnlyRequested(d, e, rs) && EachInserted(d, e, caseId, requestKey, rs, maxAttempts, now)
    decreases |rs|
  {
    if rs != [] {
      hide OldKept, OnlyRequested, EachInserted, Inserted, InsertRequests, WithRequest;
      var e := InsertRequests(d, caseId, requestKey, rs, maxAttempts, now).database;
      var d1 := WithRequest(d, caseId, requestKey, rs[0], maxAttempts, now);
      FirstRound(d, caseId, requestKey, rs, maxAttempts, now);
      RequestsInserted(d1, caseId, requestKey, rs[1..], maxAttempts, now);
      FirstKept(d, e, caseId, requestKey, rs[0], maxAttempts, now);
      FirstRequested(d, d1, e, rs);
      FirstInserted(d, d1, e, caseId, requestKey, rs, maxAttempts, now);
    }
  }

  /** The jobs a dispatch adds are pending and untried. */
  lemma DispatchedJobs(d: Database, caseId: Id, requestKey: string, rs: seq<Request>, maxAttempts: int, now: Instant)
    requires InsertRequests(d, caseId, requestKey, rs, maxAttempts, now).Committed?
    ensures var e := InsertRequests(d, caseId, requestKey, rs, maxAttempts, now).database;
            && (forall j | j in d.jobs :: j in e.jobs && e.jobs[j] == d.jobs[j])
            && (forall j | j in e.jobs && j !in d.jobs ::
                  e.jobs[j].status == JobPending && e.jobs[j].attempts == 0 && e.jobs[j].maxAttempts > 0)
  {
    hide InsertRequests;
    RequestsInserted(d, caseId, requestKey, rs, maxAttempts, now);
    var e := InsertRequests(d, caseId, requestKey, rs, maxAttempts, now).database;
    forall j | j in e.jobs && j !in d.jobs
      ensures e.jobs[j].status == JobPending && e.jobs[j].attempts == 0 && e.jobs[j].maxAttempts > 0
    {
      var i :| 0 <= i < |rs| && rs[i].jobId == j;
      assert Inserted(e, caseId, requestKey, rs[i], maxAttempts, now);
    }
  }

  lemma DispatchAdvances(d: Database, actor: Principal, caseId: Id, requestKey: string, expected: int,
                         rs: seq<Request>, maxAttempts: int, now: Instant)
    requires Dispatch(d, actor, caseId, requestKey, expected, rs, maxAttempts, now).Committed?
    ensures Advances(d, Dispatch(d, actor, caseId, requestKey, expected, rs, maxAttempts, now).database)
  {
    hide CasesAdvance, ResultsAdvance, ClaimsAdvance, LinksAdvance, PayoutsAdvance, KeysAdvance, LedgersFrozen, InsertRequests;
    TablesAdvanceSelf(d);
    CaseMovedAdvances(d.cases, caseId, d.cases[caseId].Transition(CaseInquiring).value);
    RequestsInserted(d, caseId, requestKey, rs, maxAttempts, now);
  }

  /** Merging into an inquiring case touches no frozen ledger. */
  lemma MergedFreezes(cases: map<Id, EstateCase>, x: map<Id, Account>, y: map<Id, Account>, caseId: Id)
    requires Merged(x, y, caseId) && caseId in cases && cases[caseId].status == CaseInquiring
    ensures LedgersFrozen(cases, x, y)
  {}

  lemma PartAddedAdvances(x: ResultTable, id: Id, k: string, hash: Digest<ResultInput>)
    requires k !in PartsOf(x, id)
    ensures ResultsAdvance(x, x[id := PartsOf(x, id)[k := hash]])
  {}

  lemma RecordedAdvances(d: Database, id: Id, input: ResultInput, accounts: map<Id, Account>)
    requires Accepts(d, id, input) && InquiriesOk(d.cases.Keys, d.inquiries, d.results) && Merged(d.accounts, accounts, d.inquiries[id].caseId)
    requires Barrier(d.cases, d.inquiries) && NextPart(d.inquiries[id]).Ok?
    ensures Advances(d, Recorded(d, id, NextPart(d.inquiries[id]).value, input, accounts))
  {
    hide CasesAdvance, InquiriesAdvance, ClaimsAdvance, LinksAdvance, PayoutsAdvance, JobsAdvance, KeysAdvance, LedgersFrozen, Merged,
      Complete, InquiriesOk, Barrier, ResultsAdvance, ValidInput;
    TablesAdvanceSelf(d);
    PartAddedAdvances(d.results, id, input.partKey, Sha256(input));
    OpenInquiryCase(d, id);
    var c, q1 := d.inquiries[id].caseId, NextPart(d.inquiries[id]).value;
    if d.cases[c].Transition(CaseEligible).Ok? { CaseMovedAdvances(d.cases, c, d.cases[c].Transition(CaseEligible).value); }
    InquiryMovedAdvances(d.inquiries, id, q1);
    MergedFreezes(d.cases, d.accounts, accounts, d.inquiries[id].caseId);
  }

  lemma RecordResultAdvances(d: Database, id: Id, input: ResultInput, ids: seq<Id>, limit: int)
    requires Inv(d, limit) && RecordResult(d, id, input, ids).Committed?
    ensures Advances(d, RecordResult(d, id, input, ids).database)
  {
    hide Advances, UpsertAll, AfterResult, ValidResult, InquiriesOk, Barrier, AccountsOk, AccountKeysUnique, Merged;
    if input.partKey in PartsOf(d.results, id) {
      AdvancesSelf(d);
    } else {
      RecordResultShape(d, id, input, ids);
      UpsertAllKeeps(d.accounts, d.inquiries, id, input.accounts, ids);
      RecordedAdvances(d, id, input, UpsertAll(d.accounts, id, d.inquiries[id], input.accounts, ids).value);
    }
  }

  lemma MarkDispatchedAdvances(d: Database, id: Id, externalRef: string)
    requires MarkDispatched(d, id, externalRef).Committed?
    ensures Advances(d, MarkDispatched(d, id, externalRef).database)
  {
    hide CasesAdvance, InquiriesAdvance, ResultsAdvance, ClaimsAdvance, LinksAdvance, PayoutsAdvance, JobsAdvance, KeysAdvance, LedgersFrozen;
    TablesAdvanceSelf(d);
    var q := d.inquiries[id];
    if q.status == InquiryPending {
      InquiryMovedAdvances(d.inquiries, id, q.Transition(InquiryDispatched).value.(externalRef := externalRef));
    }
  }

  lemma ClaimAddedAdvances(claims: map<Id, Claim>, id: Id, claim: Claim)
    requires id !in claims
    ensures ClaimsAdvance(claims, claims[id := claim])
  {
    hide Reaches;
    forall c | c in claims { ReachesSelf(claims[c].status); }
  }

  lemma CreateClaimAdvances(d: Database, actor: Principal, caseId: Id, ids: seq<Id>, claimId: Id, limit: int)
    requires CreateClaim(d, actor, caseId, ids, claimId, limit).Committed?
    ensures Advances(d, CreateClaim(d, actor, caseId, ids, claimId, limit).database)
  {
    hide CasesAdvance, InquiriesAdvance, ResultsAdvance, ClaimsAdvance, PayoutsAdvance, JobsAdvance, KeysAdvance, LedgersFrozen,
      Sum, Balances, AllEligible;
    TablesAdvanceSelf(d);
    CaseMovedAdvances(d.cases, caseId, d.cases[caseId].Transition(CaseClaiming).value);
    ClaimAddedAdvances(d.claims, claimId, CreateClaim(d, actor, caseId, ids, claimId, limit).value);
  }

  lemma ReserveFreezes(cases: map<Id, EstateCase>, accounts: map<Id, Account>, ids: set<Id>, claimId: Id)
    ensures LedgersFrozen(cases, accounts, Reserve(accounts, ids, claimId))
  {}

  lemma ClaimMovedAdvances(claims: map<Id, Claim>, id: Id, claim: Claim)
    requires id in claims && ClaimAdvances(claims[id], claim)
    ensures ClaimsAdvance(claims, claims[id := claim])
  {
    hide Reaches;
    forall c | c in claims { ReachesSelf(claims[c].status); }
  }

  lemma JobAddedAdvances(jobs: map<Id, Job>, id: Id, job: Job)
    requires id !in jobs
    ensures JobsAdvance(jobs, jobs[id := job])
  {}

  lemma ApproveAdvances(d: Database, actor: Principal, claimId: Id, payoutKey: string, expected: int,
                        payoutId: Id, jobId: Id, maxAttempts: int, now: Instant)
    requires Approve(d, actor, claimId, payoutKey, expected, payoutId, jobId, maxAttempts, now).Committed?
    ensures Advances(d, Approve(d, actor, claimId, payoutKey, expected, payoutId, jobId, maxAttempts, now).database)
  {
    hide CasesAdvance, InquiriesAdvance, ResultsAdvance, ClaimsAdvance, LinksAdvance, PayoutsAdvance, JobsAdvance, KeysAdvance, LedgersFrozen,
      Reserve, Reservable;
    TablesAdvanceSelf(d);
    JobAddedAdvances(d.jobs, jobId, NewJob(ExecutePayout, payoutId, maxAttempts, now));
    PayoutMovedAdvances(d.payouts, payoutId, NewPayout(claimId, d.claims[claimId].Transition(ClaimApproved, actor.userId).value, payoutKey));
    var claim := d.claims[claimId].Transition(ClaimApproved, actor.userId).value;
    assert Reaches(d.claims[claimId].status, ClaimApproved) by {
      assert StatusPath([d.claims[claimId].status, ClaimApproved]);
    }
    ClaimMovedAdvances(d.claims, claimId, claim);
    ReserveFreezes(d.cases, d.accounts, LinksOf(d.links, claimId).Keys, claimId);
  }

  lemma MarkPayoutSubmittedAdvances(d: Database, payoutId: Id)
    requires MarkPayoutSubmitted(d, payoutId).Committed?
    ensures Advances(d, MarkPayoutSubmitted(d, payoutId).database)
  {
    hide CasesAdvance, InquiriesAdvance, ResultsAdvance, ClaimsAdvance, LinksAdvance, PayoutsAdvance, JobsAdvance, KeysAdvance, LedgersFrozen;
    TablesAdvanceSelf(d);
    var p := d.payouts[payoutId];
    if p.status == PayoutPending {
      PayoutMovedAdvances(d.payouts, payoutId, p.(status := PayoutSubmitted, attempts := p.attempts + 1));
    }
  }

  lemma ConfirmPayoutAdvances(d: Database, payoutId: Id, providerRef: string)
    requires PayoutsOk(d.payouts, d.claims) && ConfirmPayout(d, payoutId, providerRef).Committed?
    ensures Advances(d, ConfirmPayout(d, payoutId, providerRef).database)
  {
    hide CasesAdvance, InquiriesAdvance, ResultsAdvance, ClaimsAdvance, LinksAdvance, PayoutsAdvance, JobsAdvance, KeysAdvance, LedgersFrozen,
      PayoutsOk;
    TablesAdvanceSelf(d);
    ConfirmHitsClaim(d, payoutId);
    var p, claim := d.payouts[payoutId], d.claims[d.payouts[payoutId].claimId];
    PayoutMovedAdvances(d.payouts, payoutId, p.(status := PayoutConfirmed, providerRef := providerRef, attempts := p.attempts + 1));
    PaidThroughPaying();
    ClaimMovedAdvances(d.claims, d.payouts[payoutId].claimId, claim.(status := ClaimPaid, version := claim.version + 1));
  }
}
