/** What holds of the database in every reachable state.  Each service relies on
    facts other services establish and nobody checks again; they are stated here. */
module Invariants {
  import opened Timestamps
  import opened Domain
  import opened Sums
  import opened Workflow

  type ResultTable = map<Id, map<string, Digest<ResultInput>>>
  type LinkTable = map<Id, map<Id, int>>

  // ------------------------------------------------- cases and the barrier

  function CaseVersion(s: CaseStatus): int {
    match s
    case CaseSubmitted => 1
    case CaseReviewing => 2
    case CaseInquiring => 3
    case CaseEligible => 4
    case CaseClaiming => 5
    case _ => 0
  }

  /** The version of a case is a function of its status. */
  ghost predicate CasesOk(cases: map<Id, EstateCase>) {
    forall c | c in cases :: 1 <= CaseVersion(cases[c].status) == cases[c].version
  }

  ghost predicate HasInquiry(inquiries: map<Id, Inquiry>, caseId: Id) {
    exists q | q in inquiries :: inquiries[q].caseId == caseId
  }

  ghost predicate BarrierAt(status: CaseStatus, inquiries: map<Id, Inquiry>, caseId: Id) {
    match status
    case CaseSubmitted => !HasInquiry(inquiries, caseId)
    case CaseReviewing => !HasInquiry(inquiries, caseId)
    case CaseInquiring => !Complete(inquiries, caseId)
    case CaseEligible => HasInquiry(inquiries, caseId) && Complete(inquiries, caseId)
    case CaseClaiming => HasInquiry(inquiries, caseId) && Complete(inquiries, caseId)
    case _ => false
  }

  /** A case becomes eligible exactly when its last inquiry completes. */
  ghost predicate Barrier(cases: map<Id, EstateCase>, inquiries: map<Id, Inquiry>) {
    forall c | c in cases :: BarrierAt(cases[c].status, inquiries, c)
  }

  // -------------------------------------------------------------- inquiries

  /** `parts` is the number of stored result rows. */
  ghost predicate InquiryOk(q: Inquiry, parts: int) {
    && q.receivedParts == parts && q.expectedParts > 0
    && q.version == 1 + (if q.status == InquiryPending then 0 else 1) + q.receivedParts
    && match q.status
       case InquiryPending => q.receivedParts == 0 && q.externalRef == ""
       case InquiryDispatched => q.receivedParts == 0
       case InquiryPartial => 0 < q.receivedParts < q.expectedParts
       case InquiryCompleted => q.receivedParts == q.expectedParts
       case InquiryFailed => false
  }

  ghost predicate InquiriesOk(caseIds: set<Id>, inquiries: map<Id, Inquiry>, results: ResultTable) {
    && (forall q | q in inquiries :: inquiries[q].caseId in caseIds && InquiryOk(inquiries[q], |PartsOf(results, q)|))
    && results.Keys <= inquiries.Keys
  }

  /** One inquiry per case and institution. */
  ghost predicate InstitutionsDistinct(inquiries: map<Id, Inquiry>) {
    forall q, r | q in inquiries && r in inquiries
      && inquiries[q].caseId == inquiries[r].caseId && inquiries[q].institution == inquiries[r].institution :: q == r
  }

  // --------------------------------------------------------------- accounts

  ghost predicate AccountOk(a: Account, inquiries: map<Id, Inquiry>) {
    && a.inquiryId in inquiries && a.holding.balance >= 0
    && a.key.caseId == inquiries[a.inquiryId].caseId && a.key.institution == inquiries[a.inquiryId].institution
  }

  ghost predicate AccountsOk(accounts: map<Id, Account>, inquiries: map<Id, Inquiry>) {
    forall a | a in accounts :: AccountOk(accounts[a], inquiries)
  }

  ghost predicate AccountKeysUnique(accounts: map<Id, Account>) {
    forall a, b | a in accounts && b in accounts && accounts[a].key == accounts[b].key :: a == b
  }

  // ----------------------------------------------------------------- claims

  function ClaimVersion(s: ClaimStatus): int {
    match s
    case ClaimPending => 1
    case ClaimApproved => 2
    case ClaimPaid => 3
    case _ => 0
  }

  /** An account a claim may link, apart from its reservation. */
  predicate SmallDeposit(a: Account, limit: int) {
    a.holding.kind == Deposit && a.holding.currency == "CNY" && 0 < a.holding.balance <= limit && !a.holding.restricted
  }

  /** Account `a` backs the claim with exactly its current balance, and is
      reserved for it once the claim has left `pending`. */
  ghost predicate Backs(accounts: map<Id, Account>, a: Id, amount: int, claimId: Id, claim: Claim, limit: int) {
    && a in accounts && SmallDeposit(accounts[a], limit)
    && accounts[a].key.caseId == claim.caseId && accounts[a].holding.balance == amount
    && accounts[a].reservedBy == if claim.status == ClaimPending then None else Some(claimId)
  }

  /** The claim's case is being claimed, by the claim's claimant. */
  ghost predicate Claimed(cases: map<Id, EstateCase>, claim: Claim) {
    && claim.caseId in cases && cases[claim.caseId].status == CaseClaiming
    && cases[claim.caseId].claimant == claim.claimant
  }

  ghost predicate CasesClaimed(cases: map<Id, EstateCase>, claims: map<Id, Claim>) {
    && (forall c | c in claims :: Claimed(cases, claims[c]))
    && (forall b, c | b in claims && c in claims && claims[b].caseId == claims[c].caseId :: b == c)
  }

  ghost predicate ClaimOk(accounts: map<Id, Account>, claimId: Id, claim: Claim, linked: map<Id, int>, limit: int) {
    && 1 <= ClaimVersion(claim.status) == claim.version && claim.currency == "CNY"
    && linked != map[] && claim.total == Sum(linked) && 0 < claim.total <= limit
    && forall a | a in linked :: Backs(accounts, a, linked[a], claimId, claim, limit)
  }

  ghost predicate ClaimsOk(accounts: map<Id, Account>, claims: map<Id, Claim>, links: LinkTable, limit: int) {
    && (forall c | c in claims :: ClaimOk(accounts, c, claims[c], LinksOf(links, c), limit))
    && links.Keys <= claims.Keys
  }

  /** Reservations exist for links of claims only. */
  ghost predicate ReservationsOk(accounts: map<Id, Account>, claims: map<Id, Claim>, links: LinkTable) {
    forall a | a in accounts && accounts[a].reservedBy.Some? ::
      var c := accounts[a].reservedBy.value;
      c in claims && claims[c].status != ClaimPending && a in LinksOf(links, c)
  }

  // ---------------------------------------------------------------- payouts

  ghost predicate PayoutOk(p: Payout, claims: map<Id, Claim>) {
    && p.claimId in claims && p.amount == claims[p.claimId].total && p.currency == claims[p.claimId].currency
    && match p.status
       case PayoutPending => claims[p.claimId].status == ClaimApproved && p.attempts == 0
       case PayoutSubmitted => claims[p.claimId].status == ClaimApproved && p.attempts == 1
       case PayoutConfirmed => claims[p.claimId].status == ClaimPaid && 1 <= p.attempts <= 2
       case PayoutFailed => false
  }

  ghost predicate HasPayout(payouts: map<Id, Payout>, claimId: Id) {
    exists p | p in payouts :: payouts[p].claimId == claimId
  }

  ghost predicate PayoutsOk(payouts: map<Id, Payout>, claims: map<Id, Claim>) {
    && (forall p | p in payouts :: PayoutOk(payouts[p], claims))
    && (forall p, q | p in payouts && q in payouts && payouts[p].claimId == payouts[q].claimId :: p == q)
    && (forall c | c in claims && claims[c].status != ClaimPending :: HasPayout(payouts, c))
  }

  ghost function PayoutAmounts(payouts: map<Id, Payout>): map<Id, int> {
    map p | p in payouts :: payouts[p].amount
  }

  ghost function ReservedBalances(accounts: map<Id, Account>): map<Id, int> {
    map a | a in accounts && accounts[a].reservedBy.Some? :: accounts[a].holding.balance
  }

  /** Conservation: what is paid out is what is reserved. */
  ghost predicate MoneyConserved(payouts: map<Id, Payout>, accounts: map<Id, Account>) {
    Sum(PayoutAmounts(payouts)) == Sum(ReservedBalances(accounts))
  }

  // ------------------------------------------------------------------- jobs

  ghost predicate ResourceExists(job: Job, inquiries: map<Id, Inquiry>, payouts: map<Id, Payout>) {
    match job.kind
    case DispatchInquiry => job.resourceId in inquiries
    case ExecutePayout => job.resourceId in payouts
  }

  /** The job's effect has happened; a dispatch left the job's own reference. */
  ghost predicate EffectDone(id: Id, job: Job, inquiries: map<Id, Inquiry>, payouts: map<Id, Payout>) {
    match job.kind
    case DispatchInquiry =>
      && job.resourceId in inquiries && inquiries[job.resourceId].status != InquiryPending
      && inquiries[job.resourceId].externalRef == "outbox-" + id
    case ExecutePayout => job.resourceId in payouts && payouts[job.resourceId].status != PayoutPending
  }

  ghost predicate JobOk(id: Id, job: Job, inquiries: map<Id, Inquiry>, payouts: map<Id, Payout>) {
    && ResourceExists(job, inquiries, payouts) && job.maxAttempts > 0
    && (job.status == JobCompleted ==> EffectDone(id, job, inquiries, payouts))
    && (job.kind == DispatchInquiry && inquiries[job.resourceId].status != InquiryPending
        ==> inquiries[job.resourceId].externalRef == "outbox-" + id)
  }

  ghost predicate JobsOk(jobs: map<Id, Job>, inquiries: map<Id, Inquiry>, payouts: map<Id, Payout>) {
    && (forall j | j in jobs :: JobOk(j, jobs[j], inquiries, payouts))
    && (forall i, j | i in jobs && j in jobs && jobs[i].kind == jobs[j].kind
          && jobs[i].resourceId == jobs[j].resourceId :: i == j)
  }

  ghost predicate HasJob(jobs: map<Id, Job>, kind: JobKind, resourceId: Id) {
    exists j | j in jobs :: jobs[j].kind == kind && jobs[j].resourceId == resourceId
  }

  /** Every inquiry and every payout has its job. */
  ghost predicate JobsCover(jobs: map<Id, Job>, inquiryIds: set<Id>, payoutIds: set<Id>) {
    && (forall q | q in inquiryIds :: HasJob(jobs, DispatchInquiry, q))
    && (forall p | p in payoutIds :: HasJob(jobs, ExecutePayout, p))
  }

  // ------------------------------------------------------- idempotency keys

  ghost predicate HasSubmissionKey(keys: map<string, IdempotencyRecord>, caseId: Id) {
    exists k | k in keys :: keys[k].resourceId == caseId
  }

  /** Keys and cases correspond one to one. */
  ghost predicate KeysOk(keys: map<string, IdempotencyRecord>, cases: map<Id, EstateCase>) {
    && (forall k | k in keys :: keys[k].resourceId in cases && cases[keys[k].resourceId].claimant == keys[k].actor)
    && (forall j, k | j in keys && k in keys && keys[j].resourceId == keys[k].resourceId :: j == k)
    && (forall c | c in cases :: HasSubmissionKey(keys, c))
  }

  // ------------------------------------------------------------ audit trail

  /** The actions recorded for one object, oldest first. */
  function Trail(audit: seq<AuditEvent>, kind: ObjectKind, id: Id): seq<string> {
    if audit == [] then []
    else
      var last := audit[|audit| - 1];
      Trail(audit[..|audit| - 1], kind, id) + if last.kind == kind && last.objectId == id then [last.action] else []
  }

  function CaseTrail(s: CaseStatus): seq<string> {
    match s
    case CaseSubmitted => ["case.submitted"]
    case CaseReviewing => ["case.submitted", "case.review_started"]
    case _ => ["case.submitted", "case.review_started", "inquiries.dispatched"]
  }

  function ClaimTrail(s: ClaimStatus): seq<string> {
    if s == ClaimPending then ["claim.submitted"] else ["claim.submitted", "claim.approved"]
  }

  function InquiryTrail(parts: int): seq<string> {
    if parts <= 0 then [] else seq(parts, i => "inquiry.result_recorded")
  }

  ghost predicate CaseTrails(audit: seq<AuditEvent>, cases: map<Id, EstateCase>) {
    forall id :: Trail(audit, CaseObject, id) == if id in cases then CaseTrail(cases[id].status) else []
  }

  ghost predicate ClaimTrails(audit: seq<AuditEvent>, claims: map<Id, Claim>) {
    forall id :: Trail(audit, ClaimObject, id) == if id in claims then ClaimTrail(claims[id].status) else []
  }

  ghost predicate InquiryTrails(audit: seq<AuditEvent>, inquiries: map<Id, Inquiry>) {
    forall id :: Trail(audit, InquiryObject, id)
                 == if id in inquiries then InquiryTrail(inquiries[id].receivedParts) else []
  }

  // -------------------------------------------------------- the conjunction

  ghost predicate Inv(d: Database, limit: int) {
    && CasesOk(d.cases) && Barrier(d.cases, d.inquiries)
    && InquiriesOk(d.cases.Keys, d.inquiries, d.results) && InstitutionsDistinct(d.inquiries)
    && AccountsOk(d.accounts, d.inquiries) && AccountKeysUnique(d.accounts)
    && CasesClaimed(d.cases, d.claims) && ClaimsOk(d.accounts, d.claims, d.links, limit)
    && ReservationsOk(d.accounts, d.claims, d.links)
    && PayoutsOk(d.payouts, d.claims) && MoneyConserved(d.payouts, d.accounts)
    && JobsOk(d.jobs, d.inquiries, d.payouts) && JobsCover(d.jobs, d.inquiries.Keys, d.payouts.Keys)
    && KeysOk(d.keys, d.cases)
    && CaseTrails(d.audit, d.cases) && ClaimTrails(d.audit, d.claims) && InquiryTrails(d.audit, d.inquiries)
  }

  // ------------------------------------------------------------ audit steps

  lemma TrailAppend(audit: seq<AuditEvent>, e: AuditEvent, kind: ObjectKind, id: Id)
    ensures Trail(audit + [e], kind, id)
            == Trail(audit, kind, id) + if e.kind == kind && e.objectId == id then [e.action] else []
  {}

  /** An event about another kind of object leaves a trail alone. */
  lemma TrailsElsewhere(audit: seq<AuditEvent>, e: AuditEvent, d: Database)
    ensures e.kind != CaseObject && CaseTrails(audit, d.cases) ==> CaseTrails(audit + [e], d.cases)
    ensures e.kind != ClaimObject && ClaimTrails(audit, d.claims) ==> ClaimTrails(audit + [e], d.claims)
    ensures e.kind != InquiryObject && InquiryTrails(audit, d.inquiries) ==> InquiryTrails(audit + [e], d.inquiries)
  {}

  lemma CaseTrailStep(audit: seq<AuditEvent>, cases: map<Id, EstateCase>, e: AuditEvent, item: EstateCase)
    requires CaseTrails(audit, cases) && e.kind == CaseObject
    requires CaseTrail(item.status) == (if e.objectId in cases then CaseTrail(cases[e.objectId].status) else []) + [e.action]
    ensures CaseTrails(audit + [e], cases[e.objectId := item])
  {}

  lemma ClaimTrailStep(audit: seq<AuditEvent>, claims: map<Id, Claim>, e: AuditEvent, claim: Claim)
    requires ClaimTrails(audit, claims) && e.kind == ClaimObject
    requires ClaimTrail(claim.status) == (if e.objectId in claims then ClaimTrail(claims[e.objectId].status) else []) + [e.action]
    ensures ClaimTrails(audit + [e], claims[e.objectId := claim])
  {}

  lemma InquiryTrailGrows(parts: int)
    requires parts >= 1
    ensures InquiryTrail(parts) == InquiryTrail(parts - 1) + ["inquiry.result_recorded"]
  {}

  lemma InquiryTrailStep(audit: seq<AuditEvent>, inquiries: map<Id, Inquiry>, e: AuditEvent, q: Inquiry)
    requires InquiryTrails(audit, inquiries) && e.kind == InquiryObject && e.action == "inquiry.result_recorded"
    requires e.objectId in inquiries && 0 <= inquiries[e.objectId].receivedParts == q.receivedParts - 1
    ensures InquiryTrails(audit + [e], inquiries[e.objectId := q])
  {
    InquiryTrailGrows(q.receivedParts);
    hide InquiryTrail, Trail;
    forall id { TrailAppend(audit, e, InquiryObject, id); }
  }
}
