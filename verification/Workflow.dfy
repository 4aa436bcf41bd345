/** The transactions of the service, each as a function from the database to
    the committed database or a rollback. */
module Workflow {
  import opened Timestamps
  import opened Domain
  import opened Sums
  import TextOrder

  const DAY_OF_KEYS: nat := 24 * 3600 * SECOND

  function Audited(d: Database, event: AuditEvent): Database {
    d.(audit := d.audit + [event])
  }

  predicate KeyLength(s: string) { 8 <= |s| <= 128 }

  // -------------------------------------------------- internal/cases/service.go

  datatype Submission = Submission(caseId: Id, item: EstateCase, replayed: bool)

  /** GetIdempotency: the test on expires_at compares texts. */
  predicate LiveKey(d: Database, key: string, now: Instant) {
    key in d.keys && !TextLessEq(d.keys[key].expiresAt, now)
  }

  /** ValidateReplay. */
  predicate SameRequest(record: IdempotencyRecord, actor: Id, input: SubmitInput) {
    && record.actor == actor && record.httpMethod == "POST" && record.route == "/v1/cases"
    && record.requestHash == Sha256(input)
  }

  function Submit(d: Database, actor: Principal, input: SubmitInput, key: string, now: Instant, caseId: Id)
    : Outcome<Submission>
  {
    if actor.role != Claimant then RolledBack(Forbidden)
    else if !input.wellFormed || !KeyLength(key) then RolledBack(ValidationFailed)
    else if LiveKey(d, key, now) then
      var record := d.keys[key];
      if !SameRequest(record, actor.userId, input) then RolledBack(Conflict)
      else if record.resourceId !in d.cases then RolledBack(NotFound)
      else Committed(d, Submission(record.resourceId, d.cases[record.resourceId], true))
    else if caseId in d.cases || key in d.keys then RolledBack(StorageFault)
    else
      var item := EstateCase(actor.userId, CaseSubmitted, 1);
      var record := IdempotencyRecord(actor.userId, "POST", "/v1/cases", Sha256(input), caseId, now + DAY_OF_KEYS);
      Committed(Audited(d.(cases := d.cases[caseId := item], keys := d.keys[key := record]),
                        AuditEvent(actor.userId, "case.submitted", CaseObject, caseId)),
                Submission(caseId, item, false))
  }

  function StartReview(d: Database, actor: Principal, caseId: Id, expected: int): Outcome<()> {
    if !actor.role.Operational() then RolledBack(Forbidden)
    else if caseId !in d.cases then RolledBack(NotFound)
    else if d.cases[caseId].version != expected then RolledBack(VersionConflict)
    else match d.cases[caseId].Transition(CaseReviewing)
      case Err(e) => RolledBack(e)
      case Ok(item) =>
        Committed(Audited(d.(cases := d.cases[caseId := item]),
                          AuditEvent(actor.userId, "case.review_started", CaseObject, caseId)), ())
  }

  // ------------------------------------------------ internal/inquiry/service.go

  /** One institution to ask, with the generated ids of its inquiry and job. */
  datatype Request = Request(institution: Id, inquiryId: Id, jobId: Id, expectedParts: int)

  function NewInquiry(caseId: Id, requestKey: string, r: Request): Inquiry {
    Inquiry(caseId, r.institution, requestKey, InquiryPending, "", r.expectedParts, 0, 1)
  }

  function NewJob(kind: JobKind, resourceId: Id, maxAttempts: int, now: Instant): Job {
    Job(kind, resourceId, JobPending, 0, maxAttempts, now, "", None)
  }

  /** The constraints on inquiries and worker_jobs admit the two rows. */
  predicate CanInsertInquiry(d: Database, id: Id, row: Inquiry) {
    && id !in d.inquiries && row.expectedParts > 0
    && forall q | q in d.inquiries ::
         !(d.inquiries[q].caseId == row.caseId && d.inquiries[q].institution == row.institution
           && d.inquiries[q].requestKey == row.requestKey)
  }

  predicate CanInsertJob(d: Database, id: Id, row: Job) {
    && id !in d.jobs && row.maxAttempts > 0
    && forall j | j in d.jobs :: !(d.jobs[j].kind == row.kind && d.jobs[j].resourceId == row.resourceId)
  }

  /** The loop of Dispatch over the institutions. */
  function InsertRequests(d: Database, caseId: Id, requestKey: string, rs: seq<Request>, maxAttempts: int, now: Instant)
    : Outcome<()>
    decreases |rs|
  {
    if rs == [] then Committed(d, ())
    else
      var r := rs[0];
      var inquiry, job := NewInquiry(caseId, requestKey, r), NewJob(DispatchInquiry, r.inquiryId, maxAttempts, now);
      if !CanInsertInquiry(d, r.inquiryId, inquiry) || !CanInsertJob(d, r.jobId, job) then RolledBack(StorageFault)
      else InsertRequests(d.(inquiries := d.inquiries[r.inquiryId := inquiry], jobs := d.jobs[r.jobId := job]),
                          caseId, requestKey, rs[1..], maxAttempts, now)
  }

  function Dispatch(d: Database, actor: Principal, caseId: Id, requestKey: string, expected: int,
                    rs: seq<Request>, maxAttempts: int, now: Instant): Outcome<()>
  {
    if !actor.role.Operational() then RolledBack(Forbidden)
    else if !KeyLength(requestKey) then RolledBack(ValidationFailed)
    else if rs == [] then RolledBack(DependencyFailure)
    else if caseId !in d.cases then RolledBack(NotFound)
    else if d.cases[caseId].status != CaseReviewing then RolledBack(InvalidState)
    else if d.cases[caseId].version != expected then RolledBack(VersionConflict)
    else match InsertRequests(d, caseId, requestKey, rs, maxAttempts, now)
      case RolledBack(e) => RolledBack(e)
      case Committed(d1, _) =>
        match d.cases[caseId].Transition(CaseInquiring)
        case Err(e) => RolledBack(e)
        case Ok(item) =>
          Committed(Audited(d1.(cases := d1.cases[caseId := item]),
                            AuditEvent(actor.userId, "inquiries.dispatched", CaseObject, caseId)), ())
  }

  predicate ValidResult(a: AccountResult) {
    a.externalReference != "" && a.holding.balance >= 0 && a.holding.currency != "" && a.holding.kind.Valid()
  }

  predicate ValidInput(input: ResultInput) {
    && input.partKey != "" && |input.partKey| <= 128
    && forall i | 0 <= i < |input.accounts| :: ValidResult(input.accounts[i])
  }

  function KeyOf(q: Inquiry, a: AccountResult): AccountKey {
    AccountKey(q.caseId, q.institution, Sha256(a.externalReference))
  }

  predicate HasKey(accounts: map<Id, Account>, id: Id, key: AccountKey) {
    id in accounts && accounts[id].key == key
  }

  /** UpsertFinancialAccount: insert, or on the unique columns overwrite the
      reported data of a row that is not reserved. */
  ghost function Upsert(accounts: map<Id, Account>, id: Id, inquiryId: Id, key: AccountKey, holding: Holding)
    : Result<map<Id, Account>>
  {
    if id in accounts then Err(StorageFault)
    else if row :| HasKey(accounts, row, key) then
      var current := accounts[row];
      Ok(if current.reservedBy == None
         then accounts[row := Account(key, inquiryId, holding, None, current.version + 1)] else accounts)
    else Ok(accounts[id := Account(key, inquiryId, holding, None, 1)])
  }

  /** The loop of RecordResult over the delivered accounts.  `ids` are the ids
      the generator hands out; running out of them is a failing generator. */
  ghost function UpsertAll(accounts: map<Id, Account>, inquiryId: Id, q: Inquiry, rs: seq<AccountResult>, ids: seq<Id>)
    : Result<map<Id, Account>>
    decreases |rs|
  {
    if rs == [] then Ok(accounts)
    else if ids == [] then Err(StorageFault)
    else match Upsert(accounts, ids[0], inquiryId, KeyOf(q, rs[0]), rs[0].holding)
      case Err(e) => Err(e)
      case Ok(next) => UpsertAll(next, inquiryId, q, rs[1..], ids[1..])
  }

  predicate Complete(inquiries: map<Id, Inquiry>, caseId: Id) {
    forall q | q in inquiries && inquiries[q].caseId == caseId :: inquiries[q].status == InquiryCompleted
  }

  /** The inquiry after one more part. */
  function NextPart(q: Inquiry): Result<Inquiry> {
    var counted := q.(receivedParts := q.receivedParts + 1);
    counted.Transition(if counted.receivedParts >= counted.expectedParts then InquiryCompleted else InquiryPartial)
  }

  /** The case row once an inquiry of it has been updated. */
  function AfterResult(cases: map<Id, EstateCase>, inquiries: map<Id, Inquiry>, caseId: Id)
    : Result<map<Id, EstateCase>>
  {
    if !Complete(inquiries, caseId) then Ok(cases)
    else if caseId !in cases then Err(NotFound)
    else match cases[caseId].Transition(CaseEligible)
      case Err(e) => Err(e)
      case Ok(item) => Ok(cases[caseId := item])
  }

  ghost function RecordResult(d: Database, inquiryId: Id, input: ResultInput, ids: seq<Id>): Outcome<Inquiry> {
    if !ValidInput(input) then RolledBack(ValidationFailed)
    else if inquiryId !in d.inquiries then RolledBack(NotFound)
    else
      var q, parts := d.inquiries[inquiryId], PartsOf(d.results, inquiryId);
      if input.partKey in parts then
        if parts[input.partKey] != Sha256(input) then RolledBack(Conflict) else Committed(d, q)
      else if q.status != InquiryDispatched && q.status != InquiryPartial then RolledBack(InvalidState)
      else match (UpsertAll(d.accounts, inquiryId, q, input.accounts, ids), NextPart(q))
        case (Err(e), _) => RolledBack(e)
        case (_, Err(e)) => RolledBack(e)
        case (Ok(accounts), Ok(q1)) =>
          var inquiries := d.inquiries[inquiryId := q1];
          match AfterResult(d.cases, inquiries, q.caseId)
          case Err(e) => RolledBack(e)
          case Ok(cases) =>
            Committed(Audited(d.(results := d.results[inquiryId := parts[input.partKey := Sha256(input)]],
                                 accounts := accounts, inquiries := inquiries, cases := cases),
                              AuditEvent("system", "inquiry.result_recorded", InquiryObject, inquiryId)), q1)
  }

  function MarkDispatched(d: Database, inquiryId: Id, externalRef: string): Outcome<()> {
    if inquiryId !in d.inquiries then RolledBack(NotFound)
    else
      var q := d.inquiries[inquiryId];
      if q.status in {InquiryDispatched, InquiryPartial, InquiryCompleted} then
        if q.externalRef == externalRef then Committed(d, ()) else RolledBack(Conflict)
      else match q.Transition(InquiryDispatched)
        case Err(e) => RolledBack(e)
        case Ok(q1) =>
          Committed(d.(inquiries := d.inquiries[inquiryId := q1.(externalRef := externalRef)]), ())
  }

  // ------------------------------------------------- internal/claims/service.go

  /** The rows selectAccounts keeps. */
  ghost function Selected(d: Database, caseId: Id, ids: seq<Id>): set<Id> {
    set a | a in d.accounts && d.accounts[a].key.caseId == caseId && a in ids
  }

  ghost function Balances(accounts: map<Id, Account>, ids: set<Id>): map<Id, int> {
    map a | a in ids && a in accounts :: accounts[a].holding.balance
  }

  ghost predicate AllEligible(accounts: map<Id, Account>, ids: set<Id>, limit: int) {
    forall a | a in ids && a in accounts :: accounts[a].EligibleForSmallClaim(limit)
  }

  ghost function CreateClaim(d: Database, actor: Principal, caseId: Id, ids: seq<Id>, claimId: Id, limit: int)
    : Outcome<Claim>
  {
    if actor.role != Claimant then RolledBack(Forbidden)
    else if |ids| == 0 || |ids| > 50 then RolledBack(ValidationFailed)
    else if caseId !in d.cases then RolledBack(NotFound)
    else if d.cases[caseId].claimant != actor.userId then RolledBack(Forbidden)
    else if d.cases[caseId].status != CaseEligible then RolledBack(InvalidState)
    else
      var chosen := Selected(d, caseId, ids);
      var amounts := Balances(d.accounts, chosen);
      if |chosen| != |ids| then RolledBack(ValidationFailed)
      else if !AllEligible(d.accounts, chosen, limit) || Sum(amounts) > limit then RolledBack(Conflict)
      else if claimId in d.claims then RolledBack(StorageFault)
      else match d.cases[caseId].Transition(CaseClaiming)
        case Err(e) => RolledBack(e)
        case Ok(item) =>
          var claim := Claim(caseId, actor.userId, ClaimPending, Sum(amounts), "CNY", 1, "");
          Committed(Audited(d.(claims := d.claims[claimId := claim], links := d.links[claimId := amounts],
                               cases := d.cases[caseId := item]),
                            AuditEvent(actor.userId, "claim.submitted", ClaimObject, claimId)), claim)
  }

  /** Every UPDATE of ReserveAccounts matches its row. */
  predicate Reservable(accounts: map<Id, Account>, ids: set<Id>) {
    forall a | a in ids :: a in accounts && !accounts[a].holding.restricted && accounts[a].reservedBy == None
  }

  function Reserve(accounts: map<Id, Account>, ids: set<Id>, claimId: Id): map<Id, Account> {
    map a | a in accounts ::
      if a in ids then accounts[a].(reservedBy := Some(claimId), version := accounts[a].version + 1)
      else accounts[a]
  }

  predicate CanInsertPayout(d: Database, id: Id, row: Payout) {
    && id !in d.payouts && row.amount > 0
    && forall p | p in d.payouts ::
         d.payouts[p].claimId != row.claimId && d.payouts[p].idempotencyKey != row.idempotencyKey
  }

  function NewPayout(claimId: Id, claim: Claim, payoutKey: string): Payout {
    Payout(claimId, payoutKey, PayoutPending, claim.total, claim.currency, "", 0)
  }

  function Approve(d: Database, actor: Principal, claimId: Id, payoutKey: string, expected: int,
                   payoutId: Id, jobId: Id, maxAttempts: int, now: Instant): Outcome<Payout>
  {
    if actor.role != Supervisor then RolledBack(Forbidden)
    else if !KeyLength(payoutKey) then RolledBack(ValidationFailed)
    else if claimId !in d.claims then RolledBack(NotFound)
    else if d.claims[claimId].version != expected then RolledBack(VersionConflict)
    else
      var linked := LinksOf(d.links, claimId).Keys;
      if linked == {} || !Reservable(d.accounts, linked) then RolledBack(Conflict)
      else match d.claims[claimId].Transition(ClaimApproved, actor.userId)
        case Err(e) => RolledBack(e)
        case Ok(claim) =>
          var payout, job := NewPayout(claimId, claim, payoutKey), NewJob(ExecutePayout, payoutId, maxAttempts, now);
          if !CanInsertPayout(d, payoutId, payout) || !CanInsertJob(d, jobId, job) then RolledBack(StorageFault)
          else Committed(Audited(d.(accounts := Reserve(d.accounts, linked, claimId),
                                    claims := d.claims[claimId := claim],
                                    payouts := d.payouts[payoutId := payout], jobs := d.jobs[jobId := job]),
                                 AuditEvent(actor.userId, "claim.approved", ClaimObject, claimId)), payout)
  }

  // --------------------------------------------------- internal/store/claims.go

  function MarkPayoutSubmitted(d: Database, payoutId: Id): Outcome<()> {
    if payoutId !in d.payouts then RolledBack(NotFound)
    else
      var p := d.payouts[payoutId];
      if p.status == PayoutPending then
        Committed(d.(payouts := d.payouts[payoutId := p.(status := PayoutSubmitted, attempts := p.attempts + 1)]), ())
      else if p.status == PayoutSubmitted || p.status == PayoutConfirmed then Committed(d, ())
      else RolledBack(Conflict)
  }

  /** The claim UPDATE of ConfirmPayout, whose row count nobody checks. */
  function MarkPaid(claims: map<Id, Claim>, claimId: Id): map<Id, Claim> {
    if claimId in claims && claims[claimId].status in {ClaimApproved, ClaimPaying} then
      claims[claimId := claims[claimId].(status := ClaimPaid, version := claims[claimId].version + 1)]
    else claims
  }

  function ConfirmPayout(d: Database, payoutId: Id, providerRef: string): Outcome<()> {
    if payoutId !in d.payouts || d.payouts[payoutId].status !in {PayoutPending, PayoutSubmitted} then
      RolledBack(Conflict)
    else
      var p := d.payouts[payoutId];
      var q := p.(status := PayoutConfirmed, providerRef := providerRef, attempts := p.attempts + 1);
      Committed(d.(payouts := d.payouts[payoutId := q], claims := MarkPaid(d.claims, p.claimId)), ())
  }

  // ----------------------------------------------------- internal/store/jobs.go

  predicate LeaseExpired(job: Job, now: Instant) {
    job.status == JobRunning && job.leaseUntil.Some? && TextLessEq(job.leaseUntil.value, now)
  }

  function Recovered(job: Job, now: Instant): Job {
    if LeaseExpired(job, now)
    then job.(status := JobPending, leaseOwner := "", leaseUntil := None, availableAt := now) else job
  }

  function RecoverExpiredJobs(d: Database, now: Instant): Database {
    d.(jobs := map j | j in d.jobs :: Recovered(d.jobs[j], now))
  }

  predicate Due(job: Job, now: Instant) {
    job.status == JobPending && TextLessEq(job.availableAt, now)
  }

  /** ORDER BY available_at, id. */
  predicate QueuedBefore(jobs: map<Id, Job>, i: Id, j: Id)
    requires i in jobs && j in jobs
  {
    var a, b := FormatTime(jobs[i].availableAt), FormatTime(jobs[j].availableAt);
    TextOrder.Less(a, b) || (a == b && TextOrder.LessEq(i, j))
  }

  /** The row ClaimJob's SELECT returns. */
  predicate NextDue(jobs: map<Id, Job>, id: Id, now: Instant) {
    id in jobs && Due(jobs[id], now) && forall j | j in jobs && Due(jobs[j], now) :: QueuedBefore(jobs, id, j)
  }

  function Leased(job: Job, owner: string, until: Instant): Job {
    job.(status := JobRunning, attempts := job.attempts + 1, leaseOwner := owner, leaseUntil := Some(until))
  }

  predicate HoldsLease(d: Database, id: Id, owner: string) {
    id in d.jobs && d.jobs[id].status == JobRunning && d.jobs[id].leaseOwner == owner
  }

  function CompleteJob(d: Database, id: Id, owner: string): Outcome<()> {
    if !HoldsLease(d, id, owner) then RolledBack(Conflict)
    else Committed(d.(jobs := d.jobs[id := d.jobs[id].(status := JobCompleted, leaseOwner := "", leaseUntil := None)]), ())
  }

  /** FailJob decides with the attempts of the caller's snapshot. */
  function FailJob(d: Database, id: Id, snapshot: Job, owner: string, now: Instant, retryAt: Instant): Outcome<()> {
    if !HoldsLease(d, id, owner) then RolledBack(Conflict)
    else
      var final := snapshot.attempts >= snapshot.maxAttempts;
      Committed(d.(jobs := d.jobs[id := d.jobs[id].(
        status := if final then JobFailed else JobPending, leaseOwner := "", leaseUntil := None,
        availableAt := if final then now else retryAt)]), ())
  }

  // ---------------------------------------------------------- cmd/server/main.go

  /** The handlers registered for the two kinds of job. */
  function RunHandler(d: Database, id: Id, job: Job): Outcome<()> {
    match job.kind
    case DispatchInquiry => MarkDispatched(d, job.resourceId, "outbox-" + id)
    case ExecutePayout => MarkPayoutSubmitted(d, job.resourceId)
  }
}
