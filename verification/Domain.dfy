/** Entities, statuses and transition tables (internal/domain). */
module Domain {
  import opened Timestamps

  type Id = string

  /** The kinds callers can tell apart.  StorageFault stands for a failing
      storage call, including a violated uniqueness or CHECK constraint. */
  datatype Error =
    | Forbidden | ValidationFailed | NotFound | Conflict | VersionConflict
    | InvalidState | DependencyFailure | StorageFault

  datatype Result<+T> = Ok(value: T) | Err(error: Error)

  /** SHA-256, idealised as an injective function. */
  datatype Digest<+T> = Sha256(preimage: T)

  datatype Role = Claimant | Officer | Supervisor {
    predicate Operational() { this != Claimant }
  }

  datatype Principal = Principal(userId: Id, role: Role)

  // ------------------------------------------------------------------ cases

  datatype CaseStatus =
    | CaseDraft | CaseSubmitted | CaseReviewing | CaseInquiring
    | CaseEligible | CaseClaiming | CaseClosed | CaseRejected
  {
    predicate CanTransition(to: CaseStatus) {
      match this
      case CaseDraft => to == CaseSubmitted
      case CaseSubmitted => to == CaseReviewing || to == CaseRejected
      case CaseReviewing => to == CaseInquiring || to == CaseRejected
      case CaseInquiring => to == CaseEligible || to == CaseRejected
      case CaseEligible => to == CaseClaiming || to == CaseClosed
      case CaseClaiming => to == CaseClosed
      case _ => false
    }
  }

  datatype EstateCase = EstateCase(claimant: Id, status: CaseStatus, version: int) {
    function Transition(to: CaseStatus): Result<EstateCase> {
      if status.CanTransition(to) then Ok(this.(status := to, version := version + 1))
      else Err(InvalidState)
    }
  }

  // -------------------------------------------------------------- inquiries

  datatype InquiryStatus =
    | InquiryPending | InquiryDispatched | InquiryPartial | InquiryCompleted | InquiryFailed
  {
    predicate CanTransition(to: InquiryStatus) {
      match this
      case InquiryPending => to == InquiryDispatched || to == InquiryFailed
      case InquiryDispatched => to == InquiryPartial || to == InquiryCompleted || to == InquiryFailed
      case InquiryPartial => to == InquiryPartial || to == InquiryCompleted || to == InquiryFailed
      case _ => false
    }
  }

  datatype Inquiry = Inquiry(
    caseId: Id, institution: Id, requestKey: string, status: InquiryStatus,
    externalRef: string, expectedParts: int, receivedParts: int, version: int)
  {
    function Transition(to: InquiryStatus): Result<Inquiry> {
      if status.CanTransition(to) then Ok(this.(status := to, version := version + 1))
      else Err(InvalidState)
    }
  }

  // --------------------------------------------------------------- accounts

  datatype AccountKind = Deposit | InsurancePolicy | Investment | UnknownKind {
    predicate Valid() { this != UnknownKind }
  }

  /** What an institution reports about an account. */
  datatype Holding = Holding(kind: AccountKind, currency: string, balance: int, restricted: bool, note: string)

  /** The columns of UNIQUE(case_id, institution_id, external_hash). */
  datatype AccountKey = AccountKey(caseId: Id, institution: Id, externalHash: Digest<string>)

  datatype Account = Account(
    key: AccountKey, inquiryId: Id, holding: Holding, reservedBy: Option<Id>, version: int)
  {
    predicate EligibleForSmallClaim(limit: int) {
      && holding.kind == Deposit && holding.currency == "CNY"
      && 0 < holding.balance <= limit && !holding.restricted && reservedBy == None
    }
  }

  // ------------------------------------------------------ claims and payouts

  datatype ClaimStatus =
    | ClaimDraft | ClaimPending | ClaimApproved | ClaimPaying | ClaimPaid | ClaimRejected | ClaimCancelled
  {
    predicate CanTransition(to: ClaimStatus) {
      match this
      case ClaimDraft => to == ClaimPending || to == ClaimCancelled
      case ClaimPending => to == ClaimApproved || to == ClaimRejected || to == ClaimCancelled
      case ClaimApproved => to == ClaimPaying || to == ClaimCancelled
      case ClaimPaying => to == ClaimPaid
      case _ => false
    }
  }

  datatype Claim = Claim(
    caseId: Id, claimant: Id, status: ClaimStatus, total: int, currency: string, version: int, approvedBy: Id)
  {
    function Transition(to: ClaimStatus, actor: Id): Result<Claim> {
      if status.CanTransition(to) then
        Ok(this.(status := to, version := version + 1,
                 approvedBy := if to == ClaimApproved then actor else approvedBy))
      else Err(InvalidState)
    }
  }

  datatype PayoutStatus = PayoutPending | PayoutSubmitted | PayoutConfirmed | PayoutFailed

  datatype Payout = Payout(
    claimId: Id, idempotencyKey: string, status: PayoutStatus, amount: int, currency: string,
    providerRef: string, attempts: int)

  // ------------------------------------------------------------------- jobs

  datatype JobKind = DispatchInquiry | ExecutePayout

  datatype JobStatus = JobPending | JobRunning | JobCompleted | JobFailed

  datatype Job = Job(
    kind: JobKind, resourceId: Id, status: JobStatus, attempts: int, maxAttempts: int,
    availableAt: Instant, leaseOwner: string, leaseUntil: Option<Instant>)

  // ----------------------------------------- idempotency records and audit

  datatype SubmitInput = SubmitInput(
    deceased: string, claimant: string, relation: string, jurisdiction: string, wellFormed: bool)

  datatype IdempotencyRecord = IdempotencyRecord(
    actor: Id, httpMethod: string, route: string, requestHash: Digest<SubmitInput>,
    resourceId: Id, expiresAt: Instant)

  datatype ObjectKind = CaseObject | InquiryObject | ClaimObject

  datatype AuditEvent = AuditEvent(actor: Id, action: string, kind: ObjectKind, objectId: Id)

  // ------------------------------------------------------ inquiry deliveries

  datatype AccountResult = AccountResult(externalReference: string, holding: Holding)

  datatype ResultInput = ResultInput(partKey: string, accounts: seq<AccountResult>)

  // ---------------------------------------------------------- the database

  /** The tables.  Each is keyed by its primary key; inquiry_results and
      claim_accounts are keyed by their two unique columns in turn. */
  datatype Database = Database(
    cases: map<Id, EstateCase>,
    inquiries: map<Id, Inquiry>,
    results: map<Id, map<string, Digest<ResultInput>>>,
    accounts: map<Id, Account>,
    claims: map<Id, Claim>,
    links: map<Id, map<Id, int>>,
    payouts: map<Id, Payout>,
    jobs: map<Id, Job>,
    keys: map<string, IdempotencyRecord>,
    audit: seq<AuditEvent>)

  function EmptyDatabase(): Database {
    Database(map[], map[], map[], map[], map[], map[], map[], map[], map[], [])
  }

  /** Rows of inquiry_results for one inquiry, by part key. */
  function PartsOf(results: map<Id, map<string, Digest<ResultInput>>>, inquiryId: Id): map<string, Digest<ResultInput>> {
    if inquiryId in results then results[inquiryId] else map[]
  }

  /** Rows of claim_accounts for one claim: linked account to amount. */
  function LinksOf(links: map<Id, map<Id, int>>, claimId: Id): map<Id, int> {
    if claimId in links then links[claimId] else map[]
  }

  /** The outcome of a transaction: the committed database, or a rollback. */
  datatype Outcome<+T> = Committed(database: Database, value: T) | RolledBack(error: Error)
}
