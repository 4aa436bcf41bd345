/** Creating, approving and paying claims keeps the invariant. */
module ClaimPreservation {
  import opened Timestamps
  import opened Domain
  import opened Sums
  import opened Workflow
  import opened Invariants
  import opened Preservation

  // ----------------------------------------------------------------- create

  lemma NewClaimOk(accounts: map<Id, Account>, caseId: Id, chosen: set<Id>, claimId: Id, claim: Claim, limit: int)
    requires chosen != {} && chosen <= accounts.Keys && AllEligible(accounts, chosen, limit)
    requires forall a | a in chosen :: accounts[a].key.caseId == caseId
    requires claim.caseId == caseId && claim.status == ClaimPending && claim.version == 1 && claim.currency == "CNY"
    requires claim.total == Sum(Balances(accounts, chosen)) <= limit
    ensures ClaimOk(accounts, claimId, claim, Balances(accounts, chosen), limit)
  {
    var linked := Balances(accounts, chosen);
    var a :| a in chosen;
    assert a in linked;
    SumLowerBound(linked, a);
  }

  lemma ClaimAdded(d: Database, claimId: Id, claim: Claim, linked: map<Id, int>, limit: int)
    requires ClaimsOk(d.accounts, d.claims, d.links, limit) && ReservationsOk(d.accounts, d.claims, d.links)
    requires PayoutsOk(d.payouts, d.claims) && claimId !in d.claims && claim.status == ClaimPending
    requires ClaimOk(d.accounts, claimId, claim, linked, limit)
    ensures var claims, links := d.claims[claimId := claim], d.links[claimId := linked];
            && ClaimsOk(d.accounts, claims, links, limit) && ReservationsOk(d.accounts, claims, links)
            && PayoutsOk(d.payouts, claims)
  {
    hide ClaimOk, HasPayout;
    var claims := d.claims[claimId := claim];
    forall p | p in d.payouts ensures PayoutOk(d.payouts[p], claims) {
      assert PayoutOk(d.payouts[p], d.claims);
    }
  }

  lemma CaseClaimed(d: Database, caseId: Id, item: EstateCase, claimId: Id, claim: Claim)
    requires CasesOk(d.cases) && Barrier(d.cases, d.inquiries) && CasesClaimed(d.cases, d.claims) && KeysOk(d.keys, d.cases)
    requires caseId in d.cases && d.cases[caseId].status == CaseEligible && d.cases[caseId].Transition(CaseClaiming) == Ok(item)
    requires claimId !in d.claims && claim.caseId == caseId && claim.claimant == d.cases[caseId].claimant
    ensures var cases := d.cases[caseId := item];
            && CasesOk(cases) && Barrier(cases, d.inquiries) && CasesClaimed(cases, d.claims[claimId := claim]) && KeysOk(d.keys, cases)
  {
    hide KeysOk, HasInquiry, Complete;
    CaseMoved(d, d.inquiries, caseId, item);
    forall c | c in d.claims ensures d.claims[c].caseId != caseId {
      assert Claimed(d.cases, d.claims[c]);
    }
  }

  lemma TrailKept(audit: seq<AuditEvent>, cases: map<Id, EstateCase>, caseId: Id, item: EstateCase)
    requires CaseTrails(audit, cases) && caseId in cases && CaseTrail(item.status) == CaseTrail(cases[caseId].status)
    ensures CaseTrails(audit, cases[caseId := item])
  {}

  lemma CreateClaimKeeps(d: Database, actor: Principal, caseId: Id, ids: seq<Id>, claimId: Id, limit: int)
    requires Inv(d, limit) && CreateClaim(d, actor, caseId, ids, claimId, limit).Committed?
    ensures Inv(CreateClaim(d, actor, caseId, ids, claimId, limit).database, limit)
  {
    hide Trail, CasesOk, Barrier, CasesClaimed, KeysOk, CaseTrails, ClaimTrails, InquiryTrails, ClaimOk, Balances, AllEligible, Sum,
      InstitutionsDistinct, AccountsOk, AccountKeysUnique, ClaimsOk, ReservationsOk, PayoutsOk, MoneyConserved, JobsOk, JobsCover,
      InquiriesOk;
    var chosen := Selected(d, caseId, ids);
    var linked := Balances(d.accounts, chosen);
    var claim := Claim(caseId, actor.userId, ClaimPending, Sum(linked), "CNY", 1, "");
    var item := d.cases[caseId].Transition(CaseClaiming).value;
    var e := AuditEvent(actor.userId, "claim.submitted", ClaimObject, claimId);
    NewClaimOk(d.accounts, caseId, chosen, claimId, claim, limit);
    ClaimAdded(d, claimId, claim, linked, limit);
    CaseClaimed(d, caseId, item, claimId, claim);
    assert CaseTrails(d.audit, d.cases[caseId := item]) by { TrailKept(d.audit, d.cases, caseId, item); }
    TrailsElsewhere(d.audit, e, d.(cases := d.cases[caseId := item]));
    ClaimTrailStep(d.audit, d.claims, e, claim);
    assert d.cases[caseId := item].Keys == d.cases.Keys;
  }

  // ---------------------------------------------------------------- approve

  /** What a pending claim offers the supervisor: nothing about its accounts
      can have changed since it was created. */
  lemma PendingClaimReservable(d: Database, claimId: Id, limit: int)
    requires ClaimsOk(d.accounts, d.claims, d.links, limit) && claimId in d.claims && d.claims[claimId].status == ClaimPending
    ensures var linked := LinksOf(d.links, claimId);
            && linked != map[] && Reservable(d.accounts, linked.Keys)
            && Sum(Balances(d.accounts, linked.Keys)) == Sum(linked) == d.claims[claimId].total
  {
    var claim, linked := d.claims[claimId], LinksOf(d.links, claimId);
    assert ClaimOk(d.accounts, claimId, claim, linked, limit);
    forall a | a in linked ensures Backs(d.accounts, a, linked[a], claimId, claim, limit) {}
    assert Balances(d.accounts, linked.Keys) == linked;
    var a :| a in linked;
    assert a in linked.Keys;
  }

  lemma ReservedAccountsOk(d: Database, ids: set<Id>, claimId: Id)
    requires AccountsOk(d.accounts, d.inquiries) && AccountKeysUnique(d.accounts)
    ensures AccountsOk(Reserve(d.accounts, ids, claimId), d.inquiries) && AccountKeysUnique(Reserve(d.accounts, ids, claimId))
  {}

  lemma ApprovedClaimOk(d: Database, claimId: Id, claim: Claim, limit: int)
    requires ClaimsOk(d.accounts, d.claims, d.links, limit) && CasesClaimed(d.cases, d.claims)
    requires claimId in d.claims && d.claims[claimId].status == ClaimPending
    requires claim.status == ClaimApproved && claim.version == 2 && claim.caseId == d.claims[claimId].caseId
    requires claim.total == d.claims[claimId].total && claim.currency == d.claims[claimId].currency
    ensures ClaimsOk(Reserve(d.accounts, LinksOf(d.links, claimId).Keys, claimId), d.claims[claimId := claim], d.links, limit)
  {
    var linked := LinksOf(d.links, claimId);
    var accounts := Reserve(d.accounts, linked.Keys, claimId);
    var claims := d.claims[claimId := claim];
    assert ClaimOk(d.accounts, claimId, d.claims[claimId], linked, limit);
    forall c | c in claims ensures ClaimOk(accounts, c, claims[c], LinksOf(d.links, c), limit) {
      assert ClaimOk(d.accounts, c, d.claims[c], LinksOf(d.links, c), limit);
      forall a | a in LinksOf(d.links, c) ensures Backs(accounts, a, LinksOf(d.links, c)[a], c, claims[c], limit) {
        assert Backs(d.accounts, a, LinksOf(d.links, c)[a], c, d.claims[c], limit);
        if a in linked { assert Backs(d.accounts, a, linked[a], claimId, d.claims[claimId], limit); }
      }
    }
  }

  lemma ApprovedReservations(d: Database, claimId: Id, claim: Claim)
    requires ReservationsOk(d.accounts, d.claims, d.links) && claimId in d.claims && claim.status == ClaimApproved
    ensures ReservationsOk(Reserve(d.accounts, LinksOf(d.links, claimId).Keys, claimId), d.claims[claimId := claim], d.links)
  {}

  lemma ApprovedPayouts(d: Database, claimId: Id, claim: Claim, payoutId: Id, payout: Payout)
    requires PayoutsOk(d.payouts, d.claims) && claimId in d.claims && d.claims[claimId].status == ClaimPending
    requires claim.status == ClaimApproved && CanInsertPayout(d, payoutId, payout)
    requires payout.claimId == claimId && payout.amount == claim.total && payout.currency == claim.currency
    requires payout.status == PayoutPending && payout.attempts == 0
    ensures PayoutsOk(d.payouts[payoutId := payout], d.claims[claimId := claim])
  {
    var payouts, claims := d.payouts[payoutId := payout], d.claims[claimId := claim];
    forall p | p in payouts ensures PayoutOk(payouts[p], claims) {
      if p != payoutId { assert PayoutOk(d.payouts[p], d.claims); }
    }
    forall c | c in claims && claims[c].status != ClaimPending ensures HasPayout(payouts, c) {
      if c == claimId {
        assert payouts[payoutId].claimId == c;
      } else {
        var p :| p in d.payouts && d.payouts[p].claimId == c;
        assert payouts[p].claimId == c;
      }
    }
  }

  lemma ReservedAfter(accounts: map<Id, Account>, ids: set<Id>, claimId: Id)
    requires Reservable(accounts, ids)
    ensures ReservedBalances(Reserve(accounts, ids, claimId)) == ReservedBalances(accounts) + Balances(accounts, ids)
    ensures ReservedBalances(accounts).Keys !! Balances(accounts, ids).Keys
  {}

  /** The payout adds what the reservation adds. */
  lemma ApprovedMoney(d: Database, claimId: Id, payoutId: Id, payout: Payout)
    requires MoneyConserved(d.payouts, d.accounts) && payoutId !in d.payouts
    requires Reservable(d.accounts, LinksOf(d.links, claimId).Keys)
    requires payout.amount == Sum(Balances(d.accounts, LinksOf(d.links, claimId).Keys))
    ensures MoneyConserved(d.payouts[payoutId := payout], Reserve(d.accounts, LinksOf(d.links, claimId).Keys, claimId))
  {
    var ids := LinksOf(d.links, claimId).Keys;
    var after := Reserve(d.accounts, ids, claimId);
    ReservedAfter(d.accounts, ids, claimId);
    SumUnion(ReservedBalances(d.accounts), Balances(d.accounts, ids));
    assert PayoutAmounts(d.payouts[payoutId := payout]) == PayoutAmounts(d.payouts)[payoutId := payout.amount];
    SumPut(PayoutAmounts(d.payouts), payoutId, payout.amount);
  }

  lemma PayoutJobInserted(d: Database, payoutId: Id, payout: Payout, jobId: Id, job: Job)
    requires JobsOk(d.jobs, d.inquiries, d.payouts) && JobsCover(d.jobs, d.inquiries.Keys, d.payouts.Keys)
    requires payoutId !in d.payouts && payout.status == PayoutPending
    requires CanInsertJob(d, jobId, job) && job.kind == ExecutePayout && job.resourceId == payoutId && job.status == JobPending
    ensures var payouts, jobs := d.payouts[payoutId := payout], d.jobs[jobId := job];
            JobsOk(jobs, d.inquiries, payouts) && JobsCover(jobs, d.inquiries.Keys, payouts.Keys)
  {
    var payouts, jobs := d.payouts[payoutId := payout], d.jobs[jobId := job];
    forall j | j in jobs ensures JobOk(j, jobs[j], d.inquiries, payouts) {
      if j != jobId { assert JobOk(j, d.jobs[j], d.inquiries, d.payouts); }
    }
    forall q | q in d.inquiries ensures HasJob(jobs, DispatchInquiry, q) {
      CoverKept(d.jobs, jobId, job, DispatchInquiry, q);
    }
    forall p | p in payouts ensures HasJob(jobs, ExecutePayout, p) {
      if p == payoutId {
        assert jobs[jobId].resourceId == p;
      } else {
        CoverKept(d.jobs, jobId, job, ExecutePayout, p);
      }
    }
  }

  /** A claim's case does not change with its status. */
  lemma ClaimedKept(cases: map<Id, EstateCase>, claims: map<Id, Claim>, c: Id, claim: Claim)
    requires CasesClaimed(cases, claims) && c in claims && claim.caseId == claims[c].caseId && claim.claimant == claims[c].claimant
    ensures CasesClaimed(cases, claims[c := claim])
  {}

  /** Only a pending claim can be approved. */
  lemma ApprovedWasPending(d: Database, actor: Principal, claimId: Id, payoutKey: string, expected: int,
                           payoutId: Id, jobId: Id, maxAttempts: int, now: Instant, limit: int)
    requires Approve(d, actor, claimId, payoutKey, expected, payoutId, jobId, maxAttempts, now).Committed?
    requires ClaimsOk(d.accounts, d.claims, d.links, limit)
    ensures claimId in d.claims && d.claims[claimId].status == ClaimPending && d.claims[claimId].version == 1
  {}

  lemma PayoutIsNew(d: Database, payoutId: Id, payout: Payout)
    requires CanInsertPayout(d, payoutId, payout)
    ensures payoutId !in d.payouts
  {}

  lemma ApproveKeeps(d: Database, actor: Principal, claimId: Id, payoutKey: string, expected: int,
                     payoutId: Id, jobId: Id, maxAttempts: int, now: Instant, limit: int)
    requires Inv(d, limit)
    requires Approve(d, actor, claimId, payoutKey, expected, payoutId, jobId, maxAttempts, now).Committed?
    ensures Inv(Approve(d, actor, claimId, payoutKey, expected, payoutId, jobId, maxAttempts, now).database, limit)
  {
    hide Trail, CasesOk, Barrier, CasesClaimed, KeysOk, CaseTrails, ClaimTrails, InquiryTrails, ClaimOk, Reserve, Reservable,
      InstitutionsDistinct, AccountsOk, AccountKeysUnique, ClaimsOk, ReservationsOk, PayoutsOk, MoneyConserved, JobsOk, JobsCover,
      InquiriesOk, CanInsertPayout, CanInsertJob;
    ApprovedWasPending(d, actor, claimId, payoutKey, expected, payoutId, jobId, maxAttempts, now, limit);
    var claim := d.claims[claimId].Transition(ClaimApproved, actor.userId).value;
    var payout, job := NewPayout(claimId, claim, payoutKey), NewJob(ExecutePayout, payoutId, maxAttempts, now);
    var e := AuditEvent(actor.userId, "claim.approved", ClaimObject, claimId);
    PendingClaimReservable(d, claimId, limit);
    ReservedAccountsOk(d, LinksOf(d.links, claimId).Keys, claimId);
    ApprovedClaimOk(d, claimId, claim, limit);
    ApprovedReservations(d, claimId, claim);
    ApprovedPayouts(d, claimId, claim, payoutId, payout);
    assert payoutId !in d.payouts by { PayoutIsNew(d, payoutId, payout); }
    ApprovedMoney(d, claimId, payoutId, payout);
    PayoutJobInserted(d, payoutId, payout, jobId, job);
    ClaimedKept(d.cases, d.claims, claimId, claim);
    TrailsElsewhere(d.audit, e, d);
    ClaimTrailStep(d.audit, d.claims, e, claim);
  }

  // ---------------------------------------------------------------- payouts

  lemma PayoutMovedJobs(d: Database, payoutId: Id, payout: Payout)
    requires JobsOk(d.jobs, d.inquiries, d.payouts) && payoutId in d.payouts && payout.status != PayoutPending
    ensures JobsOk(d.jobs, d.inquiries, d.payouts[payoutId := payout])
  {}

  lemma PayoutMovedMoney(d: Database, payoutId: Id, payout: Payout)
    requires MoneyConserved(d.payouts, d.accounts) && payoutId in d.payouts && payout.amount == d.payouts[payoutId].amount
    ensures MoneyConserved(d.payouts[payoutId := payout], d.accounts)
  {
    assert PayoutAmounts(d.payouts[payoutId := payout]) == PayoutAmounts(d.payouts);
  }

  lemma PayoutMoved(payouts: map<Id, Payout>, claims: map<Id, Claim>, payoutId: Id, payout: Payout, claim: Claim)
    requires PayoutsOk(payouts, claims) && payoutId in payouts && payout.claimId == payouts[payoutId].claimId
    requires payout.claimId in claims && claim.status != ClaimPending && claims[payout.claimId].status != ClaimPending
    requires PayoutOk(payout, claims[payout.claimId := claim])
    ensures PayoutsOk(payouts[payoutId := payout], claims[payout.claimId := claim])
  {
    var after, claims' := payouts[payoutId := payout], claims[payout.claimId := claim];
    forall p | p in after ensures PayoutOk(after[p], claims') {
      assert PayoutOk(payouts[p], claims);
    }
    forall c | c in claims' && claims'[c].status != ClaimPending ensures HasPayout(after, c) {
      var p :| p in payouts && payouts[p].claimId == c;
      assert after[p].claimId == c;
    }
  }

  lemma MarkPayoutSubmittedKeeps(d: Database, payoutId: Id, limit: int)
    requires Inv(d, limit) && MarkPayoutSubmitted(d, payoutId).Committed?
    ensures Inv(MarkPayoutSubmitted(d, payoutId).database, limit)
  {
    hide Trail, CasesOk, Barrier, CasesClaimed, KeysOk, CaseTrails, ClaimTrails, InquiryTrails,
      InstitutionsDistinct, AccountsOk, AccountKeysUnique, ClaimsOk, ReservationsOk, MoneyConserved, JobsOk, JobsCover, InquiriesOk;
    var p := d.payouts[payoutId];
    if p.status == PayoutPending {
      assert PayoutOk(p, d.claims);
      var q := p.(status := PayoutSubmitted, attempts := p.attempts + 1);
      assert d.claims[p.claimId := d.claims[p.claimId]] == d.claims;
      PayoutMoved(d.payouts, d.claims, payoutId, q, d.claims[p.claimId]);
      PayoutMovedJobs(d, payoutId, q);
      PayoutMovedMoney(d, payoutId, q);
      assert d.payouts[payoutId := q].Keys == d.payouts.Keys;
    }
  }

  lemma PaidBacking(accounts: map<Id, Account>, claimId: Id, before: Claim, claim: Claim, linked: map<Id, int>, limit: int)
    requires ClaimOk(accounts, claimId, before, linked, limit) && before.status == ClaimApproved
    requires claim == before.(status := ClaimPaid, version := before.version + 1)
    ensures ClaimOk(accounts, claimId, claim, linked, limit)
  {
    hide Sum;
    forall a | a in linked ensures Backs(accounts, a, linked[a], claimId, claim, limit) {
      assert Backs(accounts, a, linked[a], claimId, before, limit);
    }
  }

  lemma PaidReservations(d: Database, claimId: Id, claim: Claim)
    requires ReservationsOk(d.accounts, d.claims, d.links) && claimId in d.claims && claim.status == ClaimPaid
    ensures ReservationsOk(d.accounts, d.claims[claimId := claim], d.links)
  {}

  lemma PaidClaimOk(d: Database, claimId: Id, claim: Claim, limit: int)
    requires ClaimsOk(d.accounts, d.claims, d.links, limit) && ReservationsOk(d.accounts, d.claims, d.links)
    requires claimId in d.claims && d.claims[claimId].status == ClaimApproved
    requires claim == d.claims[claimId].(status := ClaimPaid, version := d.claims[claimId].version + 1)
    ensures ClaimsOk(d.accounts, d.claims[claimId := claim], d.links, limit)
    ensures ReservationsOk(d.accounts, d.claims[claimId := claim], d.links)
  {
    var linked := LinksOf(d.links, claimId);
    assert ClaimOk(d.accounts, claimId, d.claims[claimId], linked, limit);
    PaidBacking(d.accounts, claimId, d.claims[claimId], claim, linked, limit);
    PaidReservations(d, claimId, claim);
    hide ClaimOk, ReservationsOk;
  }

  /** The unchecked UPDATE always hits: an open payout's claim is approved. */
  lemma ConfirmHitsClaim(d: Database, payoutId: Id)
    requires PayoutsOk(d.payouts, d.claims) && payoutId in d.payouts && d.payouts[payoutId].status in {PayoutPending, PayoutSubmitted}
    ensures d.payouts[payoutId].claimId in d.claims && d.claims[d.payouts[payoutId].claimId].status == ClaimApproved
    ensures PayoutOk(d.payouts[payoutId], d.claims)
  {}

  lemma ClaimTrailKept(audit: seq<AuditEvent>, claims: map<Id, Claim>, c: Id, claim: Claim)
    requires ClaimTrails(audit, claims) && c in claims && ClaimTrail(claim.status) == ClaimTrail(claims[c].status)
    ensures ClaimTrails(audit, claims[c := claim])
  {}

  lemma ConfirmPayoutKeeps(d: Database, payoutId: Id, providerRef: string, limit: int)
    requires Inv(d, limit) && ConfirmPayout(d, payoutId, providerRef).Committed?
    ensures Inv(ConfirmPayout(d, payoutId, providerRef).database, limit)
  {
    hide Trail, CasesOk, Barrier, CasesClaimed, KeysOk, CaseTrails, ClaimTrails, InquiryTrails, PayoutsOk,
      InstitutionsDistinct, AccountsOk, AccountKeysUnique, ClaimsOk, ReservationsOk, MoneyConserved, JobsOk, JobsCover, InquiriesOk;
    var p := d.payouts[payoutId];
    ConfirmHitsClaim(d, payoutId);
    var q := p.(status := PayoutConfirmed, providerRef := providerRef, attempts := p.attempts + 1);
    var claim := d.claims[p.claimId].(status := ClaimPaid, version := d.claims[p.claimId].version + 1);
    PaidClaimOk(d, p.claimId, claim, limit);
    PayoutMoved(d.payouts, d.claims, payoutId, q, claim);
    PayoutMovedJobs(d, payoutId, q);
    PayoutMovedMoney(d, payoutId, q);
    ClaimedKept(d.cases, d.claims, p.claimId, claim);
    ClaimTrailKept(d.audit, d.claims, p.claimId, claim);
    assert d.payouts[payoutId := q].Keys == d.payouts.Keys;
  }
}
