/** What the invariant and the direction of travel mean to users of the service,
    for every reachable state and every run. */
module Guarantees {
  import opened Timestamps
  import opened Domain
  import opened Sums
  import opened Workflow
  import opened Invariants
  import opened Preservation
  import opened ClaimPreservation
  import opened Progress
  import opened Runs
  import opened StepSafety
  import opened Selection

  // ----------------------------------------------------------- conservation

  /** The accounts reserved for a claim. */
  ghost function ReservedFor(accounts: map<Id, Account>, claimId: Id): set<Id> {
    set a | a in accounts && accounts[a].reservedBy == Some(claimId)
  }

  lemma InvClaim(d: Database, claimId: Id, limit: int)
    requires Inv(d, limit) && claimId in d.claims
    ensures ClaimOk(d.accounts, claimId, d.claims[claimId], LinksOf(d.links, claimId), limit)
    ensures Claimed(d.cases, d.claims[claimId])
  {}

  /** A claim's total is the sum of its linked amounts and of the current
      balances of its linked accounts, within the limit; its version is given by
      its status. */
  lemma ClaimTotals(c: Config, s: Service, claimId: Id)
    requires Reachable(c, s) && claimId in s.db.claims
    ensures var linked := LinksOf(s.db.links, claimId);
            && linked.Keys <= s.db.accounts.Keys
            && s.db.claims[claimId].total == Sum(linked) == Sum(Balances(s.db.accounts, linked.Keys))
            && 0 < s.db.claims[claimId].total <= c.limit
            && s.db.claims[claimId].version == ClaimVersion(s.db.claims[claimId].status)
  {
    hide Inv, ServiceInv, Sum;
    ReachableOk(c, s);
    InvClaim(s.db, claimId, c.limit);
    var linked := LinksOf(s.db.links, claimId);
    forall a | a in linked ensures Backs(s.db.accounts, a, linked[a], claimId, s.db.claims[claimId], c.limit) {}
    assert Balances(s.db.accounts, linked.Keys) == linked;
  }

  lemma OneClaimPerCase(d: Database, b: Id, e: Id, limit: int)
    requires Inv(d, limit) && b in d.claims && e in d.claims && b != e
    ensures d.claims[b].caseId != d.claims[e].caseId
  {}

  /** Different claims never share an account. */
  lemma ClaimsDisjoint(c: Config, s: Service, b: Id, e: Id)
    requires Reachable(c, s) && b in s.db.claims && e in s.db.claims && b != e
    ensures LinksOf(s.db.links, b).Keys !! LinksOf(s.db.links, e).Keys
  {
    hide Inv, ServiceInv, Sum;
    ReachableOk(c, s);
    InvClaim(s.db, b, c.limit);
    InvClaim(s.db, e, c.limit);
    OneClaimPerCase(s.db, b, e, c.limit);
    var x, y := LinksOf(s.db.links, b), LinksOf(s.db.links, e);
    forall a | a in x ensures a in s.db.accounts && s.db.accounts[a].key.caseId == s.db.claims[b].caseId {
      assert Backs(s.db.accounts, a, x[a], b, s.db.claims[b], c.limit);
    }
    forall a | a in y ensures a in s.db.accounts && s.db.accounts[a].key.caseId == s.db.claims[e].caseId {
      assert Backs(s.db.accounts, a, y[a], e, s.db.claims[e], c.limit);
    }
  }

  /** Every payout pays its claim's total; all payouts together pay exactly what
      is reserved. */
  lemma PayoutsConserveMoney(c: Config, s: Service)
    requires Reachable(c, s)
    ensures forall p | p in s.db.payouts ::
              s.db.payouts[p].claimId in s.db.claims && s.db.payouts[p].amount == s.db.claims[s.db.payouts[p].claimId].total
    ensures Sum(PayoutAmounts(s.db.payouts)) == Sum(ReservedBalances(s.db.accounts))
  {
    ReachableOk(c, s);
    hide ServiceInv, Sum;
    forall p | p in s.db.payouts ensures s.db.payouts[p].claimId in s.db.claims
      && s.db.payouts[p].amount == s.db.claims[s.db.payouts[p].claimId].total
    {
      assert PayoutOk(s.db.payouts[p], s.db.claims);
    }
  }

  /** Once a case has left `inquiring`, no run adds an account to it or changes
      a balance, kind, currency or restriction. */
  lemma FrozenLedger(c: Config, s: Service, steps: seq<Step>, caseId: Id)
    requires Reachable(c, s) && caseId in s.db.cases && PastInquiring(s.db.cases[caseId].status)
    ensures Ledger(Run(c, s, steps).db.accounts, caseId) == Ledger(s.db.accounts, caseId)
  {
    hide Ledger, Reachable, CasesAdvance, InquiriesAdvance, ResultsAdvance, ClaimsAdvance, LinksAdvance, PayoutsAdvance, JobsAdvance, KeysAdvance;
    Onwards(c, s, steps);
  }

  // --------------------------------------------------------------- claiming

  /** Different accounts, all of the case. */
  predicate OwnAccounts(d: Database, caseId: Id, ids: seq<Id>) {
    && (forall i, j | 0 <= i < j < |ids| :: ids[i] != ids[j])
    && (forall a | a in ids :: a in d.accounts && d.accounts[a].key.caseId == caseId)
  }

  /** What a small claim may take: a free CNY deposit within the limit. */
  predicate ClaimableHolding(h: Holding, limit: int) {
    h.kind == Deposit && h.currency == "CNY" && 0 < h.balance <= limit && !h.restricted
  }

  ghost function AmountsOf(d: Database, ids: seq<Id>): map<Id, int> {
    map a | a in ids && a in d.accounts :: d.accounts[a].holding.balance
  }

  /** Everything a claimant can see: the case, the reported accounts, the limit;
      nothing about reservations. */
  ghost predicate ClaimAsked(d: Database, actor: Principal, caseId: Id, ids: seq<Id>, claimId: Id, limit: int) {
    && actor.role == Claimant && 1 <= |ids| <= 50
    && caseId in d.cases && d.cases[caseId].claimant == actor.userId && d.cases[caseId].status == CaseEligible
    && OwnAccounts(d, caseId, ids)
    && (forall a | a in ids :: ClaimableHolding(d.accounts[a].holding, limit))
    && Sum(AmountsOf(d, ids)) <= limit && claimId !in d.claims
  }

  lemma InvReservations(d: Database, limit: int)
    requires Inv(d, limit)
    ensures ReservationsOk(d.accounts, d.claims, d.links)
  {}

  /** No account of a case is reserved before the case is claimed. */
  lemma UnclaimedIsUnreserved(d: Database, caseId: Id, limit: int)
    requires Inv(d, limit) && caseId in d.cases && d.cases[caseId].status != CaseClaiming
    ensures forall a | a in d.accounts && d.accounts[a].key.caseId == caseId :: d.accounts[a].reservedBy == None
  {
    InvReservations(d, limit);
    hide Inv, Sum;
    forall a | a in d.accounts && d.accounts[a].key.caseId == caseId ensures d.accounts[a].reservedBy == None {
      if d.accounts[a].reservedBy.Some? {
        var c := d.accounts[a].reservedBy.value;
        InvClaim(d, c, limit);
      }
    }
  }

  lemma OwnIds(d: Database, caseId: Id, ids: seq<Id>, ours: set<Id>)
    requires forall a :: a in ours <==> a in d.accounts && d.accounts[a].key.caseId == caseId
    ensures OwnAccounts(d, caseId, ids) <==> DuplicateFree(ids) && SetOf(ids) <= ours
  {
    forall a ensures a in ids <==> a in SetOf(ids) {
      if a in ids { var i :| 0 <= i < |ids| && ids[i] == a; }
    }
  }

  /** The selection keeps every id exactly when none repeats and all are accounts
      of the case. */
  lemma SelectedAll(d: Database, caseId: Id, ids: seq<Id>)
    ensures |Selected(d, caseId, ids)| == |ids| <==> OwnAccounts(d, caseId, ids)
  {
    var ours := set a | a in d.accounts && d.accounts[a].key.caseId == caseId;
    assert Selected(d, caseId, ids) == ours * SetOf(ids);
    hide OwnAccounts, DuplicateFree;
    OwnIds(d, caseId, ids, ours);
    SetCount(ids);
    Intersection(ours, SetOf(ids));
  }

  /** What is selected then, and what the tests on it say. */
  lemma SelectedOwn(d: Database, caseId: Id, ids: seq<Id>, limit: int)
    requires OwnAccounts(d, caseId, ids)
    requires forall a | a in d.accounts && d.accounts[a].key.caseId == caseId :: d.accounts[a].reservedBy == None
    ensures Balances(d.accounts, Selected(d, caseId, ids)) == AmountsOf(d, ids)
    ensures AllEligible(d.accounts, Selected(d, caseId, ids), limit)
            <==> forall a | a in ids :: ClaimableHolding(d.accounts[a].holding, limit)
  {
    forall a | a in ids ensures a in Selected(d, caseId, ids) {}
  }

  /** In every reachable state a claim is created exactly when it is asked for
      properly: the test for a reservation never decides. */
  lemma ClaimProgress(c: Config, s: Service, actor: Principal, caseId: Id, ids: seq<Id>, claimId: Id)
    requires Reachable(c, s)
    ensures CreateClaim(s.db, actor, caseId, ids, claimId, c.limit).Committed?
            <==> ClaimAsked(s.db, actor, caseId, ids, claimId, c.limit)
    ensures ClaimAsked(s.db, actor, caseId, ids, claimId, c.limit) ==>
              CreateClaim(s.db, actor, caseId, ids, claimId, c.limit).value.total == Sum(AmountsOf(s.db, ids))
  {
    hide Reachable, ServiceInv, Inv, Sum, Selected, Balances, AmountsOf, OwnAccounts, ClaimableHolding, AllEligible;
    ReachableOk(c, s);
    SelectedAll(s.db, caseId, ids);
    if caseId in s.db.cases && s.db.cases[caseId].status == CaseEligible && OwnAccounts(s.db, caseId, ids) {
      UnclaimedIsUnreserved(s.db, caseId, c.limit);
      SelectedOwn(s.db, caseId, ids, c.limit);
    }
  }

  // --------------------------------------------------------------- approval

  /** Everything a caller of Approve can check; nothing about accounts. */
  ghost predicate ApprovalAsked(d: Database, actor: Principal, claimId: Id, payoutKey: string, expected: int,
                                payoutId: Id, jobId: Id, maxAttempts: int) {
    && actor.role == Supervisor && 8 <= |payoutKey| <= 128
    && claimId in d.claims && d.claims[claimId].status == ClaimPending && d.claims[claimId].version == expected
    && (forall p | p in d.payouts :: d.payouts[p].idempotencyKey != payoutKey)
    && payoutId !in d.payouts && jobId !in d.jobs && maxAttempts > 0
  }

  lemma NoKeys(m: map<Id, int>)
    requires m.Keys == {}
    ensures m == map[]
  {}

  lemma PayoutAdmitted(d: Database, claimId: Id, claim: Claim, payoutKey: string, payoutId: Id, limit: int)
    requires PayoutsOk(d.payouts, d.claims) && ClaimsOk(d.accounts, d.claims, d.links, limit)
    requires claimId in d.claims && d.claims[claimId].status == ClaimPending && claim.total == d.claims[claimId].total
    requires payoutId !in d.payouts && forall p | p in d.payouts :: d.payouts[p].idempotencyKey != payoutKey
    ensures CanInsertPayout(d, payoutId, NewPayout(claimId, claim, payoutKey))
  {}

  lemma PayoutJobAdmitted(d: Database, payoutId: Id, jobId: Id, maxAttempts: int, now: Instant)
    requires JobsOk(d.jobs, d.inquiries, d.payouts) && payoutId !in d.payouts && jobId !in d.jobs && maxAttempts > 0
    ensures CanInsertJob(d, jobId, NewJob(ExecutePayout, payoutId, maxAttempts, now))
  {}

  lemma ApprovalProgressIn(d: Database, actor: Principal, claimId: Id, payoutKey: string, expected: int,
                           payoutId: Id, jobId: Id, maxAttempts: int, now: Instant, limit: int)
    requires Inv(d, limit)
    ensures Approve(d, actor, claimId, payoutKey, expected, payoutId, jobId, maxAttempts, now).Committed?
            <==> ApprovalAsked(d, actor, claimId, payoutKey, expected, payoutId, jobId, maxAttempts)
    ensures ApprovalAsked(d, actor, claimId, payoutKey, expected, payoutId, jobId, maxAttempts) ==>
              Approve(d, actor, claimId, payoutKey, expected, payoutId, jobId, maxAttempts, now).value.amount
              == Sum(Balances(d.accounts, LinksOf(d.links, claimId).Keys))
  {
    hide ClaimOk, Reservable, Sum, CasesOk, Barrier, CasesClaimed, KeysOk, CaseTrails, ClaimTrails, InquiryTrails, JobsCover,
      InstitutionsDistinct, AccountsOk, AccountKeysUnique, ReservationsOk, MoneyConserved, InquiriesOk, PayoutsOk, JobsOk, ClaimsOk;
    if Approve(d, actor, claimId, payoutKey, expected, payoutId, jobId, maxAttempts, now).Committed? {
      ApprovedWasPending(d, actor, claimId, payoutKey, expected, payoutId, jobId, maxAttempts, now, limit);
    }
    if ApprovalAsked(d, actor, claimId, payoutKey, expected, payoutId, jobId, maxAttempts) {
      PendingClaimReservable(d, claimId, limit);
      var linked := LinksOf(d.links, claimId);
      if linked.Keys == {} {
        NoKeys(linked);
      }
      var claim := d.claims[claimId].Transition(ClaimApproved, actor.userId).value;
      PayoutAdmitted(d, claimId, claim, payoutKey, payoutId, limit);
      PayoutJobAdmitted(d, payoutId, jobId, maxAttempts, now);
    }
  }

  /** In every reachable state approving succeeds exactly when it is asked for
      properly: no reachable state lets its reservations conflict.  It pays the
      total, which is also what the discarded sum of the reservations was. */
  lemma ApprovalProgress(c: Config, s: Service, actor: Principal, claimId: Id, payoutKey: string, expected: int,
                         payoutId: Id, jobId: Id, maxAttempts: int, now: Instant)
    requires Reachable(c, s)
    ensures Approve(s.db, actor, claimId, payoutKey, expected, payoutId, jobId, maxAttempts, now).Committed?
            <==> ApprovalAsked(s.db, actor, claimId, payoutKey, expected, payoutId, jobId, maxAttempts)
    ensures ApprovalAsked(s.db, actor, claimId, payoutKey, expected, payoutId, jobId, maxAttempts) ==>
              Approve(s.db, actor, claimId, payoutKey, expected, payoutId, jobId, maxAttempts, now).value.amount
              == Sum(Balances(s.db.accounts, LinksOf(s.db.links, claimId).Keys))
  {
    hide ServiceInv, Reachable, Sum;
    ReachableOk(c, s);
    ApprovalProgressIn(s.db, actor, claimId, payoutKey, expected, payoutId, jobId, maxAttempts, now, c.limit);
  }

  lemma ReservedAreLinked(d: Database, claimId: Id, limit: int)
    requires Inv(d, limit) && claimId in d.claims && d.claims[claimId].status != ClaimPending
    ensures ReservedFor(d.accounts, claimId) == LinksOf(d.links, claimId).Keys
  {
    hide CasesOk, Barrier, CasesClaimed, KeysOk, CaseTrails, ClaimTrails, InquiryTrails, JobsCover, Sum,
      InstitutionsDistinct, AccountsOk, AccountKeysUnique, MoneyConserved, InquiriesOk, PayoutsOk, JobsOk, ClaimsOk;
    InvClaim(d, claimId, limit);
    var linked := LinksOf(d.links, claimId);
    forall a | a in linked ensures a in ReservedFor(d.accounts, claimId) {
      assert Backs(d.accounts, a, linked[a], claimId, d.claims[claimId], limit);
    }
  }

  /** From approval on, the accounts reserved for a claim are exactly its linked
      ones, for ever. */
  lemma ReservedForEver(c: Config, s: Service, steps: seq<Step>, claimId: Id)
    requires Reachable(c, s) && claimId in s.db.claims && s.db.claims[claimId].status != ClaimPending
    ensures var e := Run(c, s, steps).db;
            ReservedFor(e.accounts, claimId) == LinksOf(s.db.links, claimId).Keys == ReservedFor(s.db.accounts, claimId)
  {
    hide Reachable, Ledger, ServiceInv, Inv, CasesAdvance, InquiriesAdvance, ResultsAdvance, PayoutsAdvance, JobsAdvance, KeysAdvance, Reaches;
    Onwards(c, s, steps);
    ReachableOk(c, s);
    ReachableOk(c, Run(c, s, steps));
    ReservedAreLinked(s.db, claimId, c.limit);
    var e := Run(c, s, steps).db;
    assert e.claims[claimId].status != ClaimPending by {
      InvClaim(s.db, claimId, c.limit);
      InvClaim(e, claimId, c.limit);
    }
    ReservedAreLinked(e, claimId, c.limit);
  }

  // --------------------------------------------------- claims and payouts

  lemma CoupledPayout(d: Database, p: Id)
    requires p in d.payouts && PayoutOk(d.payouts[p], d.claims)
    ensures var status := d.claims[d.payouts[p].claimId].status;
            && status != ClaimPending
            && (status == ClaimApproved <==> d.payouts[p].status in {PayoutPending, PayoutSubmitted})
            && (status == ClaimPaid <==> d.payouts[p].status == PayoutConfirmed)
            && (forall reference :: ConfirmPayout(d, p, reference).Committed? ==>
                  ConfirmPayout(d, p, reference).database.claims[d.payouts[p].claimId].status == ClaimPaid)
  {}

  /** No payout while pending; an open payout exactly while approved; a
      confirmed one exactly when paid.  The unchecked UPDATE always hits. */
  lemma ClaimPayoutCoupling(c: Config, s: Service, claimId: Id)
    requires Reachable(c, s) && claimId in s.db.claims
    ensures var status := s.db.claims[claimId].status;
            && status in {ClaimPending, ClaimApproved, ClaimPaid}
            && (status == ClaimPending <==> !HasPayout(s.db.payouts, claimId))
            && (forall p | p in s.db.payouts && s.db.payouts[p].claimId == claimId ::
                  && (status == ClaimApproved <==> s.db.payouts[p].status in {PayoutPending, PayoutSubmitted})
                  && (status == ClaimPaid <==> s.db.payouts[p].status == PayoutConfirmed)
                  && (forall reference :: ConfirmPayout(s.db, p, reference).Committed? ==>
                        ConfirmPayout(s.db, p, reference).database.claims[claimId].status == ClaimPaid))
  {
    hide Inv, ServiceInv, Reachable, Sum, Backs, PayoutOk, ConfirmPayout;
    ReachableOk(c, s);
    InvClaim(s.db, claimId, c.limit);
    InvPayouts(s.db, c.limit);
    forall p | p in s.db.payouts && s.db.payouts[p].claimId == claimId { CoupledPayout(s.db, p); }
  }

  /** Over any run the status of a claim moves within the closure of its table. */
  lemma ClaimStatusPath(c: Config, s: Service, steps: seq<Step>, claimId: Id)
    requires Reachable(c, s) && claimId in s.db.claims
    ensures claimId in Run(c, s, steps).db.claims
    ensures Reaches(s.db.claims[claimId].status, Run(c, s, steps).db.claims[claimId].status)
  {
    hide Reachable, Ledger, CasesAdvance, InquiriesAdvance, ResultsAdvance, LinksAdvance, PayoutsAdvance, JobsAdvance, KeysAdvance, Reaches;
    Onwards(c, s, steps);
    assert ClaimAdvances(s.db.claims[claimId], Run(c, s, steps).db.claims[claimId]);
  }

  // ---------------------------------------------------------------- barrier

  /** The barrier, read off a case's status. */
  lemma EligibilityBarrier(c: Config, s: Service, caseId: Id)
    requires Reachable(c, s) && caseId in s.db.cases
    ensures var status := s.db.cases[caseId].status;
            && (status in {CaseSubmitted, CaseReviewing} <==> !HasInquiry(s.db.inquiries, caseId))
            && (status == CaseInquiring <==> !Complete(s.db.inquiries, caseId))
            && (status in {CaseEligible, CaseClaiming} <==> HasInquiry(s.db.inquiries, caseId) && Complete(s.db.inquiries, caseId))
            && s.db.cases[caseId].version == CaseVersion(status)
  {
    ReachableOk(c, s);
    assert BarrierAt(s.db.cases[caseId].status, s.db.inquiries, caseId);
    if HasInquiry(s.db.inquiries, caseId) {} else { assert Complete(s.db.inquiries, caseId); }
  }

  /** The invariant makes the inquiry's step and the case's step succeed. */
  lemma NextIn(d: Database, id: Id, input: ResultInput, limit: int)
    requires Inv(d, limit) && Accepts(d, id, input)
    ensures NextPart(d.inquiries[id]).Ok?
    ensures var q := NextPart(d.inquiries[id]).value; var after := AfterResult(d.cases, d.inquiries[id := q], q.caseId);
            && q.caseId == d.inquiries[id].caseId && q.caseId in d.cases && d.cases[q.caseId].status == CaseInquiring
            && after.Ok? && q.caseId in after.value
            && after.value[q.caseId].status == if Complete(d.inquiries[id := q], q.caseId) then CaseEligible else CaseInquiring
  {
    hide Complete, Barrier, InquiriesOk, ValidInput, KeysOk, CasesClaimed, CasesOk, CaseTrails, ClaimTrails, InquiryTrails, Trail;
    OpenInquiryCase(d, id);
    NextPartOk(d, id, input);
    BarrierAfterResult(d, id, NextPart(d.inquiries[id]).value);
  }

  lemma RecordedIn(d: Database, id: Id, input: ResultInput, ids: seq<Id>)
    requires Accepts(d, id, input) && UpsertAll(d.accounts, id, d.inquiries[id], input.accounts, ids).Ok?
    requires NextPart(d.inquiries[id]).Ok?
    requires var q := NextPart(d.inquiries[id]).value;
             q.caseId == d.inquiries[id].caseId && AfterResult(d.cases, d.inquiries[id := q], q.caseId).Ok?
    ensures var o, q := RecordResult(d, id, input, ids), NextPart(d.inquiries[id]).value;
            && o.Committed? && o.value == q && o.database.inquiries == d.inquiries[id := q]
            && o.database.cases == AfterResult(d.cases, d.inquiries[id := q], q.caseId).value
  {
    hide UpsertAll, ValidInput, AfterResult, NextPart;
  }

  /** In every reachable state an acceptable part is recorded: the inner
      transition to `eligible` never fails, and happens exactly when this part
      completes the last inquiry of the case. */
  lemma PartsAreRecorded(c: Config, s: Service, id: Id, input: ResultInput, ids: seq<Id>)
    requires Reachable(c, s) && Accepts(s.db, id, input)
    requires UpsertAll(s.db.accounts, id, s.db.inquiries[id], input.accounts, ids).Ok?
    ensures var o, caseId := RecordResult(s.db, id, input, ids), s.db.inquiries[id].caseId;
            && o.Committed? && caseId in s.db.cases && s.db.cases[caseId].status == CaseInquiring
            && o.database.inquiries == s.db.inquiries[id := o.value]
            && caseId in o.database.cases
            && o.database.cases[caseId].status
               == if Complete(s.db.inquiries[id := o.value], caseId) then CaseEligible else CaseInquiring
  {
    hide ServiceInv, Inv, Reachable, UpsertAll, ValidInput, Complete, RecordResult, AfterResult, Accepts;
    ReachableOk(c, s);
    NextIn(s.db, id, input, c.limit);
    RecordedIn(s.db, id, input, ids);
  }

  // ------------------------------------------------------ version conflicts

  predicate CaseRequest(step: Step, caseId: Id, expected: int) {
    (step.ReviewCase? && step.caseId == caseId && step.expected == expected)
    || (step.DispatchCase? && step.caseId == caseId && step.expected == expected)
  }

  lemma CaseRequestSpends(c: Config, s: Service, step: Step, caseId: Id, expected: int)
    requires CaseRequest(step, caseId, expected) && Exec(c, s, step) != s
    ensures var e := Exec(c, s, step).db; caseId in e.cases && e.cases[caseId].version == expected + 1
  {
    hide InsertRequests;
  }

  lemma StaleCaseRequest(c: Config, s: Service, step: Step, caseId: Id, expected: int)
    requires CaseRequest(step, caseId, expected) && caseId in s.db.cases && s.db.cases[caseId].version > expected
    ensures Exec(c, s, step) == s
  {
    hide InsertRequests;
  }

  /** Of all requests that carry the same version of a case, at most one
      commits: after it, every other one is turned away. */
  lemma CaseVersionSpent(c: Config, s: Service, first: Step, steps: seq<Step>, second: Step, caseId: Id, expected: int)
    requires Reachable(c, s) && CaseRequest(first, caseId, expected) && CaseRequest(second, caseId, expected)
    requires Exec(c, s, first) != s
    ensures var later := Run(c, Exec(c, s, first), steps); Exec(c, later, second) == later
  {
    hide Reachable, Exec, Run, CaseRequest, InquiriesAdvance, ResultsAdvance, ClaimsAdvance, LinksAdvance, PayoutsAdvance, JobsAdvance,
      KeysAdvance, LedgersFrozen;
    OneStep(c, s, first);
    CaseRequestSpends(c, s, first, caseId, expected);
    Onwards(c, Exec(c, s, first), steps);
    StaleCaseRequest(c, Run(c, Exec(c, s, first), steps), second, caseId, expected);
  }

  /** The same for approvals of a claim. */
  lemma ClaimVersionSpent(c: Config, s: Service, first: Step, steps: seq<Step>, second: Step)
    requires Reachable(c, s) && first.ApproveClaim? && second.ApproveClaim?
    requires first.claimId == second.claimId && first.expected == second.expected && Exec(c, s, first) != s
    ensures var later := Run(c, Exec(c, s, first), steps); Exec(c, later, second) == later
  {
    hide Reachable, Reserve, Reservable, CanInsertPayout, CanInsertJob, Reaches, InquiriesAdvance, ResultsAdvance, CasesAdvance, LinksAdvance,
      PayoutsAdvance, JobsAdvance, KeysAdvance, LedgersFrozen;
    Onwards(c, s, [first]);
    assert Run(c, s, [first]) == Run(c, Exec(c, s, first), []);
    Onwards(c, Exec(c, s, first), steps);
    var later := Run(c, Exec(c, s, first), steps);
    assert Exec(c, s, first).db.claims[first.claimId].version == first.expected + 1;
    assert ClaimAdvances(Exec(c, s, first).db.claims[first.claimId], later.db.claims[first.claimId]);
  }

  // ----------------------------------------------------- idempotent submission

  /** Each key names one case of its own actor, each case has exactly one key. */
  lemma KeysNameCases(c: Config, s: Service)
    requires Reachable(c, s)
    ensures forall k | k in s.db.keys :: s.db.keys[k].resourceId in s.db.cases
              && s.db.cases[s.db.keys[k].resourceId].claimant == s.db.keys[k].actor
    ensures forall x | x in s.db.cases :: HasSubmissionKey(s.db.keys, x)
    ensures forall j, k | j in s.db.keys && k in s.db.keys && s.db.keys[j].resourceId == s.db.keys[k].resourceId :: j == k
  {
    ReachableOk(c, s);
  }

  /** A key that has been used never creates a case again: after any run, a live
      matching request returns the case it named, a live mismatching one is a
      conflict, and past the expiry the insert hits the primary key. */
  lemma SubmissionIsIdempotent(c: Config, s: Service, steps: seq<Step>, actor: Principal, input: SubmitInput,
                               key: string, now: Instant, newCaseId: Id)
    requires Reachable(c, s) && key in s.db.keys && 8 <= |key| <= 128 && input.wellFormed && actor.role == Claimant
    ensures var d := Run(c, s, steps).db; var o := Submit(d, actor, input, key, now, newCaseId); var record := s.db.keys[key];
            var matches := record.actor == actor.userId && record.httpMethod == "POST" && record.route == "/v1/cases"
                           && record.requestHash == Sha256(input);
            && key in d.keys && d.keys[key] == record && record.resourceId in d.cases
            && (LiveKey(d, key, now) && matches ==>
                  o == Committed(d, Submission(record.resourceId, d.cases[record.resourceId], true)))
            && (LiveKey(d, key, now) && !matches ==> o == RolledBack(Conflict))
            && (!LiveKey(d, key, now) ==> o == RolledBack(StorageFault))
            && After(d, o) == d
  {
    hide Reachable, TextLessEq, InquiriesAdvance, ResultsAdvance, ClaimsAdvance, LinksAdvance, PayoutsAdvance, JobsAdvance, LedgersFrozen;
    Onwards(c, s, steps);
    KeysNameCases(c, Run(c, s, steps));
  }

  lemma KeyTest(d: Database, key: string, at: Instant)
    requires key in d.keys && FourDigitYear(at) && FourDigitYear(d.keys[key].expiresAt)
    ensures at + SECOND <= d.keys[key].expiresAt ==> LiveKey(d, key, at)
    ensures d.keys[key].expiresAt + SECOND <= at ==> !LiveKey(d, key, at)
  {
    TextTestErrsBelowOneSecond(d.keys[key].expiresAt, at);
  }

  /** A key given at `now` is live for 24 hours, up to one second, in every later
      state. */
  lemma KeyLifetime(c: Config, s: Service, actor: Principal, input: SubmitInput, key: string, now: Instant, newCaseId: Id,
                    steps: seq<Step>, at: Instant)
    requires Reachable(c, s) && Exec(c, s, SubmitCase(actor, input, key, now, newCaseId)) != s
    requires FourDigitYear(now + 24 * 3600 * SECOND) && FourDigitYear(at)
    ensures var d := Run(c, Exec(c, s, SubmitCase(actor, input, key, now, newCaseId)), steps).db;
            && (at + SECOND <= now + 24 * 3600 * SECOND ==> LiveKey(d, key, at))
            && (now + 24 * 3600 * SECOND + SECOND <= at ==> !LiveKey(d, key, at))
  {
    hide Reachable, LiveKey, FourDigitYear, TextLessEq, CasesAdvance, InquiriesAdvance, ResultsAdvance, ClaimsAdvance, LinksAdvance,
      PayoutsAdvance, JobsAdvance, LedgersFrozen;
    var step := SubmitCase(actor, input, key, now, newCaseId);
    var next := Exec(c, s, step);
    Onwards(c, s, [step]);
    assert Run(c, s, [step]) == Run(c, next, []);
    Onwards(c, next, steps);
    var d := Run(c, next, steps).db;
    assert key in d.keys && d.keys[key].expiresAt == now + 24 * 3600 * SECOND;
    KeyTest(d, key, at);
  }

  // ------------------------------------------------ decisions are final

  /** Whoever approved a claim stays its approver. */
  lemma ApproverStays(c: Config, s: Service, actor: Principal, claimId: Id, payoutKey: string, expected: int,
                      payoutId: Id, jobId: Id, now: Instant, steps: seq<Step>)
    requires Reachable(c, s) && Exec(c, s, ApproveClaim(actor, claimId, payoutKey, expected, payoutId, jobId, now)) != s
    ensures var d := Run(c, Exec(c, s, ApproveClaim(actor, claimId, payoutKey, expected, payoutId, jobId, now)), steps).db;
            && actor.role == Supervisor && claimId in d.claims && d.claims[claimId].approvedBy == actor.userId
            && payoutId in d.payouts && d.payouts[payoutId].claimId == claimId && d.payouts[payoutId].idempotencyKey == payoutKey
  {
    hide Reachable, Reserve, Reservable, CanInsertPayout, CanInsertJob, Reaches, InquiriesAdvance, ResultsAdvance, CasesAdvance, LinksAdvance,
      JobsAdvance, KeysAdvance, LedgersFrozen;
    var step := ApproveClaim(actor, claimId, payoutKey, expected, payoutId, jobId, now);
    var next := Exec(c, s, step);
    Onwards(c, s, [step]);
    assert Run(c, s, [step]) == Run(c, next, []);
    Onwards(c, next, steps);
    assert ClaimAdvances(next.db.claims[claimId], Run(c, next, steps).db.claims[claimId]);
  }

  /** A confirmation is final: the payout keeps its provider's reference, and
      its claim is paid, in every later state. */
  lemma ConfirmedForEver(c: Config, s: Service, payoutId: Id, providerRef: string, steps: seq<Step>)
    requires Reachable(c, s) && Exec(c, s, Confirm(payoutId, providerRef)) != s
    ensures var d := Run(c, Exec(c, s, Confirm(payoutId, providerRef)), steps).db;
            && payoutId in d.payouts && d.payouts[payoutId].status == PayoutConfirmed && d.payouts[payoutId].providerRef == providerRef
            && d.payouts[payoutId].claimId in d.claims && d.claims[d.payouts[payoutId].claimId].status == ClaimPaid
  {
    hide Reachable, MarkPaid, InquiriesAdvance, ResultsAdvance, CasesAdvance, ClaimsAdvance, LinksAdvance, JobsAdvance, KeysAdvance,
      LedgersFrozen, Inv, ServiceInv;
    var step := Confirm(payoutId, providerRef);
    var next := Exec(c, s, step);
    Onwards(c, s, [step]);
    assert Run(c, s, [step]) == Run(c, next, []);
    Onwards(c, next, steps);
    ReachableOk(c, Run(c, next, steps));
    InvPayout(Run(c, next, steps).db, payoutId, c.limit);
  }

  // ------------------------------------------------------------ audit trail

  lemma TrailsOf(d: Database, limit: int)
    requires Inv(d, limit)
    ensures CaseTrails(d.audit, d.cases) && ClaimTrails(d.audit, d.claims) && InquiryTrails(d.audit, d.inquiries)
  {}

  lemma RecordedTrail(parts: int)
    requires parts >= 0
    ensures |InquiryTrail(parts)| == parts && forall i | 0 <= i < parts :: InquiryTrail(parts)[i] == "inquiry.result_recorded"
  {}

  /** A case's own trail is the one its status calls for; an inquiry has one
      event per received part, a claim one per decision. */
  lemma AuditTrails(c: Config, s: Service)
    requires Reachable(c, s)
    ensures forall id | id in s.db.cases :: Trail(s.db.audit, CaseObject, id) == CaseTrail(s.db.cases[id].status)
    ensures forall id | id in s.db.inquiries ::
              && |Trail(s.db.audit, InquiryObject, id)| == s.db.inquiries[id].receivedParts
              && forall i | 0 <= i < s.db.inquiries[id].receivedParts ::
                   Trail(s.db.audit, InquiryObject, id)[i] == "inquiry.result_recorded"
    ensures forall id | id in s.db.claims :: Trail(s.db.audit, ClaimObject, id) == ClaimTrail(s.db.claims[id].status)
  {
    hide ServiceInv, Inv, Reachable, Trail, CaseTrail, ClaimTrail, InquiryTrail;
    ReachableOk(c, s);
    TrailsOf(s.db, c.limit);
    forall id | id in s.db.inquiries
      ensures |Trail(s.db.audit, InquiryObject, id)| == s.db.inquiries[id].receivedParts
      ensures forall i | 0 <= i < s.db.inquiries[id].receivedParts ::
                Trail(s.db.audit, InquiryObject, id)[i] == "inquiry.result_recorded"
    {
      InvInquiries(s.db, id, c.limit);
      RecordedTrail(s.db.inquiries[id].receivedParts);
    }
  }

  /** The event a request is to leave behind. */
  function EventOf(step: Step): AuditEvent
    requires IsRequest(step) && !step.Confirm?
  {
    match step
    case SubmitCase(actor, _, _, _, newCaseId) => AuditEvent(actor.userId, "case.submitted", CaseObject, newCaseId)
    case ReviewCase(actor, caseId, _) => AuditEvent(actor.userId, "case.review_started", CaseObject, caseId)
    case DispatchCase(actor, caseId, _, _, _, _) => AuditEvent(actor.userId, "inquiries.dispatched", CaseObject, caseId)
    case Deliver(inquiryId, _, _) => AuditEvent("system", "inquiry.result_recorded", InquiryObject, inquiryId)
    case ClaimAccounts(actor, _, _, newClaimId) => AuditEvent(actor.userId, "claim.submitted", ClaimObject, newClaimId)
    case ApproveClaim(actor, claimId, _, _, _, _, _) => AuditEvent(actor.userId, "claim.approved", ClaimObject, claimId)
  }

  /** A request that changes anything appends exactly one event: its own. */
  lemma OneEventPerCommit(c: Config, s: Service, step: Step)
    requires IsRequest(step) && !step.Confirm?
    ensures var e := Exec(c, s, step).db;
            e == s.db || e.audit == s.db.audit + [EventOf(step)]
  {
    hide LiveKey, AfterResult, UpsertAll, ValidInput, AllEligible, Balances, Sum, Reserve, Reservable, CanInsertPayout, CanInsertJob,
      InsertRequests;
    if step.DispatchCase? {
      var o := InsertRequests(s.db, step.caseId, step.requestKey, step.requests, c.maxAttempts, step.now);
      if o.Committed? { RequestsInserted(s.db, step.caseId, step.requestKey, step.requests, c.maxAttempts, step.now); }
    }
  }
}
