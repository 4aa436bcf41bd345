/** What each request is answered, row by row: exactly when it commits, what it
    then leaves in every table, and which error it gets otherwise. */
module Answers {
  import opened Timestamps
  import opened Domain
  import opened Sums
  import opened Workflow
  import opened Invariants
  import opened ClaimPreservation
  import opened Progress
  import opened Runs
  import opened StepSafety
  import opened Guarantees
  import opened Preservation

  // ------------------------------------------------------------- submissions

  /** A case is created exactly for a claimant's well-formed request under a key
      and an id never used, live or not. */
  lemma SubmissionAnswered(d: Database, actor: Principal, input: SubmitInput, key: string, now: Instant, id: Id)
    ensures var o := Submit(d, actor, input, key, now, id); var item := EstateCase(actor.userId, CaseSubmitted, 1);
            var record := IdempotencyRecord(actor.userId, "POST", "/v1/cases", Sha256(input), id, now + 24 * 3600 * SECOND);
            var wellFormed := actor.role == Claimant && input.wellFormed && 8 <= |key| <= 128;
            && (o.Committed? && !o.value.replayed <==> wellFormed && key !in d.keys && id !in d.cases)
            && (o.Committed? && !o.value.replayed ==>
                  o.value == Submission(id, item, false)
                  && o.database == d.(cases := d.cases[id := item], keys := d.keys[key := record],
                                      audit := d.audit + [AuditEvent(actor.userId, "case.submitted", CaseObject, id)]))
            && (o == RolledBack(Forbidden) <==> actor.role != Claimant)
            && (o == RolledBack(ValidationFailed) <==> actor.role == Claimant && !wellFormed)
            && (wellFormed && key !in d.keys && id in d.cases ==> o == RolledBack(StorageFault))
  {
    hide TextLessEq;
  }

  lemma SubmissionStored(c: Config, s: Service, actor: Principal, input: SubmitInput, key: string, now: Instant, id: Id)
    requires Exec(c, s, SubmitCase(actor, input, key, now, id)) != s
    ensures var d := Exec(c, s, SubmitCase(actor, input, key, now, id)).db;
            && id in d.cases && 8 <= |key| <= 128 && key in d.keys
            && d.keys[key] == IdempotencyRecord(actor.userId, "POST", "/v1/cases", Sha256(input), id, now + 24 * 3600 * SECOND)
  {
    hide TextLessEq;
  }

  /** After a submission and any run, a request under its live key gets the case
      submitted if it is the same request of the same claimant, and a conflict
      otherwise; once the key has expired, a storage fault. */
  lemma ReplayAnswered(c: Config, s: Service, actor: Principal, input: SubmitInput, key: string, now: Instant, id: Id,
                       steps: seq<Step>, a: Principal, x: SubmitInput, at: Instant, newId: Id)
    requires Reachable(c, s) && Exec(c, s, SubmitCase(actor, input, key, now, id)) != s
    requires a.role == Claimant && x.wellFormed
    ensures var d := Run(c, Exec(c, s, SubmitCase(actor, input, key, now, id)), steps).db;
            var o := Submit(d, a, x, key, at, newId);
            && id in d.cases
            && (LiveKey(d, key, at) ==>
                  o == if a.userId == actor.userId && x == input then Committed(d, Submission(id, d.cases[id], true))
                       else RolledBack(Conflict))
            && (!LiveKey(d, key, at) ==> o == RolledBack(StorageFault))
  {
    hide Exec, Run, Reachable, LiveKey, Submit;
    var next := Exec(c, s, SubmitCase(actor, input, key, now, id));
    OneStep(c, s, SubmitCase(actor, input, key, now, id));
    SubmissionStored(c, s, actor, input, key, now, id);
    SubmissionIsIdempotent(c, next, steps, a, x, key, at, newId);
  }

  // ----------------------------------------------------------------- reviews

  /** An officer or supervisor starts the review of exactly a submitted case, by
      its version 1. */
  lemma ReviewAnswered(c: Config, s: Service, actor: Principal, id: Id, expected: int)
    requires Reachable(c, s)
    ensures var d, o := s.db, StartReview(s.db, actor, id, expected); var permitted := actor.role in {Officer, Supervisor};
            && (o.Committed? <==> permitted && id in d.cases && d.cases[id].status == CaseSubmitted && expected == 1)
            && (o.Committed? ==>
                  o.database == d.(cases := d.cases[id := EstateCase(d.cases[id].claimant, CaseReviewing, 2)],
                                   audit := d.audit + [AuditEvent(actor.userId, "case.review_started", CaseObject, id)]))
            && (o == RolledBack(Forbidden) <==> !permitted)
            && (o == RolledBack(NotFound) <==> permitted && id !in d.cases)
            && (o == RolledBack(VersionConflict) <==> permitted && id in d.cases && d.cases[id].version != expected)
            && (o == RolledBack(InvalidState) <==>
                  permitted && id in d.cases && d.cases[id].version == expected && d.cases[id].status != CaseSubmitted)
  {
    hide Reachable, ServiceInv;
    ServiceCases(c, s) by { ReachableOk(c, s); }
  }

  // ---------------------------------------------------------------- dispatch

  /** No two requests share an institution or an id. */
  predicate AllDistinct(rs: seq<Request>) {
    forall i, j | 0 <= i < j < |rs| ::
      rs[i].institution != rs[j].institution && rs[i].inquiryId != rs[j].inquiryId && rs[i].jobId != rs[j].jobId
  }

  /** The ids are unused and the number of parts is positive. */
  predicate NewRequest(d: Database, r: Request) {
    r.inquiryId !in d.inquiries && r.jobId !in d.jobs && r.expectedParts > 0
  }

  /** The case has not asked this institution under this key. */
  predicate NotAsked(d: Database, caseId: Id, requestKey: string, institution: Id) {
    forall q | q in d.inquiries && d.inquiries[q].caseId == caseId && d.inquiries[q].requestKey == requestKey ::
      d.inquiries[q].institution != institution
  }

  predicate DispatchJobsBound(d: Database) {
    forall j | j in d.jobs && d.jobs[j].kind == DispatchInquiry :: d.jobs[j].resourceId in d.inquiries
  }

  predicate Insertable(d: Database, caseId: Id, requestKey: string, r: Request) {
    NewRequest(d, r) && NotAsked(d, caseId, requestKey, r.institution)
  }

  lemma FirstAdmitted(d: Database, caseId: Id, requestKey: string, r: Request, maxAttempts: int, now: Instant)
    requires DispatchJobsBound(d)
    ensures CanInsertInquiry(d, r.inquiryId, NewInquiry(caseId, requestKey, r))
            && CanInsertJob(d, r.jobId, NewJob(DispatchInquiry, r.inquiryId, maxAttempts, now))
            <==> Insertable(d, caseId, requestKey, r) && maxAttempts > 0
    ensures DispatchJobsBound(WithRequest(d, caseId, requestKey, r, maxAttempts, now))
  {}

  /** What one insertion leaves to the next request. */
  lemma NextAdmitted(d: Database, caseId: Id, requestKey: string, r: Request, maxAttempts: int, now: Instant, next: Request)
    requires Insertable(d, caseId, requestKey, r)
    ensures Insertable(WithRequest(d, caseId, requestKey, r, maxAttempts, now), caseId, requestKey, next)
            <==> Insertable(d, caseId, requestKey, next) && r.institution != next.institution
                 && r.inquiryId != next.inquiryId && r.jobId != next.jobId
  {
    var e := WithRequest(d, caseId, requestKey, r, maxAttempts, now);
    assert r.inquiryId in e.inquiries && r.jobId in e.jobs;
    assert forall q | q in d.inquiries :: q in e.inquiries && e.inquiries[q] == d.inquiries[q];
    assert forall j | j in d.jobs :: j in e.jobs;
  }

  lemma DistinctFirst(rs: seq<Request>)
    requires rs != []
    ensures AllDistinct(rs) <==> AllDistinct(rs[1..]) && forall i | 0 <= i < |rs[1..]| ::
              rs[0].institution != rs[1..][i].institution && rs[0].inquiryId != rs[1..][i].inquiryId && rs[0].jobId != rs[1..][i].jobId
  {
    if AllDistinct(rs) {
      forall i | 0 <= i < |rs[1..]| ensures
        rs[0].institution != rs[1..][i].institution && rs[0].inquiryId != rs[1..][i].inquiryId && rs[0].jobId != rs[1..][i].jobId
      {
        assert rs[1..][i] == rs[i + 1];
      }
    } else {
      var i, j :| 0 <= i < j < |rs| &&
        !(rs[i].institution != rs[j].institution && rs[i].inquiryId != rs[j].inquiryId && rs[i].jobId != rs[j].jobId);
      assert rs[j] == rs[1..][j - 1];
      if i > 0 { assert rs[i] == rs[1..][i - 1]; }
    }
  }

  /** The loop of a dispatch goes through exactly when every request may be
      inserted and none stands in another's way. */
  lemma {:induction false} RequestsAdmitted(d: Database, caseId: Id, requestKey: string, rs: seq<Request>, maxAttempts: int, now: Instant)
    requires DispatchJobsBound(d)
    ensures var o := InsertRequests(d, caseId, requestKey, rs, maxAttempts, now);
            && (o.Committed? <==> (rs != [] ==> maxAttempts > 0) && AllDistinct(rs)
                                  && forall i | 0 <= i < |rs| :: Insertable(d, caseId, requestKey, rs[i]))
            && (o.RolledBack? ==> o.error == StorageFault)
    decreases |rs|
  {
    if rs != [] {
      hide CanInsertInquiry, CanInsertJob, Insertable, AllDistinct, DispatchJobsBound;
      var d1 := WithRequest(d, caseId, requestKey, rs[0], maxAttempts, now);
      FirstAdmitted(d, caseId, requestKey, rs[0], maxAttempts, now);
      DistinctFirst(rs);
      if Insertable(d, caseId, requestKey, rs[0]) && maxAttempts > 0 {
        RequestsAdmitted(d1, caseId, requestKey, rs[1..], maxAttempts, now);
        forall i | 0 <= i < |rs[1..]| ensures rs[1..][i] == rs[i + 1] && (Insertable(d1, caseId, requestKey, rs[1..][i]) <==>
          Insertable(d, caseId, requestKey, rs[1..][i]) && rs[0].institution != rs[1..][i].institution
          && rs[0].inquiryId != rs[1..][i].inquiryId && rs[0].jobId != rs[1..][i].jobId)
        {
          NextAdmitted(d, caseId, requestKey, rs[0], maxAttempts, now, rs[1..][i]);
        }
        assert forall i | 0 < i < |rs| :: rs[i] == rs[1..][i - 1];
      }
    }
  }

  lemma InvJobs(d: Database, limit: int)
    requires Inv(d, limit)
    ensures DispatchJobsBound(d)
  {
    assert JobsOk(d.jobs, d.inquiries, d.payouts);
    hide Inv;
    forall j | j in d.jobs && d.jobs[j].kind == DispatchInquiry ensures d.jobs[j].resourceId in d.inquiries {
      assert JobOk(j, d.jobs[j], d.inquiries, d.payouts);
    }
  }

  lemma ReviewingIsUnasked(d: Database, caseId: Id, requestKey: string, limit: int)
    requires Inv(d, limit) && caseId in d.cases && d.cases[caseId].status == CaseReviewing
    ensures d.cases[caseId].version == 2
    ensures forall institution :: NotAsked(d, caseId, requestKey, institution)
  {
    assert CasesOk(d.cases) && BarrierAt(d.cases[caseId].status, d.inquiries, caseId);
    hide Inv;
    forall institution ensures NotAsked(d, caseId, requestKey, institution) {}
  }

  /** In every reachable state a dispatch commits exactly when it is asked for
      properly.  What other cases have asked never decides. */
  lemma DispatchProgress(c: Config, s: Service, actor: Principal, caseId: Id, requestKey: string, expected: int,
                         rs: seq<Request>, now: Instant)
    requires Reachable(c, s)
    ensures var d, o := s.db, Dispatch(s.db, actor, caseId, requestKey, expected, rs, c.maxAttempts, now);
            && (o.Committed? <==>
                  && actor.role in {Officer, Supervisor} && 8 <= |requestKey| <= 128 && rs != []
                  && caseId in d.cases && d.cases[caseId].status == CaseReviewing && expected == 2
                  && (forall i, j | 0 <= i < j < |rs| ::
                        rs[i].institution != rs[j].institution && rs[i].inquiryId != rs[j].inquiryId && rs[i].jobId != rs[j].jobId)
                  && (forall i | 0 <= i < |rs| ::
                        rs[i].inquiryId !in d.inquiries && rs[i].jobId !in d.jobs && rs[i].expectedParts > 0)
                  && c.maxAttempts > 0)
  {
    var d := s.db;
    hide Reachable, ServiceInv, InsertRequests, Inv, NotAsked;
    ReachableOk(c, s);
    InvJobs(d, c.limit);
    if caseId in d.cases && d.cases[caseId].status == CaseReviewing { ReviewingIsUnasked(d, caseId, requestKey, c.limit); }
    RequestsAdmitted(d, caseId, requestKey, rs, c.maxAttempts, now);
  }

  /** Which error a dispatch gets that does not commit. */
  lemma DispatchRefused(c: Config, s: Service, actor: Principal, caseId: Id, requestKey: string, expected: int,
                        rs: seq<Request>, now: Instant)
    requires Reachable(c, s)
    ensures var d, o := s.db, Dispatch(s.db, actor, caseId, requestKey, expected, rs, c.maxAttempts, now);
            var permitted := actor.role in {Officer, Supervisor};
            var formed := permitted && 8 <= |requestKey| <= 128 && rs != [];
            && (o == RolledBack(Forbidden) <==> !permitted)
            && (o == RolledBack(ValidationFailed) <==> permitted && !(8 <= |requestKey| <= 128))
            && (o == RolledBack(DependencyFailure) <==> permitted && 8 <= |requestKey| <= 128 && rs == [])
            && (o == RolledBack(NotFound) <==> formed && caseId !in d.cases)
            && (o == RolledBack(InvalidState) <==> formed && caseId in d.cases && d.cases[caseId].status != CaseReviewing)
            && (o == RolledBack(VersionConflict) <==>
                  formed && caseId in d.cases && d.cases[caseId].status == CaseReviewing && expected != 2)
            && (o.RolledBack? && formed && caseId in d.cases && d.cases[caseId].status == CaseReviewing && expected == 2 ==>
                  o.error == StorageFault)
  {
    var d := s.db;
    hide Reachable, ServiceInv, InsertRequests, Inv, NotAsked, Insertable, AllDistinct;
    ReachableOk(c, s);
    InvJobs(d, c.limit);
    if caseId in d.cases && d.cases[caseId].status == CaseReviewing { ReviewingIsUnasked(d, caseId, requestKey, c.limit); }
    RequestsAdmitted(d, caseId, requestKey, rs, c.maxAttempts, now);
  }

  lemma DispatchedCase(d: Database, actor: Principal, caseId: Id, requestKey: string, expected: int, rs: seq<Request>,
                       maxAttempts: int, now: Instant)
    requires Dispatch(d, actor, caseId, requestKey, expected, rs, maxAttempts, now).Committed?
    ensures var d1, e := InsertRequests(d, caseId, requestKey, rs, maxAttempts, now),
                         Dispatch(d, actor, caseId, requestKey, expected, rs, maxAttempts, now).database;
            && d1.Committed? && caseId in d.cases
            && e == d1.database.(cases := d1.database.cases[caseId := EstateCase(d.cases[caseId].claimant, CaseInquiring, expected + 1)],
                                 audit := d1.database.audit + [AuditEvent(actor.userId, "inquiries.dispatched", CaseObject, caseId)])
  {
    hide InsertRequests;
  }

  /** What a dispatch leaves: the case inquiring, and for each request its inquiry
      and its job, beside the rows that were there. */
  lemma DispatchAsksAll(d: Database, actor: Principal, caseId: Id, requestKey: string, expected: int, rs: seq<Request>,
                         maxAttempts: int, now: Instant)
    requires Dispatch(d, actor, caseId, requestKey, expected, rs, maxAttempts, now).Committed?
    ensures var e := Dispatch(d, actor, caseId, requestKey, expected, rs, maxAttempts, now).database;
            && caseId in d.cases
            && e == d.(cases := d.cases[caseId := EstateCase(d.cases[caseId].claimant, CaseInquiring, expected + 1)],
                       inquiries := e.inquiries, jobs := e.jobs,
                       audit := d.audit + [AuditEvent(actor.userId, "inquiries.dispatched", CaseObject, caseId)])
            && (forall i | 0 <= i < |rs| :: var r := rs[i];
                  && r.inquiryId in e.inquiries
                  && e.inquiries[r.inquiryId] == Inquiry(caseId, r.institution, requestKey, InquiryPending, "", r.expectedParts, 0, 1)
                  && r.jobId in e.jobs
                  && e.jobs[r.jobId] == Job(DispatchInquiry, r.inquiryId, JobPending, 0, maxAttempts, now, "", None))
            && (forall q | q in d.inquiries :: q in e.inquiries && e.inquiries[q] == d.inquiries[q])
            && (forall q | q in e.inquiries && q !in d.inquiries :: exists i :: 0 <= i < |rs| && rs[i].inquiryId == q)
            && (forall j | j in d.jobs :: j in e.jobs && e.jobs[j] == d.jobs[j])
            && (forall j | j in e.jobs && j !in d.jobs :: exists i :: 0 <= i < |rs| && rs[i].jobId == j)
  {
    DispatchedCase(d, actor, caseId, requestKey, expected, rs, maxAttempts, now);
    hide InsertRequests, Dispatch;
    RequestsInserted(d, caseId, requestKey, rs, maxAttempts, now);
    var d1 := InsertRequests(d, caseId, requestKey, rs, maxAttempts, now).database;
    forall i | 0 <= i < |rs| ensures Inserted(d1, caseId, requestKey, rs[i], maxAttempts, now) {}
  }

  // ------------------------------------------------------------------ claims

  lemma EligibleVersion(d: Database, caseId: Id, limit: int)
    requires Inv(d, limit) && caseId in d.cases && d.cases[caseId].status == CaseEligible
    ensures d.cases[caseId].version == 4
  {
    assert CasesOk(d.cases);
  }

  /** What a claim leaves, and which error it gets otherwise; ClaimProgress says
      when it commits. */
  lemma ClaimAnswered(c: Config, s: Service, actor: Principal, caseId: Id, ids: seq<Id>, claimId: Id)
    requires Reachable(c, s)
    ensures var d, o := s.db, CreateClaim(s.db, actor, caseId, ids, claimId, c.limit);
            var formed := actor.role == Claimant && 1 <= |ids| <= 50 && caseId in d.cases;
            var open := formed && d.cases[caseId].claimant == actor.userId && d.cases[caseId].status == CaseEligible;
            && (o.Committed? ==>
                  var claim := Claim(caseId, actor.userId, ClaimPending, Sum(AmountsOf(d, ids)), "CNY", 1, "");
                  o == Committed(d.(cases := d.cases[caseId := EstateCase(actor.userId, CaseClaiming, 5)],
                                    claims := d.claims[claimId := claim], links := d.links[claimId := AmountsOf(d, ids)],
                                    audit := d.audit + [AuditEvent(actor.userId, "claim.submitted", ClaimObject, claimId)]), claim))
            && (o == RolledBack(Forbidden) <==> actor.role != Claimant || (formed && d.cases[caseId].claimant != actor.userId))
            && (o == RolledBack(ValidationFailed) <==>
                  (actor.role == Claimant && !(1 <= |ids| <= 50)) || (open && !OwnAccounts(d, caseId, ids)))
            && (o == RolledBack(NotFound) <==> actor.role == Claimant && 1 <= |ids| <= 50 && caseId !in d.cases)
            && (o == RolledBack(InvalidState) <==>
                  formed && d.cases[caseId].claimant == actor.userId && d.cases[caseId].status != CaseEligible)
            && (o == RolledBack(Conflict) <==>
                  open && OwnAccounts(d, caseId, ids)
                  && !((forall a | a in ids :: ClaimableHolding(d.accounts[a].holding, c.limit)) && Sum(AmountsOf(d, ids)) <= c.limit))
            && (o == RolledBack(StorageFault) <==>
                  && open && OwnAccounts(d, caseId, ids) && claimId in d.claims
                  && (forall a | a in ids :: ClaimableHolding(d.accounts[a].holding, c.limit)) && Sum(AmountsOf(d, ids)) <= c.limit)
  {
    hide Reachable, ServiceInv, Inv, Sum, Selected, Balances, AmountsOf, OwnAccounts, ClaimableHolding, AllEligible;
    ReachableOk(c, s);
    SelectedAll(s.db, caseId, ids);
    if caseId in s.db.cases && s.db.cases[caseId].status == CaseEligible {
      EligibleVersion(s.db, caseId, c.limit);
      if OwnAccounts(s.db, caseId, ids) {
        UnclaimedIsUnreserved(s.db, caseId, c.limit);
        SelectedOwn(s.db, caseId, ids, c.limit);
      }
    }
  }

  // --------------------------------------------------------------- approvals

  /** The accounts after a reservation for the claim: the linked ones held. */
  ghost predicate HeldFor(before: map<Id, Account>, after: map<Id, Account>, linked: set<Id>, claimId: Id) {
    && after.Keys == before.Keys
    && forall a | a in before ::
         after[a] == if a in linked
                     then Account(before[a].key, before[a].inquiryId, before[a].holding, Some(claimId), before[a].version + 1)
                     else before[a]
  }

  lemma ReserveHolds(accounts: map<Id, Account>, linked: set<Id>, claimId: Id)
    ensures HeldFor(accounts, Reserve(accounts, linked, claimId), linked, claimId)
  {}

  lemma ApprovalLeaves(d: Database, actor: Principal, claimId: Id, payoutKey: string, expected: int,
                       payoutId: Id, jobId: Id, maxAttempts: int, now: Instant)
    requires Approve(d, actor, claimId, payoutKey, expected, payoutId, jobId, maxAttempts, now).Committed?
    ensures var o := Approve(d, actor, claimId, payoutKey, expected, payoutId, jobId, maxAttempts, now); var e := o.database;
            && claimId in d.claims
            && var claim := d.claims[claimId];
               var payout := Payout(claimId, payoutKey, PayoutPending, claim.total, claim.currency, "", 0);
            && o.value == payout && payoutId !in d.payouts && jobId !in d.jobs
            && e == d.(accounts := e.accounts, claims := d.claims[claimId := Claim(claim.caseId, claim.claimant, ClaimApproved, claim.total,
                                                                                   claim.currency, expected + 1, actor.userId)],
                       payouts := d.payouts[payoutId := payout],
                       jobs := d.jobs[jobId := Job(ExecutePayout, payoutId, JobPending, 0, maxAttempts, now, "", None)],
                       audit := d.audit + [AuditEvent(actor.userId, "claim.approved", ClaimObject, claimId)])
            && HeldFor(d.accounts, e.accounts, LinksOf(d.links, claimId).Keys, claimId)
  {
    hide Reserve, Reservable, HeldFor;
    ReserveHolds(d.accounts, LinksOf(d.links, claimId).Keys, claimId);
  }

  /** What an approval leaves: the claim approved by its supervisor, its accounts
      held for it, the payout of its total, and the payout's job. */
  lemma ApprovalAnswered(c: Config, s: Service, actor: Principal, claimId: Id, payoutKey: string, expected: int,
                         payoutId: Id, jobId: Id, now: Instant)
    requires Reachable(c, s)
    requires Approve(s.db, actor, claimId, payoutKey, expected, payoutId, jobId, c.maxAttempts, now).Committed?
    ensures var d, o := s.db, Approve(s.db, actor, claimId, payoutKey, expected, payoutId, jobId, c.maxAttempts, now);
            && claimId in d.claims && LinksOf(d.links, claimId).Keys <= d.accounts.Keys
            && var claim, e := d.claims[claimId], o.database;
               var total := Sum(Balances(d.accounts, LinksOf(d.links, claimId).Keys));
               var payout := Payout(claimId, payoutKey, PayoutPending, total, "CNY", "", 0);
            && o.value == payout
            && e == d.(accounts := e.accounts,
                       claims := d.claims[claimId := Claim(claim.caseId, claim.claimant, ClaimApproved, total, "CNY", 2, actor.userId)],
                       payouts := d.payouts[payoutId := payout],
                       jobs := d.jobs[jobId := Job(ExecutePayout, payoutId, JobPending, 0, c.maxAttempts, now, "", None)],
                       audit := d.audit + [AuditEvent(actor.userId, "claim.approved", ClaimObject, claimId)])
            && HeldFor(d.accounts, e.accounts, LinksOf(d.links, claimId).Keys, claimId)
  {
    hide Reachable, ServiceInv, Inv, Approve, HeldFor, Balances, Sum;
    ReachableOk(c, s);
    ApprovalLeaves(s.db, actor, claimId, payoutKey, expected, payoutId, jobId, c.maxAttempts, now);
    ApprovalProgress(c, s, actor, claimId, payoutKey, expected, payoutId, jobId, c.maxAttempts, now);
    ClaimTotals(c, s, claimId);
    InvClaim(s.db, claimId, c.limit);
  }

  lemma HeldIsNotReservable(d: Database, claimId: Id, limit: int)
    requires Inv(d, limit) && claimId in d.claims && d.claims[claimId].status != ClaimPending
    ensures LinksOf(d.links, claimId).Keys == {} || !Reservable(d.accounts, LinksOf(d.links, claimId).Keys)
  {
    hide Inv, Sum;
    InvClaim(d, claimId, limit);
    var linked := LinksOf(d.links, claimId);
    if linked.Keys != {} {
      var a :| a in linked;
      assert Backs(d.accounts, a, linked[a], claimId, d.claims[claimId], limit);
      assert a in linked.Keys;
    }
  }

  lemma PendingIsReservable(d: Database, claimId: Id, limit: int)
    requires Inv(d, limit) && claimId in d.claims && d.claims[claimId].status == ClaimPending
    ensures LinksOf(d.links, claimId).Keys != {} && Reservable(d.accounts, LinksOf(d.links, claimId).Keys)
  {
    assert ClaimsOk(d.accounts, d.claims, d.links, limit);
    hide Inv, ClaimsOk, Reservable;
    PendingClaimReservable(d, claimId, limit);
    if LinksOf(d.links, claimId).Keys == {} { NoKeys(LinksOf(d.links, claimId)); }
  }

  /** Which error an approval gets.  Approving again with the current version is
      a conflict, as the accounts are held, and never a wrong state. */
  lemma ApprovalRefused(c: Config, s: Service, actor: Principal, claimId: Id, payoutKey: string, expected: int,
                        payoutId: Id, jobId: Id, now: Instant)
    requires Reachable(c, s)
    ensures var d, o := s.db, Approve(s.db, actor, claimId, payoutKey, expected, payoutId, jobId, c.maxAttempts, now);
            var formed := actor.role == Supervisor && 8 <= |payoutKey| <= 128;
            && (o == RolledBack(Forbidden) <==> actor.role != Supervisor)
            && (o == RolledBack(ValidationFailed) <==> actor.role == Supervisor && !(8 <= |payoutKey| <= 128))
            && (o == RolledBack(NotFound) <==> formed && claimId !in d.claims)
            && (o == RolledBack(VersionConflict) <==> formed && claimId in d.claims && d.claims[claimId].version != expected)
            && (o == RolledBack(Conflict) <==>
                  formed && claimId in d.claims && d.claims[claimId].version == expected && d.claims[claimId].status != ClaimPending)
            && (o == RolledBack(StorageFault) <==>
                  && formed && claimId in d.claims && d.claims[claimId].version == expected && d.claims[claimId].status == ClaimPending
                  && (payoutId in d.payouts || jobId in d.jobs || c.maxAttempts <= 0
                      || exists p :: p in d.payouts && d.payouts[p].idempotencyKey == payoutKey))
            && o != RolledBack(InvalidState)
  {
    var d := s.db;
    hide Reachable, ServiceInv, Inv, Reserve, Reservable, CanInsertPayout, CanInsertJob;
    ReachableOk(c, s);
    ApprovalProgress(c, s, actor, claimId, payoutKey, expected, payoutId, jobId, c.maxAttempts, now);
    if claimId in d.claims {
      if d.claims[claimId].status == ClaimPending {
        PendingIsReservable(d, claimId, c.limit);
      } else {
        HeldIsNotReservable(d, claimId, c.limit);
      }
    }
  }

  // -------------------------------------------------- confirmations and jobs

  lemma OpenPayoutClaim(d: Database, id: Id, limit: int)
    requires Inv(d, limit) && id in d.payouts && PayoutOk(d.payouts[id], d.claims) && d.payouts[id].status in {PayoutPending, PayoutSubmitted}
    ensures var claim := d.claims[d.payouts[id].claimId];
            claim.status == ClaimApproved && claim.version == 2 && claim.currency == "CNY" && claim.total == d.payouts[id].amount
  {
    hide Inv, Sum, Backs;
    InvClaim(d, d.payouts[id].claimId, limit);
  }

  /** A confirmation goes through exactly for an open payout, and pays the claim. */
  lemma ConfirmationAnswered(c: Config, s: Service, id: Id, reference: string)
    requires Reachable(c, s)
    ensures var d, o := s.db, ConfirmPayout(s.db, id, reference);
            if id in d.payouts && (d.payouts[id].status == PayoutPending || d.payouts[id].status == PayoutSubmitted) then
              var p := d.payouts[id];
              && p.claimId in d.claims
              && var claim := d.claims[p.claimId];
                 o == Committed(d.(payouts := d.payouts[id := Payout(p.claimId, p.idempotencyKey, PayoutConfirmed, p.amount, p.currency,
                                                                     reference, p.attempts + 1)],
                                   claims := d.claims[p.claimId := Claim(claim.caseId, claim.claimant, ClaimPaid, p.amount, "CNY", 3,
                                                                         claim.approvedBy)]), ())
            else o == RolledBack(Conflict)
  {
    var d := s.db;
    hide Reachable, ServiceInv, Inv, PayoutOk, ClaimOk;
    ReachableOk(c, s);
    InvPayouts(d, c.limit);
    if id in d.payouts && (d.payouts[id].status == PayoutPending || d.payouts[id].status == PayoutSubmitted) {
      ConfirmHitsClaim(d, id);
      OpenPayoutClaim(d, id, c.limit);
    }
  }

  lemma InvJob(d: Database, id: Id, limit: int)
    requires Inv(d, limit) && id in d.jobs
    ensures JobOk(id, d.jobs[id], d.inquiries, d.payouts)
  {}

  lemma DispatchHandled(d: Database, id: Id, limit: int)
    requires Inv(d, limit) && id in d.jobs && d.jobs[id].kind == DispatchInquiry
    ensures var r := d.jobs[id].resourceId;
            && r in d.inquiries
            && var q := d.inquiries[r];
               RunHandler(d, id, d.jobs[id])
               == Committed(if q.status != InquiryPending then d else d.(inquiries := d.inquiries[r :=
                    Inquiry(q.caseId, q.institution, q.requestKey, InquiryDispatched, "outbox-" + id, q.expectedParts, 0, 2)]), ())
  {
    hide Inv;
    InvJob(d, id, limit);
    InvInquiries(d, d.jobs[id].resourceId, limit);
  }

  lemma PayoutHandled(d: Database, id: Id, limit: int)
    requires Inv(d, limit) && id in d.jobs && d.jobs[id].kind == ExecutePayout
    ensures var r := d.jobs[id].resourceId;
            && r in d.payouts
            && var p := d.payouts[r];
               RunHandler(d, id, d.jobs[id])
               == Committed(if p.status != PayoutPending then d else d.(payouts := d.payouts[r :=
                    Payout(p.claimId, p.idempotencyKey, PayoutSubmitted, p.amount, p.currency, p.providerRef, 1)]), ())
  {
    hide Inv;
    InvJob(d, id, limit);
    InvPayout(d, d.jobs[id].resourceId, limit);
  }

  /** A job's handler always commits: the first time it marks the inquiry with the
      job's own reference, or the payout as submitted, and later nothing. */
  lemma HandlerAnswered(c: Config, s: Service, id: Id)
    requires Reachable(c, s) && id in s.db.jobs
    ensures var d, job := s.db, s.db.jobs[id]; var r, o := job.resourceId, RunHandler(s.db, id, job);
            match job.kind
            case DispatchInquiry =>
              && r in d.inquiries
              && var q := d.inquiries[r];
                 o == Committed(if q.status != InquiryPending then d else d.(inquiries := d.inquiries[r :=
                        Inquiry(q.caseId, q.institution, q.requestKey, InquiryDispatched, "outbox-" + id, q.expectedParts, 0, 2)]), ())
            case ExecutePayout =>
              && r in d.payouts
              && var p := d.payouts[r];
                 o == Committed(if p.status != PayoutPending then d else d.(payouts := d.payouts[r :=
                        Payout(p.claimId, p.idempotencyKey, PayoutSubmitted, p.amount, p.currency, p.providerRef, 1)]), ())
  {
    hide Reachable, ServiceInv, Inv, RunHandler;
    ReachableOk(c, s);
    match s.db.jobs[id].kind
    case DispatchInquiry => DispatchHandled(s.db, id, c.limit);
    case ExecutePayout => PayoutHandled(s.db, id, c.limit);
  }
}
