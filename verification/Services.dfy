/** The services, statement by statement over a store in which any statement may
    fail.  Each request does exactly what its transaction function says, or
    reports a fault and changes nothing. */
module Services {
  import opened Timestamps
  import opened Domain
  import opened Entities
  import opened Sums
  import opened Workflow
  import opened Selection
  import opened Storage
  import TextOrder

  // ------------------------------------------------ internal/cases/service.go

  class CaseService {
    const store: Store

    constructor (store: Store)
      ensures this.store == store
    {
      this.store := store;
    }

    method Submit(actor: Principal, input: SubmitInput, key: string, now: Instant, caseId: Id) returns (r: Result<Submission>)
      requires store.Valid()
      modifies store
      ensures store.Valid() && store.Proceeds()
      ensures Did(r, Workflow.Submit(old(store.db), actor, input, key, now, caseId), old(store.db), store.db, store.Failed())
    {
      if actor.role != Claimant { return Err(Forbidden); }
      if !input.wellFormed || !KeyLength(key) { return Err(ValidationFailed); }
      var begun := store.BeginTx();
      if begun.Err? { return Err(begun.error); }
      var body := SubmitTx(actor, input, key, now, caseId);
      r := store.EndTx(begun.value, body);
    }

    method SubmitTx(actor: Principal, input: SubmitInput, key: string, now: Instant, caseId: Id) returns (r: Result<Submission>)
      requires store.Valid() && actor.role == Claimant && input.wellFormed && KeyLength(key)
      modifies store
      ensures store.Valid() && store.Proceeds()
      ensures Doing(r, Workflow.Submit(old(store.db), actor, input, key, now, caseId), store.db, store.Failed())
    {
      hide LiveKey;
      var record := store.GetIdempotency(key, now);
      if record.Ok? {
        if !SameRequest(record.value, actor.userId, input) { return Err(Conflict); }
        var existing := store.CaseByID(record.value.resourceId);
        if existing.Err? { return Err(existing.error); }
        return Ok(Submission(record.value.resourceId, existing.value, true));
      }
      if record.error != NotFound { return Err(record.error); }
      var item := EstateCase(actor.userId, CaseSubmitted, 1);
      var done := store.InsertCase(caseId, item);
      if done.Err? { return Err(done.error); }
      done := store.InsertAudit(AuditEvent(actor.userId, "case.submitted", CaseObject, caseId));
      if done.Err? { return Err(done.error); }
      done := store.PutIdempotency(key, IdempotencyRecord(actor.userId, "POST", "/v1/cases", Sha256(input), caseId, now + DAY_OF_KEYS));
      if done.Err? { return Err(done.error); }
      r := Ok(Submission(caseId, item, false));
    }

    method StartReview(actor: Principal, caseId: Id, expected: int) returns (r: Result<()>)
      requires store.Valid()
      modifies store
      ensures store.Valid() && store.Proceeds()
      ensures Did(r, Workflow.StartReview(old(store.db), actor, caseId, expected), old(store.db), store.db, store.Failed())
    {
      if !actor.role.Operational() { return Err(Forbidden); }
      var begun := store.BeginTx();
      if begun.Err? { return Err(begun.error); }
      var body := StartReviewTx(actor, caseId, expected);
      r := store.EndTx(begun.value, body);
    }

    method StartReviewTx(actor: Principal, caseId: Id, expected: int) returns (r: Result<()>)
      requires store.Valid() && actor.role.Operational()
      modifies store
      ensures store.Valid() && store.Proceeds()
      ensures Doing(r, Workflow.StartReview(old(store.db), actor, caseId, expected), store.db, store.Failed())
    {
      var found := store.CaseByID(caseId);
      if found.Err? { return Err(found.error); }
      if found.value.version != expected { return Err(VersionConflict); }
      var item := new CaseEntity(found.value);
      var previous := item.version;
      var done := item.Transition(CaseReviewing);
      if done.Err? { return done; }
      done := store.UpdateCase(caseId, item.Row(), previous);
      if done.Err? { return done; }
      r := store.InsertAudit(AuditEvent(actor.userId, "case.review_started", CaseObject, caseId));
    }
  }

  // ---------------------------------------------- internal/inquiry/service.go

  /** The inquiries a dispatch reports. */
  function Created(caseId: Id, requestKey: string, requests: seq<Request>): seq<(Id, Inquiry)> {
    seq(|requests|, i requires 0 <= i < |requests| =>
      (requests[i].inquiryId,
       Inquiry(caseId, requests[i].institution, requestKey, InquiryPending, "", requests[i].expectedParts, 0, 1)))
  }

  lemma SameJobs(d: Database, e: Database, id: Id, row: Job)
    requires d.jobs == e.jobs
    ensures CanInsertJob(d, id, row) == CanInsertJob(e, id, row)
  {}

  class InquiryService {
    const store: Store
    const maxAttempts: int

    constructor (store: Store, maxAttempts: int)
      ensures this.store == store && this.maxAttempts == maxAttempts
    {
      this.store := store;
      this.maxAttempts := maxAttempts;
    }

    /** The loop over the institutions. */
    method InsertAll(caseId: Id, requestKey: string, requests: seq<Request>, now: Instant)
      returns (r: Result<()>, created: seq<(Id, Inquiry)>)
      requires store.Valid()
      modifies store
      ensures store.Valid() && store.Proceeds()
      ensures Doing(r, InsertRequests(old(store.db), caseId, requestKey, requests, maxAttempts, now), store.db, store.Failed())
      ensures store.db == old(store.db).(inquiries := store.db.inquiries, jobs := store.db.jobs)
      ensures r.Ok? ==> created == Created(caseId, requestKey, requests)
    {
      hide CanInsertInquiry, CanInsertJob;
      created := [];
      for i := 0 to |requests|
        invariant store.Valid() && store.Proceeds()
        invariant InsertRequests(old(store.db), caseId, requestKey, requests, maxAttempts, now)
                  == InsertRequests(store.db, caseId, requestKey, requests[i..], maxAttempts, now)
        invariant store.db == old(store.db).(inquiries := store.db.inquiries, jobs := store.db.jobs)
        invariant created == Created(caseId, requestKey, requests[..i])
      {
        var request := requests[i];
        assert requests[i..][0] == request && requests[i..][1..] == requests[i + 1..];
        ghost var before := store.db;
        var done := store.InsertInquiry(request.inquiryId, NewInquiry(caseId, requestKey, request));
        if done.Err? { return done, created; }
        SameJobs(before, store.db, request.jobId, NewJob(DispatchInquiry, request.inquiryId, maxAttempts, now));
        done := store.InsertJob(request.jobId, NewJob(DispatchInquiry, request.inquiryId, maxAttempts, now));
        if done.Err? { return done, created; }
        created := created + [(request.inquiryId, NewInquiry(caseId, requestKey, request))];
      }
      assert requests[..|requests|] == requests;
      r := Ok(());
    }

    method Dispatch(actor: Principal, caseId: Id, requestKey: string, expected: int, requests: seq<Request>, now: Instant)
      returns (r: Result<()>, created: seq<(Id, Inquiry)>)
      requires store.Valid()
      modifies store
      ensures store.Valid() && store.Proceeds()
      ensures Did(r, Workflow.Dispatch(old(store.db), actor, caseId, requestKey, expected, requests, maxAttempts, now),
                  old(store.db), store.db, store.Failed())
      ensures r.Ok? ==> created == Created(caseId, requestKey, requests)
    {
      created := [];
      if !actor.role.Operational() { return Err(Forbidden), []; }
      if !KeyLength(requestKey) { return Err(ValidationFailed), []; }
      if |requests| == 0 { return Err(DependencyFailure), []; }
      var begun := store.BeginTx();
      if begun.Err? { return Err(begun.error), []; }
      var body;
      body, created := DispatchTx(actor, caseId, requestKey, expected, requests, now);
      r := store.EndTx(begun.value, body);
    }

    method DispatchTx(actor: Principal, caseId: Id, requestKey: string, expected: int, requests: seq<Request>, now: Instant)
      returns (r: Result<()>, created: seq<(Id, Inquiry)>)
      requires store.Valid() && actor.role.Operational() && KeyLength(requestKey) && requests != []
      modifies store
      ensures store.Valid() && store.Proceeds()
      ensures Doing(r, Workflow.Dispatch(old(store.db), actor, caseId, requestKey, expected, requests, maxAttempts, now),
                    store.db, store.Failed())
      ensures r.Ok? ==> created == Created(caseId, requestKey, requests)
    {
      created := [];
      var found := store.CaseByID(caseId);
      if found.Err? { return Err(found.error), []; }
      if found.value.status != CaseReviewing { return Err(InvalidState), []; }
      if found.value.version != expected { return Err(VersionConflict), []; }
      r, created := InsertAll(caseId, requestKey, requests, now);
      if r.Err? { return; }
      var item := new CaseEntity(found.value);
      var previous := item.version;
      r := item.Transition(CaseInquiring);
      if r.Err? { return; }
      r := store.UpdateCase(caseId, item.Row(), previous);
      if r.Err? { return; }
      r := store.InsertAudit(AuditEvent(actor.userId, "inquiries.dispatched", CaseObject, caseId));
    }

    /** One more part received. */
    method CountPart(inquiryId: Id, q: Inquiry) returns (r: Result<Inquiry>)
      requires store.Valid() && inquiryId in store.db.inquiries && store.db.inquiries[inquiryId] == q
      modifies store
      ensures store.Valid() && store.Proceeds()
      ensures if r.Ok? then NextPart(q) == r && store.db == old(store.db).(inquiries := old(store.db).inquiries[inquiryId := r.value])
              else NextPart(q) == Err(r.error) || (store.Failed() && r.error == StorageFault)
    {
      hide SchemaOk;
      var item := new InquiryEntity(q);
      var previous := item.version;
      item.receivedParts := item.receivedParts + 1;
      var next := InquiryPartial;
      if item.receivedParts >= item.expectedParts {
        next := InquiryCompleted;
      }
      var done := item.Transition(next);
      if done.Err? { return Err(InvalidState); }
      done := store.UpdateInquiry(inquiryId, item.Row(), previous);
      if done.Err? { return Err(done.error); }
      r := Ok(item.Row());
    }

    /** The loop over the delivered accounts. */
    method UpsertAccounts(inquiryId: Id, q: Inquiry, accounts: seq<AccountResult>, ids: seq<Id>) returns (r: Result<()>)
      requires store.Valid() && forall i | 0 <= i < |accounts| :: Int64(accounts[i].holding.balance)
      modifies store
      ensures store.Valid() && store.Proceeds()
      ensures store.db == old(store.db).(accounts := store.db.accounts)
      ensures var o := UpsertAll(old(store.db).accounts, inquiryId, q, accounts, ids);
              if r.Ok? then o == Ok(store.db.accounts)
              else o == Err(r.error) || (store.Failed() && r.error == StorageFault)
    {
      hide Upsert, SchemaOk, KeyOf;
      for i := 0 to |accounts|
        invariant store.Valid() && store.Proceeds() && i <= |ids|
        invariant UpsertAll(old(store.db).accounts, inquiryId, q, accounts, ids)
                  == UpsertAll(store.db.accounts, inquiryId, q, accounts[i..], ids[i..])
        invariant store.db == old(store.db).(accounts := store.db.accounts)
      {
        if i == |ids| { return Err(StorageFault); }
        assert accounts[i..][0] == accounts[i] && accounts[i..][1..] == accounts[i + 1..];
        assert ids[i..][0] == ids[i] && ids[i..][1..] == ids[i + 1..];
        var done := store.UpsertFinancialAccount(ids[i], inquiryId, KeyOf(q, accounts[i]), accounts[i].holding);
        if done.Err? { return done; }
      }
      r := Ok(());
    }

    /** The barrier: the case becomes eligible once nothing is incomplete. */
    method OpenCase(caseId: Id) returns (r: Result<()>)
      requires store.Valid()
      modifies store
      ensures store.Valid() && store.Proceeds()
      ensures var o := AfterResult(old(store.db).cases, old(store.db).inquiries, caseId);
              if r.Ok? then o.Ok? && store.db == old(store.db).(cases := o.value)
              else o == Err(r.error) || (store.Failed() && r.error == StorageFault)
    {
      hide Complete, SchemaOk;
      var incomplete := store.CountIncomplete(caseId);
      if incomplete.Err? { return Err(incomplete.error); }
      if incomplete.value == 0 {
        var found := store.CaseByID(caseId);
        if found.Err? { return Err(found.error); }
        var item := new CaseEntity(found.value);
        var previous := item.version;
        var done := item.Transition(CaseEligible);
        if done.Err? { return done; }
        done := store.UpdateCase(caseId, item.Row(), previous);
        if done.Err? { return done; }
      }
      r := Ok(());
    }

    method RecordResult(inquiryId: Id, input: ResultInput, ids: seq<Id>) returns (r: Result<Inquiry>)
      requires store.Valid() && forall i | 0 <= i < |input.accounts| :: Int64(input.accounts[i].holding.balance)
      modifies store
      ensures store.Valid() && store.Proceeds()
      ensures Did(r, Workflow.RecordResult(old(store.db), inquiryId, input, ids), old(store.db), store.db, store.Failed())
    {
      hide UpsertAll, AfterResult, PartsOf;
      if !ValidInput(input) { return Err(ValidationFailed); }
      var begun := store.BeginTx();
      if begun.Err? { return Err(begun.error); }
      var body := RecordResultTx(inquiryId, input, ids);
      r := store.EndTx(begun.value, body);
    }

    method RecordResultTx(inquiryId: Id, input: ResultInput, ids: seq<Id>) returns (r: Result<Inquiry>)
      requires store.Valid() && ValidInput(input) && forall i | 0 <= i < |input.accounts| :: Int64(input.accounts[i].holding.balance)
      modifies store
      ensures store.Valid() && store.Proceeds()
      ensures Doing(r, Workflow.RecordResult(old(store.db), inquiryId, input, ids), store.db, store.Failed())
    {
      hide UpsertAll, ValidInput, AfterResult, PartsOf, SchemaOk;
      var found := store.InquiryByID(inquiryId);
      if found.Err? { return found; }
      var q := found.value;
      var hash := store.InquiryResultHash(inquiryId, input.partKey);
      if hash.Ok? {
        if hash.value != Sha256(input) { return Err(Conflict); }
        return Ok(q);
      }
      if hash.error != NotFound { return Err(hash.error); }
      if q.status != InquiryDispatched && q.status != InquiryPartial { return Err(InvalidState); }
      var inserted := store.InsertInquiryResult(inquiryId, input.partKey, Sha256(input));
      if inserted.Err? { return Err(inserted.error); }
      if !inserted.value { return Ok(q); }
      var done := UpsertAccounts(inquiryId, q, input.accounts, ids);
      if done.Err? { return Err(done.error); }
      var counted := CountPart(inquiryId, q);
      if counted.Err? { return counted; }
      done := OpenCase(q.caseId);
      if done.Err? { return Err(done.error); }
      done := store.InsertAudit(AuditEvent("system", "inquiry.result_recorded", InquiryObject, inquiryId));
      if done.Err? { return Err(done.error); }
      r := counted;
    }

    method MarkDispatched(inquiryId: Id, externalRef: string) returns (r: Result<()>)
      requires store.Valid()
      modifies store
      ensures store.Valid() && store.Proceeds()
      ensures Did(r, Workflow.MarkDispatched(old(store.db), inquiryId, externalRef), old(store.db), store.db, store.Failed())
    {
      var begun := store.BeginTx();
      if begun.Err? { return Err(begun.error); }
      var body := MarkDispatchedTx(inquiryId, externalRef);
      r := store.EndTx(begun.value, body);
    }

    method MarkDispatchedTx(inquiryId: Id, externalRef: string) returns (r: Result<()>)
      requires store.Valid()
      modifies store
      ensures store.Valid() && store.Proceeds()
      ensures Doing(r, Workflow.MarkDispatched(old(store.db), inquiryId, externalRef), store.db, store.Failed())
    {
      var found := store.InquiryByID(inquiryId);
      if found.Err? { return Err(found.error); }
      var item := new InquiryEntity(found.value);
      if item.status == InquiryDispatched || item.status == InquiryPartial || item.status == InquiryCompleted {
        return if item.externalRef == externalRef then Ok(()) else Err(Conflict);
      }
      var previous := item.version;
      var done := item.Transition(InquiryDispatched);
      if done.Err? { return done; }
      item.externalRef := externalRef;
      r := store.UpdateInquiry(inquiryId, item.Row(), previous);
    }
  }

  // ------------------------------------------------ internal/claims/service.go

  lemma SamePayouts(d: Database, e: Database, id: Id, row: Payout)
    requires d.payouts == e.payouts
    ensures CanInsertPayout(d, id, row) == CanInsertPayout(e, id, row)
  {}

  lemma SortedIsSet(s: set<Id>)
    ensures SetOf(TextOrder.Sorted(s)) == s && DuplicateFree(TextOrder.Sorted(s))
    ensures |TextOrder.Sorted(s)| == 0 <==> s == {}
  {}

  ghost predicate ListedIn(rows: seq<Listed>, accounts: map<Id, Account>) {
    DistinctIds(rows) && forall i | 0 <= i < |rows| :: rows[i].id in accounts && rows[i].account == accounts[rows[i].id]
  }

  ghost predicate Positive(rows: seq<Listed>) {
    forall i | 0 <= i < |rows| :: rows[i].account.holding.balance > 0
  }

  lemma SelectedRows(rows: seq<Listed>, d: Database, caseId: Id, ids: seq<Id>)
    requires Lists(rows, d.accounts, caseId) && Balanced(rows)
    ensures var kept := Kept(rows, SetOf(ids)); ListedIn(kept, d.accounts) && Balanced(kept) && IdsOf(kept) == Selected(d, caseId, ids)
  {
    KeptRows(rows, SetOf(ids));
    KeptIds(rows, SetOf(ids));
    assert IdsOf(rows) * SetOf(ids) == Selected(d, caseId, ids);
  }

  lemma {:induction false} RunPositive(rows: seq<Listed>, limit: int, total: int)
    requires Balanced(rows) && Int64(total) && RunningTotal(rows, limit, total).Ok?
    ensures Positive(rows)
  {
    if rows != [] {
      RunPositive(rows[1..], limit, Plus(total, rows[0].account.holding.balance));
      forall i | 0 <= i < |rows| ensures rows[i].account.holding.balance > 0 {
        if i > 0 { assert rows[i] == rows[1..][i - 1]; }
      }
    }
  }

  lemma {:induction false} SelectedPositive(rows: seq<Listed>, limit: int)
    requires Balanced(rows) && RunningTotal(rows, limit, 0).Ok?
    ensures Positive(rows)
    ensures 2 * limit <= MAX_INT64 ==> 0 <= RunningTotal(rows, limit, 0).value
  {
    RunPositive(rows, limit, 0);
    if 2 * limit <= MAX_INT64 && rows != [] {
      RunningTotalExact(rows, limit, 0);
      TotalNonNegative(rows, limit);
    }
  }

  lemma NoStaleLinks(d: Database, claimId: Id)
    requires SchemaOk(d) && claimId !in d.claims
    ensures claimId !in d.links
  {}

  lemma NothingLinked(accounts: map<Id, Account>, rows: seq<Listed>)
    ensures Balances(accounts, IdsOf(rows[..0])) == map[]
  {}

  lemma LinkStep(accounts: map<Id, Account>, rows: seq<Listed>, i: nat)
    requires i < |rows| && ListedIn(rows, accounts)
    ensures rows[i].id !in Balances(accounts, IdsOf(rows[..i]))
    ensures Balances(accounts, IdsOf(rows[..i + 1]))
            == Balances(accounts, IdsOf(rows[..i]))[rows[i].id := rows[i].account.holding.balance]
  {}

  class ClaimService {
    const store: Store
    const limit: int
    const maxAttempts: int

    constructor (store: Store, limit: int, maxAttempts: int)
      ensures this.store == store && this.limit == limit && this.maxAttempts == maxAttempts
    {
      this.store := store;
      this.limit := limit;
      this.maxAttempts := maxAttempts;
    }

    /** The loop over the selected accounts. */
    method LinkAll(claimId: Id, selected: seq<Listed>) returns (r: Result<()>)
      requires store.Valid() && claimId in store.db.claims && claimId !in store.db.links && selected != []
      requires ListedIn(selected, store.db.accounts) && Positive(selected)
      modifies store
      ensures store.Valid() && store.Proceeds()
      ensures if r.Ok? then store.db == old(store.db).(
                              links := old(store.db).links[claimId := Balances(old(store.db).accounts, IdsOf(selected))])
              else r.error == StorageFault && store.Failed()
    {
      hide Balances, SchemaOk;
      ghost var accounts := store.db.accounts;
      NothingLinked(accounts, selected);
      for i := 0 to |selected|
        invariant store.Valid() && store.Proceeds()
        invariant store.db == old(store.db).(links := store.db.links)
        invariant if i == 0 then store.db.links == old(store.db).links
                  else store.db.links == old(store.db).links[claimId := Balances(accounts, IdsOf(selected[..i]))]
        invariant LinksOf(store.db.links, claimId) == Balances(accounts, IdsOf(selected[..i]))
      {
        LinkStep(accounts, selected, i);
        var done := store.LinkAccount(claimId, selected[i].id, selected[i].account.holding.balance);
        if done.Err? { return done; }
      }
      assert selected[..|selected|] == selected;
      r := Ok(());
    }

    /** The rows of a new claim: itself, its links, its case and the event. */
    method Enter(actor: Principal, claimId: Id, claim: Claim, selected: seq<Listed>, row: EstateCase) returns (r: Result<()>)
      requires store.Valid() && claim.caseId in store.db.cases && store.db.cases[claim.caseId] == row && row.status == CaseEligible
      requires selected != [] && ListedIn(selected, store.db.accounts) && Positive(selected)
      modifies store
      ensures store.Valid() && store.Proceeds()
      ensures var d := old(store.db);
              Doing(r, if claimId in d.claims || claim.total < 0 then RolledBack(StorageFault)
                       else Committed(Audited(d.(claims := d.claims[claimId := claim],
                                                 links := d.links[claimId := Balances(d.accounts, IdsOf(selected))],
                                                 cases := d.cases[claim.caseId := row.(status := CaseClaiming, version := row.version + 1)]),
                                              AuditEvent(actor.userId, "claim.submitted", ClaimObject, claimId)), ()),
                    store.db, store.Failed())
    {
      hide Balances, SchemaOk, ListedIn, Positive;
      ghost var before := store.db;
      r := store.InsertClaim(claimId, claim);
      if r.Err? { return; }
      NoStaleLinks(before, claimId);
      r := LinkAll(claimId, selected);
      if r.Err? { return; }
      var item := new CaseEntity(row);
      var previous := item.version;
      r := item.Transition(CaseClaiming);
      if r.Err? { return; }
      r := store.UpdateCase(claim.caseId, item.Row(), previous);
      if r.Err? { return; }
      r := store.InsertAudit(AuditEvent(actor.userId, "claim.submitted", ClaimObject, claimId));
    }

    method CreateTx(actor: Principal, caseId: Id, ids: seq<Id>, claimId: Id) returns (r: Result<Claim>)
      requires store.Valid() && actor.role == Claimant && 0 < |ids| <= 50
      modifies store
      ensures store.Valid() && store.Proceeds()
      ensures 2 * limit <= MAX_INT64 ==>
                Doing(r, CreateClaim(old(store.db), actor, caseId, ids, claimId, limit), store.db, store.Failed())
    {
      hide Selected, Balances, AllEligible, SchemaOk, Sum, Kept, RunningTotal, Lists, ListedIn, Positive;
      var found := store.CaseByID(caseId);
      if found.Err? { return Err(found.error); }
      if found.value.claimant != actor.userId { return Err(Forbidden); }
      if found.value.status != CaseEligible { return Err(InvalidState); }
      var rows := store.AccountsForCase(caseId);
      if rows.Err? { return Err(rows.error); }
      var selected := SelectAccounts(rows.value, ids);
      if 2 * limit <= MAX_INT64 { SelectionAgrees(store.db, caseId, rows.value, ids, limit); }
      SelectedRows(rows.value, store.db, caseId, ids);
      if |selected| != |ids| { return Err(ValidationFailed); }
      var total := BoundedTotal(selected, limit);
      if total.Err? { return Err(total.error); }
      SelectedPositive(selected, limit);
      var claim := Claim(caseId, actor.userId, ClaimPending, total.value, "CNY", 1, "");
      var done := Enter(actor, claimId, claim, selected, found.value);
      if done.Err? { return Err(done.error); }
      r := Ok(claim);
    }

    /** The sum is exact for limits up to (2^63 - 1) / 2, see Selection. */
    method Create(actor: Principal, caseId: Id, ids: seq<Id>, claimId: Id) returns (r: Result<Claim>)
      requires store.Valid()
      modifies store
      ensures store.Valid() && store.Proceeds() && (r.Err? ==> store.db == old(store.db))
      ensures 2 * limit <= MAX_INT64 ==>
                Did(r, CreateClaim(old(store.db), actor, caseId, ids, claimId, limit), old(store.db), store.db, store.Failed())
    {
      hide Selected, Balances, AllEligible, SchemaOk;
      if actor.role != Claimant { return Err(Forbidden); }
      if |ids| == 0 || |ids| > 50 { return Err(ValidationFailed); }
      var begun := store.BeginTx();
      if begun.Err? { return Err(begun.error); }
      var body := CreateTx(actor, caseId, ids, claimId);
      r := store.EndTx(begun.value, body);
    }

    method ApproveRow(claimId: Id, row: Claim, actor: Principal) returns (r: Result<Claim>)
      requires store.Valid() && claimId in store.db.claims && store.db.claims[claimId] == row
      modifies store
      ensures store.Valid() && store.Proceeds()
      ensures var o := row.Transition(ClaimApproved, actor.userId);
              if r.Ok? then o == r && store.db == old(store.db).(claims := old(store.db).claims[claimId := r.value])
              else o == Err(r.error) || (store.Failed() && r.error == StorageFault)
    {
      hide SchemaOk;
      var claim := new ClaimEntity(row);
      var previous := claim.version;
      var done := claim.Transition(ClaimApproved, actor.userId);
      if done.Err? { return Err(InvalidState); }
      done := store.UpdateClaim(claimId, claim.Row(), previous);
      if done.Err? { return Err(done.error); }
      r := Ok(claim.Row());
    }

    /** Reserves what the claim links; the total is what the caller discards. */
    method ReserveLinked(claimId: Id) returns (r: Result<int>)
      requires store.Valid()
      modifies store
      ensures store.Valid() && store.Proceeds()
      ensures var d, linked := old(store.db), LinksOf(old(store.db).links, claimId).Keys;
              if r.Ok? then
                && linked != {} && Reservable(d.accounts, linked) && Int64Balances(d.accounts)
                && store.db == d.(accounts := Reserve(d.accounts, linked, claimId))
                && SetOf(TextOrder.Sorted(linked)) <= d.accounts.Keys && r.value == AddUp(d.accounts, TextOrder.Sorted(linked))
              else (r.error == Conflict && (linked == {} || !Reservable(d.accounts, linked)))
                   || (r.error == StorageFault && store.Failed())
    {
      hide Reserve, SchemaOk, AddUp, Int64Balances;
      var ids := store.LinkedAccounts(claimId);
      if ids.Err? { return Err(ids.error); }
      SortedIsSet(LinksOf(store.db.links, claimId).Keys);
      if |ids.value| == 0 { return Err(Conflict); }
      r := store.ReserveAccounts(claimId, ids.value);
    }

    /** The payout and the job that will execute it. */
    method Order(payoutId: Id, payout: Payout, jobId: Id, now: Instant) returns (r: Result<()>)
      requires store.Valid()
      modifies store
      ensures store.Valid() && store.Proceeds()
      ensures var job := NewJob(ExecutePayout, payoutId, maxAttempts, now);
              Doing(r, if CanInsertPayout(old(store.db), payoutId, payout) && CanInsertJob(old(store.db), jobId, job)
                       then Committed(old(store.db).(payouts := old(store.db).payouts[payoutId := payout],
                                                     jobs := old(store.db).jobs[jobId := job]), ())
                       else RolledBack(StorageFault), store.db, store.Failed())
    {
      hide CanInsertPayout, CanInsertJob;
      var job := NewJob(ExecutePayout, payoutId, maxAttempts, now);
      r := store.InsertPayout(payoutId, payout);
      if r.Err? { return; }
      SameJobs(old(store.db), store.db, jobId, job);
      r := store.InsertJob(jobId, job);
    }

    method Approve(actor: Principal, claimId: Id, payoutKey: string, expected: int, payoutId: Id, jobId: Id, now: Instant)
      returns (r: Result<Payout>)
      requires store.Valid()
      modifies store
      ensures store.Valid() && store.Proceeds()
      ensures Did(r, Workflow.Approve(old(store.db), actor, claimId, payoutKey, expected, payoutId, jobId, maxAttempts, now),
                  old(store.db), store.db, store.Failed())
    {
      if actor.role != Supervisor { return Err(Forbidden); }
      if !KeyLength(payoutKey) { return Err(ValidationFailed); }
      var begun := store.BeginTx();
      if begun.Err? { return Err(begun.error); }
      var body := ApproveTx(actor, claimId, payoutKey, expected, payoutId, jobId, now);
      r := store.EndTx(begun.value, body);
    }

    method ApproveTx(actor: Principal, claimId: Id, payoutKey: string, expected: int, payoutId: Id, jobId: Id, now: Instant)
      returns (r: Result<Payout>)
      requires store.Valid() && actor.role == Supervisor && KeyLength(payoutKey)
      modifies store
      ensures store.Valid() && store.Proceeds()
      ensures Doing(r, Workflow.Approve(old(store.db), actor, claimId, payoutKey, expected, payoutId, jobId, maxAttempts, now),
                    store.db, store.Failed())
    {
      hide Reserve, Reservable, CanInsertPayout, CanInsertJob, SchemaOk, AddUp, Int64Balances;
      var found := store.ClaimByID(claimId);
      if found.Err? { return Err(found.error); }
      if found.value.version != expected { return Err(VersionConflict); }
      var total := ReserveLinked(claimId);
      if total.Err? { return Err(total.error); }
      var claim := ApproveRow(claimId, found.value, actor);
      if claim.Err? { return Err(claim.error); }
      var payout := Payout(claimId, payoutKey, PayoutPending, claim.value.total, claim.value.currency, "", 0);
      SamePayouts(old(store.db), store.db, payoutId, payout);
      SameJobs(old(store.db), store.db, jobId, NewJob(ExecutePayout, payoutId, maxAttempts, now));
      var done := Order(payoutId, payout, jobId, now);
      if done.Err? { return Err(done.error); }
      done := store.InsertAudit(AuditEvent(actor.userId, "claim.approved", ClaimObject, claimId));
      if done.Err? { return Err(done.error); }
      r := Ok(payout);
    }
  }
}
