/** What an institution's delivery is answered, first and repeated, and what it
    leaves in the accounts. */
module Deliveries {
  import opened Timestamps
  import opened Domain
  import opened Workflow
  import opened Invariants
  import opened Preservation
  import opened Progress
  import opened Runs
  import opened StepSafety
  import opened Guarantees
  import opened Reconciliation

  /** What an institution may report. */
  predicate Acceptable(input: ResultInput) {
    && 1 <= |input.partKey| <= 128
    && forall i | 0 <= i < |input.accounts| :: var a := input.accounts[i];
         a.externalReference != "" && a.holding.balance >= 0 && a.holding.currency != "" && a.holding.kind != UnknownKind
  }

  lemma AcceptableIsValid(input: ResultInput)
    ensures ValidInput(input) <==> Acceptable(input)
  {
    if Acceptable(input) {
      forall i | 0 <= i < |input.accounts| ensures ValidResult(input.accounts[i]) {}
    }
    if ValidInput(input) {
      forall i | 0 <= i < |input.accounts| ensures var a := input.accounts[i];
        a.externalReference != "" && a.holding.balance >= 0 && a.holding.currency != "" && a.holding.kind != UnknownKind
      {
        assert ValidResult(input.accounts[i]);
      }
    }
  }

  // ----------------------------------------------------------------- repeats

  lemma AcceptedWasValid(c: Config, s: Service, id: Id, input: ResultInput, ids: seq<Id>)
    requires Exec(c, s, Deliver(id, input, ids)) != s
    ensures var d := Exec(c, s, Deliver(id, input, ids)).db;
            && id in d.inquiries && ValidInput(input)
            && input.partKey in PartsOf(d.results, id) && PartsOf(d.results, id)[input.partKey] == Sha256(input)
  {
    hide ValidInput;
    AcceptedIsStored(c, s, id, input, ids);
  }

  lemma RepeatOf(d: Database, id: Id, stored: ResultInput, again: ResultInput, ids: seq<Id>)
    requires id in d.inquiries && again.partKey in PartsOf(d.results, id) && PartsOf(d.results, id)[again.partKey] == Sha256(stored)
    ensures RecordResult(d, id, again, ids)
            == if !ValidInput(again) then RolledBack(ValidationFailed)
               else if again == stored then Committed(d, d.inquiries[id]) else RolledBack(Conflict)
  {
    hide ValidInput;
  }

  /** After an accepted delivery and any run, the same delivery is answered with
      the inquiry as it is, and another payload under its part key refused. */
  lemma RepeatAnswered(c: Config, s: Service, id: Id, input: ResultInput, ids: seq<Id>, steps: seq<Step>,
                       again: ResultInput, moreIds: seq<Id>)
    requires Reachable(c, s) && Exec(c, s, Deliver(id, input, ids)) != s && again.partKey == input.partKey
    ensures var d := Run(c, Exec(c, s, Deliver(id, input, ids)), steps).db; var o := RecordResult(d, id, again, moreIds);
            && id in d.inquiries
            && (again == input ==> o == Committed(d, d.inquiries[id]))
            && (again != input && Acceptable(again) ==> o == RolledBack(Conflict))
            && (!Acceptable(again) ==> again != input && o == RolledBack(ValidationFailed))
  {
    hide Reachable, Exec, Run, ValidInput, Acceptable, RecordResult, CasesAdvance, ResultsAdvance, ClaimsAdvance, LinksAdvance, PayoutsAdvance,
      JobsAdvance, KeysAdvance, LedgersFrozen;
    var next := Exec(c, s, Deliver(id, input, ids));
    AcceptedWasValid(c, s, id, input, ids);
    OneStep(c, s, Deliver(id, input, ids));
    StoredPartStays(c, next, steps, id, input.partKey);
    Onwards(c, next, steps);
    AcceptableIsValid(input);
    AcceptableIsValid(again);
    RepeatOf(Run(c, next, steps).db, id, input, again, moreIds);
  }

  // ------------------------------------------------------- a delivery's rows

  /** The inquiry is open and has not received this part. */
  predicate Awaited(d: Database, id: Id, input: ResultInput) {
    && id in d.inquiries && (d.inquiries[id].status == InquiryDispatched || d.inquiries[id].status == InquiryPartial)
    && input.partKey !in PartsOf(d.results, id)
  }

  function Received(q: Inquiry): Inquiry {
    var n := q.receivedParts + 1;
    Inquiry(q.caseId, q.institution, q.requestKey, if n == q.expectedParts then InquiryCompleted else InquiryPartial, q.externalRef,
            q.expectedParts, n, q.version + 1)
  }

  /** This was the last part of the last inquiry of its case. */
  predicate LastPart(d: Database, id: Id)
    requires id in d.inquiries
  {
    && d.inquiries[id].receivedParts + 1 == d.inquiries[id].expectedParts
    && forall r | r in d.inquiries && r != id && d.inquiries[r].caseId == d.inquiries[id].caseId :: d.inquiries[r].status == InquiryCompleted
  }

  lemma OpenPart(q: Inquiry, parts: int)
    requires InquiryOk(q, parts) && (q.status == InquiryDispatched || q.status == InquiryPartial)
    ensures NextPart(q) == Ok(Received(q))
  {}

  lemma LastCompletes(d: Database, id: Id)
    requires id in d.inquiries
    ensures Complete(d.inquiries[id := Received(d.inquiries[id])], d.inquiries[id].caseId) <==> LastPart(d, id)
  {
    var q, after := d.inquiries[id], d.inquiries[id := Received(d.inquiries[id])];
    assert after[id].caseId == q.caseId;
    if Complete(after, q.caseId) {
      forall r | r in d.inquiries && r != id && d.inquiries[r].caseId == q.caseId ensures d.inquiries[r].status == InquiryCompleted {
        assert after[r] == d.inquiries[r];
      }
    }
  }

  lemma InquiringVersion(d: Database, caseId: Id, limit: int)
    requires Inv(d, limit) && caseId in d.cases && d.cases[caseId].status == CaseInquiring
    ensures d.cases[caseId].version == 3
  {
    assert CasesOk(d.cases);
  }

  lemma InvBarrier(d: Database, limit: int)
    requires Inv(d, limit)
    ensures Barrier(d.cases, d.inquiries) && InquiriesOk(d.cases.Keys, d.inquiries, d.results)
  {}

  lemma SameCase(q: Inquiry)
    ensures Received(q).caseId == q.caseId
  {}

  lemma AcceptsValid(d: Database, id: Id, input: ResultInput)
    requires Accepts(d, id, input)
    ensures ValidInput(input)
  {}

  /** The rows an accepted part leaves, except for the accounts. */
  lemma AwaitedRows(d: Database, id: Id, input: ResultInput, ids: seq<Id>, limit: int)
    requires Inv(d, limit) && Accepts(d, id, input) && Awaited(d, id, input) && FreshIds(d.accounts.Keys, ids, |input.accounts|)
    ensures var q, o := d.inquiries[id], RecordResult(d, id, input, ids);
            && q.caseId in d.cases && d.cases[q.caseId].status == CaseInquiring && o.Committed?
            && o.value == Received(q)
            && UpsertAll(d.accounts, id, q, input.accounts, ids) == Ok(o.database.accounts)
            && o.database == d.(
                 inquiries := d.inquiries[id := Received(q)],
                 results := d.results[id := PartsOf(d.results, id)[input.partKey := Sha256(input)]],
                 cases := if LastPart(d, id) then d.cases[q.caseId := EstateCase(d.cases[q.caseId].claimant, CaseEligible, 4)] else d.cases,
                 accounts := o.database.accounts,
                 audit := d.audit + [AuditEvent("system", "inquiry.result_recorded", InquiryObject, id)])
  {
    hide Inv, Barrier, InquiriesOk, InquiryOk, UpsertAll, Accepts, Complete, LastPart, FreshIds, NextPart, Received, ValidInput;
    var q := d.inquiries[id];
    InvAccounts(d, limit);
    UpsertAllView(d.accounts, id, q, input.accounts, ids);
    InvBarrier(d, limit);
    OpenInquiryCase(d, id);
    InquiringVersion(d, q.caseId, limit);
    InvInquiries(d, id, limit);
    OpenPart(q, |PartsOf(d.results, id)|);
    LastCompletes(d, id);
    assert Received(q).caseId == q.caseId by { SameCase(q); }
    assert ValidInput(input) by { AcceptsValid(d, id, input); }
  }

  lemma AwaitedAccepts(d: Database, id: Id, input: ResultInput)
    ensures Accepts(d, id, input) <==> ValidInput(input) && Awaited(d, id, input)
  {
    hide ValidInput;
  }

  lemma NotAwaited(d: Database, id: Id, input: ResultInput, ids: seq<Id>)
    requires !(ValidInput(input) && Awaited(d, id, input))
    ensures RecordResult(d, id, input, ids)
            == if !ValidInput(input) then RolledBack(ValidationFailed)
               else if id !in d.inquiries then RolledBack(NotFound)
               else if input.partKey !in PartsOf(d.results, id) then RolledBack(InvalidState)
               else if PartsOf(d.results, id)[input.partKey] != Sha256(input) then RolledBack(Conflict)
               else Committed(d, d.inquiries[id])
  {
    hide ValidInput, UpsertAll, NextPart, AfterResult;
  }

  /** In every reachable state a part is recorded exactly when it is acceptable
      and awaited: one more part, the case eligible exactly with the last one.
      Otherwise nothing changes, and the error says why. */
  lemma DeliveryAnswered(c: Config, s: Service, id: Id, input: ResultInput, ids: seq<Id>)
    requires Reachable(c, s) && FreshIds(s.db.accounts.Keys, ids, |input.accounts|)
    ensures var d, o := s.db, RecordResult(s.db, id, input, ids);
            var known := id in d.inquiries && input.partKey in PartsOf(d.results, id);
            && (o.Committed? <==>
                  Acceptable(input) && (Awaited(d, id, input) || (known && PartsOf(d.results, id)[input.partKey] == Sha256(input))))
            && (Acceptable(input) && Awaited(d, id, input) ==>
                  var q := d.inquiries[id];
                  && q.caseId in d.cases && o.value == Received(q)
                  && o.database == d.(
                       inquiries := d.inquiries[id := Received(q)],
                       results := d.results[id := PartsOf(d.results, id)[input.partKey := Sha256(input)]],
                       cases := if LastPart(d, id) then d.cases[q.caseId := EstateCase(d.cases[q.caseId].claimant, CaseEligible, 4)]
                                else d.cases,
                       accounts := o.database.accounts,
                       audit := d.audit + [AuditEvent("system", "inquiry.result_recorded", InquiryObject, id)]))
            && (o == RolledBack(ValidationFailed) <==> !Acceptable(input))
            && (o == RolledBack(NotFound) <==> Acceptable(input) && id !in d.inquiries)
            && (o == RolledBack(Conflict) <==> Acceptable(input) && known && PartsOf(d.results, id)[input.partKey] != Sha256(input))
            && (o == RolledBack(InvalidState) <==> Acceptable(input) && id in d.inquiries && !known && !Awaited(d, id, input))
  {
    var d := s.db;
    ReachableOk(c, s);
    hide Reachable, ServiceInv, Inv, Acceptable, ValidInput, FreshIds, LastPart, Received, RecordResult, UpsertAll, Accepts;
    AcceptableIsValid(input);
    AwaitedAccepts(d, id, input);
    if Accepts(d, id, input) {
      AwaitedRows(d, id, input, ids, c.limit);
    } else {
      NotAwaited(d, id, input, ids);
    }
  }

  lemma {:induction false} UpsertsOrFaults(accounts: map<Id, Account>, inquiryId: Id, q: Inquiry, rs: seq<AccountResult>, ids: seq<Id>)
    ensures var o := UpsertAll(accounts, inquiryId, q, rs, ids);
            && (o.Err? ==> o.error == StorageFault) && (|ids| < |rs| ==> o.Err?)
    decreases |rs|
  {
    hide KeyOf;
    if rs != [] && ids != [] {
      var o := Upsert(accounts, ids[0], inquiryId, KeyOf(q, rs[0]), rs[0].holding);
      if o.Ok? { UpsertsOrFaults(o.value, inquiryId, q, rs[1..], ids[1..]); }
    }
  }

  /** Whatever the generator does, a part that is awaited is recorded or meets a
      storage fault, and it meets one when too few ids are generated. */
  lemma AwaitedOrFault(c: Config, s: Service, id: Id, input: ResultInput, ids: seq<Id>)
    requires Reachable(c, s) && Acceptable(input) && Awaited(s.db, id, input)
    ensures var o := RecordResult(s.db, id, input, ids);
            && (o.Committed? || o == RolledBack(StorageFault)) && (|ids| < |input.accounts| ==> o == RolledBack(StorageFault))
  {
    hide Reachable, ServiceInv, Inv, Acceptable, ValidInput, UpsertAll, NextPart, AfterResult, Accepts;
    ReachableOk(c, s);
    AcceptableIsValid(input);
    AwaitedAccepts(s.db, id, input);
    UpsertsOrFaults(s.db.accounts, id, s.db.inquiries[id], input.accounts, ids);
    NextIn(s.db, id, input, c.limit);
  }

  // ---------------------------------------------------- a delivery's accounts

  /** How often a delivery reports this reference. */
  function Times(rs: seq<AccountResult>, reference: string): nat {
    if rs == [] then 0 else (if rs[0].externalReference == reference then 1 else 0) + Times(rs[1..], reference)
  }

  /** The i-th report is the last one of its reference. */
  predicate LastReport(rs: seq<AccountResult>, i: nat, reference: string) {
    i < |rs| && rs[i].externalReference == reference && forall k | i < k < |rs| :: rs[k].externalReference != reference
  }

  lemma {:induction false} NoReport(rs: seq<AccountResult>, reference: string)
    ensures Times(rs, reference) == 0 <==> forall k | 0 <= k < |rs| :: rs[k].externalReference != reference
    decreases |rs|
  {
    if rs != [] {
      NoReport(rs[1..], reference);
      assert forall k | 0 <= k < |rs[1..]| :: rs[1..][k] == rs[k + 1];
      if Times(rs, reference) == 0 {
        forall k | 0 <= k < |rs| ensures rs[k].externalReference != reference { if k > 0 { assert rs[k] == rs[1..][k - 1]; } }
      }
    }
  }

  lemma LaterReport(rs: seq<AccountResult>, i: nat, reference: string)
    requires rs != [] && LastReport(rs, i, reference)
    ensures if i > 0 then LastReport(rs[1..], i - 1, reference) else Times(rs[1..], reference) == 0
  {
    if i > 0 {
      forall k | i - 1 < k < |rs[1..]| ensures rs[1..][k].externalReference != reference { assert rs[1..][k] == rs[k + 1]; }
    } else {
      forall k | 0 <= k < |rs[1..]| ensures rs[1..][k].externalReference != reference { assert rs[1..][k] == rs[k + 1]; }
      NoReport(rs[1..], reference);
    }
  }

  /** A free row under a key of this inquiry: each report moves it on, the last
      one stays. */
  lemma {:induction false} ReportedRow(v: map<AccountKey, Row>, id: Id, q: Inquiry, rs: seq<AccountResult>, reference: string)
    requires var k := AccountKey(q.caseId, q.institution, Sha256(reference)); k in v ==> v[k].reservedBy == None
    ensures var k, w, n := AccountKey(q.caseId, q.institution, Sha256(reference)), UpsertRows(v, id, q, rs), Times(rs, reference);
            && (n == 0 ==> (k in w <==> k in v) && (k in v ==> w[k] == v[k]))
            && (n > 0 ==> k in w && w[k] == Row(id, w[k].holding, None, n + if k in v then v[k].version else 0))
            && (forall i: nat | LastReport(rs, i, reference) :: n > 0 && w[k].holding == rs[i].holding)
    decreases |rs|
  {
    if rs != [] {
      var k := AccountKey(q.caseId, q.institution, Sha256(reference));
      var next := UpsertRow(v, id, KeyOf(q, rs[0]), rs[0].holding);
      ReportedRow(next, id, q, rs[1..], reference);
      forall i: nat | LastReport(rs, i, reference)
        ensures Times(rs, reference) > 0 && UpsertRows(v, id, q, rs)[k].holding == rs[i].holding
      {
        LaterReport(rs, i, reference);
        if i > 0 { assert rs[1..][i - 1] == rs[i]; }
      }
    }
  }

  lemma {:induction false} OtherRow(v: map<AccountKey, Row>, id: Id, q: Inquiry, rs: seq<AccountResult>, k: AccountKey)
    requires !(k.caseId == q.caseId && k.institution == q.institution)
    ensures var w := UpsertRows(v, id, q, rs); (k in w <==> k in v) && (k in v ==> w[k] == v[k])
    decreases |rs|
  {
    if rs != [] { OtherRow(UpsertRow(v, id, KeyOf(q, rs[0]), rs[0].holding), id, q, rs[1..], k); }
  }

  lemma FreeRow(accounts: map<Id, Account>, k: AccountKey)
    requires AccountKeysUnique(accounts) && forall a | a in accounts && accounts[a].key.caseId == k.caseId :: accounts[a].reservedBy == None
    ensures k in View(accounts) ==> View(accounts)[k].reservedBy == None
  {
    hide View, AccountKeysUnique;
    if k in View(accounts) {
      var a := ViewHas(accounts, k);
      ViewAt(accounts, a);
    }
  }

  lemma AcceptsKnown(d: Database, id: Id, input: ResultInput)
    requires Accepts(d, id, input)
    ensures id in d.inquiries
  {}

  /** Row `k` after these reports to the inquiry. */
  ghost predicate Reported(v: map<AccountKey, Row>, w: map<AccountKey, Row>, id: Id, q: Inquiry, rs: seq<AccountResult>, k: AccountKey) {
    var reference := k.externalHash.preimage;
    var n := if k.caseId == q.caseId && k.institution == q.institution then Times(rs, reference) else 0;
    && (n == 0 ==> (k in w <==> k in v) && (k in v ==> w[k] == v[k]))
    && (n > 0 ==> k in w && w[k] == Row(id, w[k].holding, None, n + if k in v then v[k].version else 0))
    && (n > 0 ==> forall i: nat | LastReport(rs, i, reference) :: w[k].holding == rs[i].holding)
  }

  lemma ReportedIn(v: map<AccountKey, Row>, id: Id, q: Inquiry, rs: seq<AccountResult>, k: AccountKey)
    requires k.caseId == q.caseId && k.institution == q.institution && k in v ==> v[k].reservedBy == None
    ensures Reported(v, UpsertRows(v, id, q, rs), id, q, rs, k)
  {
    hide UpsertRows;
    if k.caseId == q.caseId && k.institution == q.institution {
      assert k == AccountKey(q.caseId, q.institution, Sha256(k.externalHash.preimage));
      ReportedRow(v, id, q, rs, k.externalHash.preimage);
    } else {
      OtherRow(v, id, q, rs, k);
    }
  }

  lemma LedgerIn(d: Database, id: Id, input: ResultInput, ids: seq<Id>, k: AccountKey, limit: int)
    requires Inv(d, limit) && id in d.inquiries && Accepts(d, id, input) && FreshIds(d.accounts.Keys, ids, |input.accounts|)
    ensures Reported(View(d.accounts), View(After(d, RecordResult(d, id, input, ids)).accounts), id, d.inquiries[id], input.accounts, k)
  {
    hide Inv, RecordResult, View, UpsertRows, UpsertAll, FreshIds, Accepts, Awaited, AccountKeysUnique, ValidInput, Reported, Received, LastPart;
    var q := d.inquiries[id];
    AwaitedAccepts(d, id, input);
    AwaitedRows(d, id, input, ids, limit);
    InvAccounts(d, limit);
    UpsertAllView(d.accounts, id, q, input.accounts, ids);
    UnclaimedIsUnreserved(d, q.caseId, limit);
    if k.caseId == q.caseId { FreeRow(d.accounts, k); }
    ReportedIn(View(d.accounts), id, q, input.accounts, k);
  }

  lemma DeliverSteps(c: Config, s: Service, id: Id, input: ResultInput, ids: seq<Id>)
    ensures Exec(c, s, Deliver(id, input, ids)) == s.(db := After(s.db, RecordResult(s.db, id, input, ids)))
  {
    hide RecordResult;
  }

  /** The accounts by (case, institution, hash of the external reference) after a
      recorded part: under a reported reference the last report, free, its version
      counting the reports; under any other key what was there. */
  lemma DeliveredLedger(c: Config, s: Service, id: Id, input: ResultInput, ids: seq<Id>, k: AccountKey)
    requires Reachable(c, s) && FreshIds(s.db.accounts.Keys, ids, |input.accounts|) && Exec(c, s, Deliver(id, input, ids)) != s
    ensures id in s.db.inquiries
    ensures var q, v, w := s.db.inquiries[id], View(s.db.accounts), View(Exec(c, s, Deliver(id, input, ids)).db.accounts);
            var reference := k.externalHash.preimage;
            var n := if k.caseId == q.caseId && k.institution == q.institution then Times(input.accounts, reference) else 0;
            && (n == 0 ==> (k in w <==> k in v) && (k in v ==> w[k] == v[k]))
            && (n > 0 ==> k in w && w[k] == Row(id, w[k].holding, None, n + if k in v then v[k].version else 0))
            && (n > 0 ==> forall i: nat | LastReport(input.accounts, i, reference) :: w[k].holding == input.accounts[i].holding)
  {
    var d := s.db;
    hide Exec, Reachable, ServiceInv, Inv, RecordResult, View, FreshIds, Accepts, Times, LastReport;
    DeliverSteps(c, s, id, input, ids);
    ReachableOk(c, s);
    if !Accepts(d, id, input) { RejectedIsIdle(d, id, input, ids); }
    AcceptsKnown(d, id, input);
    LedgerIn(d, id, input, ids, k, c.limit);
  }
}
