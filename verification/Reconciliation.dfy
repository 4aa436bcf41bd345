/** Reconciling institution results: neither the order in which different
    inquiries' results arrive nor repeated deliveries make a difference. */
module Reconciliation {
  import opened Timestamps
  import opened Domain
  import opened Workflow
  import opened Invariants
  import opened Preservation
  import opened Progress
  import opened Runs
  import opened StepSafety

  // -------------------------------------------------------------- duplicates

  /** A delivery for a part key already stored changes nothing. */
  lemma StoredPartIsIdle(c: Config, s: Service, id: Id, input: ResultInput, ids: seq<Id>)
    requires input.partKey in PartsOf(s.db.results, id)
    ensures Exec(c, s, Deliver(id, input, ids)) == s
  {}

  lemma StoredPartStays(c: Config, s: Service, steps: seq<Step>, id: Id, key: string)
    requires Reachable(c, s) && key in PartsOf(s.db.results, id)
    ensures key in PartsOf(Run(c, s, steps).db.results, id)
    ensures PartsOf(Run(c, s, steps).db.results, id)[key] == PartsOf(s.db.results, id)[key]
  {
    hide Reachable, CasesAdvance, InquiriesAdvance, ClaimsAdvance, LinksAdvance, PayoutsAdvance, JobsAdvance, KeysAdvance, LedgersFrozen;
    Onwards(c, s, steps);
  }

  lemma AcceptedIsStored(c: Config, s: Service, id: Id, input: ResultInput, ids: seq<Id>)
    requires Exec(c, s, Deliver(id, input, ids)) != s
    ensures var t := Exec(c, s, Deliver(id, input, ids));
            input.partKey in PartsOf(t.db.results, id) && PartsOf(t.db.results, id)[input.partKey] == Sha256(input)
  {}

  /** Repeating an accepted delivery anywhere later in a run, with the same or
      another payload under its part key, leaves the final state unchanged. */
  lemma DuplicatesAreIdle(c: Config, s: Service, id: Id, input: ResultInput, ids: seq<Id>, mid: seq<Step>,
                          again: ResultInput, moreIds: seq<Id>, rest: seq<Step>)
    requires Reachable(c, s) && Exec(c, s, Deliver(id, input, ids)) != s && again.partKey == input.partKey
    ensures var t := Exec(c, s, Deliver(id, input, ids));
            Run(c, t, mid + [Deliver(id, again, moreIds)] + rest) == Run(c, t, mid + rest)
  {
    hide Reachable, Exec;
    var t, repeat_ := Exec(c, s, Deliver(id, input, ids)), Deliver(id, again, moreIds);
    AcceptedIsStored(c, s, id, input, ids);
    OneStep(c, s, Deliver(id, input, ids));
    StoredPartStays(c, t, mid, id, input.partKey);
    var u := Run(c, t, mid);
    StoredPartIsIdle(c, u, id, again, moreIds);
    RunAppend(c, t, mid + [repeat_], rest);
    RunAppend(c, t, mid, [repeat_]);
    RunAppend(c, t, mid, rest);
    assert Run(c, u, [repeat_]) == Run(c, Exec(c, u, repeat_), []);
  }

  /** received_parts counts the stored rows, never exceeds expected_parts, and
      equals it exactly when the inquiry is completed. */
  lemma PartsCounted(c: Config, s: Service, id: Id)
    requires Reachable(c, s) && id in s.db.inquiries
    ensures var q := s.db.inquiries[id];
            && q.receivedParts == |PartsOf(s.db.results, id)| <= q.expectedParts
            && (q.receivedParts == q.expectedParts <==> q.status == InquiryCompleted)
            && q.version == 1 + (if q.status == InquiryPending then 0 else 1) + q.receivedParts
  {
    hide Inv, ServiceInv, Reachable;
    ReachableOk(c, s);
    InvInquiries(s.db, id, c.limit);
  }

  // ------------------------------------------------ accounts by natural key

  /** An account row without its generated id. */
  datatype Row = Row(inquiryId: Id, holding: Holding, reservedBy: Option<Id>, version: int)

  function RowOf(a: Account): Row { Row(a.inquiryId, a.holding, a.reservedBy, a.version) }

  ghost function KeySet(accounts: map<Id, Account>): set<AccountKey> {
    set a | a in accounts :: accounts[a].key
  }

  /** The row under a key; with unique keys there is only one. */
  ghost function RowAt(accounts: map<Id, Account>, key: AccountKey): Row
    requires exists a :: HasKey(accounts, a, key)
  {
    var a :| HasKey(accounts, a, key);
    RowOf(accounts[a])
  }

  /** The accounts by (case, institution, external hash). */
  ghost function View(accounts: map<Id, Account>): map<AccountKey, Row> {
    map k | k in KeySet(accounts) && (exists a :: HasKey(accounts, a, k)) :: RowAt(accounts, k)
  }

  function UpsertRow(v: map<AccountKey, Row>, inquiryId: Id, key: AccountKey, h: Holding): map<AccountKey, Row> {
    if key !in v then v[key := Row(inquiryId, h, None, 1)]
    else if v[key].reservedBy == None then v[key := Row(inquiryId, h, None, v[key].version + 1)]
    else v
  }

  function UpsertRows(v: map<AccountKey, Row>, inquiryId: Id, q: Inquiry, rs: seq<AccountResult>): map<AccountKey, Row>
    decreases |rs|
  {
    if rs == [] then v else UpsertRows(UpsertRow(v, inquiryId, KeyOf(q, rs[0]), rs[0].holding), inquiryId, q, rs[1..])
  }

  lemma ViewAt(accounts: map<Id, Account>, a: Id)
    requires AccountKeysUnique(accounts) && a in accounts
    ensures accounts[a].key in View(accounts) && View(accounts)[accounts[a].key] == RowOf(accounts[a])
  {
    assert HasKey(accounts, a, accounts[a].key);
  }

  lemma ViewHas(accounts: map<Id, Account>, k: AccountKey) returns (a: Id)
    requires k in View(accounts)
    ensures HasKey(accounts, a, k)
  {
    a :| HasKey(accounts, a, k);
  }

  lemma SameRow(accounts: map<Id, Account>, a: Id, b: Id)
    requires AccountKeysUnique(accounts) && a in accounts && b in accounts && accounts[a].key == accounts[b].key
    ensures a == b
  {}

  /** One row written: the view changes at its key only. */
  lemma WrittenView(accounts: map<Id, Account>, row: Id, a: Account)
    requires AccountKeysUnique(accounts) && AccountKeysUnique(accounts[row := a])
    requires row in accounts ==> accounts[row].key == a.key
    ensures View(accounts[row := a]) == View(accounts)[a.key := RowOf(a)]
  {
    hide View, AccountKeysUnique;
    var after := accounts[row := a];
    ViewAt(after, row);
    forall k ensures k in View(after) <==> k in View(accounts)[a.key := RowOf(a)] {
      if k in View(after) {
        var b := ViewHas(after, k);
        if b != row { ViewAt(accounts, b); }
      }
      if k in View(accounts) {
        var b := ViewHas(accounts, k);
        ViewAt(after, b);
      }
    }
    forall k | k in View(after) ensures View(after)[k] == View(accounts)[a.key := RowOf(a)][k] {
      var b := ViewHas(after, k);
      ViewAt(after, b);
      if b != row { ViewAt(accounts, b); }
      if k == a.key { assert HasKey(after, row, k); SameRow(after, b, row); }
    }
  }

  /** The SQL upsert, seen by natural key; with a fresh id it succeeds. */
  lemma UpsertView(accounts: map<Id, Account>, id: Id, inquiryId: Id, key: AccountKey, h: Holding)
    requires AccountKeysUnique(accounts) && id !in accounts
    ensures Upsert(accounts, id, inquiryId, key, h).Ok?
    ensures var after := Upsert(accounts, id, inquiryId, key, h).value;
            && AccountKeysUnique(after) && View(after) == UpsertRow(View(accounts), inquiryId, key, h)
            && after.Keys <= accounts.Keys + {id}
  {
    hide View;
    var after := Upsert(accounts, id, inquiryId, key, h).value;
    if exists row :: HasKey(accounts, row, key) {
      var row :| HasKey(accounts, row, key);
      forall b | HasKey(accounts, b, key) ensures b == row {}
      ViewAt(accounts, row);
      WrittenView(accounts, row, after[row]);
    } else {
      forall a | a in accounts ensures accounts[a].key != key { assert !HasKey(accounts, a, key); }
      if key in View(accounts) { var a := ViewHas(accounts, key); }
      WrittenView(accounts, id, after[id]);
    }
  }

  predicate FreshIds(used: set<Id>, ids: seq<Id>, n: nat) {
    && |ids| >= n && (forall i | 0 <= i < |ids| :: ids[i] !in used)
    && (forall i, j | 0 <= i < j < |ids| :: ids[i] != ids[j])
  }

  ghost function IdSet(ids: seq<Id>): set<Id> { set i | i in ids }

  lemma {:induction false} UpsertAllView(accounts: map<Id, Account>, inquiryId: Id, q: Inquiry, rs: seq<AccountResult>, ids: seq<Id>)
    requires AccountKeysUnique(accounts) && FreshIds(accounts.Keys, ids, |rs|)
    ensures UpsertAll(accounts, inquiryId, q, rs, ids).Ok?
    ensures var after := UpsertAll(accounts, inquiryId, q, rs, ids).value;
            && AccountKeysUnique(after) && View(after) == UpsertRows(View(accounts), inquiryId, q, rs)
            && after.Keys <= accounts.Keys + IdSet(ids)
    decreases |rs|
  {
    hide View, AccountKeysUnique, Upsert, UpsertRow, KeyOf;
    if rs != [] {
      UpsertView(accounts, ids[0], inquiryId, KeyOf(q, rs[0]), rs[0].holding);
      var next := Upsert(accounts, ids[0], inquiryId, KeyOf(q, rs[0]), rs[0].holding).value;
      UpsertAllView(next, inquiryId, q, rs[1..], ids[1..]);
      assert {ids[0]} + IdSet(ids[1..]) <= IdSet(ids);
    }
  }

  // ------------------------------------------- each inquiry on its own

  /** What the deliveries of one inquiry determine: its row, its result rows,
      and the accounts of its case and institution. */
  datatype Local = Local(q: Inquiry, parts: map<string, Digest<ResultInput>>, rows: map<AccountKey, Row>)

  predicate OwnKey(k: AccountKey, q: Inquiry) { k.caseId == q.caseId && k.institution == q.institution }

  function Own(v: map<AccountKey, Row>, q: Inquiry): map<AccountKey, Row> {
    map k | k in v && OwnKey(k, q) :: v[k]
  }

  ghost function LocalOf(d: Database, id: Id): Local
    requires id in d.inquiries
  {
    Local(d.inquiries[id], PartsOf(d.results, id), Own(View(d.accounts), d.inquiries[id]))
  }

  /** One delivery, seen by its inquiry alone. */
  function LocalStep(id: Id, l: Local, input: ResultInput): Local {
    if !ValidInput(input) || input.partKey in l.parts || l.q.status !in {InquiryDispatched, InquiryPartial}
       || NextPart(l.q).Err? then l
    else Local(NextPart(l.q).value, l.parts[input.partKey := Sha256(input)], UpsertRows(l.rows, id, l.q, input.accounts))
  }

  function LocalRun(id: Id, l: Local, inputs: seq<ResultInput>): Local
    decreases |inputs|
  {
    if inputs == [] then l else LocalRun(id, LocalStep(id, l, inputs[0]), inputs[1..])
  }

  lemma {:induction false} OwnRows(v: map<AccountKey, Row>, id: Id, q: Inquiry, rs: seq<AccountResult>, r: Inquiry)
    ensures r.caseId == q.caseId && r.institution == q.institution ==>
              Own(UpsertRows(v, id, q, rs), r) == UpsertRows(Own(v, r), id, q, rs)
    ensures !(r.caseId == q.caseId && r.institution == q.institution) ==> Own(UpsertRows(v, id, q, rs), r) == Own(v, r)
    decreases |rs|
  {
    if rs != [] {
      var key := KeyOf(q, rs[0]);
      var next := UpsertRow(v, id, key, rs[0].holding);
      OwnRows(next, id, q, rs[1..], r);
      if OwnKey(key, r) {
        assert Own(next, r) == UpsertRow(Own(v, r), id, key, rs[0].holding);
      } else {
        assert Own(next, r) == Own(v, r);
      }
    }
  }

  lemma RejectedIsIdle(d: Database, id: Id, input: ResultInput, ids: seq<Id>)
    requires !Accepts(d, id, input)
    ensures After(d, RecordResult(d, id, input, ids)) == d
    ensures id in d.inquiries ==> LocalStep(id, LocalOf(d, id), input) == LocalOf(d, id)
  {}

  lemma AcceptedShape(d: Database, id: Id, input: ResultInput, ids: seq<Id>, limit: int)
    requires Inv(d, limit) && Accepts(d, id, input) && UpsertAll(d.accounts, id, d.inquiries[id], input.accounts, ids).Ok?
    ensures NextPart(d.inquiries[id]).Ok?
    ensures RecordResult(d, id, input, ids).Committed?
    ensures RecordResult(d, id, input, ids).database
            == Recorded(d, id, NextPart(d.inquiries[id]).value, input,
                        UpsertAll(d.accounts, id, d.inquiries[id], input.accounts, ids).value)
    ensures var q := NextPart(d.inquiries[id]).value;
            AfterResult(d.cases, d.inquiries[id := q], q.caseId).Ok?
  {
    hide Trail, CasesOk, CasesClaimed, KeysOk, CaseTrails, ClaimTrails, InquiryTrails, Complete, UpsertAll, AfterResult,
      InstitutionsDistinct, AccountsOk, AccountKeysUnique, ClaimsOk, ReservationsOk, PayoutsOk, MoneyConserved, JobsOk, JobsCover,
      Barrier, InquiriesOk, ValidInput;
    OpenInquiryCase(d, id);
    NextPartOk(d, id, input);
    BarrierAfterResult(d, id, NextPart(d.inquiries[id]).value);
    assert d.inquiries[id].status == InquiryDispatched || d.inquiries[id].status == InquiryPartial;
  }

  lemma InvAccounts(d: Database, limit: int)
    requires Inv(d, limit)
    ensures AccountKeysUnique(d.accounts) && AccountsOk(d.accounts, d.inquiries)
  {}

  lemma InvInstitutions(d: Database, q: Id, r: Id, limit: int)
    requires Inv(d, limit) && q in d.inquiries && r in d.inquiries && q != r
    ensures !(d.inquiries[q].caseId == d.inquiries[r].caseId && d.inquiries[q].institution == d.inquiries[r].institution)
  {}

  lemma AcceptedIsLocal(d: Database, id: Id, input: ResultInput, ids: seq<Id>, r: Id, limit: int)
    requires Inv(d, limit) && r in d.inquiries && FreshIds(d.accounts.Keys, ids, |input.accounts|) && Accepts(d, id, input)
    ensures var e := After(d, RecordResult(d, id, input, ids));
            && e.inquiries.Keys == d.inquiries.Keys && e.accounts.Keys <= d.accounts.Keys + IdSet(ids)
            && LocalOf(e, r) == if r == id then LocalStep(id, LocalOf(d, id), input) else LocalOf(d, r)
  {
    hide RecordResult, View, UpsertRows, UpsertAll, AfterResult, Inv, ValidInput, FreshIds;
    InvAccounts(d, limit);
    var q := d.inquiries[id];
    UpsertAllView(d.accounts, id, q, input.accounts, ids);
    AcceptedShape(d, id, input, ids, limit);
    if r != id { InvInstitutions(d, id, r, limit); }
    OwnRows(View(d.accounts), id, q, input.accounts, d.inquiries[r]);
  }

  /** A delivery is a local step of its inquiry and nothing to any other. */
  lemma DeliverIsLocal(d: Database, id: Id, input: ResultInput, ids: seq<Id>, r: Id, limit: int)
    requires Inv(d, limit) && r in d.inquiries && FreshIds(d.accounts.Keys, ids, |input.accounts|)
    ensures var e := After(d, RecordResult(d, id, input, ids));
            && e.inquiries.Keys == d.inquiries.Keys && e.accounts.Keys <= d.accounts.Keys + IdSet(ids)
            && LocalOf(e, r) == if r == id then LocalStep(id, LocalOf(d, id), input) else LocalOf(d, r)
  {
    hide RecordResult, View, UpsertRows, UpsertAll, AfterResult, Inv, ValidInput, LocalOf, LocalStep, FreshIds;
    if Accepts(d, id, input) {
      AcceptedIsLocal(d, id, input, ids, r, limit);
    } else {
      RejectedIsIdle(d, id, input, ids);
    }
  }
}
