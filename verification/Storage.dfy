/** The store (internal/store): single statements over the tables, any of which
    may fail, and transactions that keep everything or nothing. */
module Storage {
  import opened Timestamps
  import opened Domain
  import opened Workflow
  import opened Invariants
  import opened Selection
  import opened Queue
  import TextOrder

  /** The result reports the outcome and the database shows it; if storage may
      fail, a fault may be reported instead, and then nothing has changed. */
  ghost predicate Did<T(!new)>(r: Result<T>, o: Outcome<T>, before: Database, after: Database, faulty: bool) {
    || (o.Committed? && r == Ok(o.value) && after == o.database)
    || (r.Err? && after == before && (o == RolledBack(r.error) || (faulty && r.error == StorageFault)))
  }

  /** The same for the body of a transaction, whose partial effects the rollback
      is still to undo. */
  ghost predicate Doing<T(!new)>(r: Result<T>, o: Outcome<T>, after: Database, faulty: bool) {
    if r.Ok? then o == Committed(after, r.value)
    else o == RolledBack(r.error) || (faulty && r.error == StorageFault)
  }

  /** What the schema enforces and a statement relies on: a unique key, a
      foreign key, and 64-bit balances. */
  ghost predicate SchemaOk(d: Database) {
    && AccountKeysUnique(d.accounts) && d.links.Keys <= d.claims.Keys
    && forall a | a in d.accounts :: Int64(d.accounts[a].holding.balance)
  }

  ghost predicate Int64Balances(accounts: map<Id, Account>) {
    forall a | a in accounts :: Int64(accounts[a].holding.balance)
  }

  /** The running total of ReserveAccounts. */
  ghost function AddUp(accounts: map<Id, Account>, ids: seq<Id>): (total: int)
    requires Int64Balances(accounts) && SetOf(ids) <= accounts.Keys
    ensures Int64(total)
  {
    if ids == [] then 0
    else
      var n := |ids| - 1;
      assert SetOf(ids[..n]) <= SetOf(ids) && ids[n] in SetOf(ids);
      Plus(AddUp(accounts, ids[..n]), accounts[ids[n]].holding.balance)
  }

  lemma ReserveNone(accounts: map<Id, Account>, claimId: Id)
    ensures Reserve(accounts, SetOf([]), claimId) == accounts && Reservable(accounts, SetOf([])) && DuplicateFree([])
  {}

  lemma AddUpNone(accounts: map<Id, Account>)
    requires Int64Balances(accounts)
    ensures AddUp(accounts, []) == 0
  {}

  lemma SetOfStep(ids: seq<Id>, i: nat)
    requires i < |ids|
    ensures SetOf(ids[..i + 1]) == SetOf(ids[..i]) + {ids[i]} <= SetOf(ids)
    ensures DuplicateFree(ids) ==> ids[i] !in SetOf(ids[..i])
    ensures DuplicateFree(ids[..i]) && ids[i] !in SetOf(ids[..i]) ==> DuplicateFree(ids[..i + 1])
  {}

  lemma ReserveStep(accounts: map<Id, Account>, ids: seq<Id>, i: nat, claimId: Id)
    requires i < |ids| && DuplicateFree(ids[..i]) && Reservable(accounts, SetOf(ids[..i])) && Int64Balances(accounts)
    ensures var now := Reserve(accounts, SetOf(ids[..i]), claimId);
            if ids[i] in now && !now[ids[i]].holding.restricted && now[ids[i]].reservedBy == None then
              && DuplicateFree(ids[..i + 1]) && Reservable(accounts, SetOf(ids[..i + 1]))
              && Reserve(accounts, SetOf(ids[..i + 1]), claimId)
                 == now[ids[i] := now[ids[i]].(reservedBy := Some(claimId), version := now[ids[i]].version + 1)]
              && AddUp(accounts, ids[..i + 1]) == Plus(AddUp(accounts, ids[..i]), now[ids[i]].holding.balance)
            else !(DuplicateFree(ids) && Reservable(accounts, SetOf(ids)))
  {
    SetOfStep(ids, i);
    assert ids[..i + 1][..i] == ids[..i];
  }

  function Expired(jobs: map<Id, Job>, now: Instant): set<Id> { set j | j in jobs && LeaseExpired(jobs[j], now) }

  lemma RecoverySets(jobs: map<Id, Job>, now: Instant)
    ensures forall j | j in jobs :: Recovered(jobs[j], now)
              == if j in Expired(jobs, now) then jobs[j].(status := JobPending, leaseOwner := "", leaseUntil := None, availableAt := now)
                 else jobs[j]
  {}

  lemma KeysStayUnique(accounts: map<Id, Account>, id: Id, a: Account)
    requires AccountKeysUnique(accounts)
    requires HasKey(accounts, id, a.key) || forall b :: !HasKey(accounts, b, a.key)
    ensures AccountKeysUnique(accounts[id := a])
  {
    var after := accounts[id := a];
    forall x, y | x in after && y in after && after[x].key == after[y].key ensures x == y {
      if x != id { assert accounts[x].key == a.key ==> HasKey(accounts, x, a.key); }
      if y != id { assert accounts[y].key == a.key ==> HasKey(accounts, y, a.key); }
    }
  }

  /** The rows listed after the ids `seen`. */
  ghost predicate Listing(rows: seq<Listed>, seen: seq<Id>, accounts: map<Id, Account>, caseId: Id) {
    && OrderedById(rows)
    && (forall i | 0 <= i < |rows| ::
          && rows[i].id in accounts && rows[i].account == accounts[rows[i].id] && rows[i].account.key.caseId == caseId
          && rows[i].id in seen)
    && (forall a | a in accounts && a in seen && accounts[a].key.caseId == caseId :: a in IdsOf(rows))
  }

  lemma ListingStep(rows: seq<Listed>, ids: seq<Id>, i: nat, accounts: map<Id, Account>, caseId: Id)
    requires i < |ids| && Listing(rows, ids[..i], accounts, caseId) && TextOrder.Ascending(ids) && ids[i] in accounts
    ensures accounts[ids[i]].key.caseId == caseId ==>
              Listing(rows + [Listed(ids[i], accounts[ids[i]])], ids[..i + 1], accounts, caseId)
    ensures accounts[ids[i]].key.caseId != caseId ==> Listing(rows, ids[..i + 1], accounts, caseId)
  {
    assert ids[..i + 1] == ids[..i] + [ids[i]];
    forall k | 0 <= k < |rows| ensures TextOrder.Less(rows[k].id, ids[i]) {
      var m :| 0 <= m < i && ids[..i][m] == rows[k].id;
      assert ids[m] == rows[k].id;
    }
    IdsAppend(rows, Listed(ids[i], accounts[ids[i]]));
  }

  class Store {
    var db: Database

    /** Which of the coming statements fail; past the end none does. */
    var faults: seq<bool>

    /** How many statements have failed. */
    ghost var failures: nat

    ghost predicate Valid() reads this { SchemaOk(db) }

    constructor ()
      ensures db == EmptyDatabase() && faults == [] && failures == 0 && Valid()
    {
      db := EmptyDatabase();
      faults := [];
      failures := 0;
    }

    /** The failures still scheduled. */
    ghost function Scheduled(): nat reads this { multiset(faults)[true] }

    /** Every failure since was a scheduled one. */
    twostate predicate Proceeds() reads this {
      old(failures) <= failures && failures + Scheduled() == old(failures + Scheduled())
    }

    twostate predicate Failed() reads this { old(failures) < failures }

    method InjectFailures(schedule: seq<bool>)
      modifies this`faults
      ensures faults == schedule
    {
      faults := schedule;
    }

    /** Every statement passes here first. */
    method Trip() returns (failed: bool)
      modifies this`faults, this`failures
      ensures Proceeds() && failed == Failed()
      ensures old(faults) != [] ==> failed == old(faults)[0] && faults == old(faults)[1..]
    {
      if faults == [] { return false; }
      assert faults == [faults[0]] + faults[1..];
      failed := faults[0];
      faults := faults[1..];
      if failed { failures := failures + 1; }
    }

    // ---------------------------------------------------------- transactions

    method BeginTx() returns (r: Result<Database>)
      modifies this`faults, this`failures
      ensures Proceeds()
      ensures r == Ok(db) || (r == Err(StorageFault) && Failed())
    {
      var failed := Trip();
      r := if failed then Err(StorageFault) else Ok(db);
    }

    /** Commit after success, unless that fails; otherwise roll back. */
    method EndTx<T>(saved: Database, body: Result<T>) returns (r: Result<T>)
      modifies this
      ensures Proceeds()
      ensures (r == body && body.Ok? && db == old(db))
              || (r.Err? && db == saved && (r == body || (r.error == StorageFault && Failed())))
    {
      r := body;
      var failed := Trip();
      if body.Ok? && failed {
        r := Err(StorageFault);
      }
      if r.Err? {
        db := saved;
      }
    }

    // ------------------------------------------------------ cases and keys

    method CaseByID(id: Id) returns (r: Result<EstateCase>)
      modifies this`faults, this`failures
      ensures Proceeds()
      ensures Did(r, if id in db.cases then Committed(db, db.cases[id]) else RolledBack(NotFound), db, db, Failed())
    {
      var failed := Trip();
      if failed { return Err(StorageFault); }
      r := if id in db.cases then Ok(db.cases[id]) else Err(NotFound);
    }

    method InsertCase(id: Id, item: EstateCase) returns (r: Result<()>)
      requires Valid()
      modifies this
      ensures Valid() && Proceeds()
      ensures Did(r, if id in old(db).cases then RolledBack(StorageFault)
                     else Committed(old(db).(cases := old(db).cases[id := item]), ()), old(db), db, Failed())
    {
      var failed := Trip();
      if failed || id in db.cases { return Err(StorageFault); }
      db := db.(cases := db.cases[id := item]);
      r := Ok(());
    }

    /** Compare and swap on the version. */
    method UpdateCase(id: Id, item: EstateCase, expected: int) returns (r: Result<()>)
      requires Valid()
      modifies this
      ensures Valid() && Proceeds()
      ensures Did(r, if id in old(db).cases && old(db).cases[id].version == expected
                     then Committed(old(db).(cases := old(db).cases[id := item]), ())
                     else RolledBack(VersionConflict), old(db), db, Failed())
    {
      var failed := Trip();
      if failed { return Err(StorageFault); }
      if id !in db.cases || db.cases[id].version != expected { return Err(VersionConflict); }
      db := db.(cases := db.cases[id := item]);
      r := Ok(());
    }

    method GetIdempotency(key: string, now: Instant) returns (r: Result<IdempotencyRecord>)
      modifies this`faults, this`failures
      ensures Proceeds()
      ensures Did(r, if LiveKey(db, key, now) then Committed(db, db.keys[key]) else RolledBack(NotFound), db, db, Failed())
    {
      var failed := Trip();
      if failed { return Err(StorageFault); }
      r := if LiveKey(db, key, now) then Ok(db.keys[key]) else Err(NotFound);
    }

    method PutIdempotency(key: string, record: IdempotencyRecord) returns (r: Result<()>)
      requires Valid()
      modifies this
      ensures Valid() && Proceeds()
      ensures Did(r, if key in old(db).keys then RolledBack(StorageFault)
                     else Committed(old(db).(keys := old(db).keys[key := record]), ()), old(db), db, Failed())
    {
      var failed := Trip();
      if failed || key in db.keys { return Err(StorageFault); }
      db := db.(keys := db.keys[key := record]);
      r := Ok(());
    }

    method InsertAudit(event: AuditEvent) returns (r: Result<()>)
      requires Valid()
      modifies this
      ensures Valid() && Proceeds()
      ensures Did(r, Committed(Audited(old(db), event), ()), old(db), db, Failed())
    {
      var failed := Trip();
      if failed { return Err(StorageFault); }
      db := db.(audit := db.audit + [event]);
      r := Ok(());
    }

    // ------------------------------------------------- inquiries and accounts

    method InquiryByID(id: Id) returns (r: Result<Inquiry>)
      modifies this`faults, this`failures
      ensures Proceeds()
      ensures Did(r, if id in db.inquiries then Committed(db, db.inquiries[id]) else RolledBack(NotFound), db, db, Failed())
    {
      var failed := Trip();
      if failed { return Err(StorageFault); }
      r := if id in db.inquiries then Ok(db.inquiries[id]) else Err(NotFound);
    }

    method InsertInquiry(id: Id, row: Inquiry) returns (r: Result<()>)
      requires Valid()
      modifies this
      ensures Valid() && Proceeds()
      ensures Did(r, if CanInsertInquiry(old(db), id, row)
                     then Committed(old(db).(inquiries := old(db).inquiries[id := row]), ())
                     else RolledBack(StorageFault), old(db), db, Failed())
    {
      var failed := Trip();
      if failed || !CanInsertInquiry(db, id, row) { return Err(StorageFault); }
      db := db.(inquiries := db.inquiries[id := row]);
      r := Ok(());
    }

    method UpdateInquiry(id: Id, row: Inquiry, expected: int) returns (r: Result<()>)
      requires Valid()
      modifies this
      ensures Valid() && Proceeds()
      ensures Did(r, if id in old(db).inquiries && old(db).inquiries[id].version == expected
                     then Committed(old(db).(inquiries := old(db).inquiries[id := row]), ())
                     else RolledBack(VersionConflict), old(db), db, Failed())
    {
      var failed := Trip();
      if failed { return Err(StorageFault); }
      if id !in db.inquiries || db.inquiries[id].version != expected { return Err(VersionConflict); }
      db := db.(inquiries := db.inquiries[id := row]);
      r := Ok(());
    }

    method InquiryResultHash(inquiryId: Id, partKey: string) returns (r: Result<Digest<ResultInput>>)
      modifies this`faults, this`failures
      ensures Proceeds()
      ensures var parts := PartsOf(db.results, inquiryId);
              Did(r, if partKey in parts then Committed(db, parts[partKey]) else RolledBack(NotFound), db, db, Failed())
    {
      var failed := Trip();
      if failed { return Err(StorageFault); }
      var parts := PartsOf(db.results, inquiryId);
      r := if partKey in parts then Ok(parts[partKey]) else Err(NotFound);
    }

    /** ON CONFLICT DO NOTHING: reports whether a row was inserted. */
    method InsertInquiryResult(inquiryId: Id, partKey: string, hash: Digest<ResultInput>) returns (r: Result<bool>)
      requires Valid()
      modifies this
      ensures Valid() && Proceeds()
      ensures var parts := PartsOf(old(db).results, inquiryId);
              Did(r, if partKey in parts then Committed(old(db), false)
                     else Committed(old(db).(results := old(db).results[inquiryId := parts[partKey := hash]]), true),
                  old(db), db, Failed())
    {
      var failed := Trip();
      if failed { return Err(StorageFault); }
      var parts := PartsOf(db.results, inquiryId);
      if partKey in parts { return Ok(false); }
      db := db.(results := db.results[inquiryId := parts[partKey := hash]]);
      r := Ok(true);
    }

    /** How many inquiries of the case are not completed. */
    method CountIncomplete(caseId: Id) returns (r: Result<nat>)
      modifies this`faults, this`failures
      ensures Proceeds()
      ensures r.Ok? ==> (r.value == 0 <==> Complete(db.inquiries, caseId))
      ensures r.Err? ==> r.error == StorageFault && Failed()
    {
      var failed := Trip();
      if failed { return Err(StorageFault); }
      var incomplete := set q | q in db.inquiries && db.inquiries[q].caseId == caseId && db.inquiries[q].status != InquiryCompleted;
      if Complete(db.inquiries, caseId) {
        assert incomplete == {};
      } else {
        var q :| q in db.inquiries && db.inquiries[q].caseId == caseId && db.inquiries[q].status != InquiryCompleted;
        assert q in incomplete;
      }
      r := Ok(|incomplete|);
    }

    /** The row the unique key conflicts with, if any. */
    method FindByKey(key: AccountKey) returns (found: Option<Id>)
      ensures found.Some? ==> HasKey(db.accounts, found.value, key)
      ensures found == None ==> forall a :: !HasKey(db.accounts, a, key)
    {
      var ids := TextOrder.Sorted(db.accounts.Keys);
      for i := 0 to |ids|
        invariant forall j | 0 <= j < i :: !HasKey(db.accounts, ids[j], key)
      {
        if db.accounts[ids[i]].key == key { return Some(ids[i]); }
      }
      found := None;
    }

    method UpsertFinancialAccount(id: Id, inquiryId: Id, key: AccountKey, holding: Holding) returns (r: Result<()>)
      requires Valid() && Int64(holding.balance)
      modifies this
      ensures Valid() && Proceeds()
      ensures var o := Upsert(old(db).accounts, id, inquiryId, key, holding);
              Did(r, if o.Ok? then Committed(old(db).(accounts := o.value), ()) else RolledBack(o.error), old(db), db, Failed())
    {
      var failed := Trip();
      if failed || id in db.accounts { return Err(StorageFault); }
      var row := FindByKey(key);
      if row == None {
        KeysStayUnique(db.accounts, id, Account(key, inquiryId, holding, None, 1));
        db := db.(accounts := db.accounts[id := Account(key, inquiryId, holding, None, 1)]);
      } else {
        var current := db.accounts[row.value];
        assert forall b | HasKey(db.accounts, b, key) :: b == row.value;
        if current.reservedBy == None {
          KeysStayUnique(db.accounts, row.value, Account(key, inquiryId, holding, None, current.version + 1));
          db := db.(accounts := db.accounts[row.value := Account(key, inquiryId, holding, None, current.version + 1)]);
        }
      }
      r := Ok(());
    }

    method RowsForCase(caseId: Id) returns (rows: seq<Listed>)
      requires Valid()
      ensures Lists(rows, db.accounts, caseId) && Balanced(rows)
    {
      var ids := TextOrder.Sorted(db.accounts.Keys);
      rows := [];
      TextOrder.SortedAscends(db.accounts.Keys);
      for i := 0 to |ids|
        invariant Listing(rows, ids[..i], db.accounts, caseId)
      {
        ListingStep(rows, ids, i, db.accounts, caseId);
        if db.accounts[ids[i]].key.caseId == caseId {
          rows := rows + [Listed(ids[i], db.accounts[ids[i]])];
        }
      }
      assert ids[..|ids|] == ids;
      OrderedAreDistinct(rows);
    }

    /** The accounts of a case, ordered by id. */
    method AccountsForCase(caseId: Id) returns (r: Result<seq<Listed>>)
      requires Valid()
      modifies this`faults, this`failures
      ensures Proceeds()
      ensures r.Ok? ==> Lists(r.value, db.accounts, caseId) && Balanced(r.value)
      ensures r.Err? ==> r.error == StorageFault && Failed()
    {
      var failed := Trip();
      if failed { return Err(StorageFault); }
      var rows := RowsForCase(caseId);
      r := Ok(rows);
    }

    // ------------------------------------------------------ claims and payouts

    method ClaimByID(id: Id) returns (r: Result<Claim>)
      modifies this`faults, this`failures
      ensures Proceeds()
      ensures Did(r, if id in db.claims then Committed(db, db.claims[id]) else RolledBack(NotFound), db, db, Failed())
    {
      var failed := Trip();
      if failed { return Err(StorageFault); }
      r := if id in db.claims then Ok(db.claims[id]) else Err(NotFound);
    }

    method InsertClaim(id: Id, claim: Claim) returns (r: Result<()>)
      requires Valid()
      modifies this
      ensures Valid() && Proceeds()
      ensures Did(r, if id in old(db).claims || claim.total < 0 then RolledBack(StorageFault)
                     else Committed(old(db).(claims := old(db).claims[id := claim]), ()), old(db), db, Failed())
    {
      var failed := Trip();
      if failed || id in db.claims || claim.total < 0 { return Err(StorageFault); }
      db := db.(claims := db.claims[id := claim]);
      r := Ok(());
    }

    method LinkAccount(claimId: Id, accountId: Id, amount: int) returns (r: Result<()>)
      requires Valid() && claimId in db.claims
      modifies this
      ensures Valid() && Proceeds()
      ensures var linked := LinksOf(old(db).links, claimId);
              Did(r, if accountId in linked || amount <= 0 then RolledBack(StorageFault)
                     else Committed(old(db).(links := old(db).links[claimId := linked[accountId := amount]]), ()),
                  old(db), db, Failed())
    {
      var failed := Trip();
      var linked := LinksOf(db.links, claimId);
      if failed || accountId in linked || amount <= 0 { return Err(StorageFault); }
      db := db.(links := db.links[claimId := linked[accountId := amount]]);
      r := Ok(());
    }

    /** The accounts a claim links, ordered by id. */
    method LinkedAccounts(claimId: Id) returns (r: Result<seq<Id>>)
      modifies this`faults, this`failures
      ensures Proceeds()
      ensures Did(r, Committed(db, TextOrder.Sorted(LinksOf(db.links, claimId).Keys)), db, db, Failed())
    {
      var failed := Trip();
      if failed { return Err(StorageFault); }
      r := Ok(TextOrder.Sorted(LinksOf(db.links, claimId).Keys));
    }

    method UpdateClaim(id: Id, claim: Claim, expected: int) returns (r: Result<()>)
      requires Valid()
      modifies this
      ensures Valid() && Proceeds()
      ensures Did(r, if id in old(db).claims && old(db).claims[id].version == expected
                     then Committed(old(db).(claims := old(db).claims[id := claim]), ())
                     else RolledBack(VersionConflict), old(db), db, Failed())
    {
      var failed := Trip();
      if failed { return Err(StorageFault); }
      if id !in db.claims || db.claims[id].version != expected { return Err(VersionConflict); }
      db := db.(claims := db.claims[id := claim]);
      r := Ok(());
    }

    method InsertPayout(id: Id, row: Payout) returns (r: Result<()>)
      requires Valid()
      modifies this
      ensures Valid() && Proceeds()
      ensures Did(r, if CanInsertPayout(old(db), id, row) then Committed(old(db).(payouts := old(db).payouts[id := row]), ())
                     else RolledBack(StorageFault), old(db), db, Failed())
    {
      var failed := Trip();
      if failed || !CanInsertPayout(db, id, row) { return Err(StorageFault); }
      db := db.(payouts := db.payouts[id := row]);
      r := Ok(());
    }

    /** The guarded UPDATE of one account, and the SELECT of its balance. */
    method ReserveAccount(claimId: Id, id: Id) returns (r: Result<int>)
      requires Valid()
      modifies this
      ensures Valid() && Proceeds()
      ensures r.Ok? ==>
                && id in old(db).accounts && Int64(r.value) && r.value == old(db).accounts[id].holding.balance
                && !old(db).accounts[id].holding.restricted && old(db).accounts[id].reservedBy == None
                && db == old(db).(accounts := old(db).accounts[id := old(db).accounts[id].(
                     reservedBy := Some(claimId), version := old(db).accounts[id].version + 1)])
      ensures r.Err? ==> (r.error == StorageFault && Failed())
                         || (r.error == Conflict
                             && (id in old(db).accounts ==> old(db).accounts[id].holding.restricted || old(db).accounts[id].reservedBy != None))
    {
      var failed := Trip();
      if failed { return Err(StorageFault); }
      if id !in db.accounts || db.accounts[id].holding.restricted || db.accounts[id].reservedBy != None {
        return Err(Conflict);
      }
      var row := db.accounts[id];
      db := db.(accounts := db.accounts[id := row.(reservedBy := Some(claimId), version := row.version + 1)]);
      failed := Trip();
      if failed { return Err(StorageFault); }
      r := Ok(db.accounts[id].holding.balance);
    }

    /** Reserves the accounts one by one and adds up their balances.  A failure
        leaves the earlier ones reserved, for the transaction to undo. */
    method ReserveAccounts(claimId: Id, ids: seq<Id>) returns (r: Result<int>)
      requires Valid()
      modifies this
      ensures Valid() && Proceeds()
      ensures r.Ok? ==>
                && DuplicateFree(ids) && Reservable(old(db).accounts, SetOf(ids)) && Int64Balances(old(db).accounts)
                && db == old(db).(accounts := Reserve(old(db).accounts, SetOf(ids), claimId))
                && r.value == AddUp(old(db).accounts, ids)
      ensures r.Err? ==> (r.error == Conflict && !(DuplicateFree(ids) && Reservable(old(db).accounts, SetOf(ids))))
                         || (r.error == StorageFault && Failed())
    {
      hide Reserve, AddUp, DuplicateFree;
      var total := 0;
      ghost var before := db.accounts;
      ReserveNone(before, claimId);
      AddUpNone(before);
      assert ids[..0] == [];
      for i := 0 to |ids|
        invariant Valid() && Proceeds()
        invariant DuplicateFree(ids[..i]) && Reservable(before, SetOf(ids[..i]))
        invariant db == old(db).(accounts := Reserve(before, SetOf(ids[..i]), claimId))
        invariant Int64(total) && total == AddUp(before, ids[..i])
      {
        ReserveStep(before, ids, i, claimId);
        var amount := ReserveAccount(claimId, ids[i]);
        if amount.Err? { return amount; }
        total := Plus(total, amount.value);
      }
      assert ids[..|ids|] == ids;
      r := Ok(total);
    }

    method MarkPayoutSubmitted(id: Id) returns (r: Result<()>)
      requires Valid()
      modifies this
      ensures Valid() && Proceeds()
      ensures Did(r, Workflow.MarkPayoutSubmitted(old(db), id), old(db), db, Failed())
    {
      var failed := Trip();
      if failed { return Err(StorageFault); }
      if id in db.payouts && db.payouts[id].status == PayoutPending {
        var row := db.payouts[id];
        db := db.(payouts := db.payouts[id := row.(status := PayoutSubmitted, attempts := row.attempts + 1)]);
        return Ok(());
      }
      failed := Trip();
      if failed { return Err(StorageFault); }
      if id !in db.payouts { return Err(NotFound); }
      var status := db.payouts[id].status;
      r := if status == PayoutSubmitted || status == PayoutConfirmed then Ok(()) else Err(Conflict);
    }

    /** The payout's row first, then the claim's, whose row count goes unread. */
    method ConfirmPayout(id: Id, providerRef: string) returns (r: Result<()>)
      requires Valid()
      modifies this
      ensures Valid() && Proceeds()
      ensures Did(r, Workflow.ConfirmPayout(old(db), id, providerRef), old(db), db, Failed())
    {
      var begun := BeginTx();
      if begun.Err? { return Err(begun.error); }
      var body := ConfirmPayoutTx(id, providerRef);
      r := EndTx(begun.value, body);
    }

    method ConfirmPayoutTx(id: Id, providerRef: string) returns (r: Result<()>)
      requires Valid()
      modifies this
      ensures Valid() && Proceeds()
      ensures Doing(r, Workflow.ConfirmPayout(old(db), id, providerRef), db, Failed())
    {
      var failed := Trip();
      if failed { return Err(StorageFault); }
      if id !in db.payouts || (db.payouts[id].status != PayoutPending && db.payouts[id].status != PayoutSubmitted) {
        return Err(Conflict);
      }
      var row := db.payouts[id];
      db := db.(payouts := db.payouts[id := row.(status := PayoutConfirmed, providerRef := providerRef, attempts := row.attempts + 1)]);
      failed := Trip();
      if failed { return Err(StorageFault); }
      var claimId := db.payouts[id].claimId;
      failed := Trip();
      if failed { return Err(StorageFault); }
      if claimId in db.claims && (db.claims[claimId].status == ClaimApproved || db.claims[claimId].status == ClaimPaying) {
        var claim := db.claims[claimId];
        db := db.(claims := db.claims[claimId := claim.(status := ClaimPaid, version := claim.version + 1)]);
      }
      r := Ok(());
    }

    // -------------------------------------------------------------------- jobs

    method InsertJob(id: Id, row: Job) returns (r: Result<()>)
      requires Valid()
      modifies this
      ensures Valid() && Proceeds()
      ensures Did(r, if CanInsertJob(old(db), id, row) then Committed(old(db).(jobs := old(db).jobs[id := row]), ())
                     else RolledBack(StorageFault), old(db), db, Failed())
    {
      var failed := Trip();
      if failed || !CanInsertJob(db, id, row) { return Err(StorageFault); }
      db := db.(jobs := db.jobs[id := row]);
      r := Ok(());
    }

    /** Returns how many leases it took back. */
    method RecoverExpiredJobs(now: Instant) returns (r: Result<nat>)
      requires Valid()
      modifies this
      ensures Valid() && Proceeds()
      ensures Did(r, Committed(Workflow.RecoverExpiredJobs(old(db), now), |Expired(old(db).jobs, now)|), old(db), db, Failed())
    {
      hide LeaseExpired, Recovered;
      var failed := Trip();
      if failed { return Err(StorageFault); }
      var expired := Expired(db.jobs, now);
      RecoverySets(db.jobs, now);
      db := db.(jobs := map j | j in db.jobs ::
        if j in expired then db.jobs[j].(status := JobPending, leaseOwner := "", leaseUntil := None, availableAt := now)
        else db.jobs[j]);
      r := Ok(|expired|);
    }

    /** The pending job that is due, earliest in the text order of its time and
        then of its id: one pass in id order. */
    method SelectDue(now: Instant) returns (found: Option<Id>)
      ensures found.Some? ==> NextDue(db.jobs, found.value, now) && Foremost(db.jobs, found.value, now)
      ensures found == None ==> forall j | j in db.jobs :: !Due(db.jobs[j], now)
    {
      hide Due, QueuedBefore, FormatTime, TextLessEq, Ahead;
      var ids := TextOrder.Sorted(db.jobs.Keys);
      TextOrder.SortedAscends(db.jobs.Keys);
      found := None;
      for i := 0 to |ids|
        invariant Scanned(db.jobs, ids, i, found, now)
      {
        ScanStep(db.jobs, ids, i, found, now);
        if Due(db.jobs[ids[i]], now) && (found == None || Sooner(db.jobs[ids[i]], db.jobs[found.value])) {
          found := Some(ids[i]);
        }
      }
      if found.Some? { NextIsForemost(db.jobs, found.value, now); }
    }

    method ClaimJobTx(owner: string, now: Instant, lease: nat) returns (r: Result<(Id, Job)>)
      requires Valid()
      modifies this
      ensures Valid() && Proceeds()
      ensures r.Ok? ==>
                && NextDue(old(db).jobs, r.value.0, now) && Foremost(old(db).jobs, r.value.0, now)
                && r.value.1 == Leased(old(db).jobs[r.value.0], owner, now + lease)
                && db == old(db).(jobs := old(db).jobs[r.value.0 := r.value.1])
      ensures r.Err? ==> (r.error == NotFound && forall j | j in old(db).jobs :: !Due(old(db).jobs[j], now))
                         || (r.error == StorageFault && Failed())
    {
      var failed := Trip();
      if failed { return Err(StorageFault); }
      var found := SelectDue(now);
      if found == None { return Err(NotFound); }
      failed := Trip();
      if failed { return Err(StorageFault); }
      var job := Leased(db.jobs[found.value], owner, now + lease);
      db := db.(jobs := db.jobs[found.value := job]);
      r := Ok((found.value, job));
    }

    /** Leases the next due job. */
    method ClaimJob(owner: string, now: Instant, lease: nat) returns (r: Result<(Id, Job)>)
      requires Valid()
      modifies this
      ensures Valid() && Proceeds()
      ensures r.Ok? ==>
                && NextDue(old(db).jobs, r.value.0, now) && Foremost(old(db).jobs, r.value.0, now)
                && r.value.1 == Leased(old(db).jobs[r.value.0], owner, now + lease)
                && db == old(db).(jobs := old(db).jobs[r.value.0 := r.value.1])
      ensures r.Err? ==> db == old(db)
      ensures r.Err? ==> (r.error == NotFound && forall j | j in db.jobs :: !Due(db.jobs[j], now))
                         || (r.error == StorageFault && Failed())
    {
      var begun := BeginTx();
      if begun.Err? { return Err(begun.error); }
      var body := ClaimJobTx(owner, now, lease);
      r := EndTx(begun.value, body);
    }

    method CompleteJob(id: Id, owner: string) returns (r: Result<()>)
      requires Valid()
      modifies this
      ensures Valid() && Proceeds()
      ensures Did(r, Workflow.CompleteJob(old(db), id, owner), old(db), db, Failed())
    {
      var failed := Trip();
      if failed { return Err(StorageFault); }
      if !HoldsLease(db, id, owner) { return Err(Conflict); }
      var row := db.jobs[id];
      db := db.(jobs := db.jobs[id := row.(status := JobCompleted, leaseOwner := "", leaseUntil := None)]);
      r := Ok(());
    }

    method FailJob(id: Id, snapshot: Job, owner: string, now: Instant, retryAt: Instant) returns (r: Result<()>)
      requires Valid()
      modifies this
      ensures Valid() && Proceeds()
      ensures Did(r, Workflow.FailJob(old(db), id, snapshot, owner, now, retryAt), old(db), db, Failed())
    {
      var status, available := JobPending, retryAt;
      if snapshot.attempts >= snapshot.maxAttempts {
        status, available := JobFailed, now;
      }
      var failed := Trip();
      if failed { return Err(StorageFault); }
      if !HoldsLease(db, id, owner) { return Err(Conflict); }
      var row := db.jobs[id];
      db := db.(jobs := db.jobs[id := row.(status := status, leaseOwner := "", leaseUntil := None, availableAt := available)]);
      r := Ok(());
    }
  }
}
