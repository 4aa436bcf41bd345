/** Interleavings of result deliveries: only the order within each inquiry
    matters. */
module DeliveryOrder {
  import opened Domain
  import opened Workflow
  import opened Invariants
  import opened Progress
  import opened Runs
  import opened StepSafety
  import opened Guarantees
  import opened Reconciliation

  /** A run of deliveries only, whose account ids the generator never repeats. */
  ghost predicate FreshDeliveries(used: set<Id>, steps: seq<Step>)
    decreases |steps|
  {
    steps == [] ||
    (&& steps[0].Deliver? && FreshIds(used, steps[0].newAccountIds, |steps[0].delivery.accounts|)
     && FreshDeliveries(used + IdSet(steps[0].newAccountIds), steps[1..]))
  }

  /** The deliveries of one inquiry, in their order. */
  function InputsOf(steps: seq<Step>, q: Id): seq<ResultInput>
    decreases |steps|
  {
    if steps == [] then []
    else if steps[0].Deliver? && steps[0].inquiryId == q then [steps[0].delivery] + InputsOf(steps[1..], q)
    else InputsOf(steps[1..], q)
  }

  lemma {:induction false} RunIsLocal(c: Config, s: Service, steps: seq<Step>, used: set<Id>, r: Id)
    requires ServiceInv(c, s) && r in s.db.inquiries && s.db.accounts.Keys <= used && FreshDeliveries(used, steps)
    ensures var t := Run(c, s, steps);
            && r in t.db.inquiries
            && LocalOf(t.db, r) == LocalRun(r, LocalOf(s.db, r), InputsOf(steps, r))
    decreases |steps|
  {
    hide RecordResult, View, Inv, WorkersOk, RetriesBounded, LocalStep, Advances, LocalOf;
    if steps != [] {
      var Deliver(id, input, ids) := steps[0];
      var next := Exec(c, s, steps[0]);
      DeliverIsLocal(s.db, id, input, ids, r, c.limit);
      ExecKeeps(c, s, steps[0]);
      RunIsLocal(c, next, steps[1..], used + IdSet(ids), r);
      if r == id { assert InputsOf(steps, r)[1..] == InputsOf(steps[1..], r); }
    }
  }

  // ------------------------------------------------ what deliveries leave alone

  /** A case row moves from inquiring to eligible, or not at all. */
  ghost predicate CasesSettle(before: map<Id, EstateCase>, after: map<Id, EstateCase>) {
    && before.Keys == after.Keys
    && forall c | c in before ::
         || after[c] == before[c]
         || (before[c].status == CaseInquiring && after[c] == before[c].(status := CaseEligible, version := before[c].version + 1))
  }

  ghost predicate OnlyReconciles(s: Service, t: Service) {
    && t.workers == s.workers && t.recoveries == s.recoveries
    && t.db.claims == s.db.claims && t.db.links == s.db.links && t.db.payouts == s.db.payouts
    && t.db.jobs == s.db.jobs && t.db.keys == s.db.keys && CasesSettle(s.db.cases, t.db.cases)
    && t.db.inquiries.Keys == s.db.inquiries.Keys
  }

  lemma DeliverTables(d: Database, id: Id, input: ResultInput, ids: seq<Id>)
    ensures var e := After(d, RecordResult(d, id, input, ids));
            e.claims == d.claims && e.links == d.links && e.payouts == d.payouts && e.jobs == d.jobs && e.keys == d.keys
  {
    hide UpsertAll, AfterResult, ValidInput, PartsOf, NextPart;
  }

  lemma DeliverKeepsKeys(d: Database, id: Id, input: ResultInput, ids: seq<Id>)
    ensures After(d, RecordResult(d, id, input, ids)).inquiries.Keys == d.inquiries.Keys
  {
    hide UpsertAll, AfterResult, ValidInput, PartsOf, NextPart;
  }

  lemma SettlesSelf(cases: map<Id, EstateCase>)
    ensures CasesSettle(cases, cases)
  {}

  lemma AfterResultSettles(cases: map<Id, EstateCase>, inquiries: map<Id, Inquiry>, caseId: Id)
    ensures var o := AfterResult(cases, inquiries, caseId); o.Ok? ==> CasesSettle(cases, o.value)
  {
    hide Complete;
  }

  lemma DeliverSettles(d: Database, id: Id, input: ResultInput, ids: seq<Id>)
    ensures CasesSettle(d.cases, After(d, RecordResult(d, id, input, ids)).cases)
  {
    hide UpsertAll, AfterResult, ValidInput, PartsOf, CasesSettle;
    SettlesSelf(d.cases);
    if id in d.inquiries && NextPart(d.inquiries[id]).Ok? {
      var q := NextPart(d.inquiries[id]).value;
      AfterResultSettles(d.cases, d.inquiries[id := q], q.caseId);
    }
  }

  lemma DeliverOnlyReconciles(c: Config, s: Service, id: Id, input: ResultInput, ids: seq<Id>)
    ensures OnlyReconciles(s, Exec(c, s, Deliver(id, input, ids)))
  {
    hide RecordResult, CasesSettle;
    DeliverSettles(s.db, id, input, ids);
    DeliverTables(s.db, id, input, ids);
    DeliverKeepsKeys(s.db, id, input, ids);
  }

  lemma {:induction false} RunOnlyReconciles(c: Config, s: Service, steps: seq<Step>)
    requires forall i | 0 <= i < |steps| :: steps[i].Deliver?
    ensures OnlyReconciles(s, Run(c, s, steps))
    decreases |steps|
  {
    hide Exec;
    if steps != [] {
      var Deliver(id, input, ids) := steps[0];
      DeliverOnlyReconciles(c, s, id, input, ids);
      RunOnlyReconciles(c, Exec(c, s, steps[0]), steps[1..]);
    }
  }

  lemma {:induction false} FreshAreDeliveries(used: set<Id>, steps: seq<Step>)
    requires FreshDeliveries(used, steps)
    ensures forall i | 0 <= i < |steps| :: steps[i].Deliver?
    decreases |steps|
  {
    if steps != [] {
      FreshAreDeliveries(used + IdSet(steps[0].newAccountIds), steps[1..]);
      forall i | 0 <= i < |steps| ensures steps[i].Deliver? {
        if i > 0 { assert steps[i] == steps[1..][i - 1]; }
      }
    }
  }

  // -------------------------------------------------------------- the theorem

  /** Equal up to the generated account ids and the order of the audit rows of
      different objects. */
  ghost predicate Equivalent(t: Service, u: Service) {
    && t.workers == u.workers && t.recoveries == u.recoveries
    && t.db.claims == u.db.claims && t.db.links == u.db.links && t.db.payouts == u.db.payouts
    && t.db.jobs == u.db.jobs && t.db.keys == u.db.keys
    && t.db.cases == u.db.cases && t.db.inquiries == u.db.inquiries && View(t.db.accounts) == View(u.db.accounts)
    && (forall q :: PartsOf(t.db.results, q) == PartsOf(u.db.results, q))
    && (forall kind, id :: Trail(t.db.audit, kind, id) == Trail(u.db.audit, kind, id))
  }

  lemma SameCases(before: map<Id, EstateCase>, x: map<Id, EstateCase>, y: map<Id, EstateCase>, inquiries: map<Id, Inquiry>)
    requires CasesSettle(before, x) && CasesSettle(before, y) && Barrier(x, inquiries) && Barrier(y, inquiries)
    ensures x == y
  {}

  lemma InvBarrier(d: Database, limit: int)
    requires Inv(d, limit)
    ensures Barrier(d.cases, d.inquiries)
  {}

  lemma InvResults(d: Database, limit: int)
    requires Inv(d, limit)
    ensures d.results.Keys <= d.inquiries.Keys
  {}

  /** Every account lies in some inquiry's local view. */
  lemma LocalViews(d: Database, e: Database, limit: int)
    requires Inv(d, limit) && Inv(e, limit) && d.inquiries == e.inquiries
    requires forall q | q in d.inquiries :: LocalOf(d, q) == LocalOf(e, q)
    ensures forall k | k in View(d.accounts) :: k in View(e.accounts) && View(e.accounts)[k] == View(d.accounts)[k]
  {
    InvAccounts(d, limit);
    hide Inv, View;
    forall k | k in View(d.accounts) ensures k in View(e.accounts) && View(e.accounts)[k] == View(d.accounts)[k] {
      var a := ViewHas(d.accounts, k);
      assert AccountOk(d.accounts[a], d.inquiries);
      var q := d.accounts[a].inquiryId;
      assert LocalOf(d, q) == LocalOf(e, q);
      assert k in Own(View(d.accounts), d.inquiries[q]) && k in Own(View(e.accounts), e.inquiries[q]);
    }
  }

  lemma SameTrails(x: seq<AuditEvent>, y: seq<AuditEvent>, d: Database)
    requires CaseTrails(x, d.cases) && ClaimTrails(x, d.claims) && InquiryTrails(x, d.inquiries)
    requires CaseTrails(y, d.cases) && ClaimTrails(y, d.claims) && InquiryTrails(y, d.inquiries)
    ensures forall kind, id :: Trail(x, kind, id) == Trail(y, kind, id)
  {}

  lemma SameLocals(d: Database, e: Database, limit: int)
    requires Inv(d, limit) && Inv(e, limit) && d.inquiries.Keys == e.inquiries.Keys
    requires forall q | q in d.inquiries :: LocalOf(d, q) == LocalOf(e, q)
    ensures d.inquiries == e.inquiries && View(d.accounts) == View(e.accounts)
    ensures forall q :: PartsOf(d.results, q) == PartsOf(e.results, q)
  {
    hide Inv, View, Own;
    forall q | q in d.inquiries ensures d.inquiries[q] == e.inquiries[q] { assert LocalOf(d, q) == LocalOf(e, q); }
    assert d.inquiries == e.inquiries;
    LocalViews(d, e, limit);
    LocalViews(e, d, limit);
    InvResults(d, limit);
    InvResults(e, limit);
    forall q ensures PartsOf(d.results, q) == PartsOf(e.results, q) {
      if q in d.inquiries { assert LocalOf(d, q) == LocalOf(e, q); }
    }
  }

  /** Two interleavings of deliveries that agree on each inquiry's own order end
      in the same state, up to generated ids. */
  lemma OrderIndependent(c: Config, s: Service, xs: seq<Step>, ys: seq<Step>)
    requires Reachable(c, s)
    requires FreshDeliveries(s.db.accounts.Keys, xs) && FreshDeliveries(s.db.accounts.Keys, ys)
    requires forall q | q in s.db.inquiries :: InputsOf(xs, q) == InputsOf(ys, q)
    ensures Equivalent(Run(c, s, xs), Run(c, s, ys))
  {
    hide Reachable, ServiceInv, Inv, View, Trail, Run, LocalOf, FreshDeliveries, InputsOf, Advances, CasesSettle, Barrier,
      CaseTrails, ClaimTrails, InquiryTrails;
    var t, u := Run(c, s, xs), Run(c, s, ys);
    ReachableOk(c, s);
    Onwards(c, s, xs);
    Onwards(c, s, ys);
    ReachableOk(c, t);
    ReachableOk(c, u);
    FreshAreDeliveries(s.db.accounts.Keys, xs);
    FreshAreDeliveries(s.db.accounts.Keys, ys);
    RunOnlyReconciles(c, s, xs);
    RunOnlyReconciles(c, s, ys);
    forall q | q in s.db.inquiries ensures LocalOf(t.db, q) == LocalOf(u.db, q) {
      RunIsLocal(c, s, xs, s.db.accounts.Keys, q);
      RunIsLocal(c, s, ys, s.db.accounts.Keys, q);
    }
    SameLocals(t.db, u.db, c.limit);
    InvBarrier(t.db, c.limit);
    InvBarrier(u.db, c.limit);
    SameCases(s.db.cases, t.db.cases, u.db.cases, t.db.inquiries);
    TrailsOf(t.db, c.limit);
    TrailsOf(u.db, c.limit);
    SameTrails(t.db.audit, u.db.audit, t.db);
  }
}
