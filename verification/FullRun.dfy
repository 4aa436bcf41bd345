/** One complete run, from a submission to the confirmed payout.  It shows that
    the bound on a case's work is attained. */
module FullRun {
  import opened Timestamps
  import opened Domain
  import opened Sums
  import opened Workflow
  import opened Runs
  import opened StepSafety
  import opened Selection
  import opened WorkBound
  import opened WorkCount

  /** The same tables, apart from keys and audit. */
  predicate Like(d: Database, e: Database) { d == e.(keys := d.keys, audit := d.audit) }

  predicate At(s: Service, d: Database, workers: map<string, Task>) { Like(s.db, d) && s.workers == workers }

  function SmallConfig(): Config { Config(5_000_000, 1, 0) }

  function Ann(): Principal { Principal("ann", Claimant) }
  function Bob(): Principal { Principal("bob", Officer) }
  function Sue(): Principal { Principal("sue", Supervisor) }

  function Report100(): ResultInput {
    ResultInput("part", [AccountResult("ref", Holding(Deposit, "CNY", 100, false, ""))])
  }

  function Steps(): seq<Step> {
    [SubmitCase(Ann(), SubmitInput("d", "c", "r", "j", true), "submit-1", 0, "case"),
     ReviewCase(Bob(), "case", 1),
     DispatchCase(Bob(), "case", "request-1", 2, [Request("bank", "inquiry", "job", 1)], 0),
     StartWorker("w", 0), TakeJob("w", "job", 0), Handle("w", Undisturbed), Runs.Step.Report("w", 0, false),
     Deliver("inquiry", Report100(), ["acct"]),
     ClaimAccounts(Ann(), "case", ["acct"], "claim"),
     ApproveClaim(Sue(), "claim", "payout-1", 1, "pay", "job2", 0),
     TakeJob("w", "job2", 0), Handle("w", Undisturbed),
     Confirm("pay", "paid-1")]
  }

  /** The requests up to the dispatch. */
  function Asking(): seq<Step> { Steps()[..3] }

  // ------------------------------------------------------------ the databases

  function Cases(status: CaseStatus, version: int): map<Id, EstateCase> { map["case" := EstateCase("ann", status, version)] }

  function Asked(status: InquiryStatus, reference: string, parts: int, version: int): map<Id, Inquiry> {
    map["inquiry" := Inquiry("case", "bank", "request-1", status, reference, 1, parts, version)]
  }

  function DispatchJob(): Job { NewJob(DispatchInquiry, "inquiry", 1, 0) }
  function PayoutJob(): Job { NewJob(ExecutePayout, "pay", 1, 0) }
  function Done(job: Job): Job { job.(status := JobCompleted, leaseOwner := "", leaseUntil := None) }

  function TheAccount(reservedBy: Option<Id>, version: int): Account {
    Account(AccountKey("case", "bank", Sha256("ref")), "inquiry", Holding(Deposit, "CNY", 100, false, ""), reservedBy, version)
  }

  function TheClaim(status: ClaimStatus, version: int, approver: Id): map<Id, Claim> {
    map["claim" := Claim("case", "ann", status, 100, "CNY", version, approver)]
  }

  function ThePayout(status: PayoutStatus, attempts: int): map<Id, Payout> {
    map["pay" := Payout("claim", "payout-1", status, 100, "CNY", if status == PayoutConfirmed then "paid-1" else "", attempts)]
  }

  function Submitted(): Database { EmptyDatabase().(cases := Cases(CaseSubmitted, 1)) }
  function Reviewed(): Database { EmptyDatabase().(cases := Cases(CaseReviewing, 2)) }

  function Dispatched(job: Job): Database {
    EmptyDatabase().(cases := Cases(CaseInquiring, 3), inquiries := Asked(InquiryPending, "", 0, 1), jobs := map["job" := job])
  }

  function Marked(job: Job): Database { Dispatched(job).(inquiries := Asked(InquiryDispatched, "outbox-job", 0, 2)) }

  function Delivered(): Database {
    Marked(Done(Leased(DispatchJob(), "w", 0))).(
      cases := Cases(CaseEligible, 4), inquiries := Asked(InquiryCompleted, "outbox-job", 1, 3),
      results := map["inquiry" := map["part" := Sha256(Report100())]], accounts := map["acct" := TheAccount(None, 1)])
  }

  function Claimed100(): Database {
    Delivered().(cases := Cases(CaseClaiming, 5), claims := TheClaim(ClaimPending, 1, ""), links := map["claim" := map["acct" := 100]])
  }

  function Approved(payouts: map<Id, Payout>, job: Job): Database {
    Claimed100().(accounts := map["acct" := TheAccount(Some("claim"), 2)], claims := TheClaim(ClaimApproved, 2, "sue"),
                  payouts := payouts, jobs := Claimed100().jobs["job2" := job])
  }

  function Paid(job: Job): Database {
    Approved(ThePayout(PayoutConfirmed, 2), job).(claims := TheClaim(ClaimPaid, 3, "sue"))
  }

  // --------------------------------------------------------------- the steps

  lemma Step0(s: Service)
    requires s == Initial()
    ensures At(Exec(SmallConfig(), s, Steps()[0]), Submitted(), map[])
  {}

  lemma Step1(s: Service)
    requires At(s, Submitted(), map[])
    ensures At(Exec(SmallConfig(), s, Steps()[1]), Reviewed(), map[])
  {}

  lemma DispatchOfOne(d: Database)
    requires Like(d, Reviewed())
    ensures Like(After(d, Dispatch(d, Bob(), "case", "request-1", 2, [Request("bank", "inquiry", "job", 1)], 1, 0)), Dispatched(DispatchJob()))
  {
    var r := Request("bank", "inquiry", "job", 1);
    assert [r][1..] == [];
    assert InsertRequests(d, "case", "request-1", [r], 1, 0).Committed?;
  }

  lemma Step2(s: Service)
    requires At(s, Reviewed(), map[])
    ensures At(Exec(SmallConfig(), s, Steps()[2]), Dispatched(DispatchJob()), map[])
  {
    hide Dispatch, Like, Dispatched;
    DispatchOfOne(s.db);
  }

  lemma Step3(s: Service)
    requires At(s, Dispatched(DispatchJob()), map[])
    ensures At(Exec(SmallConfig(), s, Steps()[3]), Dispatched(DispatchJob()), map["w" := Idle])
  {
    hide TextLessEq, TakenBack;
  }

  lemma DueNow(jobs: map<Id, Job>, id: Id)
    requires id in jobs && jobs[id].status == JobPending && jobs[id].availableAt == 0
    requires forall j | j in jobs && j != id :: jobs[j].status != JobPending
    ensures NextDue(jobs, id, 0)
  {
    hide FormatTime;
  }

  lemma DueFirst(d: Database)
    requires Like(d, Dispatched(DispatchJob()))
    ensures "job" in d.jobs && d.jobs["job"] == DispatchJob() && NextDue(d.jobs, "job", 0)
  {
    hide NextDue;
    DueNow(d.jobs, "job");
  }

  lemma LeasedFirst(d: Database)
    requires Like(d, Dispatched(DispatchJob()))
    ensures var job := Leased(DispatchJob(), "w", 0); Like(d.(jobs := d.jobs["job" := job]), Dispatched(job))
  {
    hide Leased;
  }

  lemma Takes(c: Config, s: Service, id: Id)
    requires s.workers == map["w" := Idle] && id in s.db.jobs && NextDue(s.db.jobs, id, 0)
    ensures var job := Leased(s.db.jobs[id], "w", c.lease);
            Exec(c, s, TakeJob("w", id, 0))
            == s.(db := s.db.(jobs := s.db.jobs[id := job]), workers := map["w" := Working(id, job)])
  {
    hide NextDue, Leased;
  }

  lemma Step4(s: Service)
    requires At(s, Dispatched(DispatchJob()), map["w" := Idle])
    ensures var job := Leased(DispatchJob(), "w", 0);
            At(Exec(SmallConfig(), s, Steps()[4]), Dispatched(job), map["w" := Working("job", job)])
  {
    hide Exec, NextDue, Like, Dispatched, Leased, DispatchJob;
    DueFirst(s.db);
    Takes(SmallConfig(), s, "job");
    LeasedFirst(s.db);
  }

  lemma MarkedBy(d: Database)
    requires Like(d, Dispatched(Leased(DispatchJob(), "w", 0)))
    ensures var o := RunHandler(d, "job", Leased(DispatchJob(), "w", 0));
            o.Committed? && Like(o.database, Marked(Leased(DispatchJob(), "w", 0)))
  {
    assert "outbox-" + "job" == "outbox-job";
  }

  lemma Step5(s: Service)
    requires var job := Leased(DispatchJob(), "w", 0); At(s, Dispatched(job), map["w" := Working("job", job)])
    ensures var job := Leased(DispatchJob(), "w", 0);
            At(Exec(SmallConfig(), s, Steps()[5]), Marked(job), map["w" := Reporting("job", job, true)])
  {
    hide RunHandler, Like, Marked, Dispatched;
    MarkedBy(s.db);
  }

  lemma Step6(s: Service)
    requires var job := Leased(DispatchJob(), "w", 0); At(s, Marked(job), map["w" := Reporting("job", job, true)])
    ensures At(Exec(SmallConfig(), s, Steps()[6]), Marked(Done(Leased(DispatchJob(), "w", 0))), map["w" := Idle])
  {}

  lemma Merged100(accounts: map<Id, Account>, q: Inquiry)
    requires accounts == map[] && q.caseId == "case" && q.institution == "bank"
    ensures UpsertAll(accounts, "inquiry", q, Report100().accounts, ["acct"]) == Ok(map["acct" := TheAccount(None, 1)])
  {
    var rs := Report100().accounts;
    assert rs[1..] == [] && ["acct"][1..] == [];
    assert forall row :: !HasKey(accounts, row, KeyOf(q, rs[0]));
    assert Upsert(accounts, "acct", "inquiry", KeyOf(q, rs[0]), rs[0].holding) == Ok(map["acct" := TheAccount(None, 1)]);
  }

  lemma Counted100(d: Database)
    requires d.cases == Cases(CaseInquiring, 3) && d.inquiries == Asked(InquiryDispatched, "outbox-job", 0, 2)
    ensures NextPart(d.inquiries["inquiry"]) == Ok(Asked(InquiryCompleted, "outbox-job", 1, 3)["inquiry"])
    ensures AfterResult(d.cases, d.inquiries["inquiry" := Asked(InquiryCompleted, "outbox-job", 1, 3)["inquiry"]], "case")
            == Ok(Cases(CaseEligible, 4))
  {
    assert d.inquiries["inquiry" := Asked(InquiryCompleted, "outbox-job", 1, 3)["inquiry"]] == Asked(InquiryCompleted, "outbox-job", 1, 3);
    assert d.cases["case" := EstateCase("ann", CaseEligible, 4)] == Cases(CaseEligible, 4);
  }

  lemma DeliveryOf100(d: Database)
    requires Like(d, Marked(Done(Leased(DispatchJob(), "w", 0))))
    ensures Like(After(d, RecordResult(d, "inquiry", Report100(), ["acct"])), Delivered())
  {
    Merged100(d.accounts, d.inquiries["inquiry"]);
    hide UpsertAll, AfterResult, NextPart;
    Counted100(d);
    assert PartsOf(d.results, "inquiry") == map[];
  }

  lemma Step7(s: Service)
    requires At(s, Marked(Done(Leased(DispatchJob(), "w", 0))), map["w" := Idle])
    ensures At(Exec(SmallConfig(), s, Steps()[7]), Delivered(), map["w" := Idle])
  {
    hide RecordResult, Like, Delivered;
    DeliveryOf100(s.db);
  }

  lemma Sum100()
    ensures Sum(map["acct" := 100]) == 100
  {
    SumOfSingle(map["acct" := 100], "acct");
  }

  lemma Selected100(d: Database)
    requires d.accounts == map["acct" := TheAccount(None, 1)]
    ensures Selected(d, "case", ["acct"]) == {"acct"} && AllEligible(d.accounts, {"acct"}, 5_000_000)
    ensures Balances(d.accounts, {"acct"}) == map["acct" := 100]
  {}

  lemma ClaimOf100(d: Database)
    requires Like(d, Delivered())
    ensures Like(After(d, CreateClaim(d, Ann(), "case", ["acct"], "claim", 5_000_000)), Claimed100())
  {
    Selected100(d);
    hide Sum, Selected, Balances, AllEligible;
    Sum100();
  }

  lemma Step8(s: Service)
    requires At(s, Delivered(), map["w" := Idle])
    ensures At(Exec(SmallConfig(), s, Steps()[8]), Claimed100(), map["w" := Idle])
  {
    hide CreateClaim, Like, Claimed100;
    ClaimOf100(s.db);
  }

  lemma Reserve100(accounts: map<Id, Account>)
    requires accounts == map["acct" := TheAccount(None, 1)]
    ensures Reserve(accounts, {"acct"}, "claim") == map["acct" := TheAccount(Some("claim"), 2)] && Reservable(accounts, {"acct"})
  {}

  lemma RoomForPayout(d: Database)
    requires d.payouts == map[] && d.jobs == Claimed100().jobs
    ensures CanInsertPayout(d, "pay", NewPayout("claim", TheClaim(ClaimApproved, 2, "sue")["claim"], "payout-1"))
    ensures CanInsertJob(d, "job2", PayoutJob())
  {}

  lemma ApprovalOf100(d: Database)
    requires Like(d, Claimed100())
    ensures Like(After(d, Approve(d, Sue(), "claim", "payout-1", 1, "pay", "job2", 1, 0)),
                 Approved(ThePayout(PayoutPending, 0), PayoutJob()))
  {
    Reserve100(d.accounts);
    assert LinksOf(d.links, "claim").Keys == {"acct"};
    RoomForPayout(d);
    hide Reserve, Reservable, CanInsertPayout, CanInsertJob;
  }

  lemma Step9(s: Service)
    requires At(s, Claimed100(), map["w" := Idle])
    ensures At(Exec(SmallConfig(), s, Steps()[9]), Approved(ThePayout(PayoutPending, 0), PayoutJob()), map["w" := Idle])
  {
    hide Approve, Like, Approved;
    ApprovalOf100(s.db);
  }

  lemma DueSecond(d: Database)
    requires Like(d, Approved(ThePayout(PayoutPending, 0), PayoutJob()))
    ensures "job2" in d.jobs && d.jobs["job2"] == PayoutJob() && NextDue(d.jobs, "job2", 0)
  {
    hide NextDue;
    DueNow(d.jobs, "job2");
  }

  lemma LeasedSecond(d: Database)
    requires Like(d, Approved(ThePayout(PayoutPending, 0), PayoutJob()))
    ensures var job := Leased(PayoutJob(), "w", 0);
            Like(d.(jobs := d.jobs["job2" := job]), Approved(ThePayout(PayoutPending, 0), job))
  {
    hide Leased;
  }

  lemma Step10(s: Service)
    requires At(s, Approved(ThePayout(PayoutPending, 0), PayoutJob()), map["w" := Idle])
    ensures var job := Leased(PayoutJob(), "w", 0);
            At(Exec(SmallConfig(), s, Steps()[10]), Approved(ThePayout(PayoutPending, 0), job), map["w" := Working("job2", job)])
  {
    hide Exec, NextDue, Like, Approved, Leased, PayoutJob;
    DueSecond(s.db);
    Takes(SmallConfig(), s, "job2");
    LeasedSecond(s.db);
  }

  lemma SubmittedBy(d: Database)
    requires Like(d, Approved(ThePayout(PayoutPending, 0), Leased(PayoutJob(), "w", 0)))
    ensures var o := RunHandler(d, "job2", Leased(PayoutJob(), "w", 0));
            o.Committed? && Like(o.database, Approved(ThePayout(PayoutSubmitted, 1), Leased(PayoutJob(), "w", 0)))
  {}

  lemma Step11(s: Service)
    requires var job := Leased(PayoutJob(), "w", 0);
             At(s, Approved(ThePayout(PayoutPending, 0), job), map["w" := Working("job2", job)])
    ensures var job := Leased(PayoutJob(), "w", 0);
            At(Exec(SmallConfig(), s, Steps()[11]), Approved(ThePayout(PayoutSubmitted, 1), job), map["w" := Reporting("job2", job, true)])
  {
    hide RunHandler, Like, Approved;
    SubmittedBy(s.db);
  }

  lemma PaidBy(d: Database)
    requires Like(d, Approved(ThePayout(PayoutSubmitted, 1), Leased(PayoutJob(), "w", 0)))
    ensures Like(After(d, ConfirmPayout(d, "pay", "paid-1")), Paid(Leased(PayoutJob(), "w", 0)))
  {
    hide Leased;
  }

  lemma Step12(s: Service)
    requires var job := Leased(PayoutJob(), "w", 0);
             At(s, Approved(ThePayout(PayoutSubmitted, 1), job), map["w" := Reporting("job2", job, true)])
    ensures Like(Exec(SmallConfig(), s, Steps()[12]).db, Paid(Leased(PayoutJob(), "w", 0)))
  {
    hide ConfirmPayout, Like, Approved, Paid;
    PaidBy(s.db);
  }

  // ------------------------------------------------------------------ the run

  lemma OneMore(c: Config, s: Service, steps: seq<Step>, i: nat)
    requires i < |steps|
    ensures Run(c, s, steps[..i + 1]) == Exec(c, Run(c, s, steps[..i]), steps[i])
  {
    hide Exec;
    var t := Run(c, s, steps[..i]);
    assert steps[..i + 1] == steps[..i] + [steps[i]];
    RunAppend(c, s, steps[..i], [steps[i]]);
    assert Run(c, t, [steps[i]]) == Run(c, Exec(c, t, steps[i]), []);
  }

  ghost function State(i: nat): Service
    requires i <= 13
  {
    Run(SmallConfig(), Initial(), Steps()[..i])
  }

  lemma Next(i: nat)
    requires i < 13
    ensures State(i + 1) == Exec(SmallConfig(), State(i), Steps()[i])
  {
    hide Exec, Run;
    OneMore(SmallConfig(), Initial(), Steps(), i);
  }

  lemma Nothing()
    ensures State(0) == Initial()
  {}

  lemma ToDispatch()
    ensures At(State(1), Submitted(), map[]) && At(State(3), Dispatched(DispatchJob()), map[])
  {
    hide Exec, Run, At;
    assert State(0) == Initial() by { Nothing(); }
    Next(0); Step0(State(0));
    Next(1); Step1(State(1));
    Next(2); Step2(State(2));
  }

  lemma ToDelivery()
    ensures At(State(1), Submitted(), map[]) && At(State(8), Delivered(), map["w" := Idle])
  {
    hide Exec, Run, At, State;
    ToDispatch();
    Next(3); Step3(State(3));
    Next(4); Step4(State(4));
    Next(5); Step5(State(5));
    Next(6); Step6(State(6));
    Next(7); Step7(State(7));
  }

  lemma ToPayment()
    ensures Like(State(13).db, Paid(Leased(PayoutJob(), "w", 0)))
  {
    hide Exec, Run, At, Like, State;
    ToDelivery();
    Next(8); Step8(State(8));
    Next(9); Step9(State(9));
    Next(10); Step10(State(10));
    Next(11); Step11(State(11));
    Next(12); Step12(State(12));
  }

  lemma ReachableState()
    ensures Reachable(SmallConfig(), State(1))
  {
    hide Exec, Run;
  }

  lemma PaidTables(d: Database)
    requires Like(d, Paid(Leased(PayoutJob(), "w", 0)))
    ensures d.inquiries == Asked(InquiryCompleted, "outbox-job", 1, 3)
    ensures d.payouts == ThePayout(PayoutConfirmed, 2) && d.claims == TheClaim(ClaimPaid, 3, "sue")
  {}

  lemma PaidInFull(d: Database)
    requires Like(d, Paid(Leased(PayoutJob(), "w", 0)))
    ensures FullyPaid(d, "case")
    ensures var qs := InquiriesOf(d, "case"); |qs| == 1 && Sum(ExpectedParts(qs)) == 1
  {
    PaidTables(d);
    hide Sum, Like, Paid;
    assert PaysFor(d, "pay", "case");
    var qs := InquiriesOf(d, "case");
    assert qs == d.inquiries;
    SumOfSingle(ExpectedParts(qs), "inquiry");
  }

  /** The bound is attained: here one inquiry of one part, and the twelve steps
      after the submission change the case 6 + 1 + 1 times. */
  lemma BoundAttained()
    ensures var c, s := SmallConfig(), Run(SmallConfig(), Initial(), Steps()[..1]);
            var e := Run(c, s, Steps()[1..]).db; var qs := InquiriesOf(e, "case");
            && "case" in s.db.cases && s.db.cases["case"].status == CaseSubmitted
            && |qs| == 1 && Sum(ExpectedParts(qs)) == 1 && Changes(c, s, Steps()[1..], "case") == 6 + 1 + 1
  {
    hide Exec, Run, Changes, Sum, Reachable, FullyPaid;
    var c, s := SmallConfig(), State(1);
    ToDelivery();
    ToPayment();
    assert Steps() == Steps()[..1] + Steps()[1..] && Steps()[..13] == Steps();
    RunAppend(c, Initial(), Steps()[..1], Steps()[1..]);
    assert Reachable(c, s) by { ReachableState(); }
    PaidInFull(State(13).db);
    BoundReached(c, s, Steps()[1..], "case");
  }
}
