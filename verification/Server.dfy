/** The whole server over one failing store: any sequence of requests and worker
    turns, failing anywhere, stays within the reachable states, so everything
    proved of runs holds of the statement-by-statement code. */
module Server {
  import opened Timestamps
  import opened Domain
  import opened Sums
  import opened Workflow
  import opened Invariants
  import opened Runs
  import opened StepSafety
  import opened Guarantees
  import opened Selection
  import opened Storage
  import opened Services
  import opened Workers
  import TextOrder

  /** A request from outside, a tick of the worker, or a start of the process:
      a worker that was there is gone, and a new one recovers the queue. */
  datatype Call = Ask(step: Step) | Tick(now: Instant, later: Instant) | Start(at: Instant)

  predicate Admissible(call: Call) {
    call.Ask? ==>
      && IsRequest(call.step)
      && (call.step.Deliver? ==>
            forall i | 0 <= i < |call.step.delivery.accounts| :: Int64(call.step.delivery.accounts[i].holding.balance))
  }

  /** From any service in state `before`, the step leads to `after`; if a
      statement failed, nothing may have happened instead. */
  ghost predicate StepDone(c: Config, before: Database, step: Step, after: Database, disturbed: bool) {
    (disturbed && after == before) || forall s: Service | s.db == before :: Exec(c, s, step) == s.(db := after)
  }

  class Application {
    const store: Store
    const config: Config
    const cases: CaseService
    const inquiries: InquiryService
    const claims: ClaimService

    ghost predicate Valid() {
      && cases.store == store && inquiries.store == store && claims.store == store
      && inquiries.maxAttempts == config.maxAttempts == claims.maxAttempts && claims.limit == config.limit
    }

    constructor (store: Store, config: Config)
      ensures Valid() && this.store == store && this.config == config
    {
      this.store := store;
      this.config := config;
      cases := new CaseService(store);
      inquiries := new InquiryService(store, config.maxAttempts);
      claims := new ClaimService(store, config.limit, config.maxAttempts);
    }

    method CaseRequest(step: Step)
      requires Valid() && store.Valid() && (step.SubmitCase? || step.ReviewCase?)
      modifies store
      ensures store.Valid() && store.Proceeds() && StepDone(config, old(store.db), step, store.db, store.Failed())
    {
      hide Submit, StartReview, SchemaOk;
      match step
      case SubmitCase(actor, input, key, now, id) => var r := cases.Submit(actor, input, key, now, id);
      case ReviewCase(actor, id, expected) => var r := cases.StartReview(actor, id, expected);
    }

    method InquiryRequest(step: Step)
      requires Valid() && store.Valid() && (step.DispatchCase? || step.Deliver?) && Admissible(Ask(step))
      modifies store
      ensures store.Valid() && store.Proceeds() && StepDone(config, old(store.db), step, store.db, store.Failed())
    {
      hide Dispatch, RecordResult, SchemaOk;
      match step
      case DispatchCase(actor, id, requestKey, expected, requests, now) =>
        var r, created := inquiries.Dispatch(actor, id, requestKey, expected, requests, now);
      case Deliver(id, delivery, ids) => var r := inquiries.RecordResult(id, delivery, ids);
    }

    method ClaimRequest(step: Step)
      requires Valid() && store.Valid() && (step.ClaimAccounts? || step.ApproveClaim? || step.Confirm?)
      requires 2 * config.limit <= MAX_INT64
      modifies store
      ensures store.Valid() && store.Proceeds() && StepDone(config, old(store.db), step, store.db, store.Failed())
    {
      hide CreateClaim, Approve, ConfirmPayout, SchemaOk;
      match step
      case ClaimAccounts(actor, id, accountIds, claimId) => var r := claims.Create(actor, id, accountIds, claimId);
      case ApproveClaim(actor, id, payoutKey, expected, payoutId, jobId, now) =>
        var r := claims.Approve(actor, id, payoutKey, expected, payoutId, jobId, now);
      case Confirm(id, providerRef) => var r := store.ConfirmPayout(id, providerRef);
    }

    method Request(step: Step)
      requires Valid() && store.Valid() && Admissible(Ask(step)) && IsRequest(step) && 2 * config.limit <= MAX_INT64
      modifies store
      ensures store.Valid() && store.Proceeds() && StepDone(config, old(store.db), step, store.db, store.Failed())
    {
      if step.SubmitCase? || step.ReviewCase? {
        CaseRequest(step);
      } else if step.DispatchCase? || step.Deliver? {
        InquiryRequest(step);
      } else {
        ClaimRequest(step);
      }
    }
  }

  /** The service is in state `d`, its worker idle or not there. */
  ghost predicate Stands(s: Service, d: Database, owner: string, running: bool) {
    s.db == d && (owner in s.workers <==> running) && (running ==> s.workers[owner].Idle?)
  }

  /** What a call is as steps from state `s`.  Undisturbed, a request is its own
      step, a tick a turn of the worker that runs, a start a recovery; only a
      failing statement turns a request into nothing or leaves no worker. */
  ghost predicate AnsweredBy(s: Service, owner: string, call: Call, turn: Turn) {
    match call
    case Ask(step) => turn.steps == [step] || (turn.disturbed && turn.steps == [])
    case Tick(now, later) => if owner in s.workers then TurnAt(s.db, owner, now, later, turn) else turn.steps == []
    case Start(at) =>
      turn.steps == [Crash(owner), StartWorker(owner, at)] || (turn.disturbed && turn.steps == [Crash(owner)])
  }

  /** One turn for each call, in the state the turns before have led to. */
  ghost predicate Served(c: Config, owner: string, calls: seq<Call>, trace: seq<Turn>)
    decreases |calls|
  {
    |calls| == |trace| &&
    (calls == [] ||
     var n := |calls| - 1;
     && Served(c, owner, calls[..n], trace[..n])
     && AnsweredBy(Run(c, Initial(), Flat(trace[..n])), owner, calls[n], trace[n]))
  }

  function Disturbances(trace: seq<Turn>): nat {
    if trace == [] then 0
    else Disturbances(trace[..|trace| - 1]) + if trace[|trace| - 1].disturbed then 1 else 0
  }

  lemma ServedOn(c: Config, owner: string, calls: seq<Call>, trace: seq<Turn>, i: nat, turn: Turn)
    requires i < |calls| && Served(c, owner, calls[..i], trace)
    requires AnsweredBy(Run(c, Initial(), Flat(trace)), owner, calls[i], turn)
    ensures Served(c, owner, calls[..i + 1], trace + [turn])
    ensures Run(c, Initial(), Flat(trace + [turn])) == Run(c, Run(c, Initial(), Flat(trace)), turn.steps)
    ensures Disturbances(trace + [turn]) == Disturbances(trace) + if turn.disturbed then 1 else 0
  {
    hide AnsweredBy, Run;
    var all := trace + [turn];
    assert calls[..i + 1][..i] == calls[..i] && all[..i] == trace;
    FlatAppend(trace, turn);
    RunAppend(c, Initial(), Flat(trace), turn.steps);
  }

  lemma EmptySchema()
    ensures SchemaOk(EmptyDatabase())
  {}

  lemma NothingServed(c: Config, owner: string)
    ensures Run(c, Initial(), Flat([])) == Initial() && Stands(Initial(), EmptyDatabase(), owner, false)
    ensures Served(c, owner, [], []) && Disturbances([]) == 0
  {}

  lemma AskAnswered(c: Config, owner: string, running: bool, s: Service, step: Step, after: Database, disturbed: bool)
    returns (turn: Turn)
    requires Stands(s, s.db, owner, running) && StepDone(c, s.db, step, after, disturbed) && IsRequest(step)
    ensures AnsweredBy(s, owner, Ask(step), turn) && turn.disturbed == disturbed && Stands(Run(c, s, turn.steps), after, owner, running)
  {
    hide Exec;
    if forall t: Service | t.db == s.db :: Exec(c, t, step) == t.(db := after) {
      turn := Turn([step], disturbed);
      assert Run(c, s, [step]) == Run(c, Exec(c, s, step), []);
    } else {
      turn := Turn([], disturbed);
    }
  }

  lemma StartAnswered(c: Config, owner: string, s: Service, at: Instant, recovered: bool, disturbed: bool) returns (turn: Turn)
    requires !recovered ==> disturbed
    ensures AnsweredBy(s, owner, Start(at), turn) && turn.disturbed == disturbed
    ensures Stands(Run(c, s, turn.steps), if recovered then RecoverExpiredJobs(s.db, at) else s.db, owner, recovered)
  {
    hide RecoverExpiredJobs, TakenBack;
    turn := Turn(if recovered then [Crash(owner), StartWorker(owner, at)] else [Crash(owner)], disturbed);
    var crashed := Exec(c, s, Crash(owner));
    assert crashed.db == s.db && owner !in crashed.workers;
    if recovered {
      assert turn.steps[1..] == [StartWorker(owner, at)];
      assert Run(c, crashed, [StartWorker(owner, at)]) == Run(c, Exec(c, crashed, StartWorker(owner, at)), []);
    } else {
      assert Run(c, s, [Crash(owner)]) == Run(c, crashed, []);
    }
  }

  lemma StaysPut(c: Config, s: Service)
    ensures Run(c, s, []) == s
  {}

  /** One call, and what it is as steps of the state machine. */
  method Answer(application: Application, worker: Worker, call: Call, running: bool, ghost s: Service)
    returns (runs: bool, ghost turn: Turn)
    requires application.Valid() && worker.Valid() && worker.Registered() && application.store == worker.store
    requires worker.store.Valid() && worker.config == application.config && 2 * worker.config.limit <= MAX_INT64
    requires Admissible(call) && Stands(s, worker.store.db, worker.owner, running)
    modifies worker.store
    ensures worker.store.Valid() && worker.store.Proceeds()
    ensures AnsweredBy(s, worker.owner, call, turn) && turn.disturbed == worker.store.Failed()
    ensures Stands(Run(worker.config, s, turn.steps), worker.store.db, worker.owner, runs)
  {
    hide Exec, Run, SchemaOk, LeadsTo, StepDone, TurnAt, NextDue, Handled, NothingDue;
    runs := running;
    match call
    case Ask(step) =>
      application.Request(step);
      turn := AskAnswered(worker.config, worker.owner, running, s, step, worker.store.db, worker.store.failures > old(worker.store.failures));
    case Tick(now, later) =>
      turn := Turn([], false);
      StaysPut(worker.config, s);
      if running {
        var r, taken, steps := worker.ProcessOne(now, later);
        turn := Turn(steps, worker.store.failures > old(worker.store.failures));
        TurnRecorded(s.db, worker.owner, now, later, taken, r.Err?, turn);
        TurnFollows(worker.config, worker.owner, s, steps, worker.store.db);
      }
    case Start(at) =>
      var recovered := worker.store.RecoverExpiredJobs(at);
      runs := recovered.Ok?;
      turn := StartAnswered(worker.config, worker.owner, s, at, runs, worker.store.failures > old(worker.store.failures));
  }

  const OWNER := "server-worker"

  lemma StandsFor(s: Service, d: Database, owner: string, running: bool)
    requires Stands(s, d, owner, running)
    ensures s.db == d
  {}

  /** `store.faults` is any schedule of failing statements; `trace` says what each
      call was, and no more calls are disturbed than statements were scheduled
      to fail. */
  method Serve(store: Store, config: Config, calls: seq<Call>) returns (ghost trace: seq<Turn>)
    requires store.db == EmptyDatabase() && 2 * config.limit <= MAX_INT64
    requires forall i | 0 <= i < |calls| :: Admissible(calls[i])
    modifies store
    ensures Served(config, OWNER, calls, trace) && Run(config, Initial(), Flat(trace)).db == store.db
    ensures Disturbances(trace) <= multiset(old(store.faults))[true]
    ensures Inv(store.db, config.limit)
  {
    hide Exec, Run, SchemaOk, Inv, Admissible, Stands, Served, AnsweredBy;
    assert store.Valid() by { EmptySchema(); }
    var application := new Application(store, config);
    var worker := new Worker(store, OWNER, config);
    var ok := worker.Register(DispatchInquiry);
    ok := worker.Register(ExecutePayout);
    var running := false;
    trace := [];
    NothingServed(config, OWNER);
    assert calls[..0] == [];
    for i := 0 to |calls|
      invariant store.Valid() && worker.Valid() && worker.Registered() && application.Valid() && store.Proceeds()
      invariant Served(config, OWNER, calls[..i], trace) && Disturbances(trace) <= store.failures - old(store.failures)
      invariant Stands(Run(config, Initial(), Flat(trace)), store.db, OWNER, running)
    {
      ghost var turn;
      running, turn := Answer(application, worker, calls[i], running, Run(config, Initial(), Flat(trace)));
      ServedOn(config, OWNER, calls, trace, i, turn);
      trace := trace + [turn];
    }
    assert calls[..|calls|] == calls;
    StandsFor(Run(config, Initial(), Flat(trace)), store.db, OWNER, running);
    ReachableInv(config, Flat(trace));
  }

  // --------------------------------------------------- the discarded total

  lemma {:induction false} AddUpIsSum(accounts: map<Id, Account>, ids: seq<Id>)
    requires Int64Balances(accounts) && SetOf(ids) <= accounts.Keys && DuplicateFree(ids)
    requires forall a | a in accounts && a in SetOf(ids) :: 0 <= accounts[a].holding.balance
    requires Sum(Balances(accounts, SetOf(ids))) <= MAX_INT64
    ensures AddUp(accounts, ids) == Sum(Balances(accounts, SetOf(ids)))
    decreases |ids|
  {
    hide Sum;
    if ids == [] {
      SumOfNothing(Balances(accounts, SetOf(ids)));
    } else {
      var n := |ids| - 1;
      assert ids[..n + 1] == ids;
      SetOfStep(ids, n);
      var rest := Balances(accounts, SetOf(ids[..n]));
      SumPut(rest, ids[n], accounts[ids[n]].holding.balance);
      assert Balances(accounts, SetOf(ids)) == rest[ids[n] := accounts[ids[n]].holding.balance];
      SumNonNegative(rest);
      AddUpIsSum(accounts, ids[..n]);
    }
  }

  lemma LinkedBalances(d: Database, claimId: Id, limit: int)
    requires Inv(d, limit) && claimId in d.claims
    ensures forall a | a in d.accounts && a in LinksOf(d.links, claimId).Keys :: 0 <= d.accounts[a].holding.balance
  {
    InvClaim(d, claimId, limit);
    hide Inv, Sum;
    forall a | a in d.accounts && a in LinksOf(d.links, claimId).Keys ensures 0 <= d.accounts[a].holding.balance {
      assert Backs(d.accounts, a, LinksOf(d.links, claimId)[a], claimId, d.claims[claimId], limit);
    }
  }

  /** In every reachable state the sum that ReserveAccounts returns and Approve
      throws away is the claim's own total, and does not wrap. */
  lemma DiscardedTotal(c: Config, s: Service, claimId: Id)
    requires Reachable(c, s) && claimId in s.db.claims && Int64Balances(s.db.accounts) && c.limit <= MAX_INT64
    ensures var ids := TextOrder.Sorted(LinksOf(s.db.links, claimId).Keys);
            && SetOf(ids) <= s.db.accounts.Keys
            && AddUp(s.db.accounts, ids) == s.db.claims[claimId].total
  {
    hide Sum, Reachable, ServiceInv, Inv;
    var linked := LinksOf(s.db.links, claimId).Keys;
    ClaimTotals(c, s, claimId);
    SortedIsSet(linked);
    ReachableOk(c, s);
    LinkedBalances(s.db, claimId, c.limit);
    AddUpIsSum(s.db.accounts, TextOrder.Sorted(linked));
  }
}
