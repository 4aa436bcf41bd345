/** The job worker (internal/worker, and its two handlers in cmd/server), as a
    loop over a failing store: whatever fails, its life is a run of the service. */
module Workers {
  import opened Timestamps
  import opened Domain
  import opened Workflow
  import opened Runs
  import opened Storage
  import opened Services
  import opened Queue

  ghost predicate IdleIn(s: Service, d: Database, owner: string) {
    s.db == d && owner in s.workers && s.workers[owner].Idle?
  }

  /** In every service that is in state `before` and where the owner is idle,
      these steps lead to state `after` and leave the owner idle. */
  ghost predicate LeadsTo(c: Config, owner: string, before: Database, steps: seq<Step>, after: Database) {
    forall s | IdleIn(s, before, owner) :: IdleIn(Run(c, s, steps), after, owner)
  }

  predicate NothingDue(d: Database, now: Instant) { forall j | j in d.jobs :: !Due(d.jobs[j], now) }

  /** The three steps of a worker's turn. */
  function TurnSteps(owner: string, id: Id, now: Instant, handling: Handling, later: Instant, lost: bool): seq<Step> {
    [TakeJob(owner, id, now), Handle(owner, handling), Report(owner, later, lost)]
  }

  /** Only a failing statement disturbs the handler or loses the report. */
  predicate Handled(handling: Handling, lost: bool, disturbed: bool) {
    handling != FailsAfter && (!disturbed ==> handling == Undisturbed && !lost)
  }

  /** After a claim the handler leaves the lease alone ... */
  lemma HandlerKeepsLease(d: Database, id: Id, job: Job, owner: string)
    requires HoldsLease(d, id, owner)
    ensures RunHandler(d, id, job).Committed? ==> HoldsLease(RunHandler(d, id, job).database, id, owner)
  {}

  /** ... so the report of its holder is accepted. */
  lemma LeaseReports(d: Database, id: Id, snapshot: Job, owner: string, now: Instant, retryAt: Instant)
    requires HoldsLease(d, id, owner)
    ensures CompleteJob(d, id, owner).Committed? && FailJob(d, id, snapshot, owner, now, retryAt).Committed?
  {}

  /** What ReportOutcome says for a snapshot. */
  function Reported(d: Database, owner: string, id: Id, job: Job, succeeded: bool, now: Instant): Outcome<()> {
    if succeeded then CompleteJob(d, id, owner)
    else FailJob(d, id, job, owner, now, now + Backoff(if job.attempts >= 0 then job.attempts else 0))
  }

  lemma ThreeSteps(c: Config, s: Service, x: Step, y: Step, z: Step)
    ensures Run(c, s, [x, y, z]) == Exec(c, Exec(c, Exec(c, s, x), y), z)
  {
    hide Exec;
    assert [x, y, z][1..] == [y, z] && [y, z][1..] == [z];
    assert Run(c, Exec(c, s, x), [y, z]) == Run(c, Exec(c, Exec(c, s, x), y), [z]);
  }

  lemma TurnTaken(c: Config, s: Service, owner: string, id: Id, now: Instant)
    requires owner in s.workers && s.workers[owner].Idle? && id in s.db.jobs && NextDue(s.db.jobs, id, now)
    ensures var job := Leased(s.db.jobs[id], owner, now + c.lease);
            Exec(c, s, TakeJob(owner, id, now))
            == s.(db := s.db.(jobs := s.db.jobs[id := job]), workers := s.workers[owner := Working(id, job)])
  {
    hide NextDue;
  }

  lemma TurnHandled(c: Config, s: Service, owner: string, handling: Handling)
    requires owner in s.workers && s.workers[owner].Working? && handling != FailsAfter
    ensures var w := s.workers[owner]; var o := RunHandler(s.db, w.jobId, w.snapshot);
            Exec(c, s, Handle(owner, handling))
            == if handling == Undisturbed && o.Committed?
               then s.(db := o.database, workers := s.workers[owner := Reporting(w.jobId, w.snapshot, true)])
               else s.(workers := s.workers[owner := Reporting(w.jobId, w.snapshot, false)])
  {}

  lemma TurnReported(c: Config, s: Service, owner: string, now: Instant, lost: bool)
    requires owner in s.workers && s.workers[owner].Reporting?
    ensures Exec(c, s, Report(owner, now, lost))
            == s.(db := if lost then s.db else After(s.db, ReportOutcome(s, owner, now)), workers := s.workers[owner := Idle])
  {}

  /** A turn of a worker, as three steps. */
  lemma TurnLeads(c: Config, owner: string, before: Database, id: Id, now: Instant, handling: Handling, after: Database,
                  later: Instant, lost: bool, end: Database)
    requires id in before.jobs && NextDue(before.jobs, id, now) && handling != FailsAfter
    requires var job := Leased(before.jobs[id], owner, now + c.lease);
             var leased := before.(jobs := before.jobs[id := job]);
             var o := RunHandler(leased, id, job);
             && after == (if handling == Undisturbed then After(leased, o) else leased)
             && end == (if lost then after
                        else After(after, Reported(after, owner, id, job, handling == Undisturbed && o.Committed?, later)))
    ensures LeadsTo(c, owner, before, TurnSteps(owner, id, now, handling, later, lost), end)
  {
    hide NextDue, RunHandler, Exec, CompleteJob, FailJob, Backoff;
    var steps := TurnSteps(owner, id, now, handling, later, lost);
    forall s | IdleIn(s, before, owner) ensures IdleIn(Run(c, s, steps), end, owner) {
      TurnTaken(c, s, owner, id, now);
      var taken := Exec(c, s, TakeJob(owner, id, now));
      TurnHandled(c, taken, owner, handling);
      TurnReported(c, Exec(c, taken, Handle(owner, handling)), owner, later, lost);
      ThreeSteps(c, s, steps[0], steps[1], steps[2]);
    }
  }

  lemma DueIsJob(d: Database)
    ensures forall id, now: Instant :: NextDue(d.jobs, id, now) ==> id in d.jobs
  {}

  lemma LeadsNowhere(c: Config, owner: string, d: Database)
    ensures LeadsTo(c, owner, d, [], d)
  {}

  class Worker {
    const store: Store
    const inquiries: InquiryService
    const owner: string
    const config: Config
    var handlers: set<JobKind>

    ghost predicate Valid() { inquiries.store == store }

    constructor (store: Store, owner: string, config: Config)
      ensures this.store == store && this.owner == owner && this.config == config && handlers == {} && Valid()
    {
      this.store := store;
      this.owner := owner;
      this.config := config;
      handlers := {};
      inquiries := new InquiryService(store, config.maxAttempts);
    }

    /** A kind can be registered once. */
    method Register(kind: JobKind) returns (ok: bool)
      modifies this
      ensures ok == (kind !in old(handlers)) && handlers == old(handlers) + {kind}
    {
      ok := kind !in handlers;
      handlers := handlers + {kind};
    }

    /** As cmd/server sets the worker up. */
    predicate Registered() reads this { handlers == {DispatchInquiry, ExecutePayout} }

    /** The handlers registered in cmd/server. */
    method Handler(id: Id, job: Job) returns (r: Result<()>)
      requires Valid() && store.Valid()
      modifies store
      ensures store.Valid() && store.Proceeds()
      ensures Did(r, RunHandler(old(store.db), id, job), old(store.db), store.db, store.Failed())
    {
      match job.kind
      case DispatchInquiry => r := inquiries.MarkDispatched(job.resourceId, "outbox-" + id);
      case ExecutePayout => r := store.MarkPayoutSubmitted(job.resourceId);
    }

    /** Claims a job, runs its handler, and reports; `steps` is what that is as
        a run, and `taken` the job.  Nothing due is the only reason to take none
        unless a statement fails.  A job without a handler is failed at once. */
    method ProcessOne(now: Instant, later: Instant)
      returns (r: Result<()>, ghost taken: Option<Id>, ghost steps: seq<Step>)
      requires Valid() && store.Valid()
      modifies store
      ensures store.Valid() && store.Proceeds()
      ensures Registered() ==> LeadsTo(config, owner, old(store.db), steps, store.db)
      ensures taken == None ==>
                steps == [] && store.db == old(store.db) && r.Err?
                && ((r.error == NotFound && NothingDue(store.db, now)) || store.Failed())
      ensures taken.Some? ==> NextDue(old(store.db).jobs, taken.value, now)
      ensures Registered() && taken.Some? ==>
                exists handling :: steps == TurnSteps(owner, taken.value, now, handling, later, r.Err?)
                                   && Handled(handling, r.Err?, store.Failed())
      ensures taken.Some? && taken.value in old(store.db).jobs && old(store.db).jobs[taken.value].kind !in handlers ==>
                var id := taken.value;
                var job := Leased(old(store.db).jobs[id], owner, now + config.lease);
                var leased := old(store.db).(jobs := old(store.db).jobs[id := job]);
                Did(r, FailJob(leased, id, job, owner, later, later), leased, store.db, store.Failed())
    {
      hide NextDue, Foremost, RunHandler, SchemaOk, LeadsTo, Workflow.FailJob, Workflow.CompleteJob;
      ghost var before := store.db;
      DueIsJob(before);
      var claimed := store.ClaimJob(owner, now, config.lease);
      if claimed.Err? {
        LeadsNowhere(config, owner, before);
        return Err(claimed.error), None, [];
      }
      var (id, job) := claimed.value;
      taken, steps := Some(id), [];
      if job.kind !in handlers {
        assert !Registered() by { match job.kind { case DispatchInquiry => case ExecutePayout => } }
        r := store.FailJob(id, job, owner, later, later);
        return;
      }
      ghost var leased := store.db;
      var handled := Handler(id, job);
      ghost var after := store.db;
      if handled.Ok? {
        r := store.CompleteJob(id, owner);
      } else {
        var attempts := if job.attempts >= 0 then job.attempts else 0;
        r := store.FailJob(id, job, owner, later, later + Backoff(attempts));
      }
      ghost var handling := if handled.Err? && RunHandler(leased, id, job).Committed? then FailsBefore else Undisturbed;
      steps := TurnSteps(owner, id, now, handling, later, r.Err?);
      HandlerKeepsLease(leased, id, job, owner);
      LeaseReports(after, id, job, owner, later, later + Backoff(if job.attempts >= 0 then job.attempts else 0));
      TurnLeads(config, owner, before, id, now, handling, after, later, r.Err?, store.db);
    }
  }

  /** The steps of one tick or call, and whether a statement failed in it. */
  datatype Turn = Turn(steps: seq<Step>, disturbed: bool)

  /** What a tick does in state `d`: a turn on the next due job, or nothing, but
      that only if nothing is due or a statement failed. */
  ghost predicate TurnAt(d: Database, owner: string, now: Instant, later: Instant, turn: Turn) {
    || (turn.steps == [] && (turn.disturbed || NothingDue(d, now)))
    || (exists id, handling, lost :: NextDue(d.jobs, id, now) && Handled(handling, lost, turn.disturbed)
                                     && turn.steps == TurnSteps(owner, id, now, handling, later, lost))
  }

  // ------------------------------------------------------- a worker's life

  /** All steps of a trace. */
  function Flat(turns: seq<Turn>): seq<Step> {
    if turns == [] then [] else Flat(turns[..|turns| - 1]) + turns[|turns| - 1].steps
  }

  lemma FlatAppend(turns: seq<Turn>, turn: Turn)
    ensures Flat(turns + [turn]) == Flat(turns) + turn.steps
  {
    assert (turns + [turn])[..|turns|] == turns;
  }

  /** One turn for each tick (the times of claiming and of reporting), in the
      state the turns before have led to. */
  ghost predicate Worked(c: Config, owner: string, s: Service, ticks: seq<(Instant, Instant)>, turns: seq<Turn>)
    decreases |ticks|
  {
    |ticks| == |turns| &&
    (ticks == [] ||
     var n := |ticks| - 1;
     && Worked(c, owner, s, ticks[..n], turns[..n])
     && TurnAt(Run(c, s, Flat(turns[..n])).db, owner, ticks[n].0, ticks[n].1, turns[n]))
  }

  lemma WorkedOn(c: Config, owner: string, s: Service, ticks: seq<(Instant, Instant)>, turns: seq<Turn>, i: nat, turn: Turn)
    requires i < |ticks| && Worked(c, owner, s, ticks[..i], turns)
    requires TurnAt(Run(c, s, Flat(turns)).db, owner, ticks[i].0, ticks[i].1, turn)
    ensures Worked(c, owner, s, ticks[..i + 1], turns + [turn])
    ensures Run(c, s, Flat(turns + [turn])) == Run(c, Run(c, s, Flat(turns)), turn.steps)
  {
    hide TurnAt, Run;
    var all := turns + [turn];
    assert ticks[..i + 1][..i] == ticks[..i] && all[..i] == turns;
    FlatAppend(turns, turn);
    RunAppend(c, s, Flat(turns), turn.steps);
  }

  lemma RunsNowhere(c: Config, s: Service)
    ensures Run(c, s, Flat([])) == s
  {}

  lemma NothingWorked(c: Config, owner: string, s: Service)
    ensures Worked(c, owner, s, [], [])
  {}

  lemma StartedIdle(c: Config, s: Service, owner: string, now: Instant)
    requires owner !in s.workers
    ensures IdleIn(Exec(c, s, StartWorker(owner, now)), Workflow.RecoverExpiredJobs(s.db, now), owner)
  {}

  lemma TurnFollows(c: Config, owner: string, s: Service, steps: seq<Step>, end: Database)
    requires owner in s.workers && s.workers[owner].Idle? && LeadsTo(c, owner, s.db, steps, end)
    ensures IdleIn(Run(c, s, steps), end, owner)
  {
    hide Run;
    assert IdleIn(s, s.db, owner);
  }

  /** The promises of ProcessOne make a turn. */
  lemma TurnRecorded(d: Database, owner: string, now: Instant, later: Instant, taken: Option<Id>, lost: bool, turn: Turn)
    requires taken == None ==> turn.steps == [] && (turn.disturbed || NothingDue(d, now))
    requires taken.Some? ==> NextDue(d.jobs, taken.value, now)
    requires taken.Some? ==> exists handling :: turn.steps == TurnSteps(owner, taken.value, now, handling, later, lost)
                                                && Handled(handling, lost, turn.disturbed)
    ensures TurnAt(d, owner, now, later, turn)
  {
    hide NextDue, NothingDue, TurnSteps;
  }

  /** Worker.Run: take back expired leases once, unless that fails, then process
      on every tick.  `turns` records it, from any service without the owner. */
  method Live(w: Worker, started: Instant, ticks: seq<(Instant, Instant)>, ghost s: Service)
    returns (r: Result<()>, ghost turns: seq<Turn>)
    requires w.Valid() && w.store.Valid() && w.Registered() && s.db == w.store.db && w.owner !in s.workers
    modifies w.store
    ensures w.store.Valid() && w.store.Proceeds()
    ensures r.Err? ==> w.store.Failed() && w.store.db == s.db && turns == []
    ensures r.Ok? ==>
              var ready := Exec(w.config, s, StartWorker(w.owner, started));
              Worked(w.config, w.owner, ready, ticks, turns) && Run(w.config, ready, Flat(turns)).db == w.store.db
    ensures !w.store.Failed() ==> r.Ok? && forall i | 0 <= i < |turns| :: !turns[i].disturbed
  {
    hide Run, Exec, SchemaOk, LeadsTo, TurnAt, Worked, TurnSteps;
    turns := [];
    var recovered := w.store.RecoverExpiredJobs(started);
    if recovered.Err? { return Err(recovered.error), []; }
    ghost var ready := Exec(w.config, s, StartWorker(w.owner, started));
    StartedIdle(w.config, s, w.owner, started);
    RunsNowhere(w.config, ready);
    assert Worked(w.config, w.owner, ready, ticks[..0], []) by { NothingWorked(w.config, w.owner, ready); }
    for i := 0 to |ticks|
      invariant w.store.Valid() && w.store.Proceeds()
      invariant Worked(w.config, w.owner, ready, ticks[..i], turns)
      invariant IdleIn(Run(w.config, ready, Flat(turns)), w.store.db, w.owner)
      invariant !w.store.Failed() ==> forall k | 0 <= k < |turns| :: !turns[k].disturbed
    {
      ghost var failures := w.store.failures;
      ghost var before := w.store.db;
      var done, taken, steps := w.ProcessOne(ticks[i].0, ticks[i].1);
      ghost var turn := Turn(steps, w.store.failures > failures);
      TurnRecorded(before, w.owner, ticks[i].0, ticks[i].1, taken, done.Err?, turn);
      TurnFollows(w.config, w.owner, Run(w.config, ready, Flat(turns)), steps, w.store.db);
      WorkedOn(w.config, w.owner, ready, ticks, turns, i, turn);
      turns := turns + [turn];
    }
    assert ticks[..|ticks|] == ticks;
    r := Ok(());
  }
}
