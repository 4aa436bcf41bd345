/** How often a job is tried, in every run: the bound, when it is passed, and
    the delays between the attempts. */
module Retries {
  import opened Timestamps
  import opened Domain
  import opened Workflow
  import opened Invariants
  import opened Progress
  import opened Runs
  import opened StepSafety
  import opened JobSteps
  import opened Leases
  import FullRun

  /** Attempts never exceed the configured bound by more than the number of
      recoveries; a job fails only at the bound, and then for good. */
  lemma RetryBound(c: Config, s: Service, j: Id, steps: seq<Step>)
    requires Reachable(c, s) && j in s.db.jobs
    ensures var job := s.db.jobs[j];
            && job.attempts <= job.maxAttempts + Recoveries(s, j)
            && (job.status == JobPending ==> job.attempts < job.maxAttempts + Recoveries(s, j))
            && (job.status == JobFailed ==> job.attempts >= job.maxAttempts)
            && (Terminal(job.status) ==> j in Run(c, s, steps).db.jobs && Run(c, s, steps).db.jobs[j] == job)
  {
    hide Inv, Reachable;
    ReachableOk(c, s);
    assert AttemptsOk(s.db.jobs[j], Recoveries(s, j));
    JobsOnwards(c, s, steps, j);
  }

  /** Without recoveries a job that fails has been claimed exactly
      max_attempts times. */
  lemma FailsAtTheBound(c: Config, s: Service, j: Id)
    requires Reachable(c, s) && j in s.db.jobs && s.db.jobs[j].status == JobFailed && Recoveries(s, j) == 0
    ensures s.db.jobs[j].attempts == s.db.jobs[j].maxAttempts
  {
    RetryBound(c, s, j, []);
  }

  /** A reported failure below the bound puts the job back with the backoff of
      its attempt; at the bound it is final. */
  lemma FailureReported(c: Config, s: Service, owner: string, now: Instant)
    requires Reachable(c, s) && owner in s.workers && s.workers[owner].Reporting? && !s.workers[owner].succeeded
    requires HoldsLease(s.db, s.workers[owner].jobId, owner)
    ensures var j := s.workers[owner].jobId; var row := s.db.jobs[j];
            var e := Exec(c, s, Report(owner, now, false)).db;
            && row.attempts >= 1 && e.jobs.Keys == s.db.jobs.Keys
            && (row.attempts < row.maxAttempts ==>
                  e.jobs[j].status == JobPending && e.jobs[j].availableAt == now + Backoff(row.attempts))
            && (row.attempts >= row.maxAttempts ==> e.jobs[j].status == JobFailed)
  {
    hide Reachable, Backoff;
    HeldSnapshotOk(c, s, owner, s.workers[owner].jobId, s.workers[owner].snapshot);
  }

  /** How many steps of the run lease job `j` to a worker. */
  ghost function Leasings(c: Config, s: Service, steps: seq<Step>, j: Id): nat
    decreases |steps|
  {
    if steps == [] then 0
    else
      var next := Exec(c, s, steps[0]);
      (if steps[0].TakeJob? && steps[0].jobId == j && next != s then 1 else 0) + Leasings(c, next, steps[1..], j)
  }

  function AttemptsOf(d: Database, j: Id): int {
    if j in d.jobs then d.jobs[j].attempts else 0
  }

  lemma TakesIsChange(c: Config, s: Service, step: Step, j: Id)
    requires j in s.db.jobs
    ensures Takes(s, step, j) <==> step.TakeJob? && step.jobId == j && Exec(c, s, step) != s
  {
    hide Due, QueuedBefore;
  }

  lemma NothingTaken(c: Config, s: Service, step: Step, j: Id)
    requires step.TakeJob? && step.jobId == j && j !in s.db.jobs
    ensures Exec(c, s, step) == s
  {}

  lemma StepAttempts(c: Config, s: Service, step: Step, j: Id)
    requires ServiceInv(c, s)
    ensures AttemptsOf(Exec(c, s, step).db, j)
            == AttemptsOf(s.db, j) + if step.TakeJob? && step.jobId == j && Exec(c, s, step) != s then 1 else 0
  {
    hide Exec, ServiceInv, NextDue, LeaseExpired, Backoff;
    if j in s.db.jobs {
      RowMoves(c, s, step, j);
      TakesIsChange(c, s, step, j);
    } else if j in Exec(c, s, step).db.jobs {
      RowAppears(c, s, step, j);
    } else if step.TakeJob? && step.jobId == j {
      NothingTaken(c, s, step, j);
    }
  }

  lemma {:induction false} LeasingsCounted(c: Config, s: Service, steps: seq<Step>, j: Id)
    requires ServiceInv(c, s)
    ensures AttemptsOf(Run(c, s, steps).db, j) == AttemptsOf(s.db, j) + Leasings(c, s, steps, j)
    decreases |steps|
  {
    hide ServiceInv, Exec, AttemptsOf;
    if steps != [] {
      StepAttempts(c, s, steps[0], j);
      ExecKeeps(c, s, steps[0]);
      LeasingsCounted(c, Exec(c, s, steps[0]), steps[1..], j);
    }
  }

  /** The attempts column counts the leases, over every run. */
  lemma AttemptsCountLeasings(c: Config, s: Service, steps: seq<Step>, j: Id)
    requires Reachable(c, s)
    ensures AttemptsOf(Run(c, s, steps).db, j) == AttemptsOf(s.db, j) + Leasings(c, s, steps, j)
  {
    hide ServiceInv, Reachable, Leasings, Run;
    ReachableOk(c, s);
    LeasingsCounted(c, s, steps, j);
  }

  /** A job that failed without ever being recovered was leased exactly
      max_attempts times since the service started. */
  lemma FailedAfterMaxAttempts(c: Config, steps: seq<Step>, j: Id)
    requires var s := Run(c, Initial(), steps);
             j in s.db.jobs && s.db.jobs[j].status == JobFailed && Recoveries(s, j) == 0
    ensures Leasings(c, Initial(), steps, j) == Run(c, Initial(), steps).db.jobs[j].maxAttempts
  {
    hide ServiceInv, Exec;
    InitialInv(c);
    LeasingsCounted(c, Initial(), steps, j);
    FailsAtTheBound(c, Run(c, Initial(), steps), j);
  }

  // ------------------------------------------------- attempts past the bound

  /** Within the bound, with one attempt left while pending. */
  predicate WithinBound(job: Job) {
    job.attempts <= job.maxAttempts && (job.status == JobPending ==> job.attempts < job.maxAttempts)
  }

  /** A starting worker takes back a lease on the last permitted attempt; the
      statement does not check for it. */
  predicate TakesBackAtBound(s: Service, step: Step, j: Id) {
    TakesBack(s, step, j) && s.db.jobs[j].attempts >= s.db.jobs[j].maxAttempts
  }

  lemma JobStays(c: Config, s: Service, step: Step, j: Id)
    requires ServiceInv(c, s) && j in s.db.jobs
    ensures j in Exec(c, s, step).db.jobs
  {
    hide Exec, ServiceInv, NextRow;
    RowMoves(c, s, step, j);
  }

  lemma TakingPassesBound(c: Config, s: Service, step: Step, j: Id)
    requires ServiceInv(c, s) && j in s.db.jobs && s.db.jobs[j].attempts <= s.db.jobs[j].maxAttempts
    ensures j in Exec(c, s, step).db.jobs
    ensures var job, next := s.db.jobs[j], Exec(c, s, step).db.jobs[j];
            next.attempts > next.maxAttempts
            <==> step.TakeJob? && step.jobId == j && Exec(c, s, step) != s && job.attempts == job.maxAttempts
  {
    hide Exec, ServiceInv, Takes, TakesBack, Reports, Backoff;
    RowMoves(c, s, step, j);
    TakesIsChange(c, s, step, j);
  }

  lemma TakesBackFirst(s: Service, step: Step, j: Id)
    requires TakesBack(s, step, j)
    ensures !Takes(s, step, j)
  {}

  lemma RecoveryPassesBound(c: Config, s: Service, step: Step, j: Id)
    requires ServiceInv(c, s) && j in s.db.jobs && !(s.db.jobs[j].status == JobPending && s.db.jobs[j].attempts >= s.db.jobs[j].maxAttempts)
    ensures j in Exec(c, s, step).db.jobs
    ensures var next := Exec(c, s, step).db.jobs[j];
            next.status == JobPending && next.attempts >= next.maxAttempts <==> TakesBackAtBound(s, step, j)
  {
    hide Exec, ServiceInv, Takes, TakesBack, Reports, Backoff;
    RowMoves(c, s, step, j);
    if TakesBack(s, step, j) { TakesBackFirst(s, step, j); }
  }

  /** Exactly two kinds of step pass the bound: a recovery at the bound leaves
      the job pending there, and a claim at the bound raises the attempts above
      it. */
  lemma StepsPastBound(c: Config, s: Service, step: Step, j: Id)
    requires Reachable(c, s) && j in s.db.jobs
    ensures j in Exec(c, s, step).db.jobs
    ensures var job, next := s.db.jobs[j], Exec(c, s, step).db.jobs[j];
            && (job.attempts <= job.maxAttempts ==>
                  (next.attempts > next.maxAttempts
                   <==> step.TakeJob? && step.jobId == j && Exec(c, s, step) != s && job.attempts == job.maxAttempts))
            && (!(job.status == JobPending && job.attempts >= job.maxAttempts) ==>
                  (next.status == JobPending && next.attempts >= next.maxAttempts <==> TakesBackAtBound(s, step, j)))
  {
    hide Exec, Reachable, ServiceInv, TakesBackAtBound;
    ReachableOk(c, s);
    var job := s.db.jobs[j];
    if job.attempts <= job.maxAttempts { TakingPassesBound(c, s, step, j); }
    if !(job.status == JobPending && job.attempts >= job.maxAttempts) { RecoveryPassesBound(c, s, step, j); }
    JobStays(c, s, step, j);
  }

  /** No step of the run takes back a lease at the bound. */
  ghost predicate NeverTakesBackAtBound(c: Config, s: Service, steps: seq<Step>, j: Id)
    decreases |steps|
  {
    steps == [] || (!TakesBackAtBound(s, steps[0], j) && NeverTakesBackAtBound(c, Exec(c, s, steps[0]), steps[1..], j))
  }

  lemma StepWithinBound(c: Config, s: Service, step: Step, j: Id)
    requires ServiceInv(c, s) && !TakesBackAtBound(s, step, j)
    requires j in s.db.jobs ==> WithinBound(s.db.jobs[j])
    ensures j in Exec(c, s, step).db.jobs ==> WithinBound(Exec(c, s, step).db.jobs[j])
  {
    hide Exec, ServiceInv, NextDue, LeaseExpired, Backoff;
    if j in s.db.jobs {
      RowMoves(c, s, step, j);
      if Takes(s, step, j) { DueExists(s.db.jobs, j, step.now); }
    } else if j in Exec(c, s, step).db.jobs {
      RowAppears(c, s, step, j);
    }
  }

  lemma {:induction false} RunWithinBound(c: Config, s: Service, steps: seq<Step>, j: Id)
    requires ServiceInv(c, s) && NeverTakesBackAtBound(c, s, steps, j)
    requires j in s.db.jobs ==> WithinBound(s.db.jobs[j])
    ensures j in Run(c, s, steps).db.jobs ==> WithinBound(Run(c, s, steps).db.jobs[j])
    decreases |steps|
  {
    hide Exec, ServiceInv, WithinBound, TakesBackAtBound, Advances;
    if steps != [] {
      StepWithinBound(c, s, steps[0], j);
      ExecKeeps(c, s, steps[0]);
      RunWithinBound(c, Exec(c, s, steps[0]), steps[1..], j);
    }
  }

  /** A job that is past its bound stays there, and a recovery at the bound puts
      it there. */
  lemma StepPastBound(c: Config, s: Service, step: Step, j: Id)
    requires ServiceInv(c, s) && j in s.db.jobs && (!WithinBound(s.db.jobs[j]) || TakesBackAtBound(s, step, j))
    ensures j in Exec(c, s, step).db.jobs && !WithinBound(Exec(c, s, step).db.jobs[j])
  {
    hide Exec, ServiceInv, NextDue, LeaseExpired, Backoff;
    RowMoves(c, s, step, j);
    if TakesBack(s, step, j) { TakesBackFirst(s, step, j); }
  }

  lemma TakenBackExists(s: Service, step: Step, j: Id)
    requires TakesBackAtBound(s, step, j)
    ensures j in s.db.jobs
  {}

  lemma {:induction false} RunPastBound(c: Config, s: Service, steps: seq<Step>, j: Id)
    requires ServiceInv(c, s)
    requires (j in s.db.jobs && !WithinBound(s.db.jobs[j])) || !NeverTakesBackAtBound(c, s, steps, j)
    ensures j in Run(c, s, steps).db.jobs && !WithinBound(Run(c, s, steps).db.jobs[j])
    decreases |steps|
  {
    hide Exec, ServiceInv, WithinBound, TakesBackAtBound, Advances;
    if steps != [] {
      ExecKeeps(c, s, steps[0]);
      if TakesBackAtBound(s, steps[0], j) { TakenBackExists(s, steps[0], j); }
      if j in s.db.jobs && (!WithinBound(s.db.jobs[j]) || TakesBackAtBound(s, steps[0], j)) { StepPastBound(c, s, steps[0], j); }
      RunPastBound(c, Exec(c, s, steps[0]), steps[1..], j);
    }
  }

  /** So over a run a job stays within its bound if and only if no recovery finds
      it there; then its attempts are within max_attempts. */
  lemma RecoveredBelowBound(c: Config, steps: seq<Step>, j: Id)
    requires j in Run(c, Initial(), steps).db.jobs
    ensures var job := Run(c, Initial(), steps).db.jobs[j];
            && (WithinBound(job) <==> NeverTakesBackAtBound(c, Initial(), steps, j))
            && (NeverTakesBackAtBound(c, Initial(), steps, j) ==> job.attempts <= job.maxAttempts)
  {
    hide ServiceInv, Exec, Run, TakesBackAtBound, NeverTakesBackAtBound;
    InitialInv(c);
    if NeverTakesBackAtBound(c, Initial(), steps, j) {
      RunWithinBound(c, Initial(), steps, j);
    } else {
      RunPastBound(c, Initial(), steps, j);
    }
  }

  function Crashing(): seq<Step> {
    [StartWorker("w", 0), TakeJob("w", "job", 0), Crash("w"), StartWorker("v", 0), TakeJob("v", "job", 0)]
  }

  lemma Started(c: Config, s: Service, owner: string, job: Job, after: Job)
    requires owner !in s.workers && s.db.jobs == map["job" := job] && after == Recovered(job, 0)
    ensures var t := Exec(c, s, StartWorker(owner, 0));
            t.db.jobs == map["job" := after] && t.workers == s.workers[owner := Idle]
  {
    hide Recovered, TakenBack;
  }

  lemma OnlyJobIsDue(job: Job)
    requires job.status == JobPending && job.availableAt == 0
    ensures NextDue(map["job" := job], "job", 0)
  {
    hide FormatTime;
  }

  lemma TakenFirst(c: Config, s: Service, owner: string, job: Job)
    requires owner in s.workers && s.workers[owner].Idle? && s.db.jobs == map["job" := job]
    requires job.status == JobPending && job.availableAt == 0
    ensures var t := Exec(c, s, TakeJob(owner, "job", 0));
            t.db.jobs == map["job" := Leased(job, owner, c.lease)] && t.workers.Keys == s.workers.Keys
  {
    hide NextDue, Leased;
    OnlyJobIsDue(job);
  }

  lemma Taken(c: Config, s: Service, owner: string, job: Job)
    requires owner !in s.workers && s.db.jobs == map["job" := job] && job.status == JobPending && job.availableAt == 0
    ensures var t := Exec(c, Exec(c, s, StartWorker(owner, 0)), TakeJob(owner, "job", 0));
            t.db.jobs == map["job" := Leased(job, owner, c.lease)] && t.workers.Keys == s.workers.Keys + {owner}
  {
    hide Exec;
    Started(c, s, owner, job, job);
    TakenFirst(c, Exec(c, s, StartWorker(owner, 0)), owner, job);
  }

  lemma ExpiredAtOnce(job: Job)
    requires job.status == JobRunning && job.leaseUntil == Some(0)
    ensures LeaseExpired(job, 0)
  {
    hide FormatTime;
  }

  lemma TakenAgain(c: Config, s: Service, job: Job)
    requires c.lease == 0 && s.db.jobs == map["job" := job] && job.status == JobRunning && job.leaseUntil == Some(0) && "v" !in s.workers
    ensures var t := Exec(c, Exec(c, s, StartWorker("v", 0)), TakeJob("v", "job", 0));
            "job" in t.db.jobs && t.db.jobs["job"].attempts == job.attempts + 1 && t.db.jobs["job"].maxAttempts == job.maxAttempts
  {
    hide Exec, LeaseExpired;
    ExpiredAtOnce(job);
    var recovered := job.(status := JobPending, leaseOwner := "", leaseUntil := None, availableAt := 0);
    Started(c, s, "v", job, recovered);
    TakenFirst(c, Exec(c, s, StartWorker("v", 0)), "v", recovered);
  }

  lemma Dispatched()
    ensures var s := Run(FullRun.SmallConfig(), Initial(), FullRun.Asking());
            s.db.jobs == map["job" := NewJob(DispatchInquiry, "inquiry", 1, 0)] && s.workers == map[]
  {
    hide Run;
    FullRun.ToDispatch();
  }

  lemma NewJobFields(c: Config)
    ensures var job := NewJob(DispatchInquiry, "inquiry", c.maxAttempts, 0);
            job.status == JobPending && job.availableAt == 0 && job.attempts == 0 && job.maxAttempts == c.maxAttempts
  {}

  lemma LeasedFields(job: Job, owner: string, until: Instant)
    ensures var leased := Leased(job, owner, until);
            && leased.status == JobRunning && leased.leaseUntil == Some(until) && leased.attempts == job.attempts + 1
            && leased.maxAttempts == job.maxAttempts
  {}

  lemma Crashed(c: Config, s: Service, owner: string)
    ensures Exec(c, s, Crash(owner)).db == s.db && Exec(c, s, Crash(owner)).workers.Keys == s.workers.Keys - {owner}
  {}

  lemma FiveSteps(c: Config, s: Service, steps: seq<Step>)
    requires |steps| == 5
    ensures Run(c, s, steps) == Exec(c, Exec(c, Exec(c, Exec(c, Exec(c, s, steps[0]), steps[1]), steps[2]), steps[3]), steps[4])
  {
    hide Exec;
    var s1 := Exec(c, s, steps[0]);
    var s2 := Exec(c, s1, steps[1]);
    var s3 := Exec(c, s2, steps[2]);
    var s4 := Exec(c, s3, steps[3]);
    assert Run(c, s4, steps[4..]) == Run(c, Exec(c, s4, steps[4]), steps[4..][1..]);
    assert Run(c, s3, steps[3..]) == Run(c, s4, steps[4..]) by { assert steps[3..][1..] == steps[4..]; }
    assert Run(c, s2, steps[2..]) == Run(c, s3, steps[3..]) by { assert steps[2..][1..] == steps[3..]; }
    assert Run(c, s1, steps[1..]) == Run(c, s2, steps[2..]) by { assert steps[1..][1..] == steps[2..]; }
  }

  /** And the bound is passed: with one permitted attempt, a crash and a restart
      after the lease lead to a second one. */
  lemma AttemptsExceedTheMaximum()
    ensures var s := Run(FullRun.SmallConfig(), Initial(), FullRun.Asking() + Crashing());
            "job" in s.db.jobs && s.db.jobs["job"].attempts == 2 > s.db.jobs["job"].maxAttempts == 1
  {
    Dispatched();
    hide Exec, Run, Leased, FullRun.Asking, NewJob;
    var c := FullRun.SmallConfig();
    var s := Run(c, Initial(), FullRun.Asking());
    RunAppend(c, Initial(), FullRun.Asking(), Crashing());
    NewJobFields(c);
    var job := NewJob(DispatchInquiry, "inquiry", c.maxAttempts, 0);
    Taken(c, s, "w", job);
    var t := Exec(c, Exec(c, s, StartWorker("w", 0)), TakeJob("w", "job", 0));
    var u := Exec(c, t, Crash("w"));
    Crashed(c, t, "w");
    LeasedFields(job, "w", c.lease);
    TakenAgain(c, u, Leased(job, "w", c.lease));
    FiveSteps(c, s, Crashing());
  }

  // --------------------------------------------------------- total backoff

  /** The delay a step asks for when its report puts the job back. */
  function Delay(d: Database, step: Step, e: Database, j: Id): int {
    if step.Report? && j in d.jobs && j in e.jobs && d.jobs[j].status == JobRunning && e.jobs[j].status == JobPending
    then e.jobs[j].availableAt - step.now else 0
  }

  /** All delays a run asks for. */
  ghost function Delays(c: Config, s: Service, steps: seq<Step>, j: Id): int
    decreases |steps|
  {
    if steps == [] then 0
    else
      var next := Exec(c, s, steps[0]);
      Delay(s.db, steps[0], next.db, j) + Delays(c, next, steps[1..], j)
  }

  /** The delays after attempts 1 .. n, in nanoseconds. */
  function TotalBackoff(n: nat): nat {
    if n == 0 then 0 else TotalBackoff(n - 1) + Backoff(n)
  }

  /** What an unrecovered job has waited for: its failed attempts. */
  function Waited(d: Database, j: Id): nat {
    if j !in d.jobs then 0
    else
      var failed := d.jobs[j].attempts - if d.jobs[j].status == JobPending then 0 else 1;
      TotalBackoff(if failed > 0 then failed else 0)
  }

  lemma TakesBackCounts(c: Config, s: Service, step: Step, j: Id)
    ensures j in s.db.jobs || Recoveries(s, j) == 0 ==>
              Recoveries(Exec(c, s, step), j) == Recoveries(s, j) + if TakesBack(s, step, j) then 1 else 0
  {
    hide Submit, StartReview, Dispatch, RecordResult, CreateClaim, Approve, ConfirmPayout, NextDue, RunHandler, ReportOutcome, LeaseExpired;
  }

  lemma NotTakenBack(s: Service, step: Step, j: Id)
    requires j !in s.db.jobs
    ensures !TakesBack(s, step, j)
  {}

  lemma {:induction false} RecoveriesGrow(c: Config, s: Service, steps: seq<Step>, j: Id)
    requires ServiceInv(c, s) && (j in s.db.jobs || Recoveries(s, j) == 0)
    ensures Recoveries(s, j) <= Recoveries(Run(c, s, steps), j)
    decreases |steps|
  {
    hide Exec, ServiceInv, Recoveries, TakesBack;
    if steps != [] {
      var next := Exec(c, s, steps[0]);
      TakesBackCounts(c, s, steps[0], j);
      ExecKeeps(c, s, steps[0]);
      if j in s.db.jobs {
        RowMoves(c, s, steps[0], j);
      } else {
        NotTakenBack(s, steps[0], j);
      }
      RecoveriesGrow(c, next, steps[1..], j);
    }
  }

  lemma StepWaits(c: Config, s: Service, step: Step, j: Id)
    requires ServiceInv(c, s) && !TakesBack(s, step, j)
    ensures Waited(Exec(c, s, step).db, j) == Waited(s.db, j) + Delay(s.db, step, Exec(c, s, step).db, j)
  {
    hide Exec, Inv, WorkersOk, NextDue, TakesBack, Backoff;
    if j in s.db.jobs {
      assert AttemptsOk(s.db.jobs[j], Recoveries(s, j));
      RowMoves(c, s, step, j);
      if Takes(s, step, j) { DueExists(s.db.jobs, j, step.now); }
    } else if j in Exec(c, s, step).db.jobs {
      hide RetriesBounded;
      RowAppears(c, s, step, j);
    }
  }

  /** Over a run that never takes the job's lease back, the delays asked for are
      those of the attempts that failed. */
  lemma {:induction false} DelaysAreWaited(c: Config, s: Service, steps: seq<Step>, j: Id)
    requires ServiceInv(c, s) && Recoveries(s, j) == 0 && Recoveries(Run(c, s, steps), j) == 0
    ensures Delays(c, s, steps, j) == Waited(Run(c, s, steps).db, j) - Waited(s.db, j)
    decreases |steps|
  {
    hide Exec, ServiceInv, Recoveries, TakesBack, Waited, Delay, Advances;
    if steps != [] {
      var next := Exec(c, s, steps[0]);
      ExecKeeps(c, s, steps[0]);
      TakesBackCounts(c, s, steps[0], j);
      if j in s.db.jobs { RowMoves(c, s, steps[0], j); } else { NotTakenBack(s, steps[0], j); }
      RecoveriesGrow(c, next, steps[1..], j);
      StepWaits(c, s, steps[0], j);
      DelaysAreWaited(c, next, steps[1..], j);
    }
  }

  lemma {:induction false} BackoffSum(m: nat)
    requires m >= 1
    ensures TotalBackoff(m - 1) == SECOND * if m <= 7 then Pow2(m) - 2 else 126 + 64 * (m - 7)
  {
    if m > 1 {
      BackoffSum(m - 1);
      assert Pow2(6) == 64 && Pow2(7) == 128 by { assert Pow2(4) == 16; }
      assert TotalBackoff(m - 1) == TotalBackoff(m - 2) + Backoff(m - 1);
    }
  }

  lemma NoJobYet(j: Id)
    ensures Waited(Initial().db, j) == 0
  {}

  lemma InvMax(d: Database, j: Id, limit: int)
    requires Inv(d, limit) && j in d.jobs
    ensures d.jobs[j].maxAttempts >= 1
  {
    InvJobs(d, limit);
    assert JobOk(j, d.jobs[j], d.inquiries, d.payouts);
  }

  /** In every run, a job that has failed without ever being recovered was asked
      to wait, in all, 2^m - 2 seconds for m = max_attempts up to 7, and
      126 + 64 (m - 7) seconds beyond. */
  lemma BackoffTotal(c: Config, steps: seq<Step>, j: Id)
    requires var s := Run(c, Initial(), steps);
             j in s.db.jobs && s.db.jobs[j].status == JobFailed && Recoveries(s, j) == 0
    ensures var m := Run(c, Initial(), steps).db.jobs[j].maxAttempts;
            m >= 1 && Delays(c, Initial(), steps, j) == SECOND * if m <= 7 then Pow2(m) - 2 else 126 + 64 * (m - 7)
  {
    hide ServiceInv, Inv, Exec, Run, Delays, Pow2, TotalBackoff;
    var s := Run(c, Initial(), steps);
    InitialInv(c);
    assert Waited(Initial().db, j) == 0 by { NoJobYet(j); }
    DelaysAreWaited(c, Initial(), steps, j);
    FailsAtTheBound(c, s, j);
    ReachableInv(c, steps);
    InvMax(s.db, j, c.limit);
    BackoffSum(s.db.jobs[j].maxAttempts);
  }
}
