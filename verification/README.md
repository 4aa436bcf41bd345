# Estate claims: a verified model

The service takes an estate case from submission through review, inquiries to
financial institutions, a small claim on the accounts they report, a
supervisor's approval, and a payout. Requests arrive in any order and
concurrently; background workers lease jobs, crash and restart; every
transaction may fail halfway. Several services act on facts that other services
established and that nobody checks again. This project states those facts,
proves that every step keeps them, and derives what users rely on.

## How it is built

- `TextOrder`, `Timestamps`: text order, and the persisted RFC 3339 form of an
  instant (sections 5.1 and 5.6 of RFC 3339) with its calendar.
- `Domain`, `Entities`: rows, statuses and transition tables; the entities whose
  `Transition` changes them in place.
- `Workflow`: each transaction as a function from the database to the committed
  database or a rollback. A violated key or CHECK constraint rolls back.
- `Invariants`, `Preservation`, `ClaimPreservation`, `Progress`: what holds of
  every database, that every transaction keeps it, and the direction in which
  rows move.
- `Runs`, `StepSafety`: the state machine. Its steps are the requests, the
  institutions' deliveries, and the steps of any number of workers, each with
  its possibly stale job snapshot; crashes, lost reports and recoveries
  interleave freely, and clocks may show any time. `Reachable` is what any run
  from the empty database reaches.
- `Transitions`, `JobSteps`, `Queue`: what one step does to a status, and to one
  row of the job queue; the order in which due jobs are taken.
- `Answers`, `Deliveries`: what each request is answered: exactly when it commits,
  the rows it then leaves, written out, and which error it gets otherwise.
- `Guarantees`, `Leases`, `Retries`, `Reconciliation`, `DeliveryOrder`,
  `WorkBound`, `WorkCount`: the theorems about all reachable states and all
  runs. `FullRun` is one concrete run, from a submission to the confirmed payout.
- `Selection`, `Pagination`: account selection with 64-bit sums, and keyset
  pages.
- `Storage`, `Services`, `Workers`, `Server`: the code itself, statement by
  statement over a store in which any statement may fail, proved to do exactly
  what `Workflow` says or to report a fault and change nothing.
  `Server.Serve` runs any sequence of requests, worker turns and restarts under
  any schedule of failing statements. It returns what each call was as steps of
  the state machine: undisturbed, a request is its own step, a tick one turn on
  the next due job, a start the recovery. A call is disturbed only by a failing
  statement, and the steps together lead to the store's own state, so the
  theorems hold of the imperative code.

Texts are sequences of bytes. Generated ids are arguments: a colliding id fails
at the primary key, and a failing id generator is a storage fault. Hashes are
injective. `Dispatch` in the repository always asks for one part; here each
request carries any number, as the schema allows, and a number that is not
positive fails its CHECK.

Where code and intention part, the code is modelled and the difference proved:

- Text comparison of times is not time comparison. It errs exactly when both
  instants lie in one second and the earlier one's trimmed fraction is a proper
  prefix of the later one's (`TextOrderVersusTimeOrder`).
- The bounded sum of a claim is exact on every selection precisely for limits up
  to (2^63 - 1) / 2 (`ExactLimits`); above, five accounts show that it wraps
  (`LargeLimitsWrap`). The configured limit is 5 000 000. `Workflow.CreateClaim` adds without
  wrapping, so it speaks of the code for limits up to that bound.
- A payout is confirmed by moving its claim from `approved` to `paid`, which the
  transition table only allows in two steps (`PaidThroughPaying`). Confirming an
  open payout is the only step that leaves the table, and it always does
  (`OnlyConfirmationsLeaveTheTable`).
- An idempotency key cannot be used again after its 24 hours: the expired row
  still holds the primary key, so such a request fails instead of creating a
  second case (`SubmissionIsIdempotent`).
- The attempts of a job do exceed its maximum in some runs
  (`AttemptsExceedTheMaximum`), because a recovery does not look at them. Exactly
  a recovery at the maximum leaves a job pending there, and exactly the next
  claim passes it (`StepsPastBound`); a run keeps a job within its bound if and
  only if no recovery finds it there (`RecoveredBelowBound`). The excess is at
  most one for each recovery (`RetryBound`).

## Model

| member | source | states |
|---|---|---|
| Timestamps.TextOrderVersusTimeOrder | internal/store/scan.go:45 | of two instants, the later has the smaller text exactly when both lie in one second and the earlier trimmed fraction is a proper prefix of the later one |
| Timestamps.TextTestErrsBelowOneSecond | internal/store/jobs.go:41-56 | a SQL test on texts errs by strictly less than one second, in both directions |
| Timestamps.WholeSecondsCompareExactly | internal/store/scan.go:45 | whole seconds are compared exactly |
| Timestamps.FormatParseRoundTrip | internal/store/scan.go:12-18 | every instant of the years 0000 to 9999 is read back from its text |
| Timestamps.FormatInjective | internal/store/scan.go:45 | no two instants share a text |
| Timestamps.HalfSecondOrdersFirst | internal/store/scan.go:45 | a concrete pair whose texts are ordered against time |
| Timestamps.CalendarDay | internal/store/scan.go:45 | every valid date is the date of its day in the Gregorian count 365 y + leap years + days of the months |
| Timestamps.LeapDayText | internal/store/scan.go:45 | one text in full: 2024-02-29T13:07:09.05Z |
| TextOrder.LessIsLexicographic | internal/store/jobs.go:54-56 | text order is decided by the first difference, a proper prefix coming first |
| Progress.PaidThroughPaying | internal/domain/claim.go:17-22 | approved to paid is in the closure of the claim table but not in the table |
| Entities.CaseEntity.Transition | internal/domain/case.go:72-91 | a permitted transition moves status and version by one; a refused one changes nothing |
| Entities.InquiryEntity.Transition | internal/domain/inquiry.go:47-63 | the same for an inquiry, parts and reference untouched |
| Entities.ClaimEntity.Transition | internal/domain/claim.go:40-53 | the same for a claim; the approver is set by approval only |
| Transitions.CaseEntries | internal/domain/case.go:21-28 | for each status of a case, from which it can be entered |
| Transitions.InquiryEntries | internal/domain/inquiry.go:15-19 | the same for an inquiry; `partial` alone can follow itself |
| Transitions.ClaimEntries | internal/domain/claim.go:17-22 | the same for a claim |
| Transitions.StepFollows | internal/domain/case.go:21-37 | every step moves cases, inquiries, payouts and, unless it is a confirmation, claims along their tables, one version at a time |
| Transitions.OnlyConfirmationsLeaveTheTable | internal/store/claims.go:158-160 | of all steps, exactly the confirmations of an open payout move its claim outside the table, from approved to paid |
| Transitions.OpenedOnce | internal/inquiry/service.go:192-204 | over every run a case becomes eligible at most once, and exactly once if the run takes it past `inquiring` |
| Answers.DispatchProgress | internal/inquiry/service.go:31-94 | in every reachable state a dispatch commits exactly for an officer or supervisor, a key of 8 to 128 characters, a case under review at version 2, and requests with distinct institutions, distinct unused ids and positive parts; what other cases asked never decides |
| Answers.DispatchRefused | internal/inquiry/service.go:31-56 | which error each other dispatch gets |
| Answers.DispatchAsksAll | internal/inquiry/service.go:58-92 | a committed dispatch leaves the case inquiring and, for each request, its inquiry row and its job row, written out; no other row is added or changed |
| Storage.Store.Trip | internal/store/database.go:182-190 | a statement fails exactly when the schedule says so, once for each entry, and the failure is counted |
| Storage.Store.EndTx | internal/store/database.go:112-125 | a transaction that reports success keeps its effects; any other restores the database it began with |
| Storage.Store.UpdateCase | internal/store/cases.go:70-83 | replaces the row exactly when the version is the expected one |
| Storage.Store.GetIdempotency | internal/store/idempotency.go:27-49 | finds a key exactly while its expiry text is greater than now |
| Storage.Store.UpsertFinancialAccount | internal/store/inquiries.go:123-141 | inserts, or overwrites the unreserved row of the same unique key, and keeps keys unique |
| Storage.Store.AccountsForCase | internal/store/inquiries.go:143-175 | lists every account of the case exactly once, ordered by id |
| Storage.Store.ReserveAccounts | internal/store/claims.go:68-88 | succeeds exactly for distinct, unrestricted, unreserved accounts, reserves all of them and returns their 64-bit sum |
| Storage.Store.MarkPayoutSubmitted | internal/store/claims.go:123-141 | submits a pending payout, accepts a submitted or confirmed one, conflicts otherwise |
| Storage.Store.ConfirmPayout | internal/store/claims.go:143-162 | confirms payout and claim together or neither |
| Storage.Store.SelectDue | internal/store/jobs.go:54-56 | one pass finds the due job first in (available_at, id) text order, which is ahead of all other due ones in time up to one second, and exactly on whole seconds; none only if none is due |
| Storage.Store.ClaimJob | internal/store/jobs.go:51-81 | leases exactly that job with one more attempt; on error nothing changes |
| Queue.OldestFirst | internal/store/jobs.go:54-56 | the next due job became available less than a second after any other due one, on whole seconds no later, and of two of one time it has the smaller id |
| Leases.OldestTaken | internal/store/jobs.go:51-81 | the same of every step that takes a job, with the leased row written out |
| JobSteps.RowMoves | internal/store/jobs.go:41-140 | what every step does to a job row: leased, taken back, completed, retried, failed, or as it was |
| Storage.Store.CompleteJob | internal/store/jobs.go:108-120 | completes only a running job leased to this owner |
| Storage.Store.FailJob | internal/store/jobs.go:122-140 | decides with the caller's snapshot, acts only on this owner's lease |
| Storage.Store.RecoverExpiredJobs | internal/store/jobs.go:41-49 | returns exactly the running jobs with an expired lease to pending, and their number |
| Services.CaseService.Submit | internal/cases/service.go:44-133 | refines the submission transaction; a fault in any statement leaves the database unchanged |
| Services.CaseService.StartReview | internal/cases/service.go:158-181 | the same for the start of a review |
| Services.InquiryService.Dispatch | internal/inquiry/service.go:31-94 | the same, over the loop that inserts an inquiry and a job for each institution, and returns those inquiries in order |
| Services.InquiryService.RecordResult | internal/inquiry/service.go:110-214 | the same, over replay detection, the account loop, part counting and the barrier |
| Services.InquiryService.MarkDispatched | internal/inquiry/service.go:216-236 | the same for the external reference |
| Services.ClaimService.Create | internal/claims/service.go:30-96 | the same, over selection, bounded sum and linking, for limits up to (2^63 - 1) / 2; never a partial effect for any limit |
| Services.ClaimService.Approve | internal/claims/service.go:98-168 | the same, over reservation, transition, payout, job and audit |
| Workers.Worker.Register | internal/worker/worker.go:37-48 | a kind is registered once |
| Workers.Worker.Handler | cmd/server/main.go:71-83 | the two handlers refine their transactions |
| Workers.Worker.ProcessOne | internal/worker/worker.go:76-97 | one turn takes the next due job, handles and reports it, and leads where these three steps of the state machine lead; it takes none, undisturbed, only if none is due; a handler is stopped or a report lost only by a failing statement; without a handler the job is failed at once |
| Workers.Live | internal/worker/worker.go:57-74 | the recovery and then one turn for each tick, each on the job next due in the state it finds; the worker gives up only if the recovery fails |
| Server.Serve | cmd/server/main.go:64-90 | for each request, tick and restart a record of its steps, its own when undisturbed, which together lead from the empty database to the stored state; no more calls are disturbed than statements were scheduled to fail; the invariant holds |
| Server.DiscardedTotal | internal/claims/service.go:134 | the sum Approve throws away equals the claim's total in every reachable state |
| Selection.SelectAccounts | internal/claims/service.go:170-182 | both loops keep exactly the wanted rows, in order |
| Selection.LengthTestIsExact | internal/claims/service.go:58-61 | the length test accepts exactly duplicate-free lists of accounts of the case |
| Selection.BoundedTotal | internal/claims/service.go:62-71 | the loop with its early exits, in 64-bit addition |
| Selection.BoundedSumIsExact | internal/claims/service.go:62-71 | up to (2^63 - 1) / 2 it accepts exactly when all are eligible and the full sum is within the limit, and returns that sum |
| Selection.ExactLimits | internal/claims/service.go:62-71 | the loop is exact on every selection if and only if the limit is at most (2^63 - 1) / 2 |
| Selection.LargeLimitsWrap | internal/claims/service.go:62-71 | for every larger limit, five eligible accounts worth 2^64 + 1 are accepted with the total 1 |
| Selection.SelectionAgrees | internal/claims/service.go:58-71 | selection and loop decide what the claim transaction decides, with the same accounts and total |
| Pagination.PageIsPrefix | internal/store/cases.go:85-122 | a page is ascending and past the cursor, and what it leaves out comes after all of it |
| Pagination.PageAnswered | internal/cases/service.go:149-156 | a page is the least cases the caller may see and asked for, in ascending order, 25 of them unless 1 to 100 are asked for |
| Pagination.NothingTwice | internal/httpapi/case_handlers.go:48-63 | following next_cursor over changing tables returns ids in strictly ascending order, each matching when read |
| Pagination.NothingMissed | internal/httpapi/case_handlers.go:48-63 | an id that matched throughout a finished traversal is returned |
| Pagination.ConcurrentTraversal | internal/httpapi/case_handlers.go:48-63 | both together: exactly once, for every limit value |
| Pagination.ClaimantsSeeTheirOwn | internal/cases/service.go:149-156 | a claimant's traversal returns own cases only |
| Pagination.StaticTraversal | internal/store/cases.go:85-122 | on a static store it finishes exactly from a given number of requests on, with the sorted matching cases |
| Pagination.RequestCount | internal/store/cases.go:86-107 | that number is one more than the least number of pages that hold the rows |
| Preservation.SubmitKeeps | internal/cases/service.go:69-131 | a submission keeps the invariant |
| Preservation.DispatchKeeps | internal/inquiry/service.go:47-92 | a dispatch keeps it: at most one inquiry for each institution, each with its job, barrier closed |
| Preservation.RecordResultKeeps | internal/inquiry/service.go:127-212 | a delivery keeps it: parts counted, barrier opened by the last inquiry only |
| ClaimPreservation.CreateClaimKeeps | internal/claims/service.go:43-94 | a claim keeps it: backed by exactly its accounts' balances, one claim for each case |
| ClaimPreservation.ApproveKeeps | internal/claims/service.go:107-166 | an approval keeps it, conservation of money included |
| ClaimPreservation.ConfirmPayoutKeeps | internal/store/claims.go:143-162 | a confirmation keeps it |
| StepSafety.HandlerKeeps | cmd/server/main.go:71-83 | in order, a job's handler always commits, has its effect and keeps the invariant |
| StepSafety.ExecKeeps | internal/worker/worker.go:57-97 | every step of requests, workers, crashes and recoveries keeps the invariant and moves rows forward only |
| StepSafety.RunKeeps | internal/worker/worker.go:57-97 | so does every run |
| StepSafety.ReachableInv | internal/store/database.go:112-125 | the invariant holds in every reachable state |
| Guarantees.ClaimTotals | internal/claims/service.go:62-83 | a claim's total is the sum of its linked amounts and of its accounts' current balances, within the limit; its version follows from its status |
| Guarantees.ClaimsDisjoint | internal/claims/service.go:134-136 | different claims never share an account |
| Guarantees.PayoutsConserveMoney | internal/claims/service.go:152-155 | each payout is its claim's total, and all payouts together equal the reserved balances |
| Guarantees.FrozenLedger | internal/store/inquiries.go:123-135 | once a case leaves `inquiring`, no run changes its accounts, balances, kinds, currencies or restrictions |
| Guarantees.ClaimProgress | internal/claims/service.go:30-96 | in every reachable state a claim is created exactly when it is asked for properly, with the accounts' sum as total; the test for a reservation never decides |
| Answers.ClaimAnswered | internal/claims/service.go:30-96 | the rows a claim leaves, and exactly which request gets which error |
| Guarantees.ApprovalProgress | internal/claims/service.go:98-168 | in every reachable state an approval commits exactly when it is asked for properly; its reservations never conflict, and it pays the accounts' sum |
| Answers.ApprovalAnswered | internal/claims/service.go:98-168 | the rows an approval leaves: accounts held, claim, payout of the accounts' sum, and the payout's job with the configured maximum of attempts |
| Answers.ApprovalRefused | internal/claims/service.go:98-168 | exactly which request gets which error; approving again with the current version is a conflict, never a wrong state |
| Guarantees.ReservedForEver | internal/store/claims.go:68-88 | after approval the accounts reserved for a claim are exactly its linked ones, over every run |
| Guarantees.ClaimPayoutCoupling | internal/store/claims.go:143-162 | payout and claim status determine each other, so the unchecked update of the claim always hits, whatever the provider reference |
| Answers.ConfirmationAnswered | internal/store/claims.go:143-162 | a confirmation goes through exactly for an open payout; the payout and claim rows it leaves |
| Answers.HandlerAnswered | cmd/server/main.go:71-83 | a job's handler always commits; the row it leaves the first time, and nothing later |
| Guarantees.ClaimStatusPath | internal/domain/claim.go:17-22 | over every run a claim moves within the closure of its table |
| Guarantees.EligibilityBarrier | internal/inquiry/service.go:187-204 | what a case's status says about its inquiries, both ways |
| Guarantees.PartsAreRecorded | internal/inquiry/service.go:175-204 | an acceptable part is always recorded; the case becomes eligible exactly with its last completed inquiry |
| Deliveries.DeliveryAnswered | internal/inquiry/service.go:110-214 | in every reachable state a part is recorded exactly when acceptable and awaited, or repeated unchanged; the rows it leaves, and each error |
| Deliveries.AwaitedOrFault | internal/inquiry/service.go:159-174 | whatever ids are generated, an awaited part is recorded or meets a storage fault |
| Deliveries.RepeatAnswered | internal/inquiry/service.go:132-139 | after an accepted delivery and any run, the same delivery gets the inquiry as it is, and another payload under its part key a conflict |
| Deliveries.DeliveredLedger | internal/store/inquiries.go:123-135 | by (case, institution, hash of the reference), a recorded part leaves the last report of each reference, and every other account as it was |
| Guarantees.CaseVersionSpent | internal/store/cases.go:70-83 | of all requests with one version of a case at most one commits |
| Guarantees.ClaimVersionSpent | internal/store/claims.go:53-66 | the same for approvals of a claim |
| Guarantees.KeysNameCases | migrations/001_initial.sql:181 | keys and cases correspond one to one |
| Guarantees.SubmissionIsIdempotent | internal/cases/service.go:69-84 | after any run a used key returns its case to the same actor, method, route and payload, is a conflict for any other, fails once expired, and never creates a case |
| Answers.ReplayAnswered | internal/store/idempotency.go:66-71 | after a submission and any run, a request under its live key gets that case if and only if claimant and input are the same, and else a conflict |
| Answers.SubmissionAnswered | internal/cases/service.go:44-133 | exactly when a case is created, the three rows it leaves, and the errors of a refused request |
| Answers.ReviewAnswered | internal/cases/service.go:158-181 | in every reachable state a review starts exactly for an officer or supervisor and a submitted case at version 1; the rows it leaves, and each error |
| Guarantees.KeyLifetime | internal/cases/service.go:124-126 | in every later state a key is live until 24 hours after its submission, up to one second, and not after |
| Guarantees.ApproverStays | internal/domain/claim.go:47-51 | an approval is a supervisor's; the approver and the payout's key stay recorded over every run |
| Guarantees.ConfirmedForEver | migrations/002_integrity.sql:19-24 | a confirmed payout keeps its status and provider reference, and its claim stays paid, over every run |
| Guarantees.AuditTrails | internal/cases/service.go:118-122 | each object's own trail is the one its status and parts call for |
| Guarantees.OneEventPerCommit | internal/claims/service.go:91-93 | a request that changes anything, other than a confirmation, appends exactly one event, with its own action, object and actor |
| Leases.LeaseFencing | internal/store/jobs.go:108-140 | after another claim of the job, the old holder can neither complete nor fail it, whatever happens between |
| Leases.RecoveryFences | internal/store/jobs.go:41-49 | from the recovery of its lease on, claimed again or not, the old holder can neither complete nor fail the job |
| Leases.NamesFence | internal/store/jobs.go:108-140 | a job just claimed is closed to exactly the owner names other than the claimer's |
| Leases.LeaseProtects | internal/store/jobs.go:41-64 | until its owner reports or a worker starts in the lease's last second or later, no run takes a leased job away |
| Leases.ReportsAreCurrent | internal/store/jobs.go:122-140 | whenever a report succeeds, the snapshot's attempts are the row's |
| Leases.DispatchedOnce | internal/inquiry/service.go:216-236 | over every run an inquiry is dispatched at most once, and exactly once if it ends dispatched |
| Transitions.SubmittedOnce | internal/store/claims.go:123-141 | over every run a payout goes from pending to submitted at most once, and exactly once if it ends submitted, or confirmed after submission |
| Leases.CompletedMeansDone | cmd/server/main.go:71-83 | a completed job has had its effect, with the job's own reference |
| Leases.HandlerIdempotent | cmd/server/main.go:71-83 | running a job's handler again commits and changes nothing |
| Retries.RetryBound | internal/store/jobs.go:41-81 | attempts are at most max_attempts plus recoveries, and final statuses are final |
| Retries.StepsPastBound | internal/store/jobs.go:41-44 | a step leaves a job pending at its maximum if and only if it recovers it there, and raises its attempts above the maximum if and only if it claims it there |
| Retries.RecoveredBelowBound | internal/store/jobs.go:41-64 | over every run a job ends within its bound if and only if no recovery found it at its maximum; then its attempts are at most that |
| Retries.AttemptsExceedTheMaximum | internal/store/jobs.go:41-64 | a concrete run of eight steps ends with two attempts of one permitted |
| Retries.FailureReported | internal/worker/worker.go:95-96 | a failure below the bound waits for its backoff; at the bound it is final |
| Retries.AttemptsCountLeasings | internal/store/jobs.go:61-64 | over every run the attempts grow by exactly the number of leases |
| Retries.FailedAfterMaxAttempts | internal/store/jobs.go:122-128 | a failed, never recovered job was leased exactly max_attempts times |
| Retries.BackoffTotal | internal/worker/worker.go:95-96 | in every run, the delays asked for a failed, never recovered job with m = max_attempts add up to 2^m - 2 seconds for m up to 7 and 126 + 64 (m - 7) beyond |
| Retries.DelaysAreWaited | internal/store/jobs.go:122-133 | over a run without recoveries of the job, the delays asked for are those of its failed attempts |
| Leases.DueUpToOneSecond | internal/store/jobs.go:54-56 | claimed jobs were due, and overdue ones count as due, up to one second |
| Leases.LeasesEndUpToOneSecond | internal/store/jobs.go:41-44 | the same for expired leases |
| Leases.KeysLiveUpToOneSecond | internal/store/idempotency.go:28-30 | the same for live keys |
| Reconciliation.DuplicatesAreIdle | internal/inquiry/service.go:132-139 | repeating an accepted part key anywhere later, with the same or another payload, leaves the final state unchanged |
| Reconciliation.PartsCounted | internal/inquiry/service.go:175-186 | received_parts counts the result rows, never exceeds expected_parts and equals it exactly when completed |
| Reconciliation.UpsertView | internal/store/inquiries.go:123-135 | the upsert, seen by (case, institution, external hash), does not depend on generated ids |
| Reconciliation.DeliverIsLocal | internal/inquiry/service.go:110-214 | a delivery is a step of its inquiry's own row, results and accounts, and nothing to any other inquiry |
| DeliveryOrder.OrderIndependent | internal/inquiry/service.go:110-214 | interleavings that keep each inquiry's own order end in the same accounts, inquiries, cases and trails, up to generated ids |
| WorkCount.StepDoesOne | internal/domain/inquiry.go:47-63 | a step that changes any row of a case adds exactly one to the work its versions record, and to no other case's |
| WorkCount.WorkIsCounted | internal/domain/case.go:72-91 | over every run the number of steps that change a case is exactly the work its versions have gained |
| WorkCount.WorkIsBounded | internal/domain/case.go:72-91 | over every run at most 6 + n + the sum of expected parts steps change a submitted case with n inquiries |
| WorkCount.BoundReached | internal/store/claims.go:143-162 | from a submitted case, exactly the runs that end with its claim paid by a payout submitted before reach that bound |
| FullRun.BoundAttained | internal/domain/case.go:72-91 | a concrete run with one inquiry of one part reaches it, with 6 + 1 + 1 changes |

## Left out

- Services.ClaimService.Create: for limits above (2^63 - 1) / 2 only atomicity is stated, because there the sum wraps (LargeLimitsWrap).
- Server.Serve: one worker at a time and no interleaving within a request, as the imperative store is sequential; every interleaving of steps, and a crash at any point of a turn, is covered by Runs. Answers to callers are in the contracts of the services, not in its record.
- Leases.LeaseFencing: live workers are taken to have distinct owner names, as the state machine does. The configured name is the constant `server-worker`, so two servers on one database are outside the claim: the store tells owners apart by name only (NamesFence).
- Leases.RecoveryFences: the same assumption of distinct owner names.
- Entities.CaseEntity.Transition: leaves out submitted_at, inquiry_completed_at, closed_at and updated_at, on which no step depends.
- Entities.InquiryEntity.Transition: leaves out dispatched_at, completed_at and updated_at, for the same reason.
- Entities.ClaimEntity.Transition: leaves out approved_at and updated_at, for the same reason.
- Services.CaseService.Submit: parties, documents and the case reference with its UNIQUE constraint are not modelled, and the checks of identity, relation and jurisdiction are one flag; each would add one more way to fail.
- Services.InquiryService.Dispatch: is given the active institutions instead of selecting them.
- Workers.Worker.Register: kinds are an enumeration and handlers fixed, so an empty kind and a missing handler cannot be passed.
- Retries.FailedAfterMaxAttempts: nothing says a due job is ever claimed or a lost lease recovered, because recovery runs only when a worker starts.
- DeliveryOrder.OrderIndependent: account ids, row timestamps and the interleaving of different objects' audit events may differ between the two runs; the generator is taken never to repeat an account id.
- WorkCount.WorkIsBounded: counts changes of the rows in cases, inquiries, claims and payouts; jobs are bounded by RetryBound instead.
- Deliveries.DeliveryAnswered: takes the generated account ids to be new and distinct; AwaitedOrFault says what holds for any ids.
- Reading single cases, inquiries and claims, with their access checks, is not modelled; the listing of cases is.
- Row timestamps other than available_at, lease_until and expires_at, last_error, payloads, result row ids and audit details are not modelled.
- Users, sessions, institutions' own rows and foreign keys to them are not modelled; a dispatch is given the institutions to ask.
- Statuses no code path sets (failed inquiries and payouts, closed or rejected cases, paying, rejected or cancelled claims) appear in the tables but in no step.
- MarkPayoutSubmitted outside a transaction is one step here: its second statement only reads, and payouts never become pending again.
- Times are UTC instants of the years 0000 to 9999; the parser accepts the form the formatter writes, not other offsets.
- HTTP, migrations, the SQLite driver, configuration, logging, masking, and the unused `retryAt` are not part of this model.
- Context deadlines of a handler are a handler that fails before its effect, or one that reports failure after it.
- Integer columns other than balances and the claim sum are unbounded; versions and attempts stay small by WorkIsBounded and RetryBound.
