# Dewey: a Dafny model of the durable task ledger

Dewey keeps one database row per unit of work. Producers insert rows, any number of dispatchers
claim due rows and hand their ids to a transport, any number of workers run handlers and record the
outcome, recovery sweeps bring back what was lost, and operators retry, kill and purge. All of them
only ever meet in short database transactions, and nothing fences off a worker that was presumed
dead. This project models that protocol, the dispatcher's loop, and three smaller algorithms of the
repository, and proves what they guarantee.

**How the ledger is modelled.** `Protocol` is a state machine: a map from id to row, the live
handlers with their cached attempt counts, the claim transactions that are open and the row locks
they hold, and the sweep passes that have read but not yet written. Every step is one commit, one
clock advance, or one local event (a crash, the start of a claim). A `Run` is any sequence of enabled
steps from an empty ledger, so every theorem about a run covers any number of processes, duplicate
and late deliveries, and crashes at any point. The SQLAlchemy recovery passes, which read ids without
a lock, are split into a read (`SweepRead`) and two guarded writes (`SweepRecover`, `SweepBury`); the
Django passes, which lock from select to update, are one step (`SweepLocked`). `Database.Ledger` is
the imperative side: a class whose methods write rows the way the code does, each proved to be a step
of the protocol, or, where one function spans several transactions, a run of it with arbitrary commits
of other processes in between. Time is a real number of seconds.

**How the dispatcher is modelled.** `Dispatching.Dispatcher` is the loop of `dispatcher.py` against a
`World` that answers every call (database, transport, clocks, stop event) from an arbitrary script,
including raising at any call. The world keeps the log of what happened; the theorems are about the
log.

**Main results.** The attempt budget, in every reachable state and against every race (`Budget`); no row is
ever stranded, and the work one row can cause is linear in its budget, its lost dispatches and its manual
retries (`Progress`); at most one success per row, absorbing final states, honoured kills, deadline safety
and the retry floor over whole runs (`Outcomes`); what every commit writes, column by column, and a
transition table that lists exactly the moves the commits make (`Effects`); exactly which deployments keep
two handlers of one row from being alive at once (`Exclusion`), and from failing a row without budget left
(`StaleFailures`); claims are exact ordered top-k selections of their own queues, even when concurrent
(`Claims`), recovery passes take only what has waited long enough (`Passes`), and a waiting row is overtaken
a bounded number of times, however many claims are in flight (`Overtaking`); repeated sweeps converge, and
exactly which rows have one end whatever the limit (`Convergence`, `Endings`); idempotent creation over runs
(`Producer`); conservation of claims over the dispatcher's whole loop, every part of it in its turn
(`Dispatching`); the encoder's exact domain and meaning, plain output, idempotence and honest errors
(`Serialization`); the YAML walk finds exactly what is reachable and reports recursion exactly when a cycle
is (`YamlWalk`).

## What the code does where its documentation says otherwise

- `docs/query-api.md:49` describes `retry_task` as FAILED or DEAD to PENDING. The code asks the
  transition table, so it also resets DISPATCHING and PROCESSING rows, to zero attempts, while a
  handler may be running. The model follows the code; such a retry lets a row run twice at once whatever
  its budget, the threshold and the locks (`Exclusion.RetryRunsTwice`).
- `docs/concepts.md:142-143` say the dispatching and stuck passes return rows to PENDING. The code
  dead-letters rows whose budget is spent. For DISPATCHING rows that branch is reachable exactly for
  rows created with `max_attempts` below one, which `create_task` accepts from its caller
  (`Budget.LostDispatchIsBuriedIffBudgetIsEmpty`).
- `docs/query-api.md:51-55` promise that a kill is respected. It is, until an operator retries the row
  (`Outcomes.KillIsHonoured`).
- The stuck pass of the SQLAlchemy backend does not repeat its age test in the update. With a budget of
  three or more, two overlapping sweeps can therefore take back a row that was restarted in between,
  whatever the threshold (`Exclusion.UnlockedStuckSweepRunsTwice`). If the threshold is no shorter than
  the longest handler, they cannot with a budget of two, nor can the Django pass with any budget
  (`Exclusion.ExclusionHoldsExactly`).
- The first failure of a dispatcher's backoff waits the base even if the cap is smaller, a cap of zero
  restarts the doubling, and a negative cap is doubled itself (`Pacing.DelayFormulaIffCap`).
- A FAILED or DISPATCHING row that its recovery pass can take, that is overdue and has a spent budget,
  ends EXPIRED or DEAD depending on the sweep's limit, and exactly such rows do
  (`Convergence.EndIsFixedExactly`). Both kinds arise (`Endings.TornFailureIsReachable`,
  `Endings.TornDispatchIsReachable`).
- The dispatcher's database delay while it holds claims is positive exactly when the base and the
  database cap are (`Pacing.DelayIsPositiveExactly`, `Dispatching.HoldsWithoutDelay`).

## Model

| member | source | states |
|---|---|---|
| `States.TableReachesExactly` | src/dewey/core/states.py:22-66 | by table moves nothing leaves COMPLETED or EXPIRED, and every other status, DEAD included, can reach every status |
| `Execution.ClassifyFailure` | src/dewey/core/execution.py:34-70 | a failure is recorded as FAILED exactly when attempts are left and it is a RetryAfter, or none of its classes is failed fast on and, if the policy names classes to retry on, one of them is among those; otherwise DEAD; a retry instant is given exactly for FAILED |
| `Execution.RetryAtIsTheFloor` | src/dewey/core/execution.py:58-70 | the retry instant is the later of the policy's wait and the wait the handler asked for |
| `Policy.ExponentialIsCapped` | src/dewey/policy.py:69-84 | for every parameter and draw the exponential wait lies between zero and the cap |
| `Policy.ExponentialIsMonotone` | src/dewey/policy.py:69-84 | without jitter and with factor at least one, a later attempt never waits less, whatever the base and cap |
| `Policy.WaitsAreScaled` | src/dewey/policy.py:69-84 | without jitter the first wait is the base and each later one the last times the factor, both capped |
| `Policy.JitterIsAShare` | src/dewey/policy.py:44-84 | jitter moves a wait by at most its share of it, down by that at one end of the draw and up by that, or to the cap, at the other |
| `Policy.PlainWaits` | src/dewey/policy.py:53-105 | a constant backoff without jitter waits what it says, a custom one what its function says |
| `Policy.FormulasAgreeShifted` | src/dewey/core/backoff.py:24-43 | the two backoff formulas agree one attempt apart if and only if jitter is on or the product and cap are not negative |
| `Policy.SpentBudgetWaitIsBounded` | src/dewey/policy.py:69-84 | a budget of n + 1 attempts waits at most n caps in total |
| `Selection.First` | src/dewey/sqlalchemy/dispatch.py:123-128 | answers a row that nothing in the pool precedes |
| `Selection.Select` | src/dewey/sqlalchemy/dispatch.py:117-134 | answers the first limit rows of the pool in the query's order, no row left out preceding one taken |
| `Selection.SelectionExists` | src/dewey/sqlalchemy/dispatch.py:117-134 | every such query has an answer, which is the whole pool when the limit allows |
| `Selection.PrecedesIsWeakOrder` | src/dewey/sqlalchemy/dispatch.py:93-127 | the claim order and the sweep orders are strict weak orders |
| `Selection.AnswerIsUniqueUpToTies` | src/dewey/sqlalchemy/dispatch.py:117-134 | any two answers of the query agree position by position up to ties of the order |
| `Invariants.CreationIsKept` | src/dewey/sqlalchemy/models.py:86-91 | no commit of any kind rewrites a creation field or the creation instant |
| `Invariants.TouchKeepsRow` | src/dewey/sqlalchemy/executor.py:207-350 | every commit keeps a row's budget bounds and the timestamps its recovery pass tests |
| `Invariants.LockedRowStays` | src/dewey/sqlalchemy/dispatch.py:104-134 | a row locked by an open claim is untouched by every other step |
| `Invariants.NewClaimIsOk` | src/dewey/sqlalchemy/dispatch.py:95-134 | what a claim selects is overdue or claimable, of one of its queues if it has any, and in no other open claim |
| `Invariants.StepKeepsInv` | src/dewey/sqlalchemy/executor.py:199-350 | every enabled step keeps row soundness, key uniqueness, the cached counts of live handlers and the consistency of open claims |
| `Invariants.RunKeepsInv` | src/dewey/sqlalchemy/executor.py:199-350 | these hold in every reachable state |
| `Budget.AttemptsMove` | src/dewey/sqlalchemy/executor.py:243-247 | only a handler start (plus one) and an operator retry (to zero) write the attempt count |
| `Budget.AttemptsCountStarts` | src/dewey/sqlalchemy/executor.py:243-258 | in every reachable state attempts is the number of handler starts since the last manual retry |
| `Budget.BudgetHolds` | src/dewey/sqlalchemy/executor.py:207-258 | attempts never exceed the budget, waiting and dispatched rows have some left, a PROCESSING row has used one |
| `Budget.LostDispatchIsBuriedIffBudgetIsEmpty` | src/dewey/sqlalchemy/sweep.py:219-258 | the dead-letter branch of sweep_dispatching concerns a reachable row if and only if it was created with a budget below one |
| `Budget.StaleFailureSpendsBudget` | src/dewey/sqlalchemy/executor.py:290-299 | a run reaches a FAILED row of budget two with both attempts spent, because phase 3 classifies with the cached count |
| `Progress.MoveLowersPotential` | src/dewey/core/states.py:37-66 | every status change but a lost dispatch and a manual retry lowers starts left, then status rank |
| `Progress.WorkIsBounded` | src/dewey/sqlalchemy/dispatch.py:84-147 | a row of budget n changes status at most 4n + 2 times per allowance, plus twice per lost dispatch; each manual retry buys one allowance |
| `Progress.SweptRowMoves` | src/dewey/sqlalchemy/sweep.py:146-258 | any DISPATCHING, PROCESSING or FAILED row is brought nearer to rest by waiting out a timestamp and enough passes of any limit of at least one, locked or with separate read, recover and bury |
| `Progress.SweptInTime` | src/dewey/sqlalchemy/sweep.py:37-74 | repeated passes of any limit of at least one, locked or not, reach every row the pass can take |
| `Progress.PendingMoves` | src/dewey/sqlalchemy/executor.py:207-247 | any PENDING row is brought nearer to rest by waiting for its schedule and one worker, which starts or expires it |
| `Progress.NoTaskIsStranded` | src/dewey/sqlalchemy/sweep.py:25-295 | from every reachable state the system alone, with no operator, can bring any row to a terminal status, with the configured limit, timeout and threshold and either kind of pass |
| `Outcomes.TouchFollowsTable` | src/dewey/core/states.py:37-66 | every commit moves a row along the transition table or leaves its status alone |
| `Outcomes.EveryMoveIsInTheTable` | src/dewey/core/states.py:37-66 | so does every step of every run |
| `Outcomes.UnlockedSweepIsSafe` | src/dewey/sqlalchemy/sweep.py:37-74 | however a row changed since an unlocked sweep read its id, the guarded updates follow the table, keep budget and timestamps, and leave schedule and attempts alone |
| `Outcomes.TouchLeavesFinalRows` | src/dewey/sqlalchemy/executor.py:212-223 | no commit writes a COMPLETED or EXPIRED row |
| `Outcomes.LateResultIsDropped` | src/dewey/sqlalchemy/executor.py:279-288 | a worker whose row is no longer PROCESSING writes nothing |
| `Outcomes.OnlyBeginStarts` | src/dewey/sqlalchemy/executor.py:243-247 | a row becomes PROCESSING exactly by a phase 1 that starts its handler |
| `Outcomes.ScheduleIsKept` | src/dewey/sqlalchemy/sweep.py:51-62 | outside phase 3 and a manual retry the schedule of a row is never written |
| `Outcomes.GoneForGood` | src/dewey/sqlalchemy/queries.py:302-322 | a purged row never comes back in a run |
| `Outcomes.FinalRowsStay` | src/dewey/core/states.py:37-66 | over any run COMPLETED and EXPIRED rows stay exactly as they are, and only COMPLETED ones can be purged |
| `Outcomes.AtMostOneSuccess` | src/dewey/sqlalchemy/executor.py:325-350 | over any run, however many workers hold an id, process_task returns True for it at most once |
| `Outcomes.KillIsHonoured` | src/dewey/sqlalchemy/queries.py:286-299 | a DEAD row stays exactly as it is, whatever handlers still report, until an operator retries it |
| `Outcomes.DeadlinesAreSafe` | src/dewey/sqlalchemy/executor.py:207-247 | no handler starts at or past its deadline or ahead of its schedule; PROCESSING never becomes EXPIRED; expiry keeps attempts and is stamped between the deadline and now |
| `Outcomes.RetryFloorHolds` | src/dewey/sqlalchemy/executor.py:290-311 | after a recorded failure the next start, by any route, is no earlier than the policy's wait and the wait asked for, unless an operator intervened |
| `Effects.CreateWrites` | src/dewey/sqlalchemy/executor.py:62-78 | a created row is PENDING, untried, without stamps, due at the schedule it was created with; no other row changes |
| `Effects.CreateIsAllowed` | src/dewey/sqlalchemy/models.py:101-111 | a creation goes through exactly if no row of its type has its key, rows without a key never colliding |
| `Effects.KeysAreUnique` | src/dewey/sqlalchemy/models.py:101-111 | in no reachable state do two rows of one type share a key |
| `Effects.CallsAreAllowed` | src/dewey/sqlalchemy/executor.py:199-206 | where no claim is open, any id can be delivered to any idle worker, retried, killed or released, and any handler can report, at any time |
| `Effects.StepsBesideRows` | src/dewey/sqlalchemy/executor.py:243-258 | what a step does to the clock, the ids, the live handlers with the counts they cache, the open claims and the open sweeps |
| `Effects.ClaimCommitWrites` | src/dewey/sqlalchemy/dispatch.py:106-151 | the commit of a claim makes what it took DISPATCHING at the instant of the claim, and what it found overdue EXPIRED, and writes no other row |
| `Effects.ReleaseWrites` | src/dewey/sqlalchemy/dispatch.py:186-199 | a release returns the rows named that are still DISPATCHING to PENDING, and writes no other |
| `Effects.BeginWrites` | src/dewey/sqlalchemy/executor.py:207-247 | phase 1 expires an overdue row, leaves an early one, starts a PENDING or DISPATCHING one, and writes no other |
| `Effects.SuccessWrites` | src/dewey/sqlalchemy/executor.py:325-350 | a handler that returns completes its row, if that is still PROCESSING, and writes no other |
| `Effects.FailureWrites` | src/dewey/policy.py:148-154 | a handler that raises: without a RetryAfter, a class failed fast on leaves the row DEAD whatever budget is left, and so does the lack of a class to retry on when some are named; otherwise it is FAILED, due at the later of the policy's wait and the one asked for, exactly when the cached count is below the budget |
| `Effects.LateResultWrites` | src/dewey/sqlalchemy/executor.py:279-288 | a result writes no row but its own, and that one only while it is PROCESSING |
| `Effects.LockedPassWrites` | src/dewey/django/sweep.py:125-185 | a locked pass returns what it picked to PENDING while attempts are left and to DEAD otherwise, keeping schedule and counts, all of it in the status the pass takes rows from, and writes no other row |
| `Effects.UnlockedPassWrites` | src/dewey/sqlalchemy/sweep.py:51-74 | the guarded updates of an unlocked pass take, of the ids read, the rows still in the status: the first those with attempts left, the second the others |
| `Effects.DeadlineSweepWrites` | src/dewey/sqlalchemy/sweep.py:85-132 | sweep_expired makes exactly what it picked EXPIRED, stamped with its instant |
| `Effects.RetryWrites` | src/dewey/sqlalchemy/queries.py:225-244 | a retry puts a DISPATCHING, PROCESSING, FAILED or DEAD row back to PENDING with no schedule, no error and no attempts used, and writes no other |
| `Effects.BulkRetryWrites` | src/dewey/sqlalchemy/queries.py:247-283 | a bulk retry does so to every row of the status, and of the type if one is named |
| `Effects.KillWrites` | src/dewey/sqlalchemy/queries.py:286-299 | a kill leaves every row that is not COMPLETED or EXPIRED DEAD |
| `Effects.PurgeWrites` | src/dewey/sqlalchemy/queries.py:302-322 | a purge drops exactly the rows completed before the threshold, of the type if one is named |
| `Effects.TableIsExact` | src/dewey/core/states.py:39-66 | the table allows a move exactly if some commit makes it |
| `Effects.TerminalExactly` | src/dewey/core/states.py:22-37 | a status is terminal exactly if no commit but an operator's retry moves a row out of it |
| `Exclusion.MutualExclusion` | src/dewey/django/executor.py:207-257 | if handlers keep a time limit, the stuck threshold is no shorter, its age test holds at commit and no operator retries, at most one handler per row is live and its cached count is the row's, for any budget |
| `Exclusion.LockedPassTestsAge` | src/dewey/django/sweep.py:125-185 | a pass that holds its locks from select to update has its age test at commit |
| `Exclusion.LockedSweepsExclude` | src/dewey/django/sweep.py:125-185 | so with the Django passes a threshold no shorter than the longest handler is enough, for any budget |
| `Exclusion.ReadFindsNoHandler` | src/dewey/sqlalchemy/sweep.py:146-157 | when a stuck pass reads a row, with handlers faster than its threshold, no handler of that row is live |
| `Exclusion.SufficientRunKeeps` | src/dewey/sqlalchemy/sweep.py:146-185 | without operator retries exclusion holds on every run if the budget is at most one, or the threshold is no shorter than the longest handler and the passes are locked or the budget at most two |
| `Exclusion.ShorterThresholdRunsTwice` | src/dewey/django/sweep.py:125-185 | for a budget of two or more and every shorter threshold, a run with punctual handlers has two live handlers of one row, with locked passes and with unlocked ones |
| `Exclusion.UnlockedStuckSweepRunsTwice` | src/dewey/sqlalchemy/sweep.py:146-185 | with the unlocked pass and a budget of three or more there is such a run for every threshold and limit, even with instantaneous handlers |
| `Exclusion.RetryRunsTwice` | src/dewey/sqlalchemy/queries.py:225-244 | an operator who retries a PROCESSING row while its handler runs has it run twice at once, for every budget, threshold, limit and kind of pass |
| `Exclusion.ExclusionHoldsExactly` | src/dewey/sqlalchemy/sweep.py:135-197 | exclusion holds on all runs of a deployment if and only if operators do not retry and either the budget is at most one, or the threshold is no shorter than the longest handler and the passes are locked or the budget at most two |
| `StaleFailures.RunFailsInBudget` | src/dewey/sqlalchemy/executor.py:268-311 | over the runs of a deployment that excludes, or whose budget is at most one, every FAILED row has budget left |
| `StaleFailures.OutdatedFailure` | src/dewey/sqlalchemy/executor.py:290-299 | where a handler with an older count is live, the others can spend the whole budget before it reports, for every budget |
| `StaleFailures.FailedRowsHaveBudgetExactly` | src/dewey/sqlalchemy/executor.py:290-311 | every FAILED row on all runs of a deployment has budget left if and only if the deployment excludes two live handlers or its budget is at most one |
| `Claims.InFlightClaimsAreDisjoint` | src/dewey/sqlalchemy/dispatch.py:132-134 | in every reachable state two open claims share no row |
| `Claims.ClaimedRowsWait` | src/dewey/sqlalchemy/dispatch.py:95-151 | from select to commit the rows of an open claim stay exactly as selected |
| `Claims.SelectionIsTopK` | src/dewey/sqlalchemy/dispatch.py:117-134 | at most limit ids, distinct, in claim order, and no unlocked claimable row left out precedes one taken; at most limit rows expired |
| `Claims.ClaimIsExact` | src/dewey/sqlalchemy/dispatch.py:81-152 | at commit every row taken is dispatched and none is past its deadline, the overdue rows selected expire, and every other row is unchanged |
| `Claims.ClaimTakes` | src/dewey/sqlalchemy/dispatch.py:83-134 | by its columns: a claim takes unlocked rows of its queues only, not overdue, PENDING and not early, or FAILED with the retry due and attempts left; and every one while the limit has room |
| `Claims.ClaimExpires` | src/dewey/sqlalchemy/dispatch.py:95-105 | it expires unlocked PENDING and FAILED rows of its queues past their deadline only, and every one while the limit has room |
| `Claims.ClaimTakesInOrder` | src/dewey/sqlalchemy/dispatch.py:123-127 | no row taken is behind one taken later, nor behind one left out, by priority, then schedule or else creation, then creation |
| `Claims.OtherQueuesAreLeft` | src/dewey/sqlalchemy/dispatch.py:101-131 | over a run, neither the select of a claim of some queues nor its commit, whatever happened in between, writes a row of another queue |
| `Passes.PassTakes` | src/dewey/sqlalchemy/sweep.py:37-49 | a recovery pass selects FAILED rows due for retry, DISPATCHING rows claimed longer ago than the timeout, or PROCESSING rows started longer ago than the threshold, only; every one while the limit has room; oldest first |
| `Passes.DeadlineSweepTakes` | src/dewey/sqlalchemy/sweep.py:85-107 | sweep_expired selects unlocked PENDING, FAILED and DISPATCHING rows past their deadline only, every one while the limit has room, earliest deadline first |
| `Passes.SweepTakes` | src/dewey/sqlalchemy/sweep.py:274-295 | the four lists of one sweep, by the columns the rows had before it |
| `Passes.LockedPassWaits` | src/dewey/django/sweep.py:125-185 | over runs, a row a locked pass writes has been in its status for longer than the timeout or threshold, or is due for retry |
| `Passes.UnlockedPassReadIt` | src/dewey/sqlalchemy/sweep.py:25-82 | over runs, a row an unlocked pass writes was so when the pass read it, however the ledger moved in between |
| `Overtaking.ArrivalsStayBehind` | src/dewey/sqlalchemy/dispatch.py:123-127 | a later arrival that a waiting row precedes, such as one of no higher priority and later due time, is not ahead of it |
| `Overtaking.TimeBringsOnlyUrgentWork` | src/dewey/sqlalchemy/dispatch.py:84-127 | as time passes only rows of higher priority can come ahead of a claimable row |
| `Overtaking.PassedOver` | src/dewey/sqlalchemy/dispatch.py:117-134 | a claim that passes a claimable row over, without having skipped it as locked, is full and all it took was ahead, whatever else it skipped |
| `Overtaking.EndOfHandlerIsQuiet` | src/dewey/sqlalchemy/executor.py:290-311 | the end of a handler puts nothing ahead of a waiting row if and only if the failure it records, if any, comes up for retry behind that row |
| `Overtaking.QuietStepsKeepTheQueue` | src/dewey/sqlalchemy/dispatch.py:84-127 | a step puts nothing ahead of a row it leaves alone if every row it creates or puts back into the queue comes behind: in other queues, not claimable in the window, or preceded by that row in the claim order |
| `Overtaking.QuietIsExact` | src/dewey/sqlalchemy/dispatch.py:84-127 | and for every step that is no operator retry, only if |
| `Overtaking.OvertakingIsBounded` | src/dewey/sqlalchemy/dispatch.py:81-152 | over any run of such steps, failures, releases, sweeps and retries included, and any number of overlapping claims, a claimable row still waiting has been passed over by at most floor(ahead / limit) claims |
| `Convergence.ListsAreDisjoint` | src/dewey/sqlalchemy/sweep.py:274-295 | the four lists of one sweep share no row |
| `Convergence.SweepMakesProgress` | src/dewey/sqlalchemy/sweep.py:274-295 | a sweep moves nothing exactly when nothing is left to do; otherwise, with any positive limit, it lowers the work left |
| `Convergence.SweepsConverge` | src/dewey/sqlalchemy/sweep.py:274-295 | at a frozen clock, with any positive limit, as many sweeps as the work left reach a fixpoint of empty sweeps |
| `Convergence.FullSweepLeavesOnlyReturned` | src/dewey/sqlalchemy/sweep.py:85-132 | after a sweep with room for every row only overdue rows its stuck pass just returned are left |
| `Convergence.FullSweepsSettleInTwo` | src/dewey/sqlalchemy/sweep.py:274-295 | so a second such sweep can only expire those, and a third is empty |
| `Convergence.FixpointIsOutcome` | src/dewey/sqlalchemy/sweep.py:274-295 | the fixpoint of limited sweeps gives every row that is not torn exactly what unlimited sweeps would |
| `Convergence.TornRowDependsOnLimit` | src/dewey/sqlalchemy/sweep.py:85-132 | for every torn row, FAILED or DISPATCHING, a table of two rows settles with it EXPIRED under limit two and DEAD under limit one |
| `Convergence.EndIsFixedExactly` | src/dewey/sqlalchemy/sweep.py:274-295 | a row ends the same whatever the limit and the other rows if and only if it is not torn |
| `Endings.TornFailureIsReachable` | src/dewey/sqlalchemy/executor.py:290-299 | a run reaches a torn FAILED row: a stale failure after the last attempt was used, and then the deadline |
| `Endings.TornDispatchIsReachable` | src/dewey/sqlalchemy/dispatch.py:81-152 | a run reaches a torn DISPATCHING row, for every dispatch timeout: created with no budget, claimed, and then the deadline |
| `WakeUp.WakeAtIsExact` | src/dewey/sqlalchemy/dispatch.py:154-176 | the wake instant of a row is exactly the first instant at which a claim would expire or take it |
| `WakeUp.NextDue` | src/dewey/sqlalchemy/dispatch.py:154-184 | the earliest schedule or deadline, brought up to now, of the scheduled rows of the queues that are PENDING, or FAILED with attempts left; none exactly when there is no such row |
| `WakeUp.WaitNeverOversleeps` | src/dewey/dispatcher.py:161-171 | the wait is positive exactly when the idle poll is, at most the idle poll, and at most 0.05 s past the first instant at which a claim could act |
| `Producer.ResolvedFields` | src/dewey/sqlalchemy/executor.py:60-78 | a row is created with the caller's queue, priority and budget, or else the policy's, and with the caller's schedule, deadline and key; it is refused exactly for a datetime without a timezone or payloads that cannot be encoded |
| `Json.ScalarEquality` | src/dewey/sqlalchemy/executor.py:151-163 | payload equality on scalars: strings by their text, booleans, integers and floats by their number, so 1, 1.0 and True are equal |
| `Json.ListEquality` | src/dewey/sqlalchemy/executor.py:151-163 | lists are equal if and only if equally long and equal element by element |
| `Json.ObjectEquality` | src/dewey/sqlalchemy/executor.py:151-163 | objects are equal if and only if each has an equal value for every name in the other, whatever the order of the fields |
| `Producer.DifferingIsExact` | src/dewey/sqlalchemy/executor.py:151-163 | each name is in the conflict exactly if that component differs, the payloads compared as Python values |
| `Producer.CreationIsForever` | src/dewey/sqlalchemy/models.py:86-91 | over any run the creation fields of a row never change |
| `Producer.CreationIsIdempotent` | src/dewey/sqlalchemy/executor.py:91-164 | after any run without a purge of it, a second creation under the key leaves the store alone and answers the same id if and only if type, queue, priority, budget, schedule and deadline are equal and the payloads are as Python values, and otherwise the conflict with the differing names |
| `Producer.FirstUseCreates` | src/dewey/sqlalchemy/executor.py:127-141 | the first use of a key is an enabled creation of a PENDING row |
| `Database.Ledger.constructor` | src/dewey/sqlalchemy/models.py:104-111 | an empty ledger |
| `Database.Ledger.CreateTask` | src/dewey/sqlalchemy/executor.py:38-88 | refuses naive datetimes and unserializable arguments, applies policy defaults, and creates exactly one PENDING row unless a row of the type has the key |
| `Database.Ledger.CreateOrGetTask` | src/dewey/sqlalchemy/executor.py:91-164 | refuses an empty key, creates once, and on a taken key answers a row with the same key and equal inputs, or the conflict, without writing, or lets the insert's error stand when the row has gone by the time it is looked for |
| `Database.Ledger.BeginTask` | src/dewey/sqlalchemy/executor.py:199-258 | phase 1: its five ways out are the protocol's start step, and it answers True exactly when the handler starts |
| `Database.Ledger.FinishTask` | src/dewey/sqlalchemy/executor.py:268-350 | phase 3: completes, fails, dead-letters or drops the result as the protocol's finish step does, True exactly on completion |
| `Database.Ledger.ProcessTask` | src/dewey/sqlalchemy/executor.py:167-352 | the whole call is a run of the protocol around arbitrary commits of others, and True means its own phase 3 completed the row |
| `Database.Ledger.SelectForClaim` | src/dewey/sqlalchemy/dispatch.py:95-134 | the two selects answer an allowed claim selection, every row of it in the queues given |
| `Database.Ledger.CommitClaim` | src/dewey/sqlalchemy/dispatch.py:106-151 | the two updates and the commit are the protocol's claim commit |
| `Database.Ledger.Claim` | src/dewey/sqlalchemy/dispatch.py:81-152 | claim is select, others' commits, commit; it answers the ids taken, in claim order and of its queues, and its commit writes no row of another queue |
| `Database.Ledger.SomeOf` | src/dewey/sqlalchemy/dispatch.py:105-105 | an unordered LIMIT answers as many rows of the pool as the limit allows |
| `Database.Ledger.Release` | src/dewey/sqlalchemy/dispatch.py:186-199 | only rows still DISPATCHING go back, and no attempt is spent |
| `Database.Ledger.SweepDeadlines` | src/dewey/sqlalchemy/sweep.py:85-132 | sweep_expired is the protocol's step; every id answered was overdue and PENDING, FAILED or DISPATCHING, and is now EXPIRED |
| `Database.Ledger.ReadForSweep` | src/dewey/sqlalchemy/sweep.py:37-49 | the unlocked read writes nothing and selects, oldest first, rows in the pass's status past its age test only, and every one while the limit has room |
| `Database.Ledger.RecoverSwept` | src/dewey/sqlalchemy/sweep.py:51-62 | the first guarded update returns exactly the rows it answers to PENDING |
| `Database.Ledger.BurySwept` | src/dewey/sqlalchemy/sweep.py:63-74 | the second dead-letters the selected rows still in status whose budget is spent |
| `Database.Ledger.SweepUnlocked` | src/dewey/sqlalchemy/sweep.py:25-82 | a SQLAlchemy pass is a run of read, recover and bury with arbitrary commits between its statements; what it returns was past the age test when read |
| `Database.Ledger.SweepWithLocks` | src/dewey/django/sweep.py:125-185 | a Django pass is one step: it picks rows past the age test only, every one while the limit has room, and returns exactly those with budget left |
| `Database.Ledger.Sweep` | src/dewey/django/sweep.py:276-299 | the four passes in order at one clock reading are a sweep of the convergence analysis; its lists are the rows returned to PENDING, each overdue, due, or past the timeout or threshold before the sweep |
| `Database.Ledger.RetryTask` | src/dewey/sqlalchemy/queries.py:225-244 | resets the row when the table lets it back to PENDING; None for a missing or EXPIRED row |
| `Database.Ledger.BulkRetryTasks` | src/dewey/sqlalchemy/queries.py:247-283 | refuses a status the table does not let back, otherwise resets and counts exactly the matching rows |
| `Database.Ledger.KillTask` | src/dewey/sqlalchemy/queries.py:286-299 | moves the row to DEAD when the table allows |
| `Database.Ledger.PurgeCompleted` | src/dewey/sqlalchemy/queries.py:302-322 | deletes exactly the old COMPLETED rows and answers how many |
| `Pacing.BackoffState.NoteFailure` | src/dewey/dispatcher.py:113-118 | doubles the delay up to the cap, from the base, and sets when it is served from the clock reading |
| `Pacing.BackoffState.NoteSuccess` | src/dewey/dispatcher.py:120-124 | forgets the delay |
| `Pacing.BackoffState.RemainingDelay` | src/dewey/dispatcher.py:126-130 | what is left until the retry instant, nothing once it has passed or without a failure; never more than the retry delay at a clock reading no earlier than the last failure, which the dispatcher's invariant provides |
| `Pacing.DelayFormulaIffCap` | src/dewey/dispatcher.py:113-118 | for every base and cap, the delay from the second consecutive failure on is min(base * 2^(n-1), cap) if and only if the cap is positive for a positive base, not negative for a zero one, and at least twice a negative one |
| `Pacing.DelayIsPositiveExactly` | src/dewey/dispatcher.py:113-118 | the delay after any number of failures is positive if and only if base and cap are |
| `Pacing.SweepClock.Due` | src/dewey/dispatcher.py:141-148 | True exactly when an interval is set and has elapsed since the last True |
| `Pacing.TrueAnswersAreApart` | src/dewey/dispatcher.py:141-148 | True answers of the sweep clock to any readings are at least an interval apart |
| `Pacing.SweepsAreRationed` | src/dewey/dispatcher.py:141-148 | to readings within elapsed time E it gives at most floor(E / interval) + 1 of them |
| `Pacing.BoundedWaitIsExact` | src/dewey/dispatcher.py:161-171 | the wait lasts until the row is due, or the idle poll if that is shorter or no row is due; for a row due already, 0.05 s |
| `Dispatching.BatchBalances` | src/dewey/dispatcher.py:230-262 | what one batch claimed is sent, released or left stranded, each id in one of the three only |
| `Dispatching.Dispatcher.constructor` | src/dewey/dispatcher.py:189-226 | two separate backoffs, the database's with its own cap, two clocks and nothing held |
| `Dispatching.Dispatcher.Check` | src/dewey/dispatcher.py:315-315 | the stop event is looked at before the first iteration, and after one that has paused, or has sent a full batch |
| `Dispatching.Dispatcher.SendAll` | src/dewey/dispatcher.py:242-259 | sends in order up to the first failure |
| `Dispatching.Dispatcher.DispatchBatch` | src/dewey/dispatcher.py:230-262 | the exact trace of a batch: one claim of the batch size, n sends, and on a failure one release of all the rest, remembered if it fails |
| `Dispatching.Dispatcher.ReleaseQuietly` | src/dewey/dispatcher.py:372-389 | a release that fails is added to the held ids without repetition and backs the database off |
| `Dispatching.Dispatcher.RetryPendingRelease` | src/dewey/dispatcher.py:391-410 | releases what is held first; ready exactly when nothing is held any more |
| `Dispatching.Dispatcher.MaybeSweep` | src/dewey/dispatcher.py:264-275 | sweeps exactly when the clock's reading is due after the last sweep, and reads it once; a sweep that raises costs nothing but a log entry |
| `Dispatching.Dispatcher.MaybeHeartbeat` | src/dewey/dispatcher.py:277-289 | beats exactly when its clock is due; a heartbeat that raises costs nothing but a log entry |
| `Dispatching.SweepsAreTrueAnswers` | src/dewey/dispatcher.py:264-275 | the sweeps in a log of the loop are exactly the True answers of a new sweep clock to the readings in it |
| `Dispatching.OneReadingEach` | src/dewey/dispatcher.py:315-330 | every iteration reads the sweep clock once |
| `Dispatching.Dispatcher.Work` | src/dewey/dispatcher.py:320-335 | the held release first, heartbeat and sweep whatever came of it, and one claim exactly if nothing is held any more; answers how many ids were sent |
| `Dispatching.Dispatcher.WakeTimeout` | src/dewey/dispatcher.py:336-339 | the wait is the bounded wait for the schedule just read, the idle poll if reading it raised |
| `Dispatching.Dispatcher.Settle` | src/dewey/dispatcher.py:340-354 | an iteration that raised counts as one more database failure; one that did not and left nothing held forgets them |
| `Dispatching.Dispatcher.Iterate` | src/dewey/dispatcher.py:322-354 | one iteration keeps every claim accounted for, never claims while something is held, and keeps both retry delays those of the failures in a row its log shows; it answers the ids it sent, or none if it raised |
| `Dispatching.Dispatcher.StillOwed` | src/dewey/dispatcher.py:356-359 | the larger of the two remaining delays, each at its own clock reading: zero, or positive and at most the larger retry delay |
| `Dispatching.Dispatcher.Pause` | src/dewey/dispatcher.py:356-369 | sleeps exactly the delay still owed if there is any, otherwise goes on at once after a full batch, otherwise waits for work as long as the schedule allows |
| `Dispatching.Dispatcher.Run` | src/dewey/dispatcher.py:293-370 | the loop does everything in its turn: a check that does not answer set begins each iteration, which releases what is held, beats, reads the sweep clock once and claims once unless something is held; the next check follows a pause or a full batch. It makes the iterations asked for unless the stop event is set or waiting for work raises, and always closes the backend |
| `Dispatching.RunFromStart` | src/dewey/dispatcher.py:293-410 | for any script of failures: claimed ids are exactly those sent, released and held; held ids are distinct and at most a batch; no claim was tried while any were held; every wait is the one the schedule allows, every sleep positive and at most the larger retry delay of the time; the database delay is that of its failures in a row, at least one while anything is held, so positive if base and cap are; everything is done in its turn and as often as asked, as for `Run`; the sweep clock is read once an iteration, and the sweeps are the True answers of the sweep clock, so by its last reading t at most floor(t / interval) + 1 |
| `Dispatching.HoldsWithoutDelay` | src/dewey/dispatcher.py:320-354 | for every base and database cap that are not both positive, in a world that dies after its first claim, a dispatcher ends its first iteration holding claims at a delay that is not positive |
| `Serialization.EncodeValue` | src/dewey/serialization.py:54-129 | the recursive encoder with its dictionary-filling loop computes the specification function |
| `Serialization.EncodeKwargs` | src/dewey/serialization.py:144-160 | likewise for keyword arguments |
| `Serialization.EncodesExactly` | src/dewey/serialization.py:54-129 | encoding succeeds if and only if every leaf is representable, every key is a string and unwrapping nests at most ten levels |
| `Serialization.ArgumentsEncodeExactly` | src/dewey/serialization.py:132-160 | the same for call arguments, each of which has the whole depth to itself |
| `Serialization.OutputIsPlain` | src/dewey/serialization.py:54-129 | the result is plain JSON without repeated names, of height at most MAX_DEPTH |
| `Serialization.ScalarsAreKept` | src/dewey/serialization.py:63-96 | scalars are kept, an enum becomes its member's value, a timestamp, UUID or decimal its text |
| `Serialization.SequencesElementwise` | src/dewey/serialization.py:118-122 | a sequence is encoded element by element |
| `Serialization.MappingsByKey` | src/dewey/serialization.py:98-108 | a mapping is encoded item by item, one field a key |
| `Serialization.ArgumentsMean` | src/dewey/serialization.py:132-160 | call arguments are none for None, and otherwise encoded element by element and item by item |
| `Serialization.EncodingIsIdempotent` | src/dewey/serialization.py:54-129 | encoding what was encoded returns it unchanged |
| `Serialization.ErrorNamesTheCulprit` | src/dewey/serialization.py:48-129 | the path of an error leads to a value that deserves the refusal given; for a depth refusal, one more than MAX_DEPTH levels in, counted along the path |
| `Serialization.DepthIsBlamedRightly` | src/dewey/serialization.py:54-61 | the depth is blamed only for values that nest too deep |
| `YamlWalk.Walker.Walk` | scripts/dependency_admission.py:205-230 | the path-marking walk terminates on cyclic graphs, restores its marks and appends what the specification function finds |
| `YamlWalk.CleanWalkHasNoRepeat` | scripts/dependency_admission.py:205-230 | a walk without errors means no path from its root meets a node twice |
| `YamlWalk.ErrorShowsCycle` | scripts/dependency_admission.py:206-212 | every error line belongs to a node at which a path from the root comes back to itself |
| `YamlWalk.ReachableUsesAreFound` | scripts/dependency_admission.py:216-227 | every uses key of a reachable mapping is recorded, also on cyclic graphs |
| `YamlWalk.WalkIsExact` | scripts/dependency_admission.py:201-233 | a recursion error is reported if and only if a cycle is reachable; exactly the reachable uses keys are recorded, each with its line and the text of its value if that is a string |
| `YamlWalk.UsesNodes` | scripts/dependency_admission.py:185-233 | the same for a whole document, refused exactly when it is not one mapping |

## Left out

- LISTEN/NOTIFY, listeners and sockets: an optimisation; polling is the correctness path.
- SQL text, ORM sessions, savepoints and the isolation levels of a real database: a transaction is one
  step, and SKIP LOCKED is a set of locked ids. The expiry update of a claim becomes visible with its
  commit, together with the dispatch.
- A backend without SKIP LOCKED (SQLite), where the code asks for a single dispatcher.
- Django's claim, release, executor and queries as separate models: they take the same steps as the
  SQLAlchemy ones; only the sweeps differ, and both kinds are modelled.
- The async twins (`async_*.py`, `AsyncDispatcher`): the same logic with awaits; cancellation.
- Heartbeat contents, doctor, system checks, settings, migrations, lazy imports and statistics
  queries: plumbing with easy claims.
- The Huey adapter and contrib wiring: the transport is a call that may raise. A transport that loses or
  duplicates ids needs no modelling of its own, since phase 1 may be taken for any id at any time.
- Trace context, logging, row metadata and `updated_at`.
- Handler lookup and the policy registry with its override merging: a resolved policy is a parameter,
  and so is the wait it computes for a failure.
- The distribution of random jitter: the draw is a parameter, and any real number is allowed.
- Clock skew between hosts: there is one clock. A claim or sweep may carry an older reading of it.
- Rounding of seconds to microseconds, of floating point and of `datetime` arithmetic: time is real.
- Texts of messages and of encoder errors: an error is its kind and its path.
- YAML parsing and the rest of `dependency_admission.py`: the walk starts from a composed node graph.
- Dispatching.Dispatcher.Run: models the loop with a bound on its iterations, as its own
  `max_iterations` parameter gives it; the unbounded loop is its limit. A stop request is seen when the
  loop next looks, as in the code, and a claim that commits and then raises counts as not claimed.
- Dispatching.Dispatcher.Pause: a sleep cut short by a stop request is logged as the whole delay.
- Database.Ledger.Sweep: composes locked passes with nobody else holding a lock; interleaved passes are
  the runs of `Protocol`.
- Exclusion.MutualExclusion: says nothing about a row an operator retries while its handler runs; then
  two live handlers are possible (`Exclusion.RetryRunsTwice`).
- Overtaking.OvertakingIsBounded: counts claims begun after the row is first looked at that did not skip
  it as locked; a claim that finds it locked does so because another claim or sweep is writing it.
