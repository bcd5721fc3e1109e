# Paperclip task engine, workspace writes and rate limiter: a verified model

The project models three parts of the repository and proves what they promise.

**The task engine** (`paperclip/service.py` over `paperclip/db.py` and `paperclip/state_machine.py`).
Five tables, about a dozen service calls, two kinds of state write (the checked transition and the
direct update), one commit point, and a dispatch client that may call back into the service.

- `Records` groups what the tables hold about one task, and names the *moves*: the groups of SQL
  statements that the service always issues together. `Logs` reads a task's audit events.
- `Worlds` adds the committed copy of the tables, the process crash, and the trace of all moves,
  commits and crashes. `Engine` states every service call as a function on worlds.
- What the client does during one submit call is a `Turn`: any number of calls back, to any
  operation, nested to any depth, and then a return or an exception. A client is *clean* if it has
  not called back when it raises.
- `Coupling` says how a task and its queue row go together, `Gates` what keeps the queue behind the
  approval, `Soundness` what holds of every record. `Runs` proves that every call, however nested, is
  a lawful sequence of moves; `Histories` strings together any number of processes that each die at an
  arbitrary action. The theorems about whole runs are in `Histories`, `AuditTrail`, `Approvals`,
  `Dispatching`, `Leases`, `Submissions`, `Sweeps`, and the end-to-end results of single calls in
  `Outcomes`. `Limits`, `Crashes` and `Finality` show where the guarantees end, and exactly when.
- `Effects` says what every call writes, commits and answers, column by column and case by case, on any
  store; `ClientCalls` says, from the columns before the call, exactly when the client is called. Neither
  mentions the functions that the calls are made of, so a call that took another branch or wrote another
  column would contradict them.
- `Database.PaperclipDB` and `Service.PaperclipService` are the classes of the source, statement by
  statement over mutable tables; each method is proved to do what the function of its call says, and
  `Assembly` draws the conclusion for the tables themselves.

**Workspace writes** (`hermes/file_ops.py`, `hermes/repo_ops.py`): path resolution, guarded writes,
reverts, sequential application and dry-run preview (`Paths`, `Workspaces`, `WorkspaceLaws`).

**The sliding-window limiter** (`scripts/rate_limit.py`): a pruned queue per key against a count over
the full history (`RateLimiter`).

Six profiles of the environment appear in the statements. `AnyClient` assumes nothing.
`ListedResets` only excludes resetting an approval that `list_stuck_approval_tasks` does not name.
`CleanClient` moreover has a clean client and no crash; stuck jobs may still be recovered.
`CleanRestarts` has a clean client too, and lets the process die anywhere except where the last commit
was that of a transition to queued or to running (`SafeDeaths`), which is exactly where a death leaves
a task uncoupled from its row (`Histories.CrashUncouplesIff`). `CleanDeaths` lets it die at any moment.
`CleanOperators` has a clean client and no crash, and lets approvals be reset at will.

Where the code and the documentation part ways, the model follows the code:

- `docs/timeout-enforcement.md` says that a running queue item which passes `timeout_at` is timed
  out. `dispatch_task` overwrites `running` with `dispatched` at once, so no reachable store has a
  running row, the sweep never fails a task, and the list of recoverable jobs is always empty
  (`Sweeps.TimeoutsNeverFire`). On stores that do have running rows the sweep is exact.
- `docs/approval-recovery-tools.md` calls the reset of an approval a safe recovery path. It is, for the
  tasks that the tool lists, and for any task without a queue row. Applied to a task that has one, it
  lets the task reach the client with its approval pending (`Limits.ResetKeepsGateIff`), and approving
  the task again replaces a row whose lease may be live (`Limits.UnlistedResetDropsLease`).
- `docs/durable-queue.md` says approved work is persisted before execution begins. The move to queued
  is committed before the queue row is inserted, and a crash in between strands the task
  (`Crashes.CrashStrandsQueuedTask`). The move to running is committed before the row is marked, and a
  crash any time before the next commit leaves the task running with its row queued: the next
  processing takes it for a failure, and the one after that hands it over again although the client
  has accepted it (`Crashes.CrashRepeatsHandOver`). If the result comes in before that, the finished
  task goes back to the queue (`Finality.LateResultIsReopened`).
- `docs/approval-recovery-tools.md` and the cancellation, claiming and recovery calls answer with the new
  state of the task, but only transitions, results and deletions are committed: what those calls wrote
  is lost if the process ends before the next commit, as `scripts/recover_stuck_approvals.py` does right
  after its reset (`Crashes.AnsweredCallsAreLost`).

## Model

| member | source | states |
|---|---|---|
| AuditTrail.AuditLogIsTheEventSource | paperclip/service.py:102-116 | After every single action of every history, any client, all recoveries and crashes at any moment included, both the working tables and the committed ones are such that replaying a task's audit events yields its stored state, and every announced transition, cancellations included, starts from the replayed state and is in the table. |
| AuditTrail.LegalLogMeans | paperclip/state_machine.py:17-23 | A log is legal if and only if each of its events is legal after the replay of the events before it. |
| Assembly.ServeFromEmpty | paperclip/service.py:21-31 | The service, run on its tables from an empty database through any calls of any client and any number of processes that end one after the other, follows the history of those calls and leaves tables, and committed tables, in which audit rows replay to the task rows, no queue row is running or timed out, there is one result event per stored result, and no key without a task. |
| AuditTrail.EveryChangeIsAnEdge | paperclip/state_machine.py:3-14 | With a clean client, across any deaths that cut no enqueue and no hand-over short, each action leaves a task's state alone or moves it along an allowed edge, the one extra edge being running to queued by a scheduled retry, besides creation, deletion and stuck-job recovery; a death takes the task back to its committed state. |
| AuditTrail.TerminalStatesAbsorb | paperclip/state_machine.py:10-13 | With a clean client, a succeeded, failed, rejected or cancelled task keeps its state through any later calls, and once that state is committed through deaths that cut no enqueue and no hand-over short, until it is deleted or recovered from a stuck job. |
| Finality.FinishedTasksStayIff | paperclip/service.py:151-193 | With a clean client and deaths at any moment: a task that is finished in memory and on disk keeps its state through every continuation until it is deleted or recovered, if and only if neither its row nor the row on disk is queued with attempts left. |
| Finality.EndsAreFinalIff | paperclip/service.py:151-193 | In any world right after a death, every later end of a task, in memory and on disk, is final until deletion or recovery, further deaths included that do not cut its own hand-over short, if and only if its row is not queued with attempts left behind a task that is finished, or running without a result. |
| Finality.DeathKeepsEndsFinalIff | paperclip/service.py:207-215 | After any deaths that cut nothing short, the next death keeps all later ends of a task final in this sense if and only if it did not cut short the hand-over of that task, without a result, with attempts left. |
| Finality.LateResultIsReopened | paperclip/service.py:166-193 | A client accepts a task and the process dies; the result that is then recorded is committed, and the next processing takes the finished task back to the queue with its result kept, while attempts are left. |
| AuditTrail.ProcessKeepsFinishedTaskIff | paperclip/service.py:151-193 | When the client's turn leaves the task finished, process_queue keeps that state if and only if the client does not raise or the attempts of the row, as read before dispatching, are used up. |
| AuditTrail.FirstResultWins | paperclip/service.py:218-244 | A committed result survives every later call, callback and crash unchanged until its task is deleted, and the log announces exactly one. |
| AuditTrail.StoringCommits | paperclip/db.py:225-230 | A call that stores a result has committed it when it returns. |
| AuditTrail.ResultEventsMatchResults | paperclip/service.py:243-244 | In every reachable store a task's log announces one result if one is stored and none otherwise. |
| Histories.RowsFollowStates | paperclip/service.py:151-216 | With a clean client, stuck-job recoveries included, after any calls and any deaths that cut no enqueue and no hand-over short: the row is queued if and only if the task is; a running task has a dispatched row; dispatched rows belong to running or finished tasks, dead letters to failed tasks with their attempts used up, cancelled rows to cancelled tasks; no row is running or timed out. |
| Histories.CrashUncouplesIff | paperclip/db.py:26-28 | With a clean client, after any deaths that cut nothing short, the next death, after any number of actions, leaves a task uncoupled from its row if and only if the last commit before it was that of the task's own transition to queued or to running; then the task is queued without a row, or running with its row still queued, and every other task is coupled. |
| Runs.ClientSeesCoupledTables | paperclip/service.py:207-215 | The coupling of tasks and rows also holds at the moment the client is called. |
| Runs.RunsAreLawful | paperclip/service.py:33-485 | Every run of calls under a profile is a trace in which each move is made in the situation its caller checked for, and with a clean client every task is coupled to its row at rest. |
| Histories.HistoriesAreLawful | paperclip/db.py:26-28 | The same across any number of processes that die after an arbitrary action and restart from what was committed; with a clean client, if no death cuts an enqueue or a hand-over short. |
| Dispatching.DispatchesAreBounded | paperclip/service.py:169-193 | With a clean client, across any deaths that cut no enqueue and no hand-over short, a task recovered R times since it was last deleted is handed to the client at most max(1, max_attempts) + R times since then, and at most 1 + R of these calls are accepted. |
| Dispatching.CallsAreBounded | paperclip/service.py:169-193 | With a clean client and deaths at any moment, D of them since the task was last deleted: it is handed over at most max(1, max_attempts) + R times, and at most 1 + R + D of these calls are accepted. |
| Dispatching.TalliesCount | paperclip/service.py:195-216 | Each count of these bounds is the number of the task's calls, acceptances, recoveries, enqueues, retries, or of deaths, in the trace since its last deletion. |
| Dispatching.DispatchesPerEnqueue | paperclip/service.py:119-129 | With a clean client, no deaths, and approvals reset at will: since the task was last deleted, each enqueue allows max(1, max_attempts) calls and one acceptance, and each recovery one more of both. |
| Dispatching.EnqueuedOnce | paperclip/service.py:119-129 | With any client and no deaths, a task whose approval is reset only while it has no row has been enqueued once since it was last deleted if it has a row, and never if it has none. |
| Dispatching.CallsAreAccounted | paperclip/service.py:151-216 | Whatever client, operators and deaths do: since the task was last deleted, it is handed over at most as often as it was enqueued, scheduled for a retry, recovered, or brought back by a death. |
| Dispatching.FailuresAreSpaced | paperclip/service.py:131-132 | With a clean client, across any deaths that cut no enqueue and no hand-over short, the failed attempts of one enqueue, since the task was last deleted, satisfy t_j >= t_i + base * (2^j - 2^i) in whole seconds, although stored retry times are rounded down. |
| Dispatching.RefusalsBuryTheTask | paperclip/service.py:151-193 | Driving process_queue when due or later with a refusing client, by any workers and with any delays, takes exactly max(1, max_attempts) calls that no other worker's lease turns away to reach dead_letter and failed; before that the task is queued with one attempt counted per such call, and later calls change nothing. |
| Dispatching.DriveOnce | paperclip/service.py:168-193 | One refused call changes nothing if another worker holds the lease; otherwise it turns a row with k failures into one with k + 1, still queued if attempts remain and buried if not. |
| Dispatching.EnqueuedTasksWait | paperclip/db.py:107-111 | A task that enqueue_task accepted is queued with no attempts and unleased. |
| Leases.LeasesAreExclusiveIff | paperclip/service.py:134-149 | Over any history of any client, with resets, recoveries and crashes, leases of at least a second and a clock that does not go back: the leases granted to different workers since the task was last deleted are pairwise disjoint if and only if every claim since then came after all leases of other workers had run out that were taken off the row unexpired, by a replaced row, a crash, a deletion that a crash undid, or a claim over an empty worker name. |
| Leases.LeasesAreExclusive | paperclip/service.py:134-149 | With a clock that does not go back, no crash, workers that have names, and approvals reset only while the task has no queue row, any client and recoveries included: the leases granted to different workers since the task was last deleted are pairwise disjoint, through renewals, retries and stuck-job resets. |
| Leases.DispatchesFallInsideLeases | paperclip/service.py:163-167 | With leases of at least a second, over any history, every dispatch for a worker happens inside a lease granted to that worker; the instant is the clock reading of process_queue that the claim used too. |
| Leases.ClaimKeepsBooked | paperclip/service.py:139-147 | After a claim that the guard lets through, every granted lease has run out, or the row or a dropped lease of the same worker lasts as long. |
| Approvals.OnlyClearedTasksReachTheClient | paperclip/service.py:195-216 | Whatever the client does, and across crashes: if the approval of a task is reset only while the task has no queue row, the client is only ever handed the task when its approval status is approved and its log has a grant after its last request or reset. |
| Approvals.ListedResetsSpareRows | paperclip/service.py:470-485 | Resetting only the approvals that list_stuck_approval_tasks names satisfies that condition, for every task and any client, across crashes. |
| Limits.ResetKeepsGateIff | paperclip/service.py:478-485 | After the reset of a task's approval in any world reached with listed resets, every continuation with listed resets, any client and any crashes hands the task over only when it is cleared, if and only if the task had no queue row. |
| Approvals.GrantedMeans | paperclip/service.py:111-112 | A log counts as granted if and only if some grant in it is followed by no request and no reset. |
| Approvals.ApprovalStatusNeverDrifts | paperclip/service.py:448-476 | In every reachable store, unrestricted resets included, reconciliation reports nothing, and the stuck approvals are exactly the pending tasks for which `(updated_at + ttl) <= now`, all with that reason. |
| Effects.ReconciliationIsExact | paperclip/service.py:448-468 | On any store reconciliation reports, in the listed order, exactly the tasks that are pending without status pending, approved with status pending or rejected, or rejected without status rejected. |
| Effects.ExpiredAreExact | paperclip/service.py:429-446 | On any store the expired approvals are, in the listed order, exactly the pending tasks with `(updated_at + ttl) <= now`, whatever their approval status. |
| Effects.ExpiryOnlyNotes | paperclip/service.py:445-446 | Each expired task gets one approval_expired event; no other column, task or key changes and nothing is committed. |
| Effects.StuckAreExact | paperclip/service.py:470-476 | On any store a task is named stuck if and only if it is listed and expired or misaligned, and the reason is the expiry whenever it is expired. |
| Effects.ResetStartsTheClock | paperclip/service.py:482-483 | After a reset at `wall` the task is expired at a moment if and only if the TTL has passed since `wall`. |
| Effects.ListedRecoveryResetsIff | scripts/recover_stuck_approvals.py:21-33 | Listing and then recovering a task resets state and status to pending if and only if the list names it; an expiry is noted before the reset, and an unlisted task keeps its record. |
| Submissions.ResubmissionIsIdempotent | paperclip/service.py:34-39 | From the moment a key is committed until its task is deleted, through any calls and crashes, submitting it again with any payload returns that task and changes neither tables nor log nor the calls to the client. |
| Submissions.SubmittingTwice | paperclip/service.py:33-87 | After any history, submitting a new key and then submitting it again with any payload is as good as submitting it once, whatever the client does short of deleting the task. |
| Submissions.RecordedKeysNameTasks | paperclip/db.py:180-191 | In every reachable store each recorded key names an existing task, and submitting it again is a no-op that returns the task. |
| Submissions.RegistrationIsCommitted | paperclip/service.py:74-81 | The key of a new submission is committed by the submission's first transition. |
| Sweeps.SweepRaisesIff | paperclip/service.py:381-395 | On any store the timeout sweep raises if and only if it lists a row that is running with `timeout_at <= now` and whose task is not running. |
| Sweeps.SweepIsExact | paperclip/service.py:381-395 | Otherwise it fails exactly the listed tasks whose rows are running with `timeout_at <= now`, reports each once, and leaves every other record and all keys alone. |
| Sweeps.SweepStopsAt | paperclip/service.py:390-394 | Where the sweep raises, the stranded row is marked timed out, the overdue tasks listed before it have failed, the rest is untouched, and the error is KeyError without a task and ValueError with one. |
| Sweeps.SecondSweepIsIdle | paperclip/service.py:381-395 | If the running rows belong to running tasks and are all listed, a second sweep at the same moment does nothing. |
| Sweeps.RecoverableIsExact | paperclip/service.py:343-360 | The recoverable jobs are, in the listed order, exactly the running rows that name a worker with `lease_expires_at <= now`. |
| Sweeps.RecoveringEmptiesTheList | paperclip/service.py:362-379 | Recovering every listed job empties the list if and only if the task of every listed job exists. |
| Sweeps.TimeoutsNeverFire | paperclip/service.py:210-211 | In every reachable store, after any history, the sweep does nothing and no job is listed as recoverable, however late it is. |
| Outcomes.SubmissionWaitsForApproval | paperclip/service.py:77-87 | A new submission with `required` and a status other than approved ends pending, with status pending, no queue row, and no call to the client. |
| Outcomes.DueTaskIsHandedOver | paperclip/service.py:151-167 | Processing a queued task whose row is due, by any worker that may claim it, claims it, makes it running by a committed transition, marks the row dispatched with its timeout and hands it over once; what follows is the client's turn and, if the client raises, the handler on the attempts read before. |
| Outcomes.RefusedSubmission | paperclip/service.py:81-87 | A new submission whose approval is not required or already given, refused by the client, ends queued with one failed attempt, or buried if one attempt is all there is. |
| Outcomes.WaitingTasksAreReachable | paperclip/service.py:81-87 | With more than one attempt, one refused submission to an empty database leaves such a waiting task, so the statements about waiting tasks are not empty. |
| Outcomes.RunningTaskTakesResult | paperclip/service.py:236-244 | A running task takes its first result: succeeded or failed by the run status, committed, its row untouched. |
| Outcomes.CancelledTaskIgnoresResult | paperclip/service.py:229-234 | A result that arrives after cancellation adds one audit event and changes nothing else. |
| Outcomes.CancellingStopsTheQueue | paperclip/service.py:291-306 | Cancelling raises if and only if the task is finished; otherwise the task is cancelled and processing its row, at any time and by any worker, does nothing. |
| Outcomes.ApprovalRunsToCompletion | scripts/test_integration_flow.py:78-90 | Approving a pending task hands it over, and a client that reports its result before returning leaves it finished with the result committed. |
| ClientCalls.SubmissionCallsClientIff | paperclip/service.py:77-87 | A new submission, whatever the client does, calls the client if and only if it is not the case that approval is required and not approved (and the clock does not stand before the row's stamp); it ends pending without a row and without a call if and only if approval is required and not approved; what the caller is told in the cases without a call. |
| ClientCalls.ProcessingCallsClientIff | paperclip/service.py:151-216 | process_queue calls the client if and only if the row is queued and due, no other named worker's lease is running, and the task is queued, or approved and processed for nobody. |
| ClientCalls.ApprovalCallsClientIff | paperclip/app.py:256-261 | Approving calls the client if and only if the task is pending or being validated, a client's exception is passed on, and otherwise nothing is written. |
| ClientCalls.OwnerIsServed | paperclip/service.py:141-147 | A worker that claimed a task may process it at any time, however long its own lease still runs: a due task is handed over for it. |
| ClientCalls.RefusedOwnerIsServedAgain | paperclip/service.py:141-147 | After a refusal with attempts left the row still names the worker, and the worker is served again as soon as the retry is due, its lease running or not. |
| ClientCalls.AcceptedTaskRuns | paperclip/service.py:207-216 | Accepted without a callback, the task is running, its row dispatched with start and timeout and an unchanged count, and the caller is told that it runs. |
| Effects.EdgesOfTheTable | paperclip/state_machine.py:3-18 | The transitions allowed are the fifteen edges of the table; a state is terminal if and only if no edge leaves it, and every other state can be cancelled. |
| Effects.ReadingTells | paperclip/service.py:308-338 | A caller is told the id, state, approval status, times and result that the rows hold, and nothing without a task. |
| Effects.TransitionWrites | paperclip/service.py:89-117 | In all cases: KeyError and ValueError write nothing; a transition along an edge writes state, time and the status of its target, the announcement and the verdict event, commits, touches no other task or key, and answers with the new state. |
| Effects.RejectionWrites | paperclip/app.py:256-257 | Rejecting a pending task commits state and status rejected with both events. |
| Effects.EnqueueWrites | paperclip/service.py:119-129 | Only an approved task is queued; the transition is committed, the fresh row, due at once with no attempts and no worker, is not. |
| Effects.ClaimTurnedAwayIff | paperclip/service.py:135-144 | A claim raises KeyError without a row and ValueError if and only if the row names another, non-empty worker whose lease ends after now. |
| Effects.ClaimWrites | paperclip/service.py:145-149 | A claim writes the worker and the whole second in which the lease ends, with its event, and nothing else. |
| Effects.OwnLeaseIsRenewed | paperclip/service.py:143 | After its own claim a worker's next claim is never turned away, whatever the time. |
| Effects.ProcessingIsIdle | paperclip/service.py:151-165 | Without a row, with a row that is not queued or not due, and while another worker's lease runs, process_queue changes nothing and answers KeyError, the task as it is, and ValueError. |
| Effects.HandOverWrites | paperclip/service.py:207-211 | When the client is called the task is running on disk and in memory, the row dispatched with start and timeout in memory only. |
| Effects.BackoffDoubles | paperclip/service.py:131-132 | The backoff starts at the configured seconds and doubles with every further attempt. |
| Effects.RetryWrites | paperclip/service.py:182-193 | A failure with attempts left: queued state, counted attempt, next attempt in the second in which the backoff ends, one event, nothing committed, and nothing revived that the client deleted. |
| Effects.BurialWrites | paperclip/service.py:171-181 | The last failure: dead letter and, for a running task, the committed failure and its event; for any other task an exception after the row is marked. |
| Effects.ResultAnswers | paperclip/service.py:218-251 | A callback in all cases: KeyError, the stored result, the ignored result of a cancelled task, a body without a status, a task that is not running, and the verdict with the stored, committed result. |
| Effects.FirstResultWrites | paperclip/service.py:236-251 | The first result of a running task: verdict by the body's status, result and announcement committed, provenance noted afterwards and only if there is one. |
| Effects.CancellationWrites | paperclip/service.py:291-306 | Cancelling in all cases: an unknown task, a cancelled one, a finished one, and otherwise state and row cancelled with the previous state in the event, uncommitted. |
| Effects.DeletionWrites | paperclip/service.py:414-420 | Deleting leaves no row, event or key of the task and touches no other task or key, committed. |
| Effects.JobRecoveryWrites | paperclip/service.py:362-379 | A job is recovered if and only if task and row exist and the row names a worker whose lease has ended by now; the row loses worker, lease, start and timeout and keeps its count. |
| Effects.ResetWrites | paperclip/service.py:478-485 | The reset writes state and status pending as of now, with its event, on any existing task. |
| Effects.SubmissionTurnedDown | paperclip/service.py:34-76 | A recorded key answers with its task as it is now; an invalid payload, a taken id and a key without a task raise, and only the last leaves a received task behind. |
| Effects.RegistrationWrites | paperclip/service.py:50-78 | A new submission writes the received task with the requested status, its key and its events, in order and uncommitted. |
| Limits.UncleanClientRequeuesFinishedTask | paperclip/service.py:182-193 | A client that reports success and then raises sends the finished task back to the queue, its result kept, while attempts are left. |
| Limits.UncleanClientAcceptsTwice | paperclip/service.py:168-193 | A client that deletes the task, submits it again, accepts it and only then raises is given it a second time by the next processing: two accepted calls for one enqueue, with no recovery and no death. |
| Limits.UnlistedResetRepeatsHandOver | paperclip/service.py:478-485 | Any task, in whatever state, is called and accepted once more when its approval is reset and granted again, with no recovery. |
| Limits.UnlistedResetSkipsApproval | paperclip/service.py:478-485 | Any task with a queue row, whatever the states of both, is handed over with its approval pending and not granted by a reset that nobody listed, a claim, a stuck-job recovery and one processing. |
| Limits.UnlistedResetDropsLease | paperclip/db.py:107-111 | Resetting and approving a leased task again replaces its row, and another worker is granted an overlapping lease. |
| Limits.CrashDropsLease | paperclip/service.py:147-148 | A claim is not committed; after a crash another worker is granted an overlapping lease. |
| Limits.UnnamedHolderIsIgnored | paperclip/service.py:141 | A lease held under an empty worker name does not keep another worker from an overlapping one. |
| Crashes.CrashStrandsQueuedTask | paperclip/service.py:125-127 | A crash between the committed move to queued and the insertion of the row leaves a task that can be neither processed nor approved. |
| Crashes.QueuedWithoutRowIsStuck | paperclip/service.py:151-154 | Any task that is queued without a row can be neither processed, claimed, recovered nor approved. |
| Crashes.HalfwayToRunningIsRetriedIff | paperclip/service.py:166-193 | Processing a due row whose task is already running counts a failure: the task goes back to the queue if and only if attempts are left, and is buried otherwise. |
| Crashes.CrashRepeatsHandOver | paperclip/service.py:207-215 | If the process dies right after a client accepted the task, and attempts are left, two later processings have it accepted once more with no stuck-job recovery. |
| Crashes.SavedOnReturn | paperclip/db.py:225-230 | A rejection, a deletion and a result without memory provenance have been committed when the call that made them returns. |
| Crashes.AnsweredCallsAreLost | paperclip/service.py:297-306 | Cancelling, claiming, recovering and listing commit nothing: if the process dies during the call or right after it, the tables are what they were on disk before. |
| Crashes.ScheduledRetryIsLost | paperclip/service.py:182-193 | When a retry has been scheduled, the disk still has the task running, its row queued, and the attempts as they were. |
| Service.PaperclipService.TransitionTask | paperclip/service.py:89-117 | The statements and the commit are those of one checked transition: table, approval status, event and verdict event together, or an error and nothing. |
| Service.PaperclipService.EnqueueTask | paperclip/service.py:119-129 | An approved task is queued by a committed transition and then gets a fresh row and its event. |
| Service.PaperclipService.ClaimQueueItem | paperclip/service.py:134-149 | The row is leased to the worker until the truncated end of the lease; the claim raises if and only if there is no row or another named worker's lease ends after now, so an owner always renews. |
| Service.PaperclipService.ProcessQueue | paperclip/service.py:151-193 | Only a queued, due row is claimed and dispatched; a failure of any kind is answered from the row as it was read before dispatching. |
| Service.PaperclipService.HandleFailure | paperclip/service.py:168-193 | The except clause: dead letter when the attempts are used up, a scheduled retry otherwise. |
| Service.PaperclipService.DeadLetter | paperclip/service.py:171-181 | The row is buried first; the transition to failed may raise, and only if it does not is the dead letter announced. |
| Service.PaperclipService.ScheduleRetry | paperclip/service.py:182-193 | The task is put back to queued whatever its state, and the row waits for the exponential backoff. |
| Service.PaperclipService.DispatchTask | paperclip/service.py:195-216 | An approved task is enqueued, a queued one (leased by the worker, if there is one) is handed to the client, whose calls back come before the outcome. |
| Service.PaperclipService.StartTask | paperclip/service.py:207-211 | The committed move to running, then a row that ends up dispatched with its timeout. |
| Service.PaperclipService.SubmitTask | paperclip/service.py:33-87 | A repeated key returns its task; otherwise validation, the inserts, and the way to the approval or to the queue, which `ClientCalls.SubmissionCallsClientIff` decides on the payload. |
| Service.PaperclipService.Register | paperclip/service.py:50-78 | The rows and events written before the first transition, and the two ways an insert can fail. |
| Service.PaperclipService.CreateTask | paperclip/service.py:50-73 | The task row with its received and webhook events, or nothing when the id is taken. |
| Service.PaperclipService.RecordKey | paperclip/service.py:74-76 | The key and its event, or nothing when the key is taken. |
| Service.PaperclipService.Admit | paperclip/service.py:81-87 | Validation, then a pending approval if one is required and not yet approved, or else the queue and one processing of it. |
| Service.PaperclipService.RecordResult | paperclip/service.py:218-251 | An existing result wins, a cancelled task ignores the new one, and otherwise the checked transition comes before the result is stored. |
| Service.PaperclipService.StoreResultWithAudit | paperclip/db.py:225-230 | The result and its event are written and committed together. |
| Service.PaperclipService.CancelTask | paperclip/service.py:291-306 | The direct write of cancelled to task and row with its event, refused for finished tasks. |
| Service.PaperclipService.DeleteTask | paperclip/service.py:414-420 | All rows of the task and its keys are gone and the deletion is committed. |
| Service.PaperclipService.RecoverStuckJob | paperclip/service.py:362-379 | A row whose named worker's lease has run out is queued again, unleased, together with its task, whatever their states. |
| Service.PaperclipService.ListRecoverableStuckJobs | paperclip/service.py:343-360 | The loop collects exactly what the specification of recoverable jobs lists, in order. |
| Service.PaperclipService.TimeOutTask | paperclip/service.py:390-394 | The row is marked before the checked transition, which may raise. |
| Service.PaperclipService.SweepRow | paperclip/service.py:384-394 | A listed row is timed out if and only if it is running and overdue; other records are untouched. |
| Service.PaperclipService.EnforceTimeouts | paperclip/service.py:381-395 | The loop over a snapshot of the rows does what the sweep over current rows does, and stops where a transition raises. |
| Service.PaperclipService.ReconcileApprovalStatus | paperclip/service.py:448-468 | The loop reports exactly the listed tasks whose status contradicts their state, in order. |
| Service.PaperclipService.FindExpiredApprovals | paperclip/service.py:429-446 | Exactly the pending tasks with `(updated_at + ttl) <= now` are listed, in order, and an event is recorded for each. |
| Service.PaperclipService.ListStuckApprovalTasks | paperclip/service.py:470-476 | Exactly the listed tasks that are misaligned or expired are named, one entry a task, the expiry overriding the mismatch. |
| Service.PaperclipService.RecoverStuckApproval | paperclip/service.py:478-485 | The direct write of pending to state and status with its event, whatever the task's state. |
| Service.PaperclipService.ApproveTask | paperclip/app.py:256-261 | The transition to approved and then a dispatch outside process_queue, so a client's exception is not retried. |
| Service.PaperclipService.Perform | paperclip/app.py:214-261 | Any call of the HTTP handlers, the operators or the client takes the tables where its function takes the world. |
| Service.PaperclipService.Serve | scripts/test_integration_flow.py:50-53 | Calls served one after the other, as by a client that calls back. |
| Service.PaperclipService.Restart | paperclip/db.py:12-24 | A new process sees exactly what was committed. |
| Service.PaperclipService.ReadTask | paperclip/service.py:308-338 | There is a view if and only if there is a task row; its state, approval status and times are those of the task row and its result that of the results table. |
| Service.PaperclipService.constructor | paperclip/service.py:22-31 | A new service starts from empty tables, in memory and on disk. |
| Database.PaperclipDB.CreateTask | paperclip/db.py:30-58 | The insert changes only the new task's row and fails when the id is taken. |
| Database.PaperclipDB.UpdateTaskState | paperclip/db.py:68-78 | The update writes the approval status only when one is given and touches nothing when the task is missing. |
| Database.PaperclipDB.AddAuditEvent | paperclip/db.py:80-84 | The event is appended to the one audit table and seen only in its own task's log. |
| Database.PaperclipDB.EnqueueTask | paperclip/db.py:107-111 | Insert or replace: a fresh queued row, due at once, unleased. |
| Database.PaperclipDB.ClaimQueueItem | paperclip/db.py:113-117 | Only the lease columns of an existing row change. |
| Database.PaperclipDB.StoreResult | paperclip/db.py:193-197 | Insert or replace of the task's result. |
| Database.PaperclipDB.CreateIdempotencyRecord | paperclip/db.py:180-184 | The insert fails when the key is taken. |
| Database.PaperclipDB.DeleteTaskRows | paperclip/db.py:208-216 | Nothing of the task is left in the five tables and nothing else changes. |
| Database.DeletedEvents | paperclip/db.py:213 | Deleting a task's audit rows empties its log and keeps every other one. |
| Paths.TargetsAreConfined | hermes/file_ops.py:36-43 | A path that resolves names a target that begins with the root, is longer, and is free of `.`, `..`, empty names and slashes, whatever segments it had. |
| Paths.ReportedPathsResolve | hermes/repo_ops.py:40 | The relative path reported for a target resolves back to that target. |
| Paths.DetoursCancel | hermes/file_ops.py:40 | Going into a directory and back out anywhere in a path does not change what it names. |
| Paths.NeutralSegments | hermes/file_ops.py:40 | `.` and empty segments, and `..` at the top of the file system, do not move, anywhere in a path. |
| Paths.SplitIsExact | hermes/file_ops.py:40 | Joining the segments of a path with slashes gives the path back. |
| Paths.AbsolutePathsResolveIff | hermes/file_ops.py:40-42 | An absolute path replaces the root and resolves, to itself, if and only if it lies strictly below the root. |
| Paths.PlainPathsResolve | hermes/file_ops.py:37-43 | A relative path of plain names resolves to those names below the root, and the empty path is refused as missing. |
| Paths.ClimbingPathsResolveIff | hermes/file_ops.py:40-42 | A path that leaves the root by `..` resolves if and only if it comes back strictly below it. |
| Workspaces.Workspace.WriteFile | hermes/file_ops.py:58-80 | The write succeeds if and only if the path is valid, is not a directory and does not lie below a file, and the file is absent, may be overwritten or is equal; it sets that one file, and the result gives the target, the content it had before, both sizes and digests, and whether anything changed; a refusal changes nothing and says why. |
| Workspaces.Workspace.RevertFile | hermes/file_ops.py:83-98 | The revert succeeds if and only if the path is valid, is not a directory and does not lie below a file; the target reads as the restored content afterwards, and every field of the result is that of the file before and after. |
| Workspaces.Workspace.InspectChange | hermes/repo_ops.py:30-51 | The record of a change on the present files, without touching them. |
| Workspaces.Workspace.ApplyRepoWrite | hermes/repo_ops.py:54-78 | The loop makes the longest prefix of changes that can be made in turn and succeeds if and only if that is all of them; the records describe each change on the files as they were at its turn, and the error is that of the first change refused. |
| Workspaces.Workspace.PreviewRepoWrite | hermes/repo_ops.py:81-84 | The records of all changes on the initial files, which stay as they are; it fails if and only if there is no change or some path is invalid or a directory, with the error of the first such change. |
| Workspaces.ProgressReaches | hermes/repo_ops.py:59-61 | The application gets past a change if and only if it can be made after the ones before it. |
| WorkspaceLaws.AppliesIff | hermes/file_ops.py:58-69 | An application succeeds if and only if every change, at its turn, has a valid path that is no directory and below no file, and finds the file absent, overwritable or equal. |
| WorkspaceLaws.FailsAtFirstRefusal | hermes/repo_ops.py:59-61 | A failing application stops at the first change that cannot be made. |
| WorkspaceLaws.ApplicationIsConfined | hermes/file_ops.py:41-42 | No file outside the root is created or changed, whatever the changes and wherever they stop, and no directory is made outside it but the missing ones that the root lies in. |
| WorkspaceLaws.ApplicationKeepsTree | hermes/file_ops.py:60 | However many changes were made, no path is a file and a directory at once. |
| WorkspaceLaws.AppliedTargetsAreApart | hermes/file_ops.py:60-62 | No application succeeds with a target below or above another target or an existing file, in whatever order the changes come. |
| WorkspaceLaws.PreviewPredictsApply | hermes/repo_ops.py:81-84 | For pairwise distinct targets and an application that succeeds, the preview succeeds too and reports of each change what the application reports at its turn. |
| WorkspaceLaws.ReapplyingIsIdle | hermes/repo_ops.py:54-78 | Applying the same changes again after they were applied succeeds, leaves the files alone and reports no change. |
| WorkspaceLaws.UndoRestoresEveryView | hermes/revert_resolution.py:42-46 | Reverting a sequence of successful writes, last first, each to the previous content that its own result recorded, succeeds at every step and restores what reading any file yields; files the writes created remain, empty, and nothing else differs. |
| WorkspaceLaws.PreviewTells | hermes/file_ops.py:50-55 | A change preview is one line, says that nothing changes if and only if nothing does, and otherwise shows the first eighty characters of the old text and then of the new one. |
| WorkspaceLaws.EscapedLines | hermes/file_ops.py:53-54 | In a preview every newline is written as a backslash and an n, and the lines between them stay as they are. |
| WorkspaceLaws.RefusedBecause | hermes/file_ops.py:58-67 | The error of a refused change is that of its path, of a directory in its place, of a file above it, or of a differing file without overwrite; in every other case it is made. |
| RateLimiter.InMemoryRateLimiter.Allow | scripts/rate_limit.py:13-22 | A request is accepted if and only if fewer than `limit` of all timestamps ever accepted for its key lie in (now - window, now]; other keys are not affected. |
| RateLimiter.InMemoryRateLimiter.Pruned | scripts/rate_limit.py:17-18 | The popping loop leaves as many entries as the full history has in the window. |
| RateLimiter.OneWindow | scripts/rate_limit.py:19-20 | No window, wherever it ends, holds more than `limit` acceptances. |
| RateLimiter.ManyWindows | scripts/rate_limit.py:19-20 | k windows in a row hold at most k times the limit. |
| RateLimiter.CountMeans | scripts/rate_limit.py:17-19 | The count in a window is the number of history entries with a timestamp in it. |

## Left out

- HTTP handlers, authentication, dispatch transport, traces, metrics, logging and schema validation; a payload carries the verdict of its schema, and the client is a `Turn`.
- `paperclip/postgres_db.py`: it commits in every helper and lacks `mark_queue_cancelled`; the model is SQLite.
- Thread interleavings on the shared connection: a service call is one step, interrupted only by the client calling back or by the process dying.
- SQL statements that fail for other reasons than a taken key, and so the rollback branch of `run_in_transaction`; dying before the commit has the same effect on the tables.
- Task fields that no decision reads (title, tenant, actors, error texts, correlation ids, timestamps of audit events), list functions for tenants and retention, and the approval review summary.
- Task directories and `storage.persist_result`, whose disk errors come after the tables are written.
- The order in which SQLite lists rows with equal `created_at` is an input of the calls that loop over them; each row is listed once.
- `utcnow()` is read once per call; the `now` argument and that reading are otherwise unrelated.
- Dispatching.DispatchesAreBounded: assumes a clean client, resets of listed approvals only, and no death right after the commit of a transition to queued or running, because the bounds fail otherwise (`Limits.UncleanClientAcceptsTwice`, `Limits.UnlistedResetRepeatsHandOver`, `Crashes.CrashRepeatsHandOver`); what holds without these is in `Dispatching.CallsAreBounded`, `Dispatching.DispatchesPerEnqueue` and `Dispatching.CallsAreAccounted`.
- Dispatching.FailuresAreSpaced: counts the failures up to the first dead letter, because a dead letter sets no retry time for a later recovery to respect.
- Leases.LeasesAreExclusive: assumes named workers, no crash, and resets only while there is no row; `Leases.LeasesAreExclusiveIff` says what decides without these, and `Limits.UnnamedHolderIsIgnored`, `Limits.CrashDropsLease` and `Limits.UnlistedResetDropsLease` give the inputs.
- Leases.LeasesAreExclusiveIff: assumes leases of at least a second, because shorter ones are stored as already over.
- RateLimiter.InMemoryRateLimiter.Allow: requires a clock that does not go back, and timestamps are integers of any unit, not floating-point seconds.
- Symlinks, file modes, newline translation and encodings, and failing disk operations other than a file or a directory in the way; hashing and UTF-8 length are functions given with the workspace.
- The workspace root is the resolved one: with a relative or symlinked root `target.relative_to(root)` (hermes/repo_ops.py:40) raises even where the write is possible, and that is not part of this model.
- Assembly.ServeFromEmpty: its processes end between calls; deaths in the middle of a call are stated on the functions that the classes are proved to follow.
- Database.PaperclipDB.AddAuditEvent: actor, payload details and time of an event are omitted, because no decision reads them.
- Database.PaperclipDB.ClaimQueueItem: does not write `updated_at`, because nothing reads it.
- Database.PaperclipDB.StoreResult: does not write `created_at`, because nothing reads it.
- Service.PaperclipService.ListRecoverableStuckJobs: lists task ids; the worker and lease beside each id are columns of its row.
- Service.PaperclipService.ReconcileApprovalStatus: lists task ids; the state and status beside each id are columns of its task.
- Service.PaperclipService.FindExpiredApprovals: lists task ids; the state, status and time beside each id are columns of its task.
- Service.PaperclipService.DeleteTask: does not return whether there was a task to delete, which its caller could read before.
- Service.PaperclipService.ReadTask: omits the approval review summary and the descriptive fields, because no decision reads them.
- The other updates of a queue row (paperclip/db.py:119-159) are methods of `Database.PaperclipDB` too; like the claim they change the columns they name, apart from `updated_at` and `last_error`, and have no rows in the table above.
- AuditTrail.TerminalStatesAbsorb: assumes that an end is committed if the process dies, because a cancellation is not committed when it is answered (`Crashes.AnsweredCallsAreLost`), and that no death cuts a hand-over short, because a committed end can be undone after that (`Finality.LateResultIsReopened`); `Finality` says exactly when.
- Policy, redaction, action labels, key registries, migrations and dashboards, which branch shallowly and would add only easy members.
