// What the five tables hold about one task, and the moves that change it.
//
// A move is a group of SQL statements that the service always issues together with no commit
// in between, such as an update of the state column followed by the audit event announcing it.

module Records {
  import opened Basics
  import opened StateMachine

  datatype ApprovalStatus = StatusNotRequired | StatusPending | StatusApproved | StatusRejected

  // The parts of a task request that the engine reads.  `wellFormed` is the verdict of the
  // JSON schema, which also demands a non-empty id.
  datatype Payload = Payload(id: Id, wellFormed: bool, approvalRequired: bool, approvalStatus: ApprovalStatus)

  datatype Task = Task(state: State, approval: ApprovalStatus, payload: Payload, createdAt: Seconds, updatedAt: Seconds)

  datatype RowStatus = RowQueued | RowRunning | RowDispatched | RowDeadLetter | RowCancelled | RowTimedOut

  datatype Row = Row(
    status: RowStatus,
    attempts: int,
    maxAttempts: int,
    nextAttemptAt: Seconds,
    startedAt: Option<Seconds>,
    timeoutAt: Option<Seconds>,
    worker: Option<Worker>,
    leaseExpiresAt: Option<Seconds>)

  // `status` is absent when the callback body has no run status.
  datatype RunResult = RunResult(status: Option<string>, body: string, memoryProvenance: bool)

  datatype Event =
    | TaskReceived
    | WebhookRegistered
    | IdempotencyKeyRecorded(key: Key)
    | ApprovalRequested
    | ApprovalGranted
    | ApprovalRejected
    | ApprovalExpired
    | ApprovalReset
    | StateChanged(from: State, to: State)
    | TaskEnqueued
    | TaskClaimed(worker: Worker, leaseExpiresAt: Seconds)
    | TaskRetryScheduled(attempts: int, nextAttemptAt: Seconds)
    | TaskDeadLettered(attempts: int)
    | TaskCancelled(previous: State)
    | TaskRecovered(previousWorker: Worker)
    | TaskTimedOut
    | ResultRecorded
    | ResultIgnored
    | MemoryProvenanceRecorded

  // The tasks row, the task_queue row, the task_results row and the audit events of one task.
  datatype Record = Record(task: Option<Task>, row: Option<Row>, result: Option<RunResult>, log: seq<Event>)

  const BLANK := Record(None, None, None, [])

  datatype Move =
    | Create(task: Task, webhook: bool)                   // submit_task inserts the task
    | NoteKey(key: Key)                                   // ... and its idempotency key
    | Ask                                                 // ... and asks for an approval
    | Note(event: Event)                                  // an audit event on its own
    | Shift(to: State, at: Seconds)                       // the statements of transition_task
    | Insert(maxAttempts: int, at: Seconds)               // enqueue_task inserts the queue row
    | Claim(worker: Worker, now: Micros, expiry: Seconds) // claim_queue_item
    // dispatch_task marks the row and calls the client, which accepts or raises; `now` is the
    // clock of process_queue when it acts for a worker
    | Hand(at: Seconds, timeoutAt: Seconds, accepted: bool, holder: Option<Worker>, now: Micros)
    | Retry(attempts: int, nextAttemptAt: Seconds, failedAt: Seconds, wall: Seconds) // process_queue schedules a retry
    | Bury(attempts: int, failedAt: Seconds)              // ... or gives up
    | Keep(result: RunResult)                             // store_result_with_audit
    | Cancel(at: Seconds)                                 // cancel_task
    | Requeue(now: Micros)                                // recover_stuck_job
    | Reset(at: Seconds)                                  // recover_stuck_approval
    | Expire                                              // enforce_timeouts marks the row
    | Erase                                               // delete_task_data

  function StateOf(r: Record): Option<State> {
    if r.task.Some? then Some(r.task.value.state) else None
  }

  predicate InState(r: Record, s: State) {
    r.task.Some? && r.task.value.state == s
  }

  predicate RowIs(r: Record, s: RowStatus) {
    r.row.Some? && r.row.value.status == s
  }

  // The approval_status column written by a transition to `to`.
  function ApprovalFor(to: State): Option<ApprovalStatus> {
    match to
    case PendingApproval => Some(StatusPending)
    case Approved => Some(StatusApproved)
    case Rejected => Some(StatusRejected)
    case _ => None
  }

  // update_task_state on an existing task.
  function WithState(t: Task, to: State, at: Seconds, approval: Option<ApprovalStatus>): Task {
    t.(state := to, updatedAt := at, approval := if approval.Some? then approval.value else t.approval)
  }

  // An UPDATE of the task's row in `tasks`; it touches nothing when there is none.
  function SetState(r: Record, to: State, at: Seconds, approval: Option<ApprovalStatus>): Record {
    if r.task.Some? then r.(task := Some(WithState(r.task.value, to, at, approval))) else r
  }

  // An UPDATE of the task's row in `task_queue`.
  function SetRow(r: Record, q: Row): Record {
    if r.row.Some? then r.(row := Some(q)) else r
  }

  const NO_ROW := Row(RowQueued, 0, 0, 0, None, None, None, None)

  function RowOf(r: Record): Row {
    if r.row.Some? then r.row.value else NO_ROW
  }

  function Say(r: Record, e: Event): Record {
    r.(log := r.log + [e])
  }

  // The verdict event that transition_task adds after the state change.
  function SayVerdict(r: Record, to: State): Record {
    if to == Approved then Say(r, ApprovalGranted)
    else if to == Rejected then Say(r, ApprovalRejected)
    else r
  }

  function FreshRow(maxAttempts: int, at: Seconds): Row {
    Row(RowQueued, 0, maxAttempts, at, None, None, None, None)
  }

  function Apply(r: Record, m: Move): Record {
    match m
    case Create(task, webhook) =>
      var r1 := Say(r.(task := Some(task)), TaskReceived);
      if webhook then Say(r1, WebhookRegistered) else r1
    case NoteKey(key) => Say(r, IdempotencyKeyRecorded(key))
    case Ask => Say(r, ApprovalRequested)
    case Note(event) => Say(r, event)
    case Shift(to, at) =>
      if r.task.None? then r else
        SayVerdict(Say(SetState(r, to, at, ApprovalFor(to)), StateChanged(r.task.value.state, to)), to)
    case Insert(maxAttempts, at) => Say(r.(row := Some(FreshRow(maxAttempts, at))), TaskEnqueued)
    case Claim(worker, now, expiry) =>
      Say(SetRow(r, RowOf(r).(worker := Some(worker), leaseExpiresAt := Some(expiry))), TaskClaimed(worker, expiry))
    case Hand(at, timeoutAt, accepted, holder, now) =>
      SetRow(r, RowOf(r).(status := RowDispatched, startedAt := Some(at), timeoutAt := Some(timeoutAt)))
    case Retry(attempts, nextAttemptAt, failedAt, wall) =>
      Say(SetRow(SetState(r, Queued, wall, None),
                 RowOf(r).(status := RowQueued, attempts := attempts, nextAttemptAt := nextAttemptAt)),
          TaskRetryScheduled(attempts, nextAttemptAt))
    case Bury(attempts, failedAt) => SetRow(r, RowOf(r).(status := RowDeadLetter, attempts := attempts))
    case Keep(result) => Say(r.(result := Some(result)), ResultRecorded)
    case Cancel(at) =>
      if r.task.None? then r else
        Say(SetRow(SetState(r, Cancelled, at, None), RowOf(r).(status := RowCancelled)),
            TaskCancelled(r.task.value.state))
    case Requeue(now) =>
      if RowOf(r).worker.None? then r else
        Say(SetState(SetRow(r, RowOf(r).(status := RowQueued, worker := None, leaseExpiresAt := None, startedAt := None,
            timeoutAt := None)),
                     Queued, Floor(now), None),
            TaskRecovered(RowOf(r).worker.value))
    case Reset(at) => Say(SetState(r, PendingApproval, at, Some(StatusPending)), ApprovalReset)
    case Expire => SetRow(r, RowOf(r).(status := RowTimedOut))
    case Erase => BLANK
  }

  // Another worker holds a lease that has not run out at `now`.
  predicate HeldByOther(q: Row, worker: Worker, now: Micros) {
    && q.worker.Some? && q.worker.value != "" && q.leaseExpiresAt.Some?
    && q.leaseExpiresAt.value * SECOND > now && q.worker.value != worker
  }

  // The row names a worker whose lease has run out at `now`.
  predicate LeaseLapsed(q: Row, now: Micros) {
    && q.worker.Some? && q.worker.value != "" && q.leaseExpiresAt.Some?
    && q.leaseExpiresAt.value * SECOND <= now
  }

  // reconcile_approval_status finds nothing to report about the task.
  predicate ApprovalAligned(t: Task) {
    && (t.state == PendingApproval ==> t.approval == StatusPending)
    && (t.state == Approved ==> t.approval == StatusApproved || t.approval == StatusNotRequired)
    && (t.state == Rejected ==> t.approval == StatusRejected)
  }
}
