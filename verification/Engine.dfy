// paperclip/service.py as functions on worlds: each service call yields the new world and an outcome.
//
// The dispatch client is part of the environment.  What it does during one submit call is a Turn:
// it may call back into the service any number of times, through any operation, to any depth, and
// then returns or raises.

module Engine {
  import opened Basics
  import opened StateMachine
  import opened Records
  import opened Worlds

  datatype Error = KeyError | ValueError | IntegrityError | ClientError

  datatype View = View(id: Id, state: State, approval: ApprovalStatus, createdAt: Seconds, updatedAt: Seconds,
          result: Option<RunResult>)

  datatype Outcome = Returned(view: Option<View>) | Raised(error: Error)

  datatype Reply = Reply(w: World, out: Outcome)

  datatype Turn = Turn(calls: seq<Op>, raises: bool)

  // A client that takes the task, and one that does not.
  const ACCEPTANCE := Turn([], false)
  const REFUSAL := Turn([], true)

  // Service calls.  `now` is the argument of that name, `wall` the whole second that utcnow() reads,
  // and `order` the order in which SQLite happens to list the rows that the call loops over.
  datatype Op =
    | SubmitTask(payload: Payload, key: Key, webhook: bool, now: Micros, wall: Seconds, turn: Turn)
    | Approve(id: Id, wall: Seconds, turn: Turn)
    | Reject(id: Id, wall: Seconds)
    | ClaimItem(id: Id, worker: Worker, now: Micros)
    | ProcessQueue(id: Id, holder: Option<Worker>, now: Micros, wall: Seconds, turn: Turn)
    | RecordResult(id: Id, result: RunResult, wall: Seconds)
    | CancelTask(id: Id, wall: Seconds)
    | EnforceTimeouts(now: Micros, wall: Seconds, order: seq<Id>)
    | RecoverJob(id: Id, now: Micros)
    | ListStuckApprovals(now: Micros, order: seq<Id>)
    | RecoverApproval(id: Id, wall: Seconds)
    | RecoverListedApproval(id: Id, now: Micros, wall: Seconds, order: seq<Id>)
    | DeleteTask(id: Id)

  function GetTask(s: Store, id: Id): Option<View> {
    var r := Rec(s, id);
    if r.task.None? then None else
      var t := r.task.value;
      Some(View(id, t.state, t.approval, t.createdAt, t.updatedAt, r.result))
  }

  function Answer(w: World, id: Id): Reply {
    Reply(w, Returned(GetTask(w.db.work, id)))
  }

  function TransitionTask(w: World, id: Id, to: State, wall: Seconds): Reply {
    if At(w, id).task.None? then Reply(w, Raised(KeyError))
    else if !CanTransition(At(w, id).task.value.state, to) then Reply(w, Raised(ValueError))
    else Answer(Do(Put(w, id, Shift(to, wall)), Commit), id)
  }

  function EnqueueTask(w: World, id: Id, wall: Seconds): Reply {
    if At(w, id).task.None? then Reply(w, Raised(KeyError))
    else if At(w, id).task.value.state != Approved then Reply(w, Raised(ValueError))
    else
      var queued := TransitionTask(w, id, Queued, wall);
      Reply(Put(queued.w, id, Insert(w.cfg.maxAttempts, wall)), queued.out)
  }

  function ClaimQueueItem(w: World, id: Id, worker: Worker, now: Micros): Reply {
    if At(w, id).row.None? then Reply(w, Raised(KeyError))
    else if HeldByOther(At(w, id).row.value, worker, now) then Reply(w, Raised(ValueError))
    else Answer(Put(w, id, Claim(worker, now, Floor(now + w.cfg.lease * SECOND))), id)
  }

  function Process(w: World, id: Id, worker: Option<Worker>, now: Micros, wall: Seconds, turn: Turn): Reply
    decreases turn, 2
  {
    if At(w, id).row.None? then Reply(w, Raised(KeyError))
    else if At(w, id).row.value.status != RowQueued then Answer(w, id)
    else if At(w, id).row.value.nextAttemptAt * SECOND > now then Answer(w, id)
    else
      var claimed := if worker.Some? then ClaimQueueItem(w, id, worker.value, now) else Answer(w, id);
      if claimed.out.Raised? then claimed
      else
        var dispatched := Dispatch(claimed.w, id, worker, now, wall, turn);
        if dispatched.out.Returned? then dispatched
        else FailAttempt(dispatched.w, id, At(claimed.w, id).row.value, now, wall)
  }

  // The handler of process_queue: `item` is the queue row as it was read before dispatching.
  function FailAttempt(w: World, id: Id, item: Row, now: Micros, wall: Seconds): Reply {
    var attempts := item.attempts + 1;
    if attempts >= item.maxAttempts then
      var failed := TransitionTask(Put(w, id, Bury(attempts, Floor(now))), id, Failed, wall);
      if failed.out.Raised? then failed
      else Answer(Put(failed.w, id, Note(TaskDeadLettered(attempts))), id)
    else
      var next := Floor(now + BackoffSeconds(w.cfg, attempts) * SECOND);
      Answer(Put(w, id, Retry(attempts, next, Floor(now), wall)), id)
  }

  function Dispatch(w: World, id: Id, worker: Option<Worker>, now: Micros, wall: Seconds, turn: Turn): Reply
    decreases turn, 1
  {
    if At(w, id).task.None? then Reply(w, Raised(KeyError))
    else if InState(At(w, id), Approved) then DispatchQueued(EnqueueTask(w, id, wall).w, id, worker, now, wall, turn)
    else DispatchQueued(w, id, worker, now, wall, turn)
  }

  // Up to the moment the client is called: a queued task becomes running and dispatched.
  function Handed(w: World, id: Id, worker: Option<Worker>, now: Micros, wall: Seconds, accepted: bool): World {
    Put(TransitionTask(w, id, Running, wall).w, id, Hand(wall, wall + w.cfg.timeout, accepted, worker, now))
  }

  function DispatchQueued(w: World, id: Id, worker: Option<Worker>, now: Micros, wall: Seconds, turn: Turn): Reply
    decreases turn, 0
  {
    if !InState(At(w, id), Queued) then Reply(w, Raised(ValueError))
    else if worker.Some? && (At(w, id).row.None? || At(w, id).row.value.worker != worker) then
        Reply(w, Raised(ValueError))
    else
      var w1 := RunAll(Handed(w, id, worker, now, wall, !turn.raises), turn.calls);
      if turn.raises then Reply(w1, Raised(ClientError)) else Answer(w1, id)
  }

  // A payload passes the schema only with a non-empty task id.
  predicate ValidPayload(p: Payload) {
    p.wellFormed && p.id != ""
  }

  // The submission repeats a recorded key whose task still exists.
  predicate Repeats(s: Store, key: Key) {
    key != "" && key in s.keys && s.keys[key] != "" && Rec(s, s.keys[key]).task.Some?
  }

  function InitialTask(p: Payload, wall: Seconds): Task {
    Task(Received, p.approvalStatus, p, wall, wall)
  }

  predicate NeedsApproval(p: Payload) {
    p.approvalRequired && p.approvalStatus != StatusApproved
  }

  // The rows that submit_task writes before its first transition.
  function Register(w: World, p: Payload, key: Key, webhook: bool, wall: Seconds): World {
    var w1 := Put(w, p.id, Create(InitialTask(p, wall), webhook));
    var w2 := if key != "" then Put(w1, p.id, NoteKey(key)) else w1;
    if p.approvalRequired then Put(w2, p.id, Ask) else w2
  }

  // submit_task after its rows are written: validation, then either a pending approval or the queue.
  function Admit(w: World, p: Payload, now: Micros, wall: Seconds, turn: Turn): Reply
    decreases turn, 4
  {
    Route(TransitionTask(w, p.id, Validating, wall).w, p, now, wall, turn)
  }

  function Route(w: World, p: Payload, now: Micros, wall: Seconds, turn: Turn): Reply
    decreases turn, 3
  {
    if NeedsApproval(p) then Answer(TransitionTask(w, p.id, PendingApproval, wall).w, p.id)
    else
      var w1 := EnqueueTask(TransitionTask(w, p.id, Approved, wall).w, p.id, wall).w;
      var processed := Process(w1, p.id, None, now, wall, turn);
      if processed.out.Raised? then processed else Answer(processed.w, p.id)
  }

  function Submit(w: World, p: Payload, key: Key, webhook: bool, now: Micros, wall: Seconds, turn: Turn): Reply
    decreases turn, 5
  {
    if Repeats(w.db.work, key) then Answer(w, w.db.work.keys[key])
    else if !ValidPayload(p) then Reply(w, Raised(ValueError))
    else if At(w, p.id).task.Some? then Reply(w, Raised(IntegrityError))
    else if key != "" && key in w.db.work.keys then
      Reply(Put(w, p.id, Create(InitialTask(p, wall), webhook)), Raised(IntegrityError))
    else Admit(Register(w, p, key, webhook, wall), p, now, wall, turn)
  }

  // POST /tasks/<id>/approve: the transition, then the dispatch, outside process_queue and for no
  // worker, so that the clock of the claim (here 0) plays no part.
  function ApproveTask(w: World, id: Id, wall: Seconds, turn: Turn): Reply
    decreases turn, 2
  {
    var approved := TransitionTask(w, id, Approved, wall);
    if approved.out.Raised? then approved else Dispatch(approved.w, id, None, 0, wall, turn)
  }

  function AcceptResult(w: World, id: Id, result: RunResult, wall: Seconds): Reply {
    if At(w, id).task.None? then Reply(w, Raised(KeyError))
    else if At(w, id).result.Some? then Answer(w, id)
    else if InState(At(w, id), Cancelled) then Answer(Put(w, id, Note(ResultIgnored)), id)
    else if result.status.None? then Reply(w, Raised(KeyError))
    else
      var target := if result.status.value == "succeeded" then Succeeded else Failed;
      var finished := TransitionTask(w, id, target, wall);
      if finished.out.Raised? then finished
      else
        var w1 := Do(Put(finished.w, id, Keep(result)), Commit);
        Answer(if result.memoryProvenance then Put(w1, id, Note(MemoryProvenanceRecorded)) else w1, id)
  }

  function CancelOne(w: World, id: Id, wall: Seconds): Reply {
    if At(w, id).task.None? then Reply(w, Returned(None))
    else if InState(At(w, id), Cancelled) then Answer(w, id)
    else if Terminal(At(w, id).task.value.state) then Reply(w, Raised(ValueError))
    else Answer(Put(w, id, Cancel(wall)), id)
  }

  function RecoverStuckJob(w: World, id: Id, now: Micros): Reply {
    if At(w, id).task.None? || At(w, id).row.None? || !LeaseLapsed(At(w, id).row.value, now) then
        Reply(w, Returned(None))
    else Answer(Put(w, id, Requeue(now)), id)
  }

  function RecoverStuckApproval(w: World, id: Id, wall: Seconds): Reply {
    if At(w, id).task.None? then Reply(w, Returned(None)) else Answer(Put(w, id, Reset(wall)), id)
  }

  function Delete(w: World, id: Id): Reply {
    if At(w, id).task.None? then Reply(w, Returned(None)) else Reply(Do(Put(w, id, Erase), Commit), Returned(None))
  }

  // ----- loops over listed rows

  // The row is running and its timeout has passed.
  predicate Overdue(r: Record, now: Micros) {
    RowIs(r, RowRunning) && r.row.value.timeoutAt.Some? && r.row.value.timeoutAt.value * SECOND <= now
  }

  datatype SweepReply = SweepReply(w: World, raised: Option<Error>, timedOut: seq<Id>)

  function Sweep(w: World, now: Micros, wall: Seconds, order: seq<Id>): SweepReply
    decreases |order|
  {
    if order == [] then SweepReply(w, None, [])
    else if !Overdue(At(w, order[0]), now) then Sweep(w, now, wall, order[1..])
    else
      var failed := TransitionTask(Put(w, order[0], Expire), order[0], Failed, wall);
      if failed.out.Raised? then SweepReply(failed.w, Some(failed.out.error), [])
      else
        var rest := Sweep(Put(failed.w, order[0], Note(TaskTimedOut)), now, wall, order[1..]);
        rest.(timedOut := [order[0]] + rest.timedOut)
  }

  // The row is running and names a worker whose lease has run out.
  predicate StuckJob(r: Record, now: Micros) {
    RowIs(r, RowRunning) && LeaseLapsed(r.row.value, now)
  }

  // list_recoverable_stuck_jobs over the rows in the listed order.
  function RecoverableJobs(s: Store, now: Micros, order: seq<Id>): seq<Id> {
    if order == [] then []
    else
      var rest := RecoverableJobs(s, now, order[1..]);
      if StuckJob(Rec(s, order[0]), now) then [order[0]] + rest else rest
  }

  predicate Misaligned(r: Record) {
    r.task.Some? && !ApprovalAligned(r.task.value)
  }

  predicate ApprovalLapsed(cfg: Config, r: Record, now: Micros) {
    InState(r, PendingApproval) && (r.task.value.updatedAt + cfg.approvalTtl) * SECOND <= now
  }

  function ReconcileApprovals(s: Store, order: seq<Id>): seq<Id> {
    if order == [] then []
    else
      var rest := ReconcileApprovals(s, order[1..]);
      if Misaligned(Rec(s, order[0])) then [order[0]] + rest else rest
  }

  datatype Expired = Expired(w: World, ids: seq<Id>)

  // find_expired_approvals records an event for every task it lists.
  function FindExpired(w: World, now: Micros, order: seq<Id>): Expired
    decreases |order|
  {
    if order == [] then Expired(w, [])
    else if !ApprovalLapsed(w.cfg, At(w, order[0]), now) then FindExpired(w, now, order[1..])
    else
      var rest := FindExpired(Put(w, order[0], Note(ApprovalExpired)), now, order[1..]);
      rest.(ids := [order[0]] + rest.ids)
  }

  datatype Reason = StateMismatch | ExpiredPendingApproval

  datatype Stuck = Stuck(w: World, reasons: map<Id, Reason>)

  // The dictionary by task id that list_stuck_approval_tasks builds.
  function StuckApprovals(w: World, now: Micros, order: seq<Id>): Stuck {
    var mismatched := ReconcileApprovals(w.db.work, order);
    var expired := FindExpired(w, now, order);
    Stuck(expired.w,
          (map id | id in mismatched :: StateMismatch) + (map id | id in expired.ids :: ExpiredPendingApproval))
  }

  // ----- any call

  function Perform(w: World, op: Op): Reply
    decreases op, 0
  {
    match op
    case SubmitTask(payload, key, webhook, now, wall, turn) => Submit(w, payload, key, webhook, now, wall, turn)
    case Approve(id, wall, turn) => ApproveTask(w, id, wall, turn)
    case Reject(id, wall) => TransitionTask(w, id, Rejected, wall)
    case ClaimItem(id, worker, now) => ClaimQueueItem(w, id, worker, now)
    case ProcessQueue(id, worker, now, wall, turn) => Process(w, id, worker, now, wall, turn)
    case RecordResult(id, result, wall) => AcceptResult(w, id, result, wall)
    case CancelTask(id, wall) => CancelOne(w, id, wall)
    case EnforceTimeouts(now, wall, order) =>
      var swept := Sweep(w, now, wall, order);
      Reply(swept.w, if swept.raised.Some? then Raised(swept.raised.value) else Returned(None))
    case RecoverJob(id, now) => RecoverStuckJob(w, id, now)
    case ListStuckApprovals(now, order) => Reply(StuckApprovals(w, now, order).w, Returned(None))
    case RecoverApproval(id, wall) => RecoverStuckApproval(w, id, wall)
    case RecoverListedApproval(id, now, wall, order) =>
      var stuck := StuckApprovals(w, now, order);
      if id in stuck.reasons then RecoverStuckApproval(stuck.w, id, wall) else Reply(stuck.w, Returned(None))
    case DeleteTask(id) => Delete(w, id)
  }

  function RunAll(w: World, ops: seq<Op>): World
    decreases ops, 0
  {
    if ops == [] then w else RunAll(Perform(w, ops[0]).w, ops[1..])
  }

  // A run from a fresh database.
  function Run(cfg: Config, ops: seq<Op>): World {
    RunAll(Boot(cfg), ops)
  }

  // ----- transitions that are allowed

  lemma TransitionRecord(w: World, id: Id, to: State, wall: Seconds)
    requires At(w, id).task.Some? && CanTransition(At(w, id).task.value.state, to)
    ensures var r, t := At(w, id), TransitionTask(w, id, to, wall);
            && t == Answer(Do(Put(w, id, Shift(to, wall)), Commit), id) && t.w.db.disk == t.w.db.work
            && At(t.w, id) == Apply(r, Shift(to, wall)) && InState(At(t.w, id), to)
            && t.w.trace == w.trace + [Touch(id, Shift(to, wall))] + [Commit]
  {
  }

  lemma EnqueuedRecord(w: World, id: Id, wall: Seconds)
    requires InState(At(w, id), Approved)
    ensures var e := EnqueueTask(w, id, wall);
            && e.out.Returned? && e.w.cfg == w.cfg &&
                e.w == Put(TransitionTask(w, id, Queued, wall).w, id, Insert(w.cfg.maxAttempts, wall))
            && InState(At(e.w, id), Queued) && At(e.w, id).row == Some(FreshRow(w.cfg.maxAttempts, wall))
            && At(e.w, id).result == At(w, id).result
            && e.w.trace == w.trace + [Touch(id, Shift(Queued, wall))] + [Commit] +
                [Touch(id, Insert(w.cfg.maxAttempts, wall))]
  {
    TransitionRecord(w, id, Queued, wall);
  }

  // A queued task is handed over, and the client has its turn.
  lemma HandedRecord(w: World, id: Id, worker: Option<Worker>, now: Micros, wall: Seconds, accepted: bool)
    requires InState(At(w, id), Queued) && RowIs(At(w, id), RowQueued)
    ensures var h := Handed(w, id, worker, now, wall, accepted);
            && h.cfg == w.cfg
            && InState(At(h, id), Running) && At(h, id).result == At(w, id).result
            && At(h, id).row == Some(At(w, id).row.value.(status := RowDispatched, startedAt := Some(wall),
                timeoutAt := Some(wall + w.cfg.timeout)))
            && Rec(h.db.disk, id) == Apply(At(w, id), Shift(Running, wall))
            && h.trace == w.trace + [Touch(id, Shift(Running, wall))] + [Commit]
                          + [Touch(id, Hand(wall, wall + w.cfg.timeout, accepted, worker, now))]
  {
    TransitionRecord(w, id, Running, wall);
  }

  // ----- new submissions

  predicate Fresh(w: World, p: Payload, key: Key) {
    ValidPayload(p) && At(w, p.id) == BLANK && (key != "" ==> key !in w.db.work.keys)
  }

  lemma RegisteredRecord(w: World, p: Payload, key: Key, webhook: bool, wall: Seconds)
    requires Fresh(w, p, key)
    ensures var r := At(Register(w, p, key, webhook, wall), p.id);
            && Register(w, p, key, webhook, wall).cfg == w.cfg
            && InState(r, Received) && r.task.value.payload == p && r.row.None? && r.result.None?
  {
    var w1 := Put(w, p.id, Create(InitialTask(p, wall), webhook));
    assert InState(At(w1, p.id), Received) && At(w1, p.id).row.None?;
    var w2 := if key != "" then Put(w1, p.id, NoteKey(key)) else w1;
    assert InState(At(w2, p.id), Received) && At(w2, p.id).row.None?;
  }

  // A new submission gets past every check.
  lemma FreshSubmission(w: World, p: Payload, key: Key, webhook: bool, now: Micros, wall: Seconds, turn: Turn)
    requires Fresh(w, p, key)
    ensures Submit(w, p, key, webhook, now, wall, turn) == Admit(Register(w, p, key, webhook, wall), p, now, wall, turn)
  {
    hide Admit, Register;
  }
}
