// What each service call writes and answers, column by column, on any store, whichever way it goes.
//
// The statements mention the columns of the five tables and nothing that the calls are made of, so
// that they can be read next to the source.

module Effects {
  import opened Basics
  import opened StateMachine
  import opened Records
  import opened Worlds
  import opened Engine

  // ALLOWED_TRANSITIONS as a set of edges.
  predicate Edge(from: State, to: State) {
    (from, to) in {
      (Received, Validating), (Received, Cancelled),
      (Validating, PendingApproval), (Validating, Approved), (Validating, Cancelled),
      (PendingApproval, Approved), (PendingApproval, Rejected), (PendingApproval, Cancelled),
      (Approved, Queued), (Approved, Cancelled),
      (Queued, Running), (Queued, Cancelled),
      (Running, Succeeded), (Running, State.Failed), (Running, Cancelled)
    }
  }

  // Finished tasks are those that no edge leaves; every other task can still be cancelled.
  lemma EdgesOfTheTable(from: State, to: State)
    ensures CanTransition(from, to) <==> Edge(from, to)
    ensures Terminal(from) <==> forall s :: !Edge(from, s)
    ensures !Terminal(from) <==> Edge(from, Cancelled)
  {
    if !Terminal(from) {
      assert Edge(from, Cancelled);
    }
  }

  // Of all that is in memory, only the record of the task differs.
  ghost predicate OnlyTask(w: World, w': World, id: Id) {
    w'.cfg == w.cfg && w'.db.work.keys == w.db.work.keys && forall i :: i != id ==> At(w', i) == At(w, i)
  }

  // ... and nothing has been committed.
  ghost predicate Pending(w: World, w': World, id: Id) {
    OnlyTask(w, w', id) && w'.db.disk == w.db.disk
  }

  // ... and all of it has been committed.
  ghost predicate Saved(w: World, w': World, id: Id) {
    OnlyTask(w, w', id) && w'.db.disk == w'.db.work
  }

  // ----- reading

  // What a caller is told of a task that is there.
  lemma ReadingTells(s: Store, id: Id)
    ensures var r := Rec(s, id);
            GetTask(s, id) ==
              if r.task.None? then None
              else Some(View(id, r.task.value.state, r.task.value.approval, r.task.value.createdAt,
                             r.task.value.updatedAt, r.result))
  {
  }

  // ----- transitions

  // The status that a transition writes, if it writes any, and the verdict it announces.
  lemma ShiftWrites(r: Record, to: State, wall: Seconds)
    requires r.task.Some?
    ensures var t0 := r.task.value;
            var status := match to
              case PendingApproval => StatusPending
              case Approved => StatusApproved
              case Rejected => StatusRejected
              case _ => t0.approval;
            var verdict := match to
              case Approved => [ApprovalGranted]
              case Rejected => [Event.ApprovalRejected]
              case _ => [];
            Apply(r, Shift(to, wall)) == Record(Some(Task(to, status, t0.payload, t0.createdAt, wall)), r.row, r.result,
                                                r.log + [StateChanged(t0.state, to)] + verdict)
  {
    var log := r.log + [StateChanged(r.task.value.state, to)];
    assert log + [] == log;
  }

  // A transition along an edge writes the state, the time, and the approval status that goes with the
  // target, announces it, and commits; off the edges nothing is written.
  lemma TransitionWrites(w: World, id: Id, to: State, wall: Seconds)
    ensures var r, t := At(w, id), TransitionTask(w, id, to, wall);
            if r.task.None? then t == Reply(w, Raised(KeyError))
            else if !Edge(r.task.value.state, to) then t == Reply(w, Raised(ValueError))
            else
              var t0 := r.task.value;
              var status := match to
                case PendingApproval => StatusPending
                case Approved => StatusApproved
                case Rejected => StatusRejected
                case _ => t0.approval;
              var verdict := match to
                case Approved => [ApprovalGranted]
                case Rejected => [Event.ApprovalRejected]
                case _ => [];
              && Saved(w, t.w, id)
              && At(t.w, id) == Record(Some(Task(to, status, t0.payload, t0.createdAt, wall)), r.row, r.result,
                                       r.log + [StateChanged(t0.state, to)] + verdict)
              && t.out == Returned(Some(View(id, to, status, t0.createdAt, wall, r.result)))
  {
    hide Edge, CanTransition, Apply;
    if At(w, id).task.Some? {
      EdgesOfTheTable(At(w, id).task.value.state, to);
      ShiftWrites(At(w, id), to, wall);
    }
  }

  // A reviewer's rejection of a pending task is final and leaves a trace of it.
  lemma RejectionWrites(w: World, id: Id, wall: Seconds)
    requires At(w, id).task.Some? && At(w, id).task.value.state == PendingApproval
    ensures var r, t := At(w, id), Perform(w, Reject(id, wall));
            && Saved(w, t.w, id)
            && At(t.w, id) == Record(
                 Some(Task(Rejected, StatusRejected, r.task.value.payload, r.task.value.createdAt, wall)), r.row,
                 r.result, r.log + [StateChanged(PendingApproval, Rejected), Event.ApprovalRejected])
            && t.out == Returned(Some(View(id, Rejected, StatusRejected, r.task.value.createdAt, wall, r.result)))
  {
    hide TransitionTask;
    TransitionWrites(w, id, Rejected, wall);
  }

  // Queueing an approved task: the committed transition, and then a row that is due at once, belongs
  // to nobody, and has every attempt ahead of it.
  lemma EnqueueWrites(w: World, id: Id, wall: Seconds)
    ensures var r, e := At(w, id), EnqueueTask(w, id, wall);
            if r.task.None? then e == Reply(w, Raised(KeyError))
            else if r.task.value.state != Approved then e == Reply(w, Raised(ValueError))
            else
              var task := r.task.value.(state := Queued, updatedAt := wall);
              && OnlyTask(w, e.w, id)
              && At(e.w, id) == Record(Some(task),
                   Some(Row(RowQueued, 0, w.cfg.maxAttempts, wall, None, None, None, None)), r.result,
                   r.log + [StateChanged(Approved, Queued), TaskEnqueued])
              && Rec(e.w.db.disk, id) == Record(Some(task), r.row, r.result, r.log + [StateChanged(Approved, Queued)])
              && e.out == Returned(Some(View(id, Queued, task.approval, task.createdAt, wall, r.result)))
  {
    hide TransitionTask;
    TransitionWrites(w, id, Queued, wall);
  }

  // ----- leases

  // A claim is turned away exactly when another worker, one with a name, holds an unexpired lease.
  lemma ClaimTurnedAwayIff(w: World, id: Id, worker: Worker, now: Micros)
    ensures var row, c := At(w, id).row, ClaimQueueItem(w, id, worker, now);
            && (row.None? ==> c == Reply(w, Raised(KeyError)))
            && (row.Some? ==>
                  (c.out.Raised? <==>
                     && row.value.worker.Some? && row.value.worker.value != "" && row.value.worker.value != worker
                     && row.value.leaseExpiresAt.Some? && now < row.value.leaseExpiresAt.value * SECOND))
            && (row.Some? && c.out.Raised? ==> c == Reply(w, Raised(ValueError)))
  {
  }

  // A claim that is not turned away writes the worker and the end of the lease, in whole seconds.
  lemma ClaimWrites(w: World, id: Id, worker: Worker, now: Micros)
    requires ClaimQueueItem(w, id, worker, now).out.Returned?
    ensures var r, c := At(w, id), ClaimQueueItem(w, id, worker, now);
            && Pending(w, c.w, id) && r.row.Some? && At(c.w, id).row.Some?
            && At(c.w, id).row.value.leaseExpiresAt.Some?
            && (var expiry := At(c.w, id).row.value.leaseExpiresAt.value;
               && expiry * SECOND <= now + w.cfg.lease * SECOND < (expiry + 1) * SECOND
               && At(c.w, id) == r.(row := Some(r.row.value.(worker := Some(worker), leaseExpiresAt := Some(expiry))),
                                    log := r.log + [TaskClaimed(worker, expiry)]))
            && c.out == Returned(
                 if r.task.None? then None
                 else Some(View(id, r.task.value.state, r.task.value.approval, r.task.value.createdAt,
                                r.task.value.updatedAt, r.result)))
  {
  }

  // The worker that a row names is never turned away, whatever the time: after its own claim it may
  // claim again.
  lemma OwnLeaseIsRenewed(w: World, id: Id, worker: Worker, now: Micros, later: Micros)
    requires ClaimQueueItem(w, id, worker, now).out.Returned?
    ensures ClaimQueueItem(ClaimQueueItem(w, id, worker, now).w, id, worker, later).out.Returned?
  {
    hide ClaimQueueItem;
    ClaimWrites(w, id, worker, now);
    ClaimTurnedAwayIff(ClaimQueueItem(w, id, worker, now).w, id, worker, later);
  }

  // ----- processing

  // process_queue has nothing to do for a row that is not queued or not due yet, and turns away a
  // worker while another one's lease runs.
  lemma ProcessingIsIdle(w: World, id: Id, holder: Option<Worker>, now: Micros, wall: Seconds, turn: Turn)
    ensures var r, p := At(w, id), Process(w, id, holder, now, wall, turn);
            && (r.row.None? ==> p == Reply(w, Raised(KeyError)))
            && (r.row.Some? && (r.row.value.status != RowQueued || now < r.row.value.nextAttemptAt * SECOND) ==>
                  && p.w == w
                  && p.out == Returned(
                       if r.task.None? then None
                       else Some(View(id, r.task.value.state, r.task.value.approval, r.task.value.createdAt,
                                      r.task.value.updatedAt, r.result))))
            && (r.row.Some? && r.row.value.status == RowQueued && r.row.value.nextAttemptAt * SECOND <= now &&
                holder.Some? && r.row.value.worker.Some? && r.row.value.worker.value != "" &&
                r.row.value.worker != holder && r.row.value.leaseExpiresAt.Some? &&
                now < r.row.value.leaseExpiresAt.value * SECOND ==>
                  p == Reply(w, Raised(ValueError)))
  {
    hide Dispatch, FailAttempt;
  }

  // What the client finds when it is called: a running task on disk, and in memory a row that says so
  // since when it is dispatched and when it times out.
  lemma HandOverWrites(w: World, id: Id, holder: Option<Worker>, now: Micros, wall: Seconds, accepted: bool)
    requires At(w, id).task.Some? && At(w, id).task.value.state == Queued && At(w, id).row.Some?
    ensures var r, h := At(w, id), Handed(w, id, holder, now, wall, accepted);
            var task := r.task.value.(state := Running, updatedAt := wall);
            var log := r.log + [StateChanged(Queued, Running)];
            && OnlyTask(w, h, id)
            && At(h, id) == Record(Some(task),
                 Some(r.row.value.(status := RowDispatched, startedAt := Some(wall),
                                   timeoutAt := Some(wall + w.cfg.timeout))),
                 r.result, log)
            && Rec(h.db.disk, id) == Record(Some(task), r.row, r.result, log)
  {
    hide TransitionTask;
    TransitionWrites(w, id, Running, wall);
  }

  // The backoff starts from the configured seconds and doubles with every further attempt.
  lemma BackoffDoubles(cfg: Config, attempts: int)
    ensures attempts <= 1 ==> BackoffSeconds(cfg, attempts) == cfg.backoff
    ensures 1 <= attempts ==> BackoffSeconds(cfg, attempts + 1) == 2 * BackoffSeconds(cfg, attempts)
  {
    if 1 <= attempts {
      assert Pow2(attempts) == 2 * Pow2(attempts - 1);
      assert cfg.backoff * (2 * Pow2(attempts - 1)) == 2 * (cfg.backoff * Pow2(attempts - 1));
    }
  }

  // A failure with attempts left puts the task back into the queue, whatever its state, and the row to
  // sleep for the backoff; nothing is committed.  What the client deleted stays deleted.
  lemma RetryWrites(w: World, id: Id, item: Row, now: Micros, wall: Seconds)
    requires item.attempts + 1 < item.maxAttempts
    ensures var r, f, k := At(w, id), FailAttempt(w, id, item, now, wall), item.attempts + 1;
            && Pending(w, f.w, id) && |At(f.w, id).log| == |r.log| + 1 && At(f.w, id).log[|r.log|].TaskRetryScheduled?
            && (var next := At(f.w, id).log[|r.log|].nextAttemptAt;
               && next * SECOND <= now + BackoffSeconds(w.cfg, k) * SECOND < (next + 1) * SECOND
               && At(f.w, id) == Record(
                    if r.task.Some? then Some(r.task.value.(state := Queued, updatedAt := wall)) else None,
                    if r.row.Some? then
                      Some(r.row.value.(status := RowQueued, attempts := k, nextAttemptAt := next))
                    else None,
                    r.result, r.log + [TaskRetryScheduled(k, next)]))
            && f.out == Returned(
                 if r.task.None? then None
                 else Some(View(id, Queued, r.task.value.approval, r.task.value.createdAt, wall, r.result)))
  {
    hide BackoffSeconds;
  }

  // The last failure buries the row; a running task fails with it, and all of that but the last event
  // is committed.  If the task is not running, the handler raises and the buried row is all there is.
  lemma BurialWrites(w: World, id: Id, item: Row, now: Micros, wall: Seconds)
    requires item.maxAttempts <= item.attempts + 1
    ensures var r, f, k := At(w, id), FailAttempt(w, id, item, now, wall), item.attempts + 1;
            var row := if r.row.Some? then Some(r.row.value.(status := RowDeadLetter, attempts := k)) else None;
            if r.task.Some? && r.task.value.state == Running then
              var task := r.task.value.(state := State.Failed, updatedAt := wall);
              var log := r.log + [StateChanged(Running, State.Failed)];
              && OnlyTask(w, f.w, id)
              && At(f.w, id) == Record(Some(task), row, r.result, log + [TaskDeadLettered(k)])
              && Rec(f.w.db.disk, id) == Record(Some(task), row, r.result, log)
              && f.out == Returned(Some(View(id, State.Failed, task.approval, task.createdAt, wall, r.result)))
            else
              && Pending(w, f.w, id) && At(f.w, id) == r.(row := row)
              && f.out == Raised(if r.task.None? then KeyError else ValueError)
  {
    hide TransitionTask, Edge;
    OnlyRunningTasksEnd(if At(w, id).task.Some? then At(w, id).task.value.state else Received);
    var k := item.attempts + 1;
    var buried := Put(w, id, Bury(k, Floor(now)));
    var failed := TransitionTask(buried, id, State.Failed, wall);
    TransitionWrites(buried, id, State.Failed, wall);
    if At(w, id).task.Some? && At(w, id).task.value.state == Running {
      var noted := Put(failed.w, id, Note(TaskDeadLettered(k)));
      assert FailAttempt(w, id, item, now, wall) == Answer(noted, id);
      assert forall i :: i != id ==> At(noted, i) == At(failed.w, i) == At(buried, i) == At(w, i);
    }
  }

  // ----- results, cancellation, deletion

  // The first result of a running task decides its state by the status in the body, is stored, and is
  // committed with its announcement; the provenance of memories is noted after that.
  lemma FirstResultWrites(w: World, id: Id, result: RunResult, wall: Seconds)
    requires At(w, id).task.Some? && At(w, id).task.value.state == Running && At(w, id).result.None?
    requires result.status.Some?
    ensures var r, a := At(w, id), AcceptResult(w, id, result, wall);
            var t := r.task.value;
            var verdict := if result.status == Some("succeeded") then Succeeded else State.Failed;
            var saved := Record(Some(t.(state := verdict, updatedAt := wall)), r.row, Some(result),
                                r.log + [StateChanged(Running, verdict), ResultRecorded]);
            && OnlyTask(w, a.w, id) && Rec(a.w.db.disk, id) == saved
            && At(a.w, id) == (if result.memoryProvenance
                               then saved.(log := saved.log + [MemoryProvenanceRecorded]) else saved)
            && a.out == Returned(Some(View(id, verdict, t.approval, t.createdAt, wall, Some(result))))
  {
    hide TransitionTask, Edge;
    OnlyRunningTasksEnd(Running);
    TransitionWrites(w, id, if result.status.value == "succeeded" then Succeeded else State.Failed, wall);
  }

  // A callback, in all its cases: an unknown task, a task with a result, a cancelled one, a body
  // without a status, a task that is not running, and the first result of a running task.
  lemma ResultAnswers(w: World, id: Id, result: RunResult, wall: Seconds)
    ensures var r, a := At(w, id), Perform(w, RecordResult(id, result, wall));
            if r.task.None? then a == Reply(w, Raised(KeyError))
            else
              var t := r.task.value;
              if r.result.Some? then
                a == Reply(w, Returned(Some(View(id, t.state, t.approval, t.createdAt, t.updatedAt, r.result))))
              else if t.state == Cancelled then
                && Pending(w, a.w, id) && At(a.w, id) == r.(log := r.log + [ResultIgnored])
                && a.out == Returned(Some(View(id, Cancelled, t.approval, t.createdAt, t.updatedAt, None)))
              else if result.status.None? then a == Reply(w, Raised(KeyError))
              else if t.state != Running then a == Reply(w, Raised(ValueError))
              else
                && a.out == Returned(Some(View(id,
                     if result.status == Some("succeeded") then Succeeded else State.Failed,
                     t.approval, t.createdAt, wall, Some(result))))
                && Rec(a.w.db.disk, id).result == Some(result)
  {
    hide TransitionTask, Edge;
    if At(w, id).task.Some? && At(w, id).result.None? && result.status.Some? {
      if At(w, id).task.value.state == Running {
        FirstResultWrites(w, id, result, wall);
      } else if At(w, id).task.value.state != Cancelled {
        ResultTooEarly(w, id, result, wall);
      }
    }
  }

  lemma OnlyRunningTasksEnd(from: State)
    ensures Edge(from, Succeeded) <==> from == Running
    ensures Edge(from, State.Failed) <==> from == Running
  {
  }

  lemma ResultTooEarly(w: World, id: Id, result: RunResult, wall: Seconds)
    requires At(w, id).task.Some? && At(w, id).task.value.state != Running && At(w, id).task.value.state != Cancelled
    requires At(w, id).result.None? && result.status.Some?
    ensures AcceptResult(w, id, result, wall) == Reply(w, Raised(ValueError))
  {
    hide TransitionTask, Apply, Edge;
    OnlyRunningTasksEnd(At(w, id).task.value.state);
    TransitionWrites(w, id, if result.status.value == "succeeded" then Succeeded else State.Failed, wall);
  }

  // Cancelling, in all its cases; the approval status stays, and nothing is committed.
  lemma CancellationWrites(w: World, id: Id, wall: Seconds)
    ensures var r, c := At(w, id), Perform(w, CancelTask(id, wall));
            if r.task.None? then c == Reply(w, Returned(None))
            else
              var t := r.task.value;
              if t.state == Cancelled then
                c == Reply(w, Returned(Some(View(id, Cancelled, t.approval, t.createdAt, t.updatedAt, r.result))))
              else if t.state == Succeeded || t.state == State.Failed || t.state == Rejected then
                c == Reply(w, Raised(ValueError))
              else
                && Pending(w, c.w, id)
                && At(c.w, id) == Record(Some(t.(state := Cancelled, updatedAt := wall)),
                     if r.row.Some? then Some(r.row.value.(status := RowCancelled)) else None, r.result,
                     r.log + [TaskCancelled(t.state)])
                && c.out == Returned(Some(View(id, Cancelled, t.approval, t.createdAt, wall, r.result)))
  {
  }

  // Deleting leaves nothing of the task, not even its keys, and is committed.
  lemma DeletionWrites(w: World, id: Id)
    ensures var d := Perform(w, DeleteTask(id));
            if At(w, id).task.None? then d == Reply(w, Returned(None))
            else
              && At(d.w, id) == Record(None, None, None, []) && (forall i :: i != id ==> At(d.w, i) == At(w, i))
              && (forall k :: k in d.w.db.work.keys <==> k in w.db.work.keys && w.db.work.keys[k] != id)
              && (forall k :: k in d.w.db.work.keys ==> d.w.db.work.keys[k] == w.db.work.keys[k])
              && d.w.db.disk == d.w.db.work && d.w.cfg == w.cfg && d.out == Returned(None)
  {
  }

  // ----- recovery

  // A stuck job is recovered exactly when its row names a worker whose lease has run out: the row
  // forgets the worker and the attempt under way, keeps its count, and the task is queued.
  lemma JobRecoveryWrites(w: World, id: Id, now: Micros)
    ensures var r, j := At(w, id), Perform(w, RecoverJob(id, now));
            if && r.task.Some? && r.row.Some? && r.row.value.worker.Some? && r.row.value.worker.value != ""
               && r.row.value.leaseExpiresAt.Some? && r.row.value.leaseExpiresAt.value * SECOND <= now
            then
              && Pending(w, j.w, id) && At(j.w, id).task.Some?
              && var at := At(j.w, id).task.value.updatedAt;
                 && at * SECOND <= now < (at + 1) * SECOND
                 && At(j.w, id) == Record(Some(r.task.value.(state := Queued, updatedAt := at)),
                      Some(r.row.value.(status := RowQueued, worker := None, leaseExpiresAt := None,
                                        startedAt := None, timeoutAt := None)),
                      r.result, r.log + [TaskRecovered(r.row.value.worker.value)])
                 && j.out == Returned(Some(View(id, Queued, r.task.value.approval, r.task.value.createdAt, at,
                                                r.result)))
            else j == Reply(w, Returned(None))
  {
  }

  // Resetting an approval makes the task pending, state and status, as of now.
  lemma ResetWrites(w: World, id: Id, wall: Seconds)
    ensures var r, a := At(w, id), Perform(w, RecoverApproval(id, wall));
            if r.task.None? then a == Reply(w, Returned(None))
            else
              && Pending(w, a.w, id)
              && At(a.w, id) == Record(
                   Some(Task(PendingApproval, StatusPending, r.task.value.payload, r.task.value.createdAt, wall)),
                   r.row, r.result, r.log + [ApprovalReset])
              && a.out == Returned(Some(View(id, PendingApproval, StatusPending, r.task.value.createdAt, wall,
                                             r.result)))
  {
  }

  // ----- submission

  // Whatever a submission is turned down for, and what it leaves behind: a recorded key answers with
  // its task as it is now, an invalid payload and a taken id change nothing, and a key without a task
  // stops the submission after the new task's own row.
  lemma SubmissionTurnedDown(w: World, p: Payload, key: Key, webhook: bool, now: Micros, wall: Seconds, turn: Turn)
    ensures var s := Perform(w, SubmitTask(p, key, webhook, now, wall, turn));
            var keys := w.db.work.keys;
            var r := At(w, p.id);
            if key != "" && key in keys && keys[key] != "" && At(w, keys[key]).task.Some? then
              var known := At(w, keys[key]);
              s == Reply(w, Returned(Some(View(keys[key], known.task.value.state, known.task.value.approval,
                                               known.task.value.createdAt, known.task.value.updatedAt,
                                               known.result))))
            else if !p.wellFormed || p.id == "" then s == Reply(w, Raised(ValueError))
            else if r.task.Some? then s == Reply(w, Raised(IntegrityError))
            else key != "" && key in keys ==>
              && Pending(w, s.w, p.id) && s.out == Raised(IntegrityError)
              && At(s.w, p.id) == Record(Some(Task(Received, p.approvalStatus, p, wall, wall)), r.row, r.result,
                                         r.log + [TaskReceived] + if webhook then [WebhookRegistered] else [])
  {
    hide Admit, Register;
    assert At(w, p.id).log + [TaskReceived] + [] == At(w, p.id).log + [TaskReceived];
  }

  // What a new submission writes before its first transition: the task with its requested status, the
  // key, and the events that say so.  Nothing of it is committed yet.
  lemma RegistrationWrites(w: World, p: Payload, key: Key, webhook: bool, wall: Seconds)
    ensures var r, w' := At(w, p.id), Register(w, p, key, webhook, wall);
            && At(w', p.id) == Record(Some(Task(Received, p.approvalStatus, p, wall, wall)), r.row, r.result,
                 r.log + [TaskReceived] + (if webhook then [WebhookRegistered] else [])
                 + (if key != "" then [IdempotencyKeyRecorded(key)] else [])
                 + (if p.approvalRequired then [ApprovalRequested] else []))
            && (forall i :: i != p.id ==> At(w', i) == At(w, i)) && w'.cfg == w.cfg && w'.db.disk == w.db.disk
            && w'.db.work.keys == if key != "" then w.db.work.keys[key := p.id] else w.db.work.keys
  {
    var l0 := At(w, p.id).log + [TaskReceived];
    var l1 := l0 + if webhook then [WebhookRegistered] else [];
    var l2 := l1 + if key != "" then [IdempotencyKeyRecorded(key)] else [];
    var w1 := Put(w, p.id, Create(InitialTask(p, wall), webhook));
    assert At(w1, p.id).log == l1;
    var w2 := if key != "" then Put(w1, p.id, NoteKey(key)) else w1;
    assert At(w2, p.id).log == l2;
    assert l2 + [] == l2;
  }

  // ----- approvals that are stuck

  // Reconciliation reports, in the listed order, exactly the tasks whose approval status contradicts
  // their state: pending without status pending, approved with status pending or rejected, rejected
  // without status rejected.
  lemma {:induction false} ReconciliationIsExact(s: Store, order: seq<Id>)
    ensures ReconcileApprovals(s, order) == Select(order, id =>
              var task := Rec(s, id).task;
              task.Some? &&
                match task.value.state
                case PendingApproval => task.value.approval != StatusPending
                case Approved => task.value.approval == StatusPending || task.value.approval == StatusRejected
                case Rejected => task.value.approval != StatusRejected
                case _ => false)
  {
    if order != [] {
      ReconciliationIsExact(s, order[1..]);
    }
  }

  // The expired approvals of any store are, in the listed order, the pending tasks whose last update
  // lies at least the TTL back, whatever their status says.
  lemma {:induction false} ExpiredAreExact(w: World, now: Micros, order: seq<Id>)
    ensures FindExpired(w, now, order).ids == Select(order, id =>
              var task := At(w, id).task;
              && task.Some? && task.value.state == PendingApproval
              && (task.value.updatedAt + w.cfg.approvalTtl) * SECOND <= now)
    decreases |order|
  {
    if order != [] {
      var id, rest := order[0], order[1..];
      ExpiredAreExact(w, now, rest);
      if ApprovalLapsed(w.cfg, At(w, id), now) {
        var w1 := Put(w, id, Note(ApprovalExpired));
        ExpiredAreExact(w1, now, rest);
        assert forall i :: At(w1, i).task == At(w, i).task;
        SelectSame(rest,
          i =>
            var task := At(w1, i).task;
            && task.Some? && task.value.state == PendingApproval
            && (task.value.updatedAt + w1.cfg.approvalTtl) * SECOND <= now,
          i =>
            var task := At(w, i).task;
            && task.Some? && task.value.state == PendingApproval
            && (task.value.updatedAt + w.cfg.approvalTtl) * SECOND <= now);
      }
    }
  }

  // Each of them gets one audit event that says so, and nothing else changes or is committed.
  lemma {:induction false} ExpiryOnlyNotes(w: World, now: Micros, order: seq<Id>, id: Id)
    requires forall i, j :: 0 <= i < j < |order| ==> order[i] != order[j]
    ensures var e := FindExpired(w, now, order);
            && At(e.w, id) == (if id in e.ids then At(w, id).(log := At(w, id).log + [ApprovalExpired]) else At(w, id))
            && e.w.db.work.keys == w.db.work.keys && e.w.db.disk == w.db.disk && e.w.cfg == w.cfg
    decreases |order|
  {
    if order != [] {
      var first, rest := order[0], order[1..];
      assert first !in rest;
      if ApprovalLapsed(w.cfg, At(w, first), now) {
        var w1 := Put(w, first, Note(ApprovalExpired));
        ExpiryOnlyNotes(w1, now, rest, id);
        ExpiredAreListed(w1, now, rest);
        assert At(w1, id) == if id == first then At(w, id).(log := At(w, id).log + [ApprovalExpired]) else At(w, id);
      } else {
        ExpiryOnlyNotes(w, now, rest, id);
        ExpiredAreListed(w, now, rest);
      }
    }
  }

  lemma {:induction false} ExpiredAreListed(w: World, now: Micros, order: seq<Id>)
    ensures forall id :: id in FindExpired(w, now, order).ids ==> id in order
    decreases |order|
  {
    if order != [] {
      ExpiredAreListed(w, now, order[1..]);
      ExpiredAreListed(Put(w, order[0], Note(ApprovalExpired)), now, order[1..]);
    }
  }

  // The stuck approvals of any store: the listed tasks that one of the two reports names, expiry taking
  // precedence as the reason.
  lemma StuckAreExact(w: World, now: Micros, order: seq<Id>, id: Id)
    ensures var reasons, task := StuckApprovals(w, now, order).reasons, At(w, id).task;
            var expired := && task.Some? && task.value.state == PendingApproval
              && (task.value.updatedAt + w.cfg.approvalTtl) * SECOND <= now;
            var misaligned := task.Some? &&
              match task.value.state
              case PendingApproval => task.value.approval != StatusPending
              case Approved => task.value.approval == StatusPending || task.value.approval == StatusRejected
              case Rejected => task.value.approval != StatusRejected
              case _ => false;
            && (id in reasons <==> id in order && (expired || misaligned))
            && (id in reasons ==> reasons[id] == if expired then ExpiredPendingApproval else StateMismatch)
  {
    hide FindExpired, ReconcileApprovals;
    ExpiredAreExact(w, now, order);
    ReconciliationIsExact(w.db.work, order);
    Selected(order, i =>
      var task := At(w, i).task;
      && task.Some? && task.value.state == PendingApproval
      && (task.value.updatedAt + w.cfg.approvalTtl) * SECOND <= now, id);
    Selected(order, i =>
      var task := Rec(w.db.work, i).task;
      task.Some? &&
        match task.value.state
        case PendingApproval => task.value.approval != StatusPending
        case Approved => task.value.approval == StatusPending || task.value.approval == StatusRejected
        case Rejected => task.value.approval != StatusRejected
        case _ => false, id);
  }

  // A reset gives a listed approval its time again: at any later moment the task is expired if and only
  // if the TTL has passed since the reset.
  lemma ResetStartsTheClock(w: World, id: Id, wall: Seconds, now: Micros, order: seq<Id>)
    requires At(w, id).task.Some? && id in order
    ensures id in FindExpired(RecoverStuckApproval(w, id, wall).w, now, order).ids <==>
            (wall + w.cfg.approvalTtl) * SECOND <= now
  {
    hide FindExpired;
    var w' := RecoverStuckApproval(w, id, wall).w;
    ExpiredAreExact(w', now, order);
    Selected(order, i =>
      var task := At(w', i).task;
      && task.Some? && task.value.state == PendingApproval
      && (task.value.updatedAt + w'.cfg.approvalTtl) * SECOND <= now, id);
  }

  // Listing the stuck approvals notes each expiry.
  lemma StuckNotes(w: World, now: Micros, order: seq<Id>, id: Id)
    requires forall i, j :: 0 <= i < j < |order| ==> order[i] != order[j]
    ensures var r, stuck := At(w, id), StuckApprovals(w, now, order);
            var expired := id in stuck.reasons && stuck.reasons[id] == ExpiredPendingApproval;
            && At(stuck.w, id) == (if expired then r.(log := r.log + [ApprovalExpired]) else r)
            && stuck.w.db.work.keys == w.db.work.keys && stuck.w.db.disk == w.db.disk
            && (id in stuck.reasons ==> r.task.Some?)
  {
    hide FindExpired, ReconcileApprovals;
    StuckAreExact(w, now, order, id);
    ExpiryOnlyNotes(w, now, order, id);
    ExpiredAreExact(w, now, order);
    Selected(order, i =>
      var task := At(w, i).task;
      && task.Some? && task.value.state == PendingApproval
      && (task.value.updatedAt + w.cfg.approvalTtl) * SECOND <= now, id);
  }

  // Recovering a task by the list resets it exactly when one of the two reports names it.
  lemma ListedRecoveryResetsIff(w: World, id: Id, now: Micros, wall: Seconds, order: seq<Id>)
    requires forall i, j :: 0 <= i < j < |order| ==> order[i] != order[j]
    ensures var r, a := At(w, id), Perform(w, RecoverListedApproval(id, now, wall, order));
            var listed := StuckApprovals(w, now, order).reasons;
            var notes := if id in listed && listed[id] == ExpiredPendingApproval then [ApprovalExpired] else [];
            if id in listed then
              && r.task.Some?
              && At(a.w, id) == Record(
                   Some(Task(PendingApproval, StatusPending, r.task.value.payload, r.task.value.createdAt, wall)),
                   r.row, r.result, r.log + notes + [ApprovalReset])
              && a.out == Returned(Some(View(id, PendingApproval, StatusPending, r.task.value.createdAt, wall,
                                             r.result)))
            else At(a.w, id) == r && a.out == Returned(None)
  {
    hide StuckApprovals, RecoverStuckApproval;
    StuckNotes(w, now, order, id);
    var stuck := StuckApprovals(w, now, order);
    assert At(w, id).log + [] == At(w, id).log;
    if id in stuck.reasons {
      ResetWrites(stuck.w, id, wall);
      assert Perform(w, RecoverListedApproval(id, now, wall, order)) ==
          Perform(stuck.w, RecoverApproval(id, wall));
    }
  }
}
