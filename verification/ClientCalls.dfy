// When the client is called, decided on the columns before the call, whatever the client then does.

module ClientCalls {
  import opened Basics
  import opened StateMachine
  import opened Records
  import opened Worlds
  import opened Engine
  import opened Soundness
  import opened Runs
  import opened Histories
  import opened AuditTrail
  import opened Outcomes
  import opened Effects

  // `w'` continues `w` without calling the client.
  predicate Quiet(w: World, w': World) {
    w.trace <= w'.trace && NoHandOver(Since(w'.trace, |w.trace|))
  }

  // `w'` continues `w` and hands the task over on the way.
  ghost predicate HandsOver(w: World, w': World, id: Id, holder: Option<Worker>, now: Micros, at: Seconds,
          accepted: bool) {
    exists k :: |w.trace| <= k < |w'.trace| &&
        w'.trace[k] == Touch(id, Hand(at, at + w.cfg.timeout, accepted, holder, now))
  }

  lemma QuietStep(w: World, a: Action)
    requires a.Touch? ==> !a.move.Hand?
    ensures Quiet(w, Do(w, a))
  {
    assert Since(Do(w, a).trace, |w.trace|) == [a];
  }

  lemma QuietChain(w0: World, w1: World, w2: World)
    requires Quiet(w0, w1) && Quiet(w1, w2)
    ensures Quiet(w0, w2)
  {
    var s := Since(w2.trace, |w0.trace|);
    assert s == Since(w1.trace, |w0.trace|) + Since(w2.trace, |w1.trace|);
  }

  lemma LoudChain(w0: World, w1: World, w2: World, id: Id, holder: Option<Worker>, now: Micros, at: Seconds,
          accepted: bool)
    requires w0.trace <= w1.trace && w0.cfg == w1.cfg && HandsOver(w1, w2, id, holder, now, at, accepted)
    ensures HandsOver(w0, w2, id, holder, now, at, accepted)
  {
  }

  lemma LoudIsNotQuiet(w: World, w': World, id: Id, holder: Option<Worker>, now: Micros, at: Seconds, accepted: bool)
    requires HandsOver(w, w', id, holder, now, at, accepted)
    ensures !NoHandOver(Since(w'.trace, |w.trace|))
  {
    var k :| |w.trace| <= k < |w'.trace| &&
        w'.trace[k] == Touch(id, Hand(at, at + w.cfg.timeout, accepted, holder, now));
    assert Since(w'.trace, |w.trace|)[k - |w.trace|] == w'.trace[k];
  }

  lemma TransitionIsQuiet(w: World, id: Id, to: State, wall: Seconds)
    ensures Quiet(w, TransitionTask(w, id, to, wall).w)
  {
    var w1 := Put(w, id, Shift(to, wall));
    QuietStep(w, Touch(id, Shift(to, wall)));
    QuietStep(w1, Commit);
    QuietChain(w, w1, Do(w1, Commit));
  }

  lemma EnqueueIsQuiet(w: World, id: Id, wall: Seconds)
    ensures Quiet(w, EnqueueTask(w, id, wall).w)
  {
    hide TransitionTask, Quiet;
    assert Quiet(w, w) by {
      QuietSelf(w);
    }
    TransitionIsQuiet(w, id, Queued, wall);
    var w1 := TransitionTask(w, id, Queued, wall).w;
    QuietStep(w1, Touch(id, Insert(w.cfg.maxAttempts, wall)));
    QuietChain(w, w1, Put(w1, id, Insert(w.cfg.maxAttempts, wall)));
  }

  lemma QuietSelf(w: World)
    ensures Quiet(w, w)
  {
  }

  lemma FailureIsQuiet(w: World, id: Id, item: Row, now: Micros, wall: Seconds)
    ensures Quiet(w, FailAttempt(w, id, item, now, wall).w)
  {
    hide TransitionTask, Quiet;
    var k := item.attempts + 1;
    if k >= item.maxAttempts {
      var w1 := Put(w, id, Bury(k, Floor(now)));
      QuietStep(w, Touch(id, Bury(k, Floor(now))));
      TransitionIsQuiet(w1, id, State.Failed, wall);
      var w2 := TransitionTask(w1, id, State.Failed, wall).w;
      QuietChain(w, w1, w2);
      QuietStep(w2, Touch(id, Note(TaskDeadLettered(k))));
      QuietChain(w, w2, Put(w2, id, Note(TaskDeadLettered(k))));
    } else {
      var next := Floor(now + BackoffSeconds(w.cfg, k) * SECOND);
      QuietStep(w, Touch(id, Retry(k, next, Floor(now), wall)));
    }
  }

  // The hand-over is followed by the client's turn, which only adds to the trace.
  lemma TurnFollowsHandOver(w0: World, w: World, id: Id, holder: Option<Worker>, now: Micros, wall: Seconds, turn: Turn)
    requires Under(AnyClient, w0, w, id) && InState(At(w, id), Queued) && RowIs(At(w, id), RowQueued)
    requires JustClaimed(w, id, holder, now)
    ensures var d := DispatchQueued(w, id, holder, now, wall, turn);
            && HandsOver(w, d.w, id, holder, now, wall, !turn.raises) && (d.out.Raised? <==> turn.raises)
            && (d.out.Raised? ==> d.out == Raised(ClientError)) && w.trace <= d.w.trace
  {
    hide Under, Perform, AtRest, RunAll;
    var h := Handed(w, id, holder, now, wall, !turn.raises);
    HandRun(AnyClient, w0, w, id, holder, now, wall, !turn.raises);
    HandedRecord(w, id, holder, now, wall, !turn.raises);
    EndsAtRest(AnyClient, w0, h);
    FitsAny(turn.calls);
    AllRun(AnyClient, h, turn.calls);
    var w1 := RunAll(h, turn.calls);
    assert h.trace <= w1.trace;
    assert w1.trace[|h.trace| - 1] == Touch(id, Hand(wall, wall + w.cfg.timeout, !turn.raises, holder, now));
  }

  // process_queue up to its except clause.
  lemma ProcessIsDispatch(w: World, id: Id, holder: Option<Worker>, now: Micros, wall: Seconds, turn: Turn)
    requires RowIs(At(w, id), RowQueued) && At(w, id).row.value.nextAttemptAt * SECOND <= now
    requires holder.Some? ==> ClaimQueueItem(w, id, holder.value, now).out.Returned?
    ensures var c := ClaimedBy(w, id, holder, now);
            var d := Dispatch(c, id, holder, now, wall, turn);
            && At(c, id).row.Some?
            && Process(w, id, holder, now, wall, turn).w
               == if d.out.Returned? then d.w else FailAttempt(d.w, id, At(c, id).row.value, now, wall).w
  {
    hide Dispatch, FailAttempt;
  }

  lemma ClaimedByRun(w: World, id: Id, holder: Option<Worker>, now: Micros)
    requires AtRest(AnyClient, w) && RowIs(At(w, id), RowQueued)
    requires holder.Some? ==> ClaimQueueItem(w, id, holder.value, now).out.Returned?
    ensures var c := ClaimedBy(w, id, holder, now);
            && Under(AnyClient, w, c, id) && JustClaimed(c, id, holder, now) && Quiet(w, c) && c.cfg == w.cfg
            && At(c, id).task == At(w, id).task && RowIs(At(c, id), RowQueued)
  {
    hide AtRest, Under, Quiet;
    Begin(AnyClient, w, id);
    if holder.Some? {
      ClaimRun(AnyClient, w, w, id, holder.value, now);
      assert Floor(now + w.cfg.lease * SECOND) == Floor(now) + w.cfg.lease;
      QuietStep(w, Touch(id, Claim(holder.value, now, Floor(now) + w.cfg.lease)));
    } else {
      QuietSelf(w);
    }
  }

  // A task that is queued, or that still is approved when it is processed for nobody, is handed over.
  lemma DispatchHandsOver(w: World, id: Id, holder: Option<Worker>, now: Micros, wall: Seconds, turn: Turn)
    requires AtRest(AnyClient, w) && RowIs(At(w, id), RowQueued)
    requires holder.Some? ==> ClaimQueueItem(w, id, holder.value, now).out.Returned?
    requires InState(At(w, id), Queued) || (InState(At(w, id), Approved) && holder.None?)
    ensures var c := ClaimedBy(w, id, holder, now);
            HandsOver(w, Dispatch(c, id, holder, now, wall, turn).w, id, holder, now, wall, !turn.raises)
  {
    hide AtRest, Under, Quiet, HandsOver, DispatchQueued, EnqueueTask, ClaimedBy;
    ClaimedByRun(w, id, holder, now);
    var c := ClaimedBy(w, id, holder, now);
    assert w.trace <= c.trace by {
      QuietExtends(w, c);
    }
    if InState(At(w, id), Queued) {
      TurnFollowsHandOver(w, c, id, holder, now, wall, turn);
      LoudChain(w, c, DispatchQueued(c, id, holder, now, wall, turn).w, id, holder, now, wall, !turn.raises);
    } else {
      EnqueueRun(AnyClient, w, c, id, wall);
      EnqueuedRecord(c, id, wall);
      var e := EnqueueTask(c, id, wall).w;
      TurnFollowsHandOver(w, e, id, holder, now, wall, turn);
      LoudChain(w, e, DispatchQueued(e, id, holder, now, wall, turn).w, id, holder, now, wall, !turn.raises);
    }
  }

  lemma QuietExtends(w: World, w': World)
    requires Quiet(w, w')
    ensures w.trace <= w'.trace
  {
  }

  // Any other task is not.
  lemma DispatchIsQuiet(w: World, id: Id, holder: Option<Worker>, now: Micros, wall: Seconds, turn: Turn)
    requires !InState(At(w, id), Queued) && !(InState(At(w, id), Approved) && holder.None?)
    ensures var d := Dispatch(w, id, holder, now, wall, turn); Quiet(w, d.w) && d.out.Raised?
  {
    hide Quiet, EnqueueTask, RunAll;
    QuietSelf(w);
    if InState(At(w, id), Approved) {
      EnqueueIsQuiet(w, id, wall);
      EnqueuedRecord(w, id, wall);
      UnleasedRowRefuses(EnqueueTask(w, id, wall).w, id, holder, now, wall, turn);
    }
  }

  // process_queue calls the client exactly when the row is queued and due, no other worker holds it,
  // and the task is queued, or approved and processed for nobody.
  lemma ProcessingCallsClientIff(w: World, id: Id, holder: Option<Worker>, now: Micros, wall: Seconds, turn: Turn)
    requires AtRest(AnyClient, w)
    ensures var r, w' := At(w, id), Process(w, id, holder, now, wall, turn).w;
            var called := r.task.Some? && r.row.Some?
              && r.row.value.status == RowQueued && r.row.value.nextAttemptAt * SECOND <= now
              && (r.task.value.state == Queued || (r.task.value.state == Approved && holder.None?))
              && !(&& holder.Some? && r.row.value.worker.Some? && r.row.value.worker.value != ""
                   && r.row.value.worker != holder && r.row.value.leaseExpiresAt.Some?
                   && now < r.row.value.leaseExpiresAt.value * SECOND);
            && (called ==> HandsOver(w, w', id, holder, now, wall, !turn.raises))
            && (called <==> !NoHandOver(Since(w'.trace, |w.trace|)))
  {
    hide AtRest, Process, Dispatch, FailAttempt, HandsOver, Quiet, ClaimQueueItem, ClaimedBy, NoHandOver;
    var r, p := At(w, id), Process(w, id, holder, now, wall, turn);
    ProcessingIsIdle(w, id, holder, now, wall, turn);
    assert NoHandOver([]) && Since(w.trace, |w.trace|) == [] by {
      QuietSelf(w);
      Silent();
    }
    if RowIs(r, RowQueued) && r.row.value.nextAttemptAt * SECOND <= now {
      if holder.Some? {
        ClaimTurnedAwayIff(w, id, holder.value, now);
      }
      if holder.Some? ==> ClaimQueueItem(w, id, holder.value, now).out.Returned? {
        ProcessIsDispatch(w, id, holder, now, wall, turn);
        ClaimedByRun(w, id, holder, now);
        AttemptIsHeardIff(w, id, holder, now, wall, turn);
      }
    }
  }

  lemma Silent()
    ensures NoHandOver([])
  {
  }

  lemma AttemptIsHeardIff(w: World, id: Id, holder: Option<Worker>, now: Micros, wall: Seconds, turn: Turn)
    requires AtRest(AnyClient, w) && RowIs(At(w, id), RowQueued)
    requires At(w, id).row.value.nextAttemptAt * SECOND <= now
    requires holder.Some? ==> ClaimQueueItem(w, id, holder.value, now).out.Returned?
    ensures var w' := Process(w, id, holder, now, wall, turn).w;
            var heard := InState(At(w, id), Queued) || (InState(At(w, id), Approved) && holder.None?);
            && (heard ==> HandsOver(w, w', id, holder, now, wall, !turn.raises))
            && (heard <==> !NoHandOver(Since(w'.trace, |w.trace|)))
  {
    hide AtRest, Process, Dispatch, FailAttempt, HandsOver, ClaimQueueItem, ClaimedBy, NoHandOver;
    var w' := Process(w, id, holder, now, wall, turn).w;
    ProcessIsDispatch(w, id, holder, now, wall, turn);
    ClaimedByRun(w, id, holder, now);
    var c := ClaimedBy(w, id, holder, now);
    var d := Dispatch(c, id, holder, now, wall, turn);
    FailureIsQuiet(d.w, id, At(c, id).row.value, now, wall);
    if InState(At(w, id), Queued) || (InState(At(w, id), Approved) && holder.None?) {
      DispatchHandsOver(w, id, holder, now, wall, turn);
      StaysHandedOver(w, d.w, w', id, holder, now, wall, !turn.raises);
      LoudIsNotQuiet(w, w', id, holder, now, wall, !turn.raises);
    } else {
      DispatchIsQuiet(c, id, holder, now, wall, turn);
      QuietChain(w, c, d.w);
      QuietChain(w, d.w, w');
    }
  }

  lemma StaysHandedOver(w: World, w1: World, w2: World, id: Id, holder: Option<Worker>, now: Micros, at: Seconds,
          accepted: bool)
    requires HandsOver(w, w1, id, holder, now, at, accepted) && w1.trace <= w2.trace
    ensures HandsOver(w, w2, id, holder, now, at, accepted)
  {
    var k :| |w.trace| <= k < |w1.trace| &&
        w1.trace[k] == Touch(id, Hand(at, at + w.cfg.timeout, accepted, holder, now));
    assert w2.trace[k] == w1.trace[k];
  }

  // ----- owners

  // A worker that claims a task may process it at any later or earlier time, however long its own
  // lease still runs: the claim is renewed, and a task that is due reaches the client.
  lemma OwnerIsServed(w: World, id: Id, worker: Worker, now: Micros, later: Micros, wall: Seconds, turn: Turn)
    requires AtRest(AnyClient, w) && ClaimQueueItem(w, id, worker, now).out.Returned?
    requires At(w, id).task.Some? && At(w, id).task.value.state == Queued && At(w, id).row.Some?
    requires At(w, id).row.value.status == RowQueued && At(w, id).row.value.nextAttemptAt * SECOND <= later
    ensures var c := ClaimQueueItem(w, id, worker, now).w;
            HandsOver(c, Process(c, id, Some(worker), later, wall, turn).w, id, Some(worker), later, wall, !turn.raises)
  {
    hide AtRest, Process, HandsOver, ClaimQueueItem;
    ClaimOneRun(AnyClient, w, id, worker, now);
    var c := ClaimQueueItem(w, id, worker, now).w;
    EndsAtRest(AnyClient, w, c);
    ClaimWrites(w, id, worker, now);
    ProcessingCallsClientIff(c, id, Some(worker), later, wall, turn);
  }

  // The same worker is served again after a refusal, as soon as the retry is due.
  lemma RefusedOwnerIsServedAgain(w: World, id: Id, worker: Worker, now: Micros, wall: Seconds, later: Micros,
          wall': Seconds, turn: Turn)
    requires AtRest(AnyClient, w) && ClaimQueueItem(w, id, worker, now).out.Returned?
    requires At(w, id).task.Some? && At(w, id).task.value.state == Queued && At(w, id).row.Some?
    requires At(w, id).row.value.status == RowQueued && At(w, id).row.value.nextAttemptAt * SECOND <= now
    requires At(w, id).row.value.attempts + 1 < At(w, id).row.value.maxAttempts
    ensures var w1 := Process(w, id, Some(worker), now, wall, REFUSAL).w;
            && At(w1, id).row.Some? && At(w1, id).row.value.worker == Some(worker)
            && (At(w1, id).row.value.nextAttemptAt * SECOND <= later ==>
                  HandsOver(w1, Process(w1, id, Some(worker), later, wall', turn).w, id, Some(worker), later, wall',
                      !turn.raises))
  {
    hide AtRest, Process, HandsOver, ClaimQueueItem, FailAttempt, Handed;
    var r, w1 := At(w, id), Process(w, id, Some(worker), now, wall, REFUSAL).w;
    Begin(AnyClient, w, id);
    QuietTurnFits(AnyClient, REFUSAL);
    ProcessRun(AnyClient, w, w, id, Some(worker), now, wall, REFUSAL);
    EndsAtRest(AnyClient, w, w1);
    ClaimTurnedAwayIff(w, id, worker, now);
    ClaimWrites(w, id, worker, now);
    RefusedRecord(w, id, worker, now, wall);
    if At(w1, id).row.value.nextAttemptAt * SECOND <= later {
      ProcessingCallsClientIff(w1, id, Some(worker), later, wall', turn);
    }
  }

  lemma RefusedRecord(w: World, id: Id, worker: Worker, now: Micros, wall: Seconds)
    requires ClaimQueueItem(w, id, worker, now).out.Returned?
    requires InState(At(w, id), Queued) && RowIs(At(w, id), RowQueued)
    requires At(w, id).row.value.nextAttemptAt * SECOND <= now
    requires At(w, id).row.value.attempts + 1 < At(w, id).row.value.maxAttempts
    ensures var r := At(Process(w, id, Some(worker), now, wall, REFUSAL).w, id);
            InState(r, Queued) && RowIs(r, RowQueued) && r.row.value.worker == Some(worker)
  {
    hide Process, ClaimQueueItem, FailAttempt, Handed;
    var c := ClaimQueueItem(w, id, worker, now).w;
    ClaimWrites(w, id, worker, now);
    ProcessIsDispatch(w, id, Some(worker), now, wall, REFUSAL);
    HandOverWrites(c, id, Some(worker), now, wall, false);
    var h := Handed(c, id, Some(worker), now, wall, false);
    assert DispatchQueued(c, id, Some(worker), now, wall, REFUSAL) == Reply(h, Raised(ClientError));
    RetryWrites(h, id, At(c, id).row.value, now, wall);
  }

  // A client that takes the task without calling back leaves it running and its row dispatched, with
  // the count of attempts as it was, and the caller is told so.
  lemma AcceptedTaskRuns(w: World, id: Id, holder: Option<Worker>, now: Micros, wall: Seconds)
    requires holder.Some? ==> ClaimQueueItem(w, id, holder.value, now).out.Returned?
    requires InState(At(w, id), Queued) && RowIs(At(w, id), RowQueued)
    requires At(w, id).row.value.nextAttemptAt * SECOND <= now
    ensures var t, q, p := At(w, id).task.value, At(w, id).row.value, Process(w, id, holder, now, wall, ACCEPTANCE);
            && At(p.w, id).task == Some(t.(state := Running, updatedAt := wall)) && At(p.w, id).row.Some?
            && At(p.w, id).row.value == Row(RowDispatched, q.attempts, q.maxAttempts, q.nextAttemptAt, Some(wall),
                 Some(wall + w.cfg.timeout), if holder.Some? then holder else q.worker,
                 At(p.w, id).row.value.leaseExpiresAt)
            && p.out == Returned(Some(View(id, Running, t.approval, t.createdAt, wall, At(w, id).result)))
  {
    hide Process, ClaimQueueItem, FailAttempt, Handed;
    var c := ClaimedBy(w, id, holder, now);
    if holder.Some? {
      ClaimWrites(w, id, holder.value, now);
      ClaimTurnedAwayIff(w, id, holder.value, now);
    }
    HandOverWrites(c, id, holder, now, wall, true);
    DueTaskRuns(w, id, holder, now, wall, ACCEPTANCE);
  }

  // ----- new submissions

  // submit_task past its checks, up to where the queue is processed.
  lemma SubmissionIsRouted(w: World, p: Payload, key: Key, webhook: bool, now: Micros, wall: Seconds, turn: Turn)
    requires p.wellFormed && p.id != "" && At(w, p.id).task.None? && (key != "" ==> key !in w.db.work.keys)
    ensures var s := Submit(w, p, key, webhook, now, wall, turn);
            var w1 := TransitionTask(Register(w, p, key, webhook, wall), p.id, Validating, wall).w;
            if p.approvalRequired && p.approvalStatus != StatusApproved then
              s == Answer(TransitionTask(w1, p.id, PendingApproval, wall).w, p.id)
            else
              var w2 := EnqueueTask(TransitionTask(w1, p.id, Approved, wall).w, p.id, wall).w;
              var q := Process(w2, p.id, None, now, wall, turn);
              s == if q.out.Raised? then q else Answer(q.w, p.id)
  {
    hide TransitionTask, EnqueueTask, Process, Register;
    var w0 := Register(w, p, key, webhook, wall);
    var w1 := TransitionTask(w0, p.id, Validating, wall).w;
    assert Submit(w, p, key, webhook, now, wall, turn) == Admit(w0, p, now, wall, turn) by {
      hide Admit;
    }
    assert Admit(w0, p, now, wall, turn) == Route(w1, p, now, wall, turn);
  }

  // What is written before the queue is processed, or instead of it.
  lemma RoutedRecord(w: World, p: Payload, key: Key, webhook: bool, wall: Seconds)
    requires At(w, p.id).task.None? && At(w, p.id).row.None? && At(w, p.id).result.None?
    ensures var w0 := Register(w, p, key, webhook, wall);
            var w1 := TransitionTask(w0, p.id, Validating, wall).w;
            var pending := TransitionTask(w1, p.id, PendingApproval, wall).w;
            var queued := EnqueueTask(TransitionTask(w1, p.id, Approved, wall).w, p.id, wall).w;
            var log := At(w0, p.id).log + [StateChanged(Received, Validating)];
            && At(pending, p.id) == Record(Some(Task(PendingApproval, StatusPending, p, wall, wall)), None, None,
                                           log + [StateChanged(Validating, PendingApproval)])
            && At(queued, p.id) == Record(Some(Task(Queued, StatusApproved, p, wall, wall)),
                 Some(Row(RowQueued, 0, w.cfg.maxAttempts, wall, None, None, None, None)), None,
                 log + [StateChanged(Validating, Approved), ApprovalGranted, StateChanged(Approved, Queued),
                        TaskEnqueued])
            && queued.cfg == pending.cfg == w.cfg
  {
    hide TransitionTask, EnqueueTask, Register;
    RegistrationWrites(w, p, key, webhook, wall);
    var w0 := Register(w, p, key, webhook, wall);
    TransitionWrites(w0, p.id, Validating, wall);
    var w1 := TransitionTask(w0, p.id, Validating, wall).w;
    TransitionWrites(w1, p.id, PendingApproval, wall);
    TransitionWrites(w1, p.id, Approved, wall);
    EnqueueWrites(TransitionTask(w1, p.id, Approved, wall).w, p.id, wall);
  }

  lemma RegisterIsQuiet(w: World, p: Payload, key: Key, webhook: bool, wall: Seconds)
    ensures Quiet(w, Register(w, p, key, webhook, wall))
  {
    RegisterHandsNothing(w, p, key, webhook, wall);
  }

  lemma RoutingIsQuiet(w: World, p: Payload, key: Key, webhook: bool, wall: Seconds)
    ensures var w1 := TransitionTask(Register(w, p, key, webhook, wall), p.id, Validating, wall).w;
            && Quiet(w, TransitionTask(w1, p.id, PendingApproval, wall).w)
            && Quiet(w, EnqueueTask(TransitionTask(w1, p.id, Approved, wall).w, p.id, wall).w)
  {
    hide TransitionTask, EnqueueTask, Register, Quiet;
    RegisterIsQuiet(w, p, key, webhook, wall);
    var w0 := Register(w, p, key, webhook, wall);
    TransitionIsQuiet(w0, p.id, Validating, wall);
    var w1 := TransitionTask(w0, p.id, Validating, wall).w;
    QuietChain(w, w0, w1);
    TransitionIsQuiet(w1, p.id, PendingApproval, wall);
    QuietChain(w, w1, TransitionTask(w1, p.id, PendingApproval, wall).w);
    TransitionIsQuiet(w1, p.id, Approved, wall);
    var w2 := TransitionTask(w1, p.id, Approved, wall).w;
    QuietChain(w, w1, w2);
    EnqueueIsQuiet(w2, p.id, wall);
    QuietChain(w, w2, EnqueueTask(w2, p.id, wall).w);
  }

  lemma QueuedAtRest(w: World, p: Payload, key: Key, webhook: bool, wall: Seconds)
    requires AtRest(AnyClient, w) && p.id != "" && At(w, p.id).task.None? && (key != "" ==> key !in w.db.work.keys)
    ensures var w1 := TransitionTask(Register(w, p, key, webhook, wall), p.id, Validating, wall).w;
            AtRest(AnyClient, EnqueueTask(TransitionTask(w1, p.id, Approved, wall).w, p.id, wall).w)
  {
    hide TransitionTask, EnqueueTask, Register, AtRest, Under, Ends;
    Begin(AnyClient, w, p.id);
    RegisterRun(AnyClient, w, w, p, key, webhook, wall);
    var w0 := Register(w, p, key, webhook, wall);
    TransitionRun(AnyClient, w, w0, p.id, Validating, wall);
    var w1 := TransitionTask(w0, p.id, Validating, wall).w;
    TransitionRun(AnyClient, w, w1, p.id, Approved, wall);
    var w2 := TransitionTask(w1, p.id, Approved, wall).w;
    EnqueueRun(AnyClient, w, w2, p.id, wall);
    Finish(AnyClient, w, EnqueueTask(w2, p.id, wall).w, p.id);
    EndsAtRest(AnyClient, w, EnqueueTask(w2, p.id, wall).w);
  }

  // Where a new submission goes is decided by what its payload says of the approval.  It calls the
  // client exactly when the approval is not required or already given (and the clock that processes
  // the queue is not behind the one that stamped the row); it ends pending, without a row and without
  // a call, exactly when the approval is required and not given.
  lemma SubmissionCallsClientIff(w: World, p: Payload, key: Key, webhook: bool, now: Micros, wall: Seconds, turn: Turn)
    requires AtRest(AnyClient, w)
    requires p.wellFormed && p.id != "" && At(w, p.id).task.None? && (key != "" ==> key !in w.db.work.keys)
    ensures var s := Submit(w, p, key, webhook, now, wall, turn);
            var waits := p.approvalRequired && p.approvalStatus != StatusApproved;
            var quiet := NoHandOver(Since(s.w.trace, |w.trace|));
            && (quiet <==> waits || now < wall * SECOND)
            && (!quiet ==> HandsOver(w, s.w, p.id, None, now, wall, !turn.raises))
            && (waits <==> quiet && InState(At(s.w, p.id), PendingApproval) && At(s.w, p.id).row.None?)
            && (waits ==>
                  && At(s.w, p.id).task == Some(Task(PendingApproval, StatusPending, p, wall, wall))
                  && s.out == Returned(Some(View(p.id, PendingApproval, StatusPending, wall, wall, None))))
            && (quiet && !waits ==>
                  && At(s.w, p.id).task == Some(Task(Queued, StatusApproved, p, wall, wall))
                  && At(s.w, p.id).row ==
                      Some(Row(RowQueued, 0, w.cfg.maxAttempts, wall, None, None, None, None))
                  && s.out == Returned(Some(View(p.id, Queued, StatusApproved, wall, wall, None))))
  {
    hide TransitionTask, EnqueueTask, Register, Submit, Process, AtRest, HandsOver, NoHandOver, SoundRecord;
    Begin(AnyClient, w, p.id);
    NothingWithoutTask(At(w, p.id));
    SubmissionIsRouted(w, p, key, webhook, now, wall, turn);
    RoutedRecord(w, p, key, webhook, wall);
    RoutingIsQuiet(w, p, key, webhook, wall);
    var w1 := TransitionTask(Register(w, p, key, webhook, wall), p.id, Validating, wall).w;
    if !(p.approvalRequired && p.approvalStatus != StatusApproved) {
      var w2 := EnqueueTask(TransitionTask(w1, p.id, Approved, wall).w, p.id, wall).w;
      var w3 := Process(w2, p.id, None, now, wall, turn).w;
      QueuedAtRest(w, p, key, webhook, wall);
      ProcessingCallsClientIff(w2, p.id, None, now, wall, turn);
      if wall * SECOND <= now {
        LoudChain(w, w2, w3, p.id, None, now, wall, !turn.raises);
        LoudIsNotQuiet(w, w3, p.id, None, now, wall, !turn.raises);
      } else {
        ProcessingIsIdle(w2, p.id, None, now, wall, turn);
      }
    }
  }

  lemma NothingWithoutTask(r: Record)
    requires SoundRecord(r) && r.task.None?
    ensures r.row.None? && r.result.None?
  {
  }

  // ----- approvals

  // Approving calls the client exactly when the task is waiting for it (or being validated), whatever
  // row there is, and an exception of the client is passed on: nothing is retried.
  lemma ApprovalCallsClientIff(w: World, id: Id, wall: Seconds, turn: Turn)
    requires AtRest(AnyClient, w)
    ensures var r, a := At(w, id), Perform(w, Approve(id, wall, turn));
            var called := r.task.Some? && (r.task.value.state == PendingApproval || r.task.value.state == Validating);
            && (called <==> !NoHandOver(Since(a.w.trace, |w.trace|)))
            && (called ==> HandsOver(w, a.w, id, None, 0, wall, !turn.raises))
            && (called ==> if turn.raises then a.out == Raised(ClientError) else a.out.Returned?)
            && (!called ==> a == Reply(w, Raised(if r.task.None? then KeyError else ValueError)))
  {
    hide TransitionTask, EnqueueTask, AtRest, HandsOver, NoHandOver, Under, DispatchQueued, Quiet;
    Silent();
    assert Since(w.trace, |w.trace|) == [];
    TransitionWrites(w, id, Approved, wall);
    if InState(At(w, id), PendingApproval) || InState(At(w, id), Validating) {
      Begin(AnyClient, w, id);
      TransitionRun(AnyClient, w, w, id, Approved, wall);
      var w1 := TransitionTask(w, id, Approved, wall).w;
      EnqueueRun(AnyClient, w, w1, id, wall);
      EnqueuedRecord(w1, id, wall);
      var w2 := EnqueueTask(w1, id, wall).w;
      TurnFollowsHandOver(w, w2, id, None, 0, wall, turn);
      UnderExtends(AnyClient, w, w2, id);
      LoudChain(w, w2, DispatchQueued(w2, id, None, 0, wall, turn).w, id, None, 0, wall, !turn.raises);
      LoudIsNotQuiet(w, DispatchQueued(w2, id, None, 0, wall, turn).w, id, None, 0, wall, !turn.raises);
      assert Dispatch(w1, id, None, 0, wall, turn) == DispatchQueued(w2, id, None, 0, wall, turn);
    }
  }
}
