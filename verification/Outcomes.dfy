// Where single calls lead, end to end.

module Outcomes {
  import opened Basics
  import opened StateMachine
  import opened Records
  import opened Worlds
  import opened Engine
  import opened AuditTrail
  import opened Dispatching
  import opened Limits

  predicate NoHandOver(tr: seq<Action>) {
    forall a :: a in tr ==> a.Touch? ==> !a.move.Hand?
  }

  // A new submission that needs an approval waits for it: no row, and the client is not called.
  lemma SubmissionWaitsForApproval(w: World, p: Payload, key: Key, webhook: bool, now: Micros, wall: Seconds,
          turn: Turn)
    requires Fresh(w, p, key) && p.approvalRequired && p.approvalStatus != StatusApproved
    ensures var w' := Submit(w, p, key, webhook, now, wall, turn).w;
            && InState(At(w', p.id), PendingApproval) && At(w', p.id).task.value.approval == StatusPending
            && At(w', p.id).row.None? && NoHandOver(Since(w'.trace, |w.trace|))
  {
    hide TransitionTask, Process, Register, Fresh;
    FreshSubmission(w, p, key, webhook, now, wall, turn);
    var w0 := Register(w, p, key, webhook, wall);
    RegisteredRecord(w, p, key, webhook, wall);
    TransitionRecord(w0, p.id, Validating, wall);
    var w1 := TransitionTask(w0, p.id, Validating, wall).w;
    TransitionRecord(w1, p.id, PendingApproval, wall);
    var w2 := TransitionTask(w1, p.id, PendingApproval, wall).w;
    assert Route(w1, p, now, wall, turn).w == w2;
    assert Admit(w0, p, now, wall, turn).w == w2;
    RegisterHandsNothing(w, p, key, webhook, wall);
    forall a | a in w2.trace[|w.trace|..] ensures a.Touch? ==> !a.move.Hand? {
      assert w2.trace[|w.trace|..] == w0.trace[|w.trace|..] + [Touch(p.id, Shift(Validating, wall)), Commit,
          Touch(p.id, Shift(PendingApproval, wall)), Commit];
    }
  }

  lemma RegisterHandsNothing(w: World, p: Payload, key: Key, webhook: bool, wall: Seconds)
    ensures var w' := Register(w, p, key, webhook, wall);
            w'.cfg == w.cfg && w.trace <= w'.trace && NoHandOver(w'.trace[|w.trace|..])
  {
    var w1 := Put(w, p.id, Create(InitialTask(p, wall), webhook));
    var w2 := if key != "" then Put(w1, p.id, NoteKey(key)) else w1;
    var w3 := Register(w, p, key, webhook, wall);
    assert w1.trace[|w.trace|..] == [Touch(p.id, Create(InitialTask(p, wall), webhook))];
    assert w2.trace[|w.trace|..] == w1.trace[|w.trace|..] + if key != "" then [Touch(p.id, NoteKey(key))] else [];
    assert w3.trace[|w.trace|..] == w2.trace[|w.trace|..] + if p.approvalRequired then [Touch(p.id, Ask)] else [];
  }

  // Processing a queued task whose row is due, by any worker that may claim it, makes it running and
  // dispatched with a committed transition and hands it over once; everything after that is the
  // client's turn and, if the client raises, the handler's.
  lemma DueTaskIsHandedOver(w: World, id: Id, holder: Option<Worker>, now: Micros, wall: Seconds, turn: Turn)
    requires InState(At(w, id), Queued) && RowIs(At(w, id), RowQueued)
    requires At(w, id).row.value.nextAttemptAt * SECOND <= now
    requires holder.Some? ==>
               var q := At(w, id).row.value;
               || q.worker.None? || q.worker.value == "" || q.worker == holder
               || q.leaseExpiresAt.None? || q.leaseExpiresAt.value * SECOND <= now
    ensures var c := ClaimedBy(w, id, holder, now);
            var h := Handed(c, id, holder, now, wall, !turn.raises);
            && InState(At(h, id), Running) && RowIs(At(h, id), RowDispatched)
            && At(h, id).row.value.timeoutAt == Some(wall + w.cfg.timeout)
            && (holder.Some? ==> At(h, id).row.value.worker == holder) && InState(Rec(h.db.disk, id), Running)
            && h.trace == w.trace +
                (if holder.Some? then [Touch(id, Claim(holder.value, now, Floor(now) + w.cfg.lease))] else [])
                          + [Touch(id, Shift(Running, wall))] + [Commit]
                          + [Touch(id, Hand(wall, wall + w.cfg.timeout, !turn.raises, holder, now))]
            && (!turn.raises ==> Process(w, id, holder, now, wall, turn) == Answer(RunAll(h, turn.calls), id))
            && (turn.raises ==>
                  var left := RunAll(h, turn.calls);
                  exists item ::
                    && Process(w, id, holder, now, wall, turn) == FailAttempt(left, id, item, now, wall)
                    && item.attempts == At(w, id).row.value.attempts
                    && item.maxAttempts == At(w, id).row.value.maxAttempts)
  {
    hide RunAll, Process, FailAttempt, Handed, ClaimedBy;
    var c := ClaimedBy(w, id, holder, now);
    ClaimedRecord(w, id, holder, now);
    HandedRecord(c, id, holder, now, wall, !turn.raises);
    DueTaskRuns(w, id, holder, now, wall, turn);
  }

  // The state a callback leads to, whatever its body says besides the run status.
  function Verdict(result: RunResult): State {
    if result.status == Some("succeeded") then Succeeded else State.Failed
  }

  // A running task without a result takes the first one it gets, and it is on disk when the call returns.
  lemma RunningTaskTakesResult(w: World, id: Id, result: RunResult, wall: Seconds)
    requires InState(At(w, id), Running) && At(w, id).result.None? && result.status.Some?
    ensures var w' := AcceptResult(w, id, result, wall).w;
            && InState(At(w', id), Verdict(result)) && Settled(w'.db, id, result)
            && At(w', id).row == At(w, id).row && StateOf(Rec(w'.db.disk, id)) == Some(Verdict(result))
  {
    hide TransitionTask, Settled;
    TransitionRecord(w, id, Verdict(result), wall);
    var t := TransitionTask(w, id, Verdict(result), wall).w;
    KeptResult(t, id, result);
    assert Rec(Put(Do(Put(t, id, Keep(result)), Commit), id, Note(MemoryProvenanceRecorded)).db.disk, id) ==
        At(Do(Put(t, id, Keep(result)), Commit), id);
  }

  // A result that arrives after cancellation changes nothing but the log.
  lemma CancelledTaskIgnoresResult(w: World, id: Id, result: RunResult, wall: Seconds)
    requires InState(At(w, id), Cancelled) && At(w, id).result.None?
    ensures var w' := AcceptResult(w, id, result, wall).w;
            At(w', id) == At(w, id).(log := At(w, id).log + [ResultIgnored]) && forall i :: i != id ==>
                At(w', i) == At(w, i)
  {
  }

  // Cancelling succeeds exactly for tasks that are not finished, and takes the row out of the queue
  // for good: processing it, at any time and by any worker, does nothing.
  lemma CancellingStopsTheQueue(w: World, id: Id, wall: Seconds, holder: Option<Worker>, now: Micros, wall': Seconds,
          turn: Turn)
    requires At(w, id).task.Some? && !InState(At(w, id), Cancelled)
    ensures CancelOne(w, id, wall).out.Raised? <==> Terminal(At(w, id).task.value.state)
    ensures !Terminal(At(w, id).task.value.state) ==>
              var w' := CancelOne(w, id, wall).w;
              && InState(At(w', id), Cancelled) && (At(w', id).row.Some? <==> At(w, id).row.Some?)
              && (At(w, id).row.Some? ==> Process(w', id, holder, now, wall', turn) == Answer(w', id))
  {
  }

  // The integration flow: approving a pending task hands it over, and a client that reports its
  // result before it returns leaves the task finished, with the result stored.
  lemma ApprovalRunsToCompletion(w: World, id: Id, wall: Seconds, result: RunResult)
    requires InState(At(w, id), PendingApproval) && At(w, id).result.None? && result.status.Some?
    ensures var w' := ApproveTask(w, id, wall, Turn([RecordResult(id, result, wall)], false)).w;
            InState(At(w', id), Verdict(result)) && Settled(w'.db, id, result) && RowIs(At(w', id), RowDispatched)
  {
    hide TransitionTask, EnqueueTask, AcceptResult, Process, Submit, Handed, Settled;
    var turn := Turn([RecordResult(id, result, wall)], false);
    TransitionRecord(w, id, Approved, wall);
    var w1 := TransitionTask(w, id, Approved, wall).w;
    EnqueuedRecord(w1, id, wall);
    var w2 := EnqueueTask(w1, id, wall).w;
    HandedRecord(w2, id, None, 0, wall, true);
    var h := Handed(w2, id, None, 0, wall, true);
    RunningTaskTakesResult(h, id, result, wall);
    var w3 := AcceptResult(h, id, result, wall).w;
    RunOne(h, turn.calls[0]);
    assert DispatchQueued(w2, id, None, 0, wall, turn) == Answer(w3, id);
    assert Dispatch(w1, id, None, 0, wall, turn) == Answer(w3, id);
  }

  // A new submission that needs no approval is handed over at once.  If the client refuses it, it is
  // left queued with one failed attempt, or buried when one attempt is all there is.
  lemma RefusedSubmission(w: World, p: Payload, key: Key, webhook: bool, now: Micros, wall: Seconds)
    requires Fresh(w, p, key) && (p.approvalRequired ==> p.approvalStatus == StatusApproved) && wall * SECOND <= now
    ensures var w' := Submit(w, p, key, webhook, now, wall, REFUSAL).w;
            if 1 < w.cfg.maxAttempts then Waiting(w', p.id, 1, w.cfg.maxAttempts) else Buried(w', p.id, 1)
  {
    hide TransitionTask, EnqueueTask, Process, Waiting, Buried, Register, Submit;
    FreshSubmission(w, p, key, webhook, now, wall, REFUSAL);
    var w0 := Register(w, p, key, webhook, wall);
    RegisteredRecord(w, p, key, webhook, wall);
    TransitionRecord(w0, p.id, Validating, wall);
    var w1 := TransitionTask(w0, p.id, Validating, wall).w;
    TransitionRecord(w1, p.id, Approved, wall);
    var w2 := TransitionTask(w1, p.id, Approved, wall).w;
    FirstRefusal(w2, p.id, now, wall);
    assert Route(w1, p, now, wall, REFUSAL).w == Process(EnqueueTask(w2, p.id, wall).w, p.id, None, now, wall,
        REFUSAL).w;
  }

  lemma FirstRefusal(w: World, id: Id, now: Micros, wall: Seconds)
    requires InState(At(w, id), Approved) && wall * SECOND <= now
    ensures var w' := Process(EnqueueTask(w, id, wall).w, id, None, now, wall, REFUSAL).w;
            if 1 < w.cfg.maxAttempts then Waiting(w', id, 1, w.cfg.maxAttempts) else Buried(w', id, 1)
  {
    hide TransitionTask, EnqueueTask, Process, Buried;
    EnqueuedRecord(w, id, wall);
    DriveOnce(EnqueueTask(w, id, wall).w, id, Try(None, now - wall * SECOND, wall), 0, w.cfg.maxAttempts);
  }

  // So there are reachable worlds with a task that waits in the queue.
  lemma WaitingTasksAreReachable(cfg: Config, id: Id, wall: Seconds)
    requires id != "" && 1 < cfg.maxAttempts
    ensures var p := Payload(id, true, false, StatusNotRequired);
            Waiting(Run(cfg, [SubmitTask(p, "", false, wall * SECOND, wall, REFUSAL)]), id, 1, cfg.maxAttempts)
  {
    hide Submit, Waiting;
    var p := Payload(id, true, false, StatusNotRequired);
    var op := SubmitTask(p, "", false, wall * SECOND, wall, REFUSAL);
    RefusedSubmission(Boot(cfg), p, "", false, wall * SECOND, wall);
    RunOne(Boot(cfg), op);
  }
}
