// What a crash costs: tasks that it leaves halfway, and calls that were answered but not committed.

module Crashes {
  import opened Basics
  import opened StateMachine
  import opened Records
  import opened Worlds
  import opened Engine
  import opened Histories
  import opened Dispatching
  import opened Limits

  // The process dies after all of the call's actions.
  lemma InterruptedAfter(w: World, w': World, cut: nat)
    requires Replays(w') && w.cfg == w'.cfg && w.trace <= w'.trace && |w'.trace| <= |w.trace| + cut
    ensures Interrupted(w, w', cut) == Do(w', Crash)
  {
    assert w'.trace[..|w'.trace|] == w'.trace;
    DoReplays(w', Crash);
  }

  // The process dies as soon as the call has come to `w1`.
  lemma InterruptedAt(w: World, w1: World, w': World, cut: nat)
    requires Replays(w1) && w.cfg == w1.cfg && w1.trace <= w'.trace && |w1.trace| == |w.trace| + cut
    ensures Interrupted(w, w', cut) == Do(w1, Crash)
  {
    assert w'.trace[..|w1.trace|] == w1.trace;
    DoReplays(w1, Crash);
  }

  lemma TransitionReplays(w: World, id: Id, to: State, wall: Seconds)
    requires Replays(w)
    ensures Replays(TransitionTask(w, id, to, wall).w)
  {
    hide Replays;
    DoReplays(w, Touch(id, Shift(to, wall)));
    DoReplays(Put(w, id, Shift(to, wall)), Commit);
  }

  // ----- halfway to queued

  // A task that is queued without a row can be neither processed, claimed, recovered nor approved.
  lemma QueuedWithoutRowIsStuck(w: World, id: Id, wall: Seconds, holder: Option<Worker>, worker: Worker, now: Micros,
          turn: Turn)
    requires InState(At(w, id), Queued) && At(w, id).row.None?
    ensures Process(w, id, holder, now, wall, turn) == Reply(w, Raised(KeyError))
    ensures ClaimQueueItem(w, id, worker, now) == Reply(w, Raised(KeyError))
    ensures RecoverStuckJob(w, id, now) == Reply(w, Returned(None))
    ensures ApproveTask(w, id, wall, turn) == Reply(w, Raised(ValueError))
  {
  }

  // The move to queued is committed before the queue row is inserted, and the process dies in between.
  lemma CrashStrandsQueuedTask(w: World, id: Id, wall: Seconds, holder: Option<Worker>, now: Micros, turn: Turn)
    requires Replays(w) && InState(At(w, id), Approved) && At(w, id).row.None?
    ensures var w' := Interrupted(w, EnqueueTask(w, id, wall).w, 2);
            && InState(At(w', id), Queued) && At(w', id).row.None?
            && Process(w', id, holder, now, wall, turn) == Reply(w', Raised(KeyError))
            && ApproveTask(w', id, wall, turn) == Reply(w', Raised(ValueError))
  {
    hide TransitionTask, Process, ApproveTask, EnqueueTask, Interrupted;
    var queued := TransitionTask(w, id, Queued, wall).w;
    TransitionRecord(w, id, Queued, wall);
    EnqueuedRecord(w, id, wall);
    TransitionReplays(w, id, Queued, wall);
    assert queued.trace <= EnqueueTask(w, id, wall).w.trace;
    InterruptedAt(w, queued, EnqueueTask(w, id, wall).w, 2);
    QueuedWithoutRowIsStuck(Do(queued, Crash), id, wall, holder, "", now, turn);
  }

  // ----- halfway to running

  // Marking the row is not committed, so that a crash right after the client took the task leaves
  // it running with its row still queued.
  lemma CrashForgetsHandOver(w: World, id: Id, holder: Option<Worker>, now: Micros, wall: Seconds, accepted: bool)
    requires Replays(w) && InState(At(w, id), Queued) && RowIs(At(w, id), RowQueued)
    ensures var w' := Interrupted(w, Handed(w, id, holder, now, wall, accepted), 3);
            && w' == Do(Handed(w, id, holder, now, wall, accepted), Crash)
            && InState(At(w', id), Running) && At(w', id).row == At(w, id).row
  {
    hide TransitionTask, Interrupted;
    var h := Handed(w, id, holder, now, wall, accepted);
    HandedRecord(w, id, holder, now, wall, accepted);
    TransitionReplays(w, id, Running, wall);
    DoReplays(TransitionTask(w, id, Running, wall).w,
        Touch(id, Hand(wall, wall + w.cfg.timeout, accepted, holder, now)));
    InterruptedAfter(w, h, 3);
  }

  // process_queue takes such a task for one that failed, although nothing did: it goes back to the
  // queue exactly when attempts are left, and is buried otherwise.
  lemma HalfwayToRunningIsRetriedIff(w: World, id: Id, now: Micros, wall: Seconds, turn: Turn)
    requires InState(At(w, id), Running) && RowIs(At(w, id), RowQueued) &&
        At(w, id).row.value.nextAttemptAt * SECOND <= now
    ensures var q, w' := At(w, id).row.value, Process(w, id, None, now, wall, turn).w;
            if q.attempts + 1 < q.maxAttempts then
              && w' == Put(w, id, Retry(q.attempts + 1, Floor(now) + BackoffSeconds(w.cfg, q.attempts + 1), Floor(now),
                  wall))
              && Waiting(w', id, q.attempts + 1, q.maxAttempts)
            else Buried(w', id, q.attempts + 1)
  {
    hide Process, FailAttempt;
    var q := At(w, id).row.value;
    HalfwayAttemptFails(w, id, now, wall, turn);
    if q.attempts + 1 < q.maxAttempts {
      RetryOnce(w, id, q, now, wall);
      RetriedWorld(w, id, q, now, wall);
    } else {
      BuryOnce(w, id, q, now, wall);
    }
  }

  lemma HalfwayAttemptFails(w: World, id: Id, now: Micros, wall: Seconds, turn: Turn)
    requires InState(At(w, id), Running) && RowIs(At(w, id), RowQueued) &&
        At(w, id).row.value.nextAttemptAt * SECOND <= now
    ensures Process(w, id, None, now, wall, turn) == FailAttempt(w, id, At(w, id).row.value, now, wall)
  {
    hide TransitionTask, Perform, RunAll, FailAttempt;
    assert DispatchQueued(w, id, None, now, wall, turn) == Reply(w, Raised(ValueError));
    assert Dispatch(w, id, None, now, wall, turn) == Reply(w, Raised(ValueError));
  }

  // A clean client accepts the task and the process dies.  With attempts left, two later calls of
  // process_queue hand the task over and have it accepted again, with no stuck-job recovery.
  lemma CrashRepeatsHandOver(w: World, id: Id, holder: Option<Worker>, now: Micros, wall: Seconds, attempts: int,
          maxAttempts: int)
    requires Replays(w) && Waiting(w, id, attempts, maxAttempts) && attempts + 1 < maxAttempts
    ensures var w1 := Interrupted(w, Handed(w, id, holder, now, wall, true), 3);
            var w2 := Process(w1, id, None, At(w, id).row.value.nextAttemptAt * SECOND, wall, ACCEPTANCE).w;
            var w3 := Process(w2, id, None, RowOf(At(w2, id)).nextAttemptAt * SECOND, wall, ACCEPTANCE).w;
            && InState(At(w3, id), Running) && RowIs(At(w3, id), RowDispatched)
            && Tallied(w3.trace, id).accepted == Tallied(w.trace, id).accepted + 2
            && Tallied(w3.trace, id).recoveries == Tallied(w.trace, id).recoveries
  {
    hide Process, Handed, Interrupted, Tallied;
    var h := Handed(w, id, holder, now, wall, true);
    CrashForgetsHandOver(w, id, holder, now, wall, true);
    HandedTally(w, id, holder, now, wall, true);
    var w1 := Interrupted(w, h, 3);
    TalliedSnoc(h.trace, Crash, id);
    var at := At(w, id).row.value.nextAttemptAt * SECOND;
    HalfwayToRunningIsRetriedIff(w1, id, at, wall, ACCEPTANCE);
    var w2 := Process(w1, id, None, at, wall, ACCEPTANCE).w;
    TalliedSnoc(w1.trace,
        Touch(id, Retry(attempts + 1, Floor(at) + BackoffSeconds(w1.cfg, attempts + 1), Floor(at), wall)), id);
    var due := At(w2, id).row.value.nextAttemptAt * SECOND;
    AcceptedHandOver(w2, id, due, wall);
    HandedTally(w2, id, None, due, wall, true);
  }

  // ----- what is on disk when a call returns

  predicate Saved(w: World) {
    w.db.disk == w.db.work
  }

  // A rejection, a deletion and a stored result have been committed when the call returns.
  lemma SavedOnReturn(w: World, op: Op)
    requires op.Reject? || op.DeleteTask? ||
        (op.RecordResult? && !op.result.memoryProvenance && !InState(At(w, op.id), Cancelled))
    ensures Perform(w, op).w == w || Saved(Perform(w, op).w)
  {
    hide RunAll;
  }

  // The calls that commit nothing.
  predicate Uncommitted(op: Op) {
    || op.CancelTask? || op.ClaimItem? || op.RecoverJob? || op.RecoverApproval?
    || op.ListStuckApprovals? || op.RecoverListedApproval?
  }

  // The part of the trace from `n` on commits nothing.
  predicate NoCommits(tr: seq<Action>, n: nat) {
    forall i :: n <= i < |tr| ==> tr[i].Touch?
  }

  lemma FindExpiredCommitsNothing(w: World, now: Micros, order: seq<Id>)
    ensures var w' := FindExpired(w, now, order).w;
            w'.cfg == w.cfg && w.trace <= w'.trace && NoCommits(w'.trace, |w.trace|)
    ensures Replays(w) ==> Replays(FindExpired(w, now, order).w)
    decreases |order|
  {
    hide Replays;
    if order != [] {
      if ApprovalLapsed(w.cfg, At(w, order[0]), now) {
        FindExpiredCommitsNothing(Put(w, order[0], Note(ApprovalExpired)), now, order[1..]);
        if Replays(w) {
          DoReplays(w, Touch(order[0], Note(ApprovalExpired)));
        }
      } else {
        FindExpiredCommitsNothing(w, now, order[1..]);
      }
    }
  }

  lemma UncommittedCall(w: World, op: Op)
    requires Uncommitted(op)
    ensures var w' := Perform(w, op).w; w'.cfg == w.cfg && w.trace <= w'.trace && NoCommits(w'.trace, |w.trace|)
  {
    hide RunAll, FindExpired, Replays;
    if op.ListStuckApprovals? || op.RecoverListedApproval? {
      FindExpiredCommitsNothing(w, op.now, op.order);
    }
  }

  lemma {:induction false} DiskStays(tr: seq<Action>, n: nat, m: nat)
    requires NoCommits(tr, n) && n <= m <= |tr|
    ensures After(tr[..m]).disk == After(tr[..n]).disk
    decreases m
  {
    if n < m {
      DiskStays(tr, n, m - 1);
      assert tr[..m][..m - 1] == tr[..m - 1];
    }
  }

  // Cancelling, claiming, recovering and listing are answered before they are committed: if the
  // process dies during the call or right after it, the tables are what they were on disk before.
  lemma AnsweredCallsAreLost(w: World, op: Op, cut: nat)
    requires Replays(w) && Uncommitted(op)
    ensures Interrupted(w, Perform(w, op).w, cut).db == Db(w.db.disk, w.db.disk)
  {
    hide Perform;
    var w' := Perform(w, op).w;
    UncommittedCall(w, op);
    var n := if |w.trace| + cut < |w'.trace| then |w.trace| + cut else |w'.trace|;
    DiskStays(w'.trace, |w.trace|, n);
    assert w'.trace[..|w.trace|] == w.trace;
    assert (w'.trace[..n] + [Crash])[..n] == w'.trace[..n];
  }

  // So is the count of a failed attempt: when process_queue has scheduled a retry, the disk still
  // has the task halfway to running, with the attempts it had before.
  lemma ScheduledRetryIsLost(w: World, id: Id, now: Micros, wall: Seconds, attempts: int, maxAttempts: int)
    requires Waiting(w, id, attempts, maxAttempts) && attempts + 1 < maxAttempts
    requires At(w, id).row.value.nextAttemptAt * SECOND <= now
    ensures var w' := Process(w, id, None, now, wall, REFUSAL).w;
            && Waiting(w', id, attempts + 1, maxAttempts)
            && InState(Rec(w'.db.disk, id), Running) && Rec(w'.db.disk, id).row == At(w, id).row
  {
    hide Perform, Handed, RunAll, TransitionTask;
    RefusedDispatch(w, id, None, now, wall);
    HandedRecord(w, id, None, now, wall, false);
    RetryOnce(Handed(w, id, None, now, wall, false), id, At(w, id).row.value, now, wall);
  }
}
