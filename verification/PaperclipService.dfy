// paperclip/service.py over the tables of PaperclipDB, statement by statement.  Every method is
// proved to do what the function of the same call in Engine says.

module Service {
  import opened Basics
  import opened StateMachine
  import opened Records
  import opened Worlds
  import opened Database
  import Engine
  import opened EngineTypes = Engine
  import opened Effects

  // The statements between `t` and `t'` amount to the move.
  lemma Refined(t: Tables, t': Tables, s: Store, id: Id, m: Move)
    requires Represents(t, s) && Changes(t, t', id, Apply(RecordIn(t, id), m)) && t'.keys == KeysAfter(t.keys, id, m)
    ensures Represents(t', Update(s, id, m))
  {
    forall i ensures RecordIn(t', i) == Rec(Update(s, id, m), i) {
      assert i != id ==> Rec(Update(s, id, m), i) == Rec(s, i);
    }
  }

  lemma OthersKeep(w: World, id: Id, other: Id, wall: Seconds)
    requires other != id
    ensures At(Put(Engine.TransitionTask(Put(w, id, Expire), id, Failed, wall).w, id, Note(TaskTimedOut)), other) ==
        At(w, other)
  {
  }

  // Two changes of one record are one.
  lemma ChangedTwice(t: Tables, t1: Tables, t2: Tables, id: Id, r1: Record, r2: Record)
    requires Changes(t, t1, id, r1) && Changes(t1, t2, id, r2)
    ensures Changes(t, t2, id, r2)
  {
    forall i | i != id ensures RecordIn(t2, i) == RecordIn(t, i) {
      assert RecordIn(t1, i) == RecordIn(t, i);
    }
  }

  // What the sweep does about the first listed row, and what it leaves to do.
  lemma SweepSkips(w: World, now: Micros, wall: Seconds, order: seq<Id>)
    requires order != [] && !Engine.Overdue(At(w, order[0]), now)
    ensures Engine.Sweep(w, now, wall, order) == Engine.Sweep(w, now, wall, order[1..])
  {
  }

  lemma SweepNothing(w: World, now: Micros, wall: Seconds)
    ensures Engine.Sweep(w, now, wall, []) == SweepReply(w, None, [])
  {
  }

  lemma SweepTimesOut(w: World, now: Micros, wall: Seconds, order: seq<Id>)
    requires order != [] && Engine.Overdue(At(w, order[0]), now)
    ensures var failed := Engine.TransitionTask(Put(w, order[0], Expire), order[0], Failed, wall);
            var rest := Engine.Sweep(Put(failed.w, order[0], Note(TaskTimedOut)), now, wall, order[1..]);
            Engine.Sweep(w, now, wall, order)
            == if failed.out.Raised? then SweepReply(failed.w, Some(failed.out.error), [])
               else SweepReply(rest.w, rest.raised, [order[0]] + rest.timedOut)
  {
    hide Engine.TransitionTask;
  }

  lemma StartedRow(t: Tables, t1: Tables, t2: Tables, id: Id, at: Seconds, timeoutAt: Seconds, accepted: bool,
          worker: Option<Worker>, now: Micros)
    requires var r := RecordIn(t, id);
             Changes(t, t1, id, SetRow(r,
                 RowOf(r).(status := RowRunning, startedAt := Some(at), timeoutAt := Some(timeoutAt))))
    requires var r1 := RecordIn(t1, id); Changes(t1, t2, id, SetRow(r1, RowOf(r1).(status := RowDispatched)))
    ensures Changes(t, t2, id, Apply(RecordIn(t, id), Hand(at, timeoutAt, accepted, worker, now)))
  {
    ChangedTwice(t, t1, t2, id, RecordIn(t1, id), RecordIn(t2, id));
  }

  predicate Distinct(order: seq<Id>) {
    forall i, j :: 0 <= i < j < |order| ==> order[i] != order[j]
  }

  // Wherever a call, or a call made by the client, loops over listed rows, each row is listed once.
  predicate Listing(op: Op)
    decreases op, 0
  {
    match op
    case SubmitTask(_, _, _, _, _, turn) => Listings(turn.calls)
    case Approve(_, _, turn) => Listings(turn.calls)
    case ProcessQueue(_, _, _, _, turn) => Listings(turn.calls)
    case EnforceTimeouts(_, _, order) => Distinct(order)
    case _ => true
  }

  predicate Listings(ops: seq<Op>)
    decreases ops, 0
  {
    ops == [] || (Listing(ops[0]) && Listings(ops[1..]))
  }

  class PaperclipService {
    const cfg: Config
    const db: PaperclipDB
    ghost var world: World

    ghost predicate Valid()
      reads this, db
    {
      world.cfg == cfg && Represents(db.Rows(), world.db.work) && Represents(db.disk, world.db.disk)
    }

    constructor (cfg: Config)
      ensures Valid() && fresh(db) && this.cfg == cfg && world == Boot(cfg)
    {
      this.cfg := cfg;
      db := new PaperclipDB();
      world := Boot(cfg);
    }

    // get_task
    function ReadTask(id: Id): (view: Option<View>)
      reads this, db
      requires Valid()
      ensures view == Engine.GetTask(world.db.work, id)
      ensures view.Some? <==> id in db.tasks
      ensures view.Some? ==>
                var v, t := view.value, db.tasks[id];
                && v.id == id && v.state == t.state && v.approval == t.approval
                && v.createdAt == t.createdAt && v.updatedAt == t.updatedAt
      ensures view.Some? ==> view.value.result == if id in db.results then Some(db.results[id]) else None
    {
      var task := db.GetTask(id);
      assert db.RecordOf(id) == Rec(world.db.work, id);
      if task.None? then None else
        var t := task.value;
        Some(View(id, t.state, t.approval, t.createdAt, t.updatedAt, db.GetResult(id)))
    }

    lemma Sees(id: Id)
      requires Valid()
      ensures db.RecordOf(id) == At(world, id)
    {
    }

    // ----- bookkeeping of the ghost world

    ghost method Note(id: Id, m: Move, t: Tables)
      requires world.cfg == cfg && Represents(t, world.db.work) && Represents(db.disk, world.db.disk)
      requires Changes(t, db.Rows(), id, Apply(RecordIn(t, id), m)) && db.keys == KeysAfter(t.keys, id, m)
      modifies this`world
      ensures Valid() && world == Put(old(world), id, m)
    {
      Refined(t, db.Rows(), world.db.work, id, m);
      world := Put(world, id, m);
    }

    method Commit()
      requires Valid()
      modifies this`world, db`disk
      ensures Valid() && world == Do(old(world), Worlds.Commit)
    {
      db.CommitTransaction();
      world := Do(world, Worlds.Commit);
    }

    // ----- one transition

    method TransitionTask(id: Id, to: State, wall: Seconds) returns (out: Outcome)
      requires Valid()
      modifies this, db
      ensures Valid() && Reply(world, out) == Engine.TransitionTask(old(world), id, to, wall)
    {
      Sees(id);
      var task := db.GetTask(id);
      if task.None? {
        return Raised(KeyError);
      }
      if !CanTransition(task.value.state, to) {
        return Raised(ValueError);
      }
      ghost var t := db.Rows();
      db.UpdateTaskState(id, to, wall, ApprovalFor(to));
      db.AddAuditEvent(id, StateChanged(task.value.state, to));
      if to == Approved {
        db.AddAuditEvent(id, ApprovalGranted);
      } else if to == Rejected {
        db.AddAuditEvent(id, ApprovalRejected);
      }
      Note(id, Shift(to, wall), t);
      Commit();
      out := Returned(ReadTask(id));
    }

    method EnqueueTask(id: Id, wall: Seconds) returns (out: Outcome)
      requires Valid()
      modifies this, db
      ensures Valid() && Reply(world, out) == Engine.EnqueueTask(old(world), id, wall)
    {
      Sees(id);
      var task := db.GetTask(id);
      if task.None? {
        return Raised(KeyError);
      }
      if task.value.state != Approved {
        return Raised(ValueError);
      }
      out := TransitionTask(id, Queued, wall);
      ghost var t := db.Rows();
      db.EnqueueTask(id, cfg.maxAttempts, wall);
      db.AddAuditEvent(id, TaskEnqueued);
      Note(id, Insert(cfg.maxAttempts, wall), t);
    }

    method ClaimQueueItem(id: Id, worker: Worker, now: Micros) returns (out: Outcome)
      requires Valid()
      modifies this, db
      ensures Valid() && Reply(world, out) == Engine.ClaimQueueItem(old(world), id, worker, now)
      ensures var row := At(old(world), id).row;
              out.Raised? <==>
              row.None? ||
                (&& row.value.worker.Some? && row.value.worker.value != "" && row.value.worker.value != worker
                 && row.value.leaseExpiresAt.Some? && now < row.value.leaseExpiresAt.value * SECOND)
    {
      ClaimTurnedAwayIff(world, id, worker, now);
      Sees(id);
      var item := db.GetQueueItem(id);
      if item.None? {
        return Raised(KeyError);
      }
      var holder, lease := item.value.worker, item.value.leaseExpiresAt;
      if holder.Some? && holder.value != "" && lease.Some? {
        if lease.value * SECOND > now && holder.value != worker {
          return Raised(ValueError);
        }
      }
      var expiry := Floor(now + cfg.lease * SECOND);
      ghost var t := db.Rows();
      db.ClaimQueueItem(id, worker, expiry);
      db.AddAuditEvent(id, TaskClaimed(worker, expiry));
      Note(id, Claim(worker, now, expiry), t);
      out := Returned(ReadTask(id));
    }

    // ----- dispatch

    method ProcessQueue(id: Id, worker: Option<Worker>, now: Micros, wall: Seconds, turn: Turn) returns (out: Outcome)
      requires Valid() && Listings(turn.calls)
      modifies this, db
      ensures Valid() && Reply(world, out) == Engine.Process(old(world), id, worker, now, wall, turn)
      decreases turn, 2
    {
      Sees(id);
      var item := db.GetQueueItem(id);
      if item.None? {
        return Raised(KeyError);
      }
      if item.value.status != RowQueued {
        return Returned(ReadTask(id));
      }
      if item.value.nextAttemptAt * SECOND > now {
        return Returned(ReadTask(id));
      }
      if worker.Some? {
        var claimed := ClaimQueueItem(id, worker.value, now);
        if claimed.Raised? {
          return claimed;
        }
        Sees(id);
        item := db.GetQueueItem(id);
      }
      out := DispatchTask(id, worker, now, wall, turn);
      if out.Raised? {
        out := HandleFailure(id, item.value, now, wall);
      }
    }

    // The except clause of process_queue.
    method HandleFailure(id: Id, item: Row, now: Micros, wall: Seconds) returns (out: Outcome)
      requires Valid()
      modifies this, db
      ensures Valid() && Reply(world, out) == Engine.FailAttempt(old(world), id, item, now, wall)
    {
      var attempts := item.attempts + 1;
      if attempts >= item.maxAttempts {
        out := DeadLetter(id, attempts, now, wall);
      } else {
        out := ScheduleRetry(id, attempts, now, wall);
      }
    }

    method DeadLetter(id: Id, attempts: int, now: Micros, wall: Seconds) returns (out: Outcome)
      requires Valid()
      modifies this, db
      ensures Valid()
      ensures var failed := Engine.TransitionTask(Put(old(world), id, Bury(attempts, Floor(now))), id, Failed, wall);
              Reply(world, out) == if failed.out.Raised? then failed
                                   else Engine.Answer(Put(failed.w, id, Move.Note(TaskDeadLettered(attempts))), id)
    {
      Sees(id);
      ghost var t := db.Rows();
      db.MarkQueueDeadLetter(id, attempts);
      Note(id, Bury(attempts, Floor(now)), t);
      out := TransitionTask(id, Failed, wall);
      if out.Raised? {
        return;
      }
      Sees(id);
      t := db.Rows();
      db.AddAuditEvent(id, TaskDeadLettered(attempts));
      Note(id, Move.Note(TaskDeadLettered(attempts)), t);
      out := Returned(ReadTask(id));
    }

    method ScheduleRetry(id: Id, attempts: int, now: Micros, wall: Seconds) returns (out: Outcome)
      requires Valid()
      modifies this, db
      ensures Valid()
      ensures var next := Floor(now + Worlds.BackoffSeconds(cfg, attempts) * SECOND);
              Reply(world, out) == Engine.Answer(Put(old(world), id, Retry(attempts, next, Floor(now), wall)), id)
    {
      Sees(id);
      ghost var t := db.Rows();
      db.UpdateTaskState(id, Queued, wall, None);
      var next := Floor(now + Worlds.BackoffSeconds(cfg, attempts) * SECOND);
      db.MarkQueueRetry(id, attempts, next);
      db.AddAuditEvent(id, TaskRetryScheduled(attempts, next));
      Note(id, Retry(attempts, next, Floor(now), wall), t);
      out := Returned(ReadTask(id));
    }

    method DispatchTask(id: Id, worker: Option<Worker>, now: Micros, wall: Seconds, turn: Turn) returns (out: Outcome)
      requires Valid() && Listings(turn.calls)
      modifies this, db
      ensures Valid() && Reply(world, out) == Engine.Dispatch(old(world), id, worker, now, wall, turn)
      decreases turn, 1
    {
      hide Represents, Engine.Handed, Engine.RunAll, Engine.Perform;
      Sees(id);
      var task := db.GetTask(id);
      if task.None? {
        return Raised(KeyError);
      }
      if task.value.state == Approved {
        var _ := EnqueueTask(id, wall);
        Sees(id);
        task := db.GetTask(id);
      }
      if task.None? || task.value.state != Queued {
        return Raised(ValueError);
      }
      var item := db.GetQueueItem(id);
      if worker.Some? && (item.None? || item.value.worker != worker) {
        return Raised(ValueError);
      }
      StartTask(id, worker, now, wall, !turn.raises);
      Serve(turn.calls);
      if turn.raises {
        return Raised(ClientError);
      }
      out := Returned(ReadTask(id));
    }

    // The part of dispatch_task before the client is called: the row is running only in passing.
    method StartTask(id: Id, worker: Option<Worker>, now: Micros, wall: Seconds, accepted: bool)
      requires Valid() && InState(At(world, id), Queued)
      modifies this, db
      ensures Valid() && world == Engine.Handed(old(world), id, worker, now, wall, accepted)
    {
      hide Represents, Engine.TransitionTask;
      var _ := TransitionTask(id, Running, wall);
      Engine.TransitionRecord(old(world), id, Running, wall);
      MarkStarted(id, worker, now, wall, accepted);
    }

    method MarkStarted(id: Id, worker: Option<Worker>, now: Micros, wall: Seconds, accepted: bool)
      requires Valid()
      modifies this, db
      ensures Valid() && world == Put(old(world), id, Hand(wall, wall + cfg.timeout, accepted, worker, now))
    {
      hide RecordIn, Changes, Represents, Apply;
      ghost var t := db.Rows();
      var timeoutAt := wall + cfg.timeout;
      db.MarkQueueRunning(id, wall, timeoutAt);
      ghost var t1 := db.Rows();
      db.MarkQueueDispatched(id);
      StartedRow(t, t1, db.Rows(), id, wall, timeoutAt, accepted, worker, now);
      Note(id, Hand(wall, timeoutAt, accepted, worker, now), t);
    }

    // ----- submission

    method SubmitTask(p: Payload, key: Key, webhook: bool, now: Micros, wall: Seconds,
            turn: Turn) returns (out: Outcome)
      requires Valid() && Listings(turn.calls)
      modifies this, db
      ensures Valid() && Reply(world, out) == Engine.Submit(old(world), p, key, webhook, now, wall, turn)
      decreases turn, 6
    {
      if key != "" {
        var existing := db.GetIdempotentTaskId(key);
        if existing.Some? && existing.value != "" {
          Sees(existing.value);
          var view := ReadTask(existing.value);
          if view.Some? {
            return Returned(view);
          }
        }
      }
      if !p.wellFormed || p.id == "" {
        return Raised(ValueError);
      }
      out := Register(p, key, webhook, wall);
      if out.Returned? {
        out := Admit(p, now, wall, turn);
      }
    }

    method Register(p: Payload, key: Key, webhook: bool, wall: Seconds) returns (out: Outcome)
      requires Valid()
      modifies this, db
      ensures Valid() && (out.Raised? ==> out == Raised(IntegrityError))
      ensures out.Returned? <==> At(old(world), p.id).task.None? && (key != "" ==> key !in old(world).db.work.keys)
      ensures world == if out.Returned? then Engine.Register(old(world), p, key, webhook, wall)
                       else if At(old(world), p.id).task.Some? then old(world)
                       else Put(old(world), p.id, Create(InitialTask(p, wall), webhook))
    {
      hide Represents;
      var created := CreateTask(p, webhook, wall);
      if !created {
        return Raised(IntegrityError);
      }
      if key != "" {
        var recorded := RecordKey(p.id, key);
        if !recorded {
          return Raised(IntegrityError);
        }
      }
      if p.approvalRequired {
        Sees(p.id);
        ghost var t := db.Rows();
        db.AddAuditEvent(p.id, ApprovalRequested);
        assert Represents(t, world.db.work);
        Note(p.id, Ask, t);
      }
      out := Returned(None);
    }

    method CreateTask(p: Payload, webhook: bool, wall: Seconds) returns (ok: bool)
      requires Valid()
      modifies this, db
      ensures Valid() && (ok <==> At(old(world), p.id).task.None?)
      ensures world == if ok then Put(old(world), p.id, Create(InitialTask(p, wall), webhook)) else old(world)
    {
      Sees(p.id);
      ghost var t := db.Rows();
      ok := db.CreateTask(p.id, Task(Received, p.approvalStatus, p, wall, wall));
      if ok {
        db.AddAuditEvent(p.id, TaskReceived);
        if webhook {
          db.AddAuditEvent(p.id, WebhookRegistered);
        }
        Note(p.id, Create(InitialTask(p, wall), webhook), t);
      }
    }

    method RecordKey(id: Id, key: Key) returns (ok: bool)
      requires Valid()
      modifies this, db
      ensures Valid() && (ok <==> key !in old(world).db.work.keys)
      ensures world == if ok then Put(old(world), id, NoteKey(key)) else old(world)
    {
      Sees(id);
      ghost var t := db.Rows();
      ok := db.CreateIdempotencyRecord(key, id);
      if ok {
        db.AddAuditEvent(id, IdempotencyKeyRecorded(key));
        Note(id, NoteKey(key), t);
      }
    }

    method Admit(p: Payload, now: Micros, wall: Seconds, turn: Turn) returns (out: Outcome)
      requires Valid() && Listings(turn.calls)
      modifies this, db
      ensures Valid() && Reply(world, out) == Engine.Admit(old(world), p, now, wall, turn)
      decreases turn, 4
    {
      var _ := TransitionTask(p.id, Validating, wall);
      if p.approvalRequired && p.approvalStatus != StatusApproved {
        var _ := TransitionTask(p.id, PendingApproval, wall);
      } else {
        var _ := TransitionTask(p.id, Approved, wall);
        var _ := EnqueueTask(p.id, wall);
        out := ProcessQueue(p.id, None, now, wall, turn);
        if out.Raised? {
          return;
        }
      }
      out := Returned(ReadTask(p.id));
    }

    // ----- results, cancellation, deletion

    method RecordResult(id: Id, result: RunResult, wall: Seconds) returns (out: Outcome)
      requires Valid()
      modifies this, db
      ensures Valid() && Reply(world, out) == Engine.AcceptResult(old(world), id, result, wall)
    {
      Sees(id);
      if db.GetResult(id).Some? {
        var view := ReadTask(id);
        return if view.None? then Raised(KeyError) else Returned(view);
      }
      var task := db.GetTask(id);
      if task.None? {
        return Raised(KeyError);
      }
      ghost var t := db.Rows();
      if task.value.state == Cancelled {
        db.AddAuditEvent(id, ResultIgnored);
        Note(id, Move.Note(ResultIgnored), t);
        return Returned(ReadTask(id));
      }
      if result.status.None? {
        return Raised(KeyError);
      }
      out := TransitionTask(id, if result.status.value == "succeeded" then Succeeded else Failed, wall);
      if out.Raised? {
        return;
      }
      StoreResultWithAudit(id, result);
      if result.memoryProvenance {
        Sees(id);
        t := db.Rows();
        db.AddAuditEvent(id, MemoryProvenanceRecorded);
        Note(id, Move.Note(MemoryProvenanceRecorded), t);
      }
      out := Returned(ReadTask(id));
    }

    method StoreResultWithAudit(id: Id, result: RunResult)
      requires Valid()
      modifies this, db
      ensures Valid() && world == Do(Put(old(world), id, Keep(result)), Worlds.Commit)
    {
      Sees(id);
      ghost var t := db.Rows();
      db.StoreResult(id, result);
      db.AddAuditEvent(id, ResultRecorded);
      Note(id, Keep(result), t);
      Commit();
    }

    method CancelTask(id: Id, wall: Seconds) returns (out: Outcome)
      requires Valid()
      modifies this, db
      ensures Valid() && Reply(world, out) == Engine.CancelOne(old(world), id, wall)
    {
      Sees(id);
      var task := db.GetTask(id);
      if task.None? {
        return Returned(None);
      }
      if task.value.state == Cancelled {
        return Returned(ReadTask(id));
      }
      if task.value.state == Succeeded || task.value.state == Failed || task.value.state == Rejected {
        return Raised(ValueError);
      }
      ghost var t := db.Rows();
      var item := db.GetQueueItem(id);
      db.UpdateTaskState(id, Cancelled, wall, None);
      if item.Some? {
        db.MarkQueueCancelled(id);
      }
      db.AddAuditEvent(id, TaskCancelled(task.value.state));
      Note(id, Cancel(wall), t);
      out := Returned(ReadTask(id));
    }

    method DeleteTask(id: Id) returns (out: Outcome)
      requires Valid()
      modifies this, db
      ensures Valid() && Reply(world, out) == Engine.Delete(old(world), id)
    {
      Sees(id);
      if db.GetTask(id).Some? {
        ghost var t := db.Rows();
        db.DeleteTaskRows(id);
        Note(id, Erase, t);
        Commit();
      }
      out := Returned(None);
    }

    // ----- stuck jobs and timeouts

    method RecoverStuckJob(id: Id, now: Micros) returns (out: Outcome)
      requires Valid()
      modifies this, db
      ensures Valid() && Reply(world, out) == Engine.RecoverStuckJob(old(world), id, now)
    {
      Sees(id);
      var task, item := db.GetTask(id), db.GetQueueItem(id);
      if task.None? || item.None? {
        return Returned(None);
      }
      var worker, lease := item.value.worker, item.value.leaseExpiresAt;
      if worker.None? || worker.value == "" || lease.None? {
        return Returned(None);
      }
      if lease.value * SECOND > now {
        return Returned(None);
      }
      ghost var t := db.Rows();
      db.ResetQueueToQueued(id);
      db.UpdateTaskState(id, Queued, Floor(now), None);
      db.AddAuditEvent(id, TaskRecovered(worker.value));
      Note(id, Requeue(now), t);
      out := Returned(ReadTask(id));
    }

    method ListRecoverableStuckJobs(now: Micros, order: seq<Id>) returns (jobs: seq<Id>)
      requires Valid()
      ensures jobs == Engine.RecoverableJobs(world.db.work, now, order)
    {
      jobs := [];
      for i := |order| downto 0
        invariant jobs == Engine.RecoverableJobs(world.db.work, now, order[i..])
      {
        Sees(order[i]);
        assert order[i..][1..] == order[i + 1..];
        var item := db.GetQueueItem(order[i]);
        if item.Some? && item.value.status == RowRunning {
          var worker, lease := item.value.worker, item.value.leaseExpiresAt;
          if worker.Some? && worker.value != "" && lease.Some? && lease.value * SECOND <= now {
            jobs := [order[i]] + jobs;
          }
        }
      }
    }

    // The body of the loop of enforce_timeouts for an overdue row.
    method TimeOutTask(id: Id, wall: Seconds) returns (raised: Option<Error>)
      requires Valid()
      requires RowIs(At(world, id), RowRunning)
      modifies this, db
      ensures Valid()
      ensures var failed := Engine.TransitionTask(Put(old(world), id, Expire), id, Failed, wall);
              if failed.out.Raised? then raised == Some(failed.out.error) && world == failed.w
              else raised == None && world == Put(failed.w, id, Move.Note(TaskTimedOut))
    {
      Sees(id);
      ghost var t := db.Rows();
      db.MarkQueueTimedOut(id);
      Note(id, Expire, t);
      var failed := TransitionTask(id, Failed, wall);
      if failed.Raised? {
        return Some(failed.error);
      }
      Sees(id);
      t := db.Rows();
      db.AddAuditEvent(id, TaskTimedOut);
      Note(id, Move.Note(TaskTimedOut), t);
      raised := None;
    }

    // The body of the loop for any listed row, given as it was when the sweep began.
    method SweepRow(id: Id, item: Option<Row>, now: Micros, wall: Seconds) returns (raised: Option<Error>,
            overdue: bool)
      requires Valid() && item == db.GetQueueItem(id)
      modifies this, db
      ensures Valid() && overdue == Engine.Overdue(At(old(world), id), now)
      ensures !overdue ==> raised == None && world == old(world) && db.Rows() == old(db.Rows())
      ensures overdue ==>
                var failed := Engine.TransitionTask(Put(old(world), id, Expire), id, Failed, wall);
                && (raised.None? <==> failed.out.Returned?)
                && (raised.Some? ==> raised == Some(failed.out.error) && world == failed.w)
                && (raised.None? ==> world == Put(failed.w, id, Move.Note(TaskTimedOut)))
      ensures raised.None? ==> forall other :: other != id ==> At(world, other) == At(old(world), other)
    {
      Sees(id);
      raised, overdue := None, false;
      if item.Some? && item.value.status == RowRunning {
        var timeoutAt := item.value.timeoutAt;
        if timeoutAt.Some? && timeoutAt.value * SECOND <= now {
          overdue := true;
          raised := TimeOutTask(id, wall);
          forall other | other != id {
            OthersKeep(old(world), id, other, wall);
          }
        }
      }
    }

    // The rows are the ones that were running when the sweep began.
    method EnforceTimeouts(now: Micros, wall: Seconds, order: seq<Id>) returns (raised: Option<Error>,
            timedOut: seq<Id>)
      requires Valid() && Distinct(order)
      modifies this, db
      ensures Valid()
      ensures var s := Engine.Sweep(old(world), now, wall, order);
              world == s.w && raised == s.raised && (raised.None? ==> timedOut == s.timedOut)
    {
      hide Engine.Sweep, Engine.TransitionTask, Engine.Overdue, Represents;
      raised, timedOut := None, [];
      var listed := db.queue;
      ghost var full := Engine.Sweep(world, now, wall, order);
      forall j | 0 <= j < |order| ensures Lookup(listed, order[j]) == At(world, order[j]).row {
        Sees(order[j]);
      }
      for i := 0 to |order|
        invariant Valid() && raised.None?
        invariant forall j :: i <= j < |order| ==> Lookup(listed, order[j]) == At(world, order[j]).row
        invariant var rest := Engine.Sweep(world, now, wall, order[i..]);
                  full.w == rest.w && full.raised == rest.raised &&
                      (rest.raised.None? ==> full.timedOut == timedOut + rest.timedOut)
      {
        var id := order[i];
        ghost var w := world;
        assert order[i..][0] == id && order[i..][1..] == order[i + 1..];
        Sees(id);
        var failed, overdue := SweepRow(id, Lookup(listed, id), now, wall);
        if overdue {
          SweepTimesOut(w, now, wall, order[i..]);
          if failed.Some? {
            raised := failed;
            return;
          }
          timedOut := timedOut + [id];
        } else {
          SweepSkips(w, now, wall, order[i..]);
        }
      }
      SweepNothing(world, now, wall);
    }

    // ----- approvals

    method ReconcileApprovalStatus(order: seq<Id>) returns (mismatches: seq<Id>)
      requires Valid()
      ensures mismatches == Engine.ReconcileApprovals(world.db.work, order)
      ensures var s := world.db.work;
              mismatches == Select(order, id =>
                var task := Rec(s, id).task;
                task.Some? &&
                  match task.value.state
                  case PendingApproval => task.value.approval != StatusPending
                  case Approved => task.value.approval == StatusPending || task.value.approval == StatusRejected
                  case Rejected => task.value.approval != StatusRejected
                  case _ => false)
    {
      ReconciliationIsExact(world.db.work, order);
      mismatches := [];
      for i := |order| downto 0
        invariant mismatches == Engine.ReconcileApprovals(world.db.work, order[i..])
      {
        Sees(order[i]);
        assert order[i..][1..] == order[i + 1..];
        var task := db.GetTask(order[i]);
        if task.Some? {
          var ok := true;
          if task.value.state == PendingApproval {
            ok := task.value.approval == StatusPending;
          } else if task.value.state == Approved {
            ok := task.value.approval == StatusApproved || task.value.approval == StatusNotRequired;
          } else if task.value.state == Rejected {
            ok := task.value.approval == StatusRejected;
          }
          if !ok {
            mismatches := [order[i]] + mismatches;
          }
        }
      }
    }

    method FindExpiredApprovals(now: Micros, order: seq<Id>) returns (expired: seq<Id>)
      requires Valid()
      modifies this, db
      ensures Valid() && Engine.Expired(world, expired) == Engine.FindExpired(old(world), now, order)
      ensures var w := old(world);
              expired == Select(order, id =>
                var task := At(w, id).task;
                && task.Some? && task.value.state == PendingApproval
                && (task.value.updatedAt + cfg.approvalTtl) * SECOND <= now)
    {
      hide Represents, Changes, Select;
      ExpiredAreExact(world, now, order);
      expired := [];
      ghost var full := Engine.FindExpired(world, now, order);
      for i := 0 to |order|
        invariant Valid()
        invariant var rest := Engine.FindExpired(world, now, order[i..]);
                  full.w == rest.w && full.ids == expired + rest.ids
      {
        var id := order[i];
        assert order[i..][0] == id && order[i..][1..] == order[i + 1..];
        Sees(id);
        var task := db.GetTask(id);
        if task.Some? && task.value.state == PendingApproval {
          if (task.value.updatedAt + cfg.approvalTtl) * SECOND <= now {
            expired := expired + [id];
            ghost var t := db.Rows();
            db.AddAuditEvent(id, ApprovalExpired);
            Note(id, Move.Note(ApprovalExpired), t);
          }
        }
      }
    }

    method ListStuckApprovalTasks(now: Micros, order: seq<Id>) returns (reasons: map<Id, Reason>)
      requires Valid()
      modifies this, db
      ensures Valid() && Engine.Stuck(world, reasons) == Engine.StuckApprovals(old(world), now, order)
      ensures forall id {:trigger id in reasons} ::
                var task := At(old(world), id).task;
                var expired := && task.Some? && task.value.state == PendingApproval
                  && (task.value.updatedAt + cfg.approvalTtl) * SECOND <= now;
                var misaligned := task.Some? &&
                  match task.value.state
                  case PendingApproval => task.value.approval != StatusPending
                  case Approved => task.value.approval == StatusPending || task.value.approval == StatusRejected
                  case Rejected => task.value.approval != StatusRejected
                  case _ => false;
                && (id in reasons <==> id in order && (expired || misaligned))
                && (id in reasons ==> reasons[id] == if expired then ExpiredPendingApproval else StateMismatch)
    {
      forall id {
        StuckAreExact(world, now, order, id);
      }
      var mismatches := ReconcileApprovalStatus(order);
      var expired := FindExpiredApprovals(now, order);
      reasons := (map id | id in mismatches :: StateMismatch) + (map id | id in expired :: ExpiredPendingApproval);
    }

    method RecoverStuckApproval(id: Id, wall: Seconds) returns (out: Outcome)
      requires Valid()
      modifies this, db
      ensures Valid() && Reply(world, out) == Engine.RecoverStuckApproval(old(world), id, wall)
    {
      Sees(id);
      if db.GetTask(id).None? {
        return Returned(None);
      }
      ghost var t := db.Rows();
      db.UpdateTaskState(id, PendingApproval, wall, Some(StatusPending));
      db.AddAuditEvent(id, ApprovalReset);
      Note(id, Reset(wall), t);
      out := Returned(ReadTask(id));
    }

    // ----- the environment: the HTTP handlers, the operators, and the client calling back

    method ApproveTask(id: Id, wall: Seconds, turn: Turn) returns (out: Outcome)
      requires Valid() && Listings(turn.calls)
      modifies this, db
      ensures Valid() && Reply(world, out) == Engine.ApproveTask(old(world), id, wall, turn)
      decreases turn, 2
    {
      out := TransitionTask(id, Approved, wall);
      if out.Returned? {
        out := DispatchTask(id, None, 0, wall, turn);
      }
    }

    method Perform(op: Op) returns (out: Outcome)
      requires Valid() && Listing(op)
      modifies this, db
      ensures Valid() && Reply(world, out) == Engine.Perform(old(world), op)
      decreases op, 0
    {
      match op
      case SubmitTask(payload, key, webhook, now, wall, turn) => out := SubmitTask(payload, key, webhook, now, wall,
          turn);
      case Approve(id, wall, turn) => out := ApproveTask(id, wall, turn);
      case Reject(id, wall) => out := TransitionTask(id, Rejected, wall);
      case ClaimItem(id, worker, now) => out := ClaimQueueItem(id, worker, now);
      case ProcessQueue(id, holder, now, wall, turn) => out := ProcessQueue(id, holder, now, wall, turn);
      case RecordResult(id, result, wall) => out := RecordResult(id, result, wall);
      case CancelTask(id, wall) => out := CancelTask(id, wall);
      case EnforceTimeouts(now, wall, order) =>
        var raised, _ := EnforceTimeouts(now, wall, order);
        out := if raised.Some? then Raised(raised.value) else Returned(None);
      case RecoverJob(id, now) => out := RecoverStuckJob(id, now);
      case ListStuckApprovals(now, order) =>
        var _ := ListStuckApprovalTasks(now, order);
        out := Returned(None);
      case RecoverApproval(id, wall) => out := RecoverStuckApproval(id, wall);
      case RecoverListedApproval(id, now, wall, order) =>
        var reasons := ListStuckApprovalTasks(now, order);
        if id in reasons {
          out := RecoverStuckApproval(id, wall);
        } else {
          out := Returned(None);
        }
      case DeleteTask(id) => out := DeleteTask(id);
    }

    method Serve(ops: seq<Op>)
      requires Valid() && Listings(ops)
      modifies this, db
      ensures Valid() && world == Engine.RunAll(old(world), ops)
      decreases ops, 0
    {
      if ops != [] {
        var _ := Perform(ops[0]);
        Serve(ops[1..]);
      }
    }

    // The process died: the next one sees what was committed.
    method Restart()
      requires Valid()
      modifies this, db
      ensures Valid() && world == Do(old(world), Crash)
    {
      db.Reconnect();
      world := Do(world, Crash);
    }
  }
}
