// Every service call is a lawful sequence of moves.  The proof follows the nesting of client turns.

module Runs {
  import opened Basics
  import opened StateMachine
  import opened Records
  import opened Logs
  import opened Worlds
  import opened Engine
  import opened Soundness
  import opened Coupling
  import opened Gates

  // ----- profiles of the environment, read off the calls

  predicate FitsTurn(p: Profile, turn: Turn)
    decreases turn, 1
  {
    (Tame(p) && turn.raises ==> turn.calls == []) && FitsAll(p, turn.calls)
  }

  predicate FitsAll(p: Profile, ops: seq<Op>)
    decreases ops, 0
  {
    ops == [] || (Fits(p, ops[0]) && FitsAll(p, ops[1..]))
  }

  predicate Fits(p: Profile, op: Op)
    decreases op, 0
  {
    match op
    case SubmitTask(_, _, _, _, _, turn) => FitsTurn(p, turn)
    case Approve(_, _, turn) => FitsTurn(p, turn)
    case ProcessQueue(_, _, _, _, turn) => FitsTurn(p, turn)
    case RecoverApproval(_, _) => FreeResets(p)
    case _ => true
  }

  // A client that does not call back fits every profile.
  lemma {:induction false} QuietTurnFits(p: Profile, turn: Turn)
    requires turn.calls == []
    ensures FitsTurn(p, turn)
  {
  }

  // A world that a run under the profile can be in between service calls.
  ghost predicate AtRest(p: Profile, w: World) {
    Linked(p, w) && Free(w.trace) && (Clean(p) ==> Coupled(w.db.work))
  }

  // `w` continues `w0`.
  ghost predicate Extends(w: World, w0: World) {
    w.cfg == w0.cfg && w0.trace <= w.trace
  }

  // `w` is reached from `w0` in the middle of a call that works on the task `id`.
  ghost predicate Under(p: Profile, w0: World, w: World, id: Id) {
    Linked(p, w) && Free(w.trace) && Extends(w, w0) && (Clean(p) ==> CoupledBut(w.db.work, id))
  }

  // A world at rest that continues `w0`.
  ghost predicate Ends(p: Profile, w0: World, w: World) {
    AtRest(p, w) && Extends(w, w0)
  }

  lemma Begin(p: Profile, w: World, id: Id)
    requires AtRest(p, w)
    ensures Under(p, w, w, id)
    ensures Clean(p) ==> CoupledRecord(At(w, id))
    ensures SoundRecord(At(w, id))
  {
    LawfulTracesAreSound(p, w.cfg, w.trace);
  }

  lemma Finish(p: Profile, w0: World, w: World, id: Id)
    requires Under(p, w0, w, id)
    requires Clean(p) ==> CoupledRecord(At(w, id))
    ensures Ends(p, w0, w)
  {
  }

  lemma Chain(p: Profile, w0: World, w1: World, w2: World)
    requires Ends(p, w0, w1) && Ends(p, w1, w2)
    ensures Ends(p, w0, w2)
  {
  }

  // ----- single moves

  lemma Moved(p: Profile, w0: World, w: World, id: Id, m: Move)
    requires Under(p, w0, w, id) && !m.Erase? && (m.Shift? ==> m.to != Running)
    requires Permitted(w.cfg, w.db.work, Touch(id, m)) && Expected(p, w.cfg, w.trace, w.db.work, Touch(id, m))
    ensures Under(p, w0, Put(w, id, m), id) && At(Put(w, id, m), id) == Apply(At(w, id), m)
  {
    Step(p, w, Touch(id, m));
    forall i | i != id ensures Rec(Put(w, id, m).db.work, i) == At(w, i) {}
  }

  // A commit of the task's own last action.
  lemma Committed(p: Profile, w0: World, w: World, id: Id)
    requires Under(p, w0, w, id)
    requires w.trace != [] && w.trace[|w.trace| - 1].Touch? && w.trace[|w.trace| - 1].id == id
    requires Clean(p) ==> SavedWell(At(w, id), w.trace[|w.trace| - 1])
    ensures Under(p, w0, Do(w, Commit), id) && At(Do(w, Commit), id) == At(w, id)
  {
    Step(p, w, Commit);
    forall i ensures At(Do(w, Commit), i) == At(w, i) {}
  }

  // The transition leaves the record coupled, unless it is in passing.
  predicate ShiftsWell(r: Record, to: State, wall: Seconds) {
    var r' := Apply(r, Shift(to, wall));
    if to == Queued || to == Running then Halfway(r', to) else CoupledRecord(r')
  }

  lemma TransitionRun(p: Profile, w0: World, w: World, id: Id, to: State, wall: Seconds)
    requires Under(p, w0, w, id) && to != Running
    requires At(w, id).task.Some? && CanTransition(At(w, id).task.value.state, to) ==>
               ShiftGuard(At(w, id), to) && (Clean(p) ==> ShiftsWell(At(w, id), to, wall))
    ensures var t := TransitionTask(w, id, to, wall);
            && Under(p, w0, t.w, id)
            && (t.out.Returned? <==> At(w, id).task.Some? && CanTransition(At(w, id).task.value.state, to))
            && (t.out.Raised? ==> t.w == w)
            && (t.out.Returned? ==> At(t.w, id) == Apply(At(w, id), Shift(to, wall)))
            && t.w.db.work.keys == w.db.work.keys
  {
    hide Under;
    if At(w, id).task.Some? && CanTransition(At(w, id).task.value.state, to) {
      Moved(p, w0, w, id, Shift(to, wall));
      Committed(p, w0, Put(w, id, Shift(to, wall)), id);
    }
  }

  lemma EnqueueRun(p: Profile, w0: World, w: World, id: Id, wall: Seconds)
    requires Under(p, w0, w, id) && InState(At(w, id), Approved) && (Clean(p) ==> At(w, id).row.None?)
    ensures var e := EnqueueTask(w, id, wall);
            && Under(p, w0, e.w, id) && InState(At(e.w, id), Queued)
            && At(e.w, id).row == Some(FreshRow(w.cfg.maxAttempts, wall))
  {
    hide Under, TransitionTask, Passing;
    TransitionRun(p, w0, w, id, Queued, wall);
    TransitionRecord(w, id, Queued, wall);
    SavedInPassing(w.trace, id, Queued, wall);
    InsertEnabled(w.cfg, At(w, id), wall);
    EnqueuedRecord(w, id, wall);
    Moved(p, w0, TransitionTask(w, id, Queued, wall).w, id, Insert(w.cfg.maxAttempts, wall));
  }

  lemma InsertEnabled(cfg: Config, r: Record, wall: Seconds)
    requires InState(r, Approved)
    ensures Enabled(cfg, Apply(r, Shift(Queued, wall)), Insert(cfg.maxAttempts, wall))
  {
    Snoc(r.log, StateChanged(Approved, Queued));
  }

  lemma ClaimRun(p: Profile, w0: World, w: World, id: Id, worker: Worker, now: Micros)
    requires Under(p, w0, w, id)
    ensures var c := ClaimQueueItem(w, id, worker, now);
            && Under(p, w0, c.w, id)
            && (c.out.Raised? ==> c.w == w)
            && (c.out.Returned? ==> At(w, id).row.Some? &&
                                    At(c.w, id) == Apply(At(w, id), Claim(worker, now, Floor(now) + w.cfg.lease)))
  {
    hide Under;
    assert Floor(now + w.cfg.lease * SECOND) == Floor(now) + w.cfg.lease;
    if At(w, id).row.Some? && !HeldByOther(At(w, id).row.value, worker, now) {
      Moved(p, w0, w, id, Claim(worker, now, Floor(now) + w.cfg.lease));
    }
  }

  // ----- calls that reach the client

  // The worker, if any, claimed the task at `now` by the last action.
  predicate JustClaimed(w: World, id: Id, holder: Option<Worker>, now: Micros) {
    holder.Some? ==>
      && At(w, id).row.Some? && At(w, id).row.value.worker == holder
      && w.trace != [] && w.trace[|w.trace| - 1] == Touch(id, Claim(holder.value, now, Floor(now) + w.cfg.lease))
  }

  // Once the task is running, its hand-over keeps to what the profile allows.
  lemma HandFits(p: Profile, w: World, id: Id, holder: Option<Worker>, now: Micros, wall: Seconds, accepted: bool)
    requires InState(At(w, id), Queued) && RowIs(At(w, id), RowQueued) && JustClaimed(w, id, holder, now)
    ensures var w1, a := TransitionTask(w, id, Running, wall).w,
        Touch(id, Hand(wall, wall + w.cfg.timeout, accepted, holder, now));
            Permitted(w1.cfg, w1.db.work, a) && Expected(p, w1.cfg, w1.trace, w1.db.work, a)
  {
    hide TransitionTask, JustClaimed, Enabled, Passing, Apply;
    TransitionRecord(w, id, Running, wall);
    ClaimedLast(w, id, holder, now, wall);
    HandEnabled(w.cfg, At(w, id), wall, Hand(wall, wall + w.cfg.timeout, accepted, holder, now));
    SavedInPassing(w.trace, id, Running, wall);
  }

  lemma HandEnabled(cfg: Config, r: Record, wall: Seconds, m: Move)
    requires InState(r, Queued) && RowIs(r, RowQueued) && m.Hand? && (m.holder.Some? ==> r.row.value.worker == m.holder)
    ensures Enabled(cfg, Apply(r, Shift(Running, wall)), m)
  {
    Snoc(r.log, StateChanged(Queued, Running));
  }

  // The claim, the transition and its commit.
  lemma ClaimedLast(w: World, id: Id, holder: Option<Worker>, now: Micros, wall: Seconds)
    requires JustClaimed(w, id, holder, now)
    ensures holder.Some? ==>
              var tr := w.trace + [Touch(id, Shift(Running, wall))] + [Commit];
              && At(w, id).row.Some? && At(w, id).row.value.worker == holder
              && |tr| >= 3 && tr[|tr| - 3] == Touch(id, Claim(holder.value, now, Floor(now) + w.cfg.lease))
              && tr[|tr| - 2] == Touch(id, Shift(Running, wall)) && tr[|tr| - 1] == Commit
  {
  }

  lemma SavedInPassing(tr: seq<Action>, id: Id, to: State, wall: Seconds)
    requires to == Queued || to == Running
    ensures Passing(tr + [Touch(id, Shift(to, wall))] + [Commit], id)
  {
    var saved := tr + [Touch(id, Shift(to, wall))] + [Commit];
    assert saved[|saved| - 1] == Commit && saved[|saved| - 2] == Touch(id, Shift(to, wall));
  }

  lemma RunsWell(r: Record, wall: Seconds)
    requires InState(r, Queued) && RowIs(r, RowQueued)
    ensures ShiftsWell(r, Running, wall)
  {
  }

  // The move to running and its commit.
  lemma StartRun(p: Profile, w0: World, w: World, id: Id, wall: Seconds)
    requires Under(p, w0, w, id) && InState(At(w, id), Queued) && RowIs(At(w, id), RowQueued)
    ensures var w1 := TransitionTask(w, id, Running, wall).w;
            Linked(p, w1) && Started(w1.trace, id) && Extends(w1, w0) && (Clean(p) ==> CoupledBut(w1.db.work, id))
  {
    hide Lawful, ShiftsWell;
    var w1 := Put(w, id, Shift(Running, wall));
    RunsWell(At(w, id), wall);
    Step(p, w, Touch(id, Shift(Running, wall)));
    forall i | i != id ensures Rec(w1.db.work, i) == At(w, i) {}
    RunsSaved(At(w, id), wall);
    Step(p, w1, Commit);
  }

  lemma RunsSaved(r: Record, wall: Seconds)
    requires InState(r, Queued) && RowIs(r, RowQueued)
    ensures Halfway(Apply(r, Shift(Running, wall)), Running)
  {
  }

  // A hand-over that follows its committed transition ends the work on the task.
  lemma HandStep(p: Profile, w0: World, w: World, id: Id, m: Move)
    requires Linked(p, w) && Started(w.trace, id) && Extends(w, w0) && (Clean(p) ==> CoupledBut(w.db.work, id)) &&
        m.Hand?
    requires Permitted(w.cfg, w.db.work, Touch(id, m)) && Expected(p, w.cfg, w.trace, w.db.work, Touch(id, m))
    requires CoupledRecord(Apply(At(w, id), m))
    ensures Ends(p, w0, Put(w, id, m)) && Under(p, w0, Put(w, id, m), id)
  {
    hide Lawful, Expected, Permitted, CoupledRecord;
    Step(p, w, Touch(id, m));
    forall i ensures Rec(Put(w, id, m).db.work, i) == if i == id then Apply(At(w, id), m) else At(w, i) {}
  }

  lemma HandCouples(r: Record, wall: Seconds, m: Move)
    requires InState(r, Queued) && RowIs(r, RowQueued) && m.Hand?
    ensures CoupledRecord(Apply(Apply(r, Shift(Running, wall)), m))
  {
  }

  lemma HandRun(p: Profile, w0: World, w: World, id: Id, holder: Option<Worker>, now: Micros, wall: Seconds,
          accepted: bool)
    requires Under(p, w0, w, id) && InState(At(w, id), Queued) && RowIs(At(w, id), RowQueued)
    requires JustClaimed(w, id, holder, now)
    ensures var h := Handed(w, id, holder, now, wall, accepted); Ends(p, w0, h) && Under(p, w0, h, id)
  {
    hide Under, Ends, Permitted, Expected, JustClaimed, TransitionTask, Linked, Apply, CoupledRecord, Started, Extends;
    hide CoupledBut;
    var w1, m := TransitionTask(w, id, Running, wall).w, Hand(wall, wall + w.cfg.timeout, accepted, holder, now);
    StartRun(p, w0, w, id, wall);
    TransitionRecord(w, id, Running, wall);
    HandFits(p, w, id, holder, now, wall, accepted);
    HandCouples(At(w, id), wall, m);
    HandStep(p, w0, w1, id, m);
  }

  // A refused task is left as the retry logic expects it, with its row still saying what it said.
  lemma HandRecord(w: World, id: Id, holder: Option<Worker>, now: Micros, wall: Seconds, accepted: bool)
    requires InState(At(w, id), Queued) && RowIs(At(w, id), RowQueued)
    requires JustClaimed(w, id, holder, now)
    ensures var h := Handed(w, id, holder, now, wall, accepted);
            && JustRefused(h.trace, At(h, id), id, At(w, id).row.value.attempts + 1,
                At(w, id).row.value.nextAttemptAt) == !accepted
            && At(h, id).row.Some?
            && At(h, id).row.value.maxAttempts == At(w, id).row.value.maxAttempts
            && At(h, id).row.value.nextAttemptAt == At(w, id).row.value.nextAttemptAt
  {
    var h := Handed(w, id, holder, now, wall, accepted);
    HandedRecord(w, id, holder, now, wall, accepted);
    HandedInPassing(w.trace, id, wall, h.trace[|h.trace| - 1]);
  }

  lemma HandedInPassing(tr: seq<Action>, id: Id, wall: Seconds, a: Action)
    requires a != Commit
    ensures Passing(tr + [Touch(id, Shift(Running, wall))] + [Commit] + [a], id)
  {
    var saved := tr + [Touch(id, Shift(Running, wall))] + [Commit];
    SavedInPassing(tr, id, Running, wall);
    assert (saved + [a])[..|saved|] == saved;
  }

  // Dispatching a task that is queued, and leased by the worker if there is one.
  lemma DispatchQueuedRun(p: Profile, w0: World, w: World, id: Id, holder: Option<Worker>, now: Micros, wall: Seconds,
          turn: Turn)
    requires Under(p, w0, w, id) && FitsTurn(p, turn)
    requires InState(At(w, id), Queued) && RowIs(At(w, id), RowQueued)
    requires JustClaimed(w, id, holder, now)
    ensures var d := DispatchQueued(w, id, holder, now, wall, turn);
            && Ends(p, w0, d.w)
            && (Tame(p) && d.out.Raised? ==> d.w == Handed(w, id, holder, now, wall, false))
    decreases turn, 1
  {
    hide Under, Ends, Perform;
    HandRun(p, w0, w, id, holder, now, wall, !turn.raises);
    var h := Handed(w, id, holder, now, wall, !turn.raises);
    EndsAtRest(p, w0, h);
    AllRun(p, h, turn.calls);
    Chain(p, w0, h, RunAll(h, turn.calls));
  }

  // Dispatching a task that the approval has just let through.
  lemma DispatchApprovedRun(p: Profile, w0: World, w: World, id: Id, wall: Seconds, turn: Turn)
    requires Under(p, w0, w, id) && FitsTurn(p, turn) && InState(At(w, id), Approved) &&
        (Clean(p) ==> At(w, id).row.None?)
    ensures Ends(p, w0, Dispatch(w, id, None, 0, wall, turn).w)
    decreases turn, 2
  {
    hide Under, Ends, Perform, DispatchQueued;
    EnqueueRun(p, w0, w, id, wall);
    DispatchQueuedRun(p, w0, EnqueueTask(w, id, wall).w, id, None, 0, wall, turn);
  }

  // A task that the client has just refused, or whose row is queued behind its back.
  ghost predicate Failing(p: Profile, w: World, id: Id, item: Row, now: Micros) {
    Tame(p) ==>
      && FailedAttempt(w.trace, At(w, id), id, item.attempts + 1) && item.maxAttempts == At(w, id).row.value.maxAttempts
      && (Clean(p) ==> JustRefused(w.trace, At(w, id), id, item.attempts + 1, Floor(now)))
  }

  lemma FailRun(p: Profile, w0: World, w: World, id: Id, item: Row, now: Micros, wall: Seconds)
    requires Under(p, w0, w, id) && Failing(p, w, id, item, now)
    ensures Ends(p, w0, FailAttempt(w, id, item, now, wall).w)
  {
    hide Under, Ends, Failing, TransitionTask;
    if item.attempts + 1 >= item.maxAttempts {
      BuryRun(p, w0, w, id, item, now, wall);
    } else {
      RetryRun(p, w0, w, id, item, now, wall);
    }
  }

  lemma RetryRun(p: Profile, w0: World, w: World, id: Id, item: Row, now: Micros, wall: Seconds)
    requires Under(p, w0, w, id) && Failing(p, w, id, item, now) && item.attempts + 1 < item.maxAttempts
    ensures Ends(p, w0, FailAttempt(w, id, item, now, wall).w)
  {
    hide Under, Ends, BackoffSeconds, Passing;
    var attempts := item.attempts + 1;
    var next := Floor(now + BackoffSeconds(w.cfg, attempts) * SECOND);
    assert next == Floor(now) + BackoffSeconds(w.cfg, attempts);
    Moved(p, w0, w, id, Retry(attempts, next, Floor(now), wall));
    Finish(p, w0, Put(w, id, Retry(attempts, next, Floor(now), wall)), id);
  }

  lemma BuryRun(p: Profile, w0: World, w: World, id: Id, item: Row, now: Micros, wall: Seconds)
    requires Under(p, w0, w, id) && Failing(p, w, id, item, now) && item.attempts + 1 >= item.maxAttempts
    ensures Ends(p, w0, FailAttempt(w, id, item, now, wall).w)
  {
    hide Under, Ends, TransitionTask, Passing;
    var attempts := item.attempts + 1;
    var w1 := Put(w, id, Bury(attempts, Floor(now)));
    Moved(p, w0, w, id, Bury(attempts, Floor(now)));
    if Clean(p) {
      BuriedWell(At(w, id), attempts, Floor(now), wall);
    }
    hide ShiftsWell, CoupledRecord;
    RunningHasRow(p, w0, w, id);
    TransitionRun(p, w0, w1, id, Failed, wall);
    var failed := TransitionTask(w1, id, Failed, wall);
    if failed.out.Returned? {
      Moved(p, w0, failed.w, id, Note(TaskDeadLettered(attempts)));
      SaidWell(At(failed.w, id), TaskDeadLettered(attempts));
      Finish(p, w0, Put(failed.w, id, Note(TaskDeadLettered(attempts))), id);
    } else {
      Finish(p, w0, w1, id);
    }
  }

  lemma RunningHasRow(p: Profile, w0: World, w: World, id: Id)
    requires Under(p, w0, w, id)
    ensures InState(At(w, id), Running) ==> At(w, id).row.Some?
  {
    LawfulTracesAreSound(p, w.cfg, w.trace);
    assert SoundRecord(At(w, id));
  }

  // A dead letter is coupled once its task has failed.
  lemma BuriedWell(r: Record, attempts: int, failedAt: Seconds, wall: Seconds)
    requires InState(r, Running) && r.row.Some? && attempts >= r.row.value.maxAttempts
    ensures var r1 := Apply(r, Bury(attempts, failedAt));
            InState(r1, Running) && ShiftsWell(r1, Failed, wall) && CoupledRecord(Apply(r1, Shift(Failed, wall)))
  {
  }

  lemma SaidWell(r: Record, e: Event)
    ensures CoupledRecord(Apply(r, Note(e))) <==> CoupledRecord(r)
  {
  }

  lemma EndsUnder(p: Profile, w0: World, w: World, id: Id)
    requires Ends(p, w0, w)
    ensures Under(p, w0, w, id)
  {
  }

  // What an attempt comes to, up to its except clause.
  ghost predicate AttemptEnds(p: Profile, w0: World, d: Reply, id: Id, item: Row, now: Micros, wall: Seconds) {
    && (d.out.Returned? ==> Ends(p, w0, d.w))
    && (d.out.Raised? ==> Ends(p, w0, FailAttempt(d.w, id, item, now, wall).w))
  }

  lemma AttemptQueued(p: Profile, w0: World, w: World, id: Id, holder: Option<Worker>, now: Micros, wall: Seconds,
          turn: Turn)
    requires Under(p, w0, w, id) && FitsTurn(p, turn) && RowIs(At(w, id), RowQueued) && InState(At(w, id), Queued)
    requires At(w, id).row.value.nextAttemptAt * SECOND <= now && JustClaimed(w, id, holder, now)
    ensures AttemptEnds(p, w0, Dispatch(w, id, holder, now, wall, turn), id, At(w, id).row.value, now, wall)
    decreases turn, 2
  {
    hide Under, Ends, Perform, RunAll, FailAttempt, Handed, Passing;
    var d := Dispatch(w, id, holder, now, wall, turn);
    assert d == DispatchQueued(w, id, holder, now, wall, turn);
    DispatchQueuedRun(p, w0, w, id, holder, now, wall, turn);
    if d.out.Raised? {
      HandRecord(w, id, holder, now, wall, false);
      EndsUnder(p, w0, d.w, id);
      FailRun(p, w0, d.w, id, At(w, id).row.value, now, wall);
    }
  }

  // A row that is queued behind the back of an approved task is replaced first.
  lemma AttemptApproved(p: Profile, w0: World, w: World, id: Id, holder: Option<Worker>, now: Micros, wall: Seconds,
          turn: Turn)
    requires Under(p, w0, w, id) && FitsTurn(p, turn) && RowIs(At(w, id), RowQueued) && InState(At(w, id), Approved) &&
        FreeResets(p)
    ensures AttemptEnds(p, w0, Dispatch(w, id, holder, now, wall, turn), id, At(w, id).row.value, now, wall)
    decreases turn, 2
  {
    hide Under, Ends, Perform, RunAll, FailAttempt, Handed, EnqueueTask, Failing, DispatchQueued;
    var e, item := EnqueueTask(w, id, wall).w, At(w, id).row.value;
    EnqueueRun(p, w0, w, id, wall);
    EnqueuedRecord(w, id, wall);
    var d := DispatchQueued(e, id, holder, now, wall, turn);
    assert Dispatch(w, id, holder, now, wall, turn) == d;
    if holder.None? {
      DispatchQueuedRun(p, w0, e, id, holder, now, wall, turn);
      if d.out.Raised? {
        EndsUnder(p, w0, d.w, id);
        ReplacedRowFails(p, w0, w, id, now, wall, d.w);
        FailRun(p, w0, d.w, id, item, now, wall);
      }
    } else {
      UnleasedRowRefuses(e, id, holder, now, wall, turn);
      ReplacedRowFails(p, w0, w, id, now, wall, e);
      FailRun(p, w0, e, id, item, now, wall);
    }
  }

  lemma UnleasedRowRefuses(w: World, id: Id, holder: Option<Worker>, now: Micros, wall: Seconds, turn: Turn)
    requires InState(At(w, id), Queued) && At(w, id).row.Some? && At(w, id).row.value.worker.None? && holder.Some?
    ensures DispatchQueued(w, id, holder, now, wall, turn) == Reply(w, Raised(ValueError))
  {
  }

  // Whether the client refused the replaced row or the worker did not hold it.
  lemma ReplacedRowFails(p: Profile, w0: World, w: World, id: Id, now: Micros, wall: Seconds, w': World)
    requires Under(p, w0, w, id) && InState(At(w, id), Approved) && At(w, id).row.Some? && FreeResets(p)
    requires var e := EnqueueTask(w, id, wall).w; Tame(p) ==> w' == e || w' == Handed(e, id, None, now, wall, false)
    ensures Failing(p, w', id, At(w, id).row.value, now)
  {
    hide Under, EnqueueTask, Handed;
    if Tame(p) {
      var e := EnqueueTask(w, id, wall).w;
      EnqueuedRecord(w, id, wall);
      UnderQuota(p, w0, w, id);
      HandedRecord(e, id, None, now, wall, false);
    }
  }

  lemma UnderQuota(p: Profile, w0: World, w: World, id: Id)
    requires Under(p, w0, w, id) && Tame(p)
    ensures QuotaKept(w.cfg, At(w, id))
  {
    QuotaAlongTrace(p, w.cfg, w.trace, id);
  }

  lemma AttemptElsewhere(p: Profile, w0: World, w: World, id: Id, holder: Option<Worker>, now: Micros, wall: Seconds,
          turn: Turn)
    requires Under(p, w0, w, id) && RowIs(At(w, id), RowQueued) && At(w, id).task.Some? && !Clean(p)
    requires !InState(At(w, id), Queued) && !InState(At(w, id), Approved)
    ensures AttemptEnds(p, w0, Dispatch(w, id, holder, now, wall, turn), id, At(w, id).row.value, now, wall)
  {
    hide Under, Ends, Perform, RunAll, FailAttempt, Handed, EnqueueTask, Passing;
    assert DispatchQueued(w, id, holder, now, wall, turn) == Reply(w, Raised(ValueError));
    assert Dispatch(w, id, holder, now, wall, turn) == Reply(w, Raised(ValueError));
    FailRun(p, w0, w, id, At(w, id).row.value, now, wall);
  }

  // process_queue on a row that is due; the claim, if any, has been made in `w`.
  lemma AttemptRun(p: Profile, w0: World, w: World, id: Id, holder: Option<Worker>, now: Micros, wall: Seconds,
          turn: Turn)
    requires Under(p, w0, w, id) && FitsTurn(p, turn) && RowIs(At(w, id), RowQueued)
    requires At(w, id).row.value.nextAttemptAt * SECOND <= now
    requires JustClaimed(w, id, holder, now)
    requires At(w, id).task.Some? && (Clean(p) ==> InState(At(w, id), Queued))
    ensures AttemptEnds(p, w0, Dispatch(w, id, holder, now, wall, turn), id, At(w, id).row.value, now, wall)
    decreases turn, 3
  {
    hide Under, AttemptEnds, Dispatch;
    if InState(At(w, id), Queued) {
      AttemptQueued(p, w0, w, id, holder, now, wall, turn);
    } else if InState(At(w, id), Approved) {
      if !FreeResets(p) {
        ApprovedHasNoRow(p, w0, w, id);
      } else {
        AttemptApproved(p, w0, w, id, holder, now, wall, turn);
      }
    } else {
      AttemptElsewhere(p, w0, w, id, holder, now, wall, turn);
    }
  }

  lemma ApprovedHasNoRow(p: Profile, w0: World, w: World, id: Id)
    requires Under(p, w0, w, id) && !FreeResets(p) && InState(At(w, id), Approved)
    ensures At(w, id).row.None?
  {
    LawfulResetsSpareRows(p, w.cfg, w.trace, id);
  }

  lemma ProcessRun(p: Profile, w0: World, w: World, id: Id, holder: Option<Worker>, now: Micros, wall: Seconds,
          turn: Turn)
    requires Under(p, w0, w, id) && FitsTurn(p, turn)
    requires Tidy(At(w, id)) && (Clean(p) ==> CoupledRecord(At(w, id)))
    ensures Ends(p, w0, Process(w, id, holder, now, wall, turn).w)
    decreases turn, 4
  {
    hide Under, Ends, Perform, RunAll, Dispatch, FailAttempt;
    if RowIs(At(w, id), RowQueued) && At(w, id).row.value.nextAttemptAt * SECOND <= now {
      var claimed := if holder.Some? then ClaimQueueItem(w, id, holder.value, now) else Answer(w, id);
      if holder.Some? {
        ClaimRun(p, w0, w, id, holder.value, now);
      }
      if claimed.out.Returned? {
        AttemptRun(p, w0, claimed.w, id, holder, now, wall, turn);
      } else {
        Finish(p, w0, w, id);
      }
    } else {
      Finish(p, w0, w, id);
    }
  }

  lemma ApproveRun(p: Profile, w: World, id: Id, wall: Seconds, turn: Turn)
    requires AtRest(p, w) && FitsTurn(p, turn)
    ensures Ends(p, w, ApproveTask(w, id, wall, turn).w)
    decreases turn, 3
  {
    hide Under, Ends, AtRest, Perform, RunAll, Dispatch;
    Begin(p, w, id);
    TransitionRun(p, w, w, id, Approved, wall);
    var approved := TransitionTask(w, id, Approved, wall);
    if approved.out.Returned? {
      DispatchApprovedRun(p, w, approved.w, id, wall, turn);
    } else {
      Finish(p, w, w, id);
    }
  }

  lemma RegisterRun(p: Profile, w0: World, w: World, payload: Payload, key: Key, webhook: bool, wall: Seconds)
    requires Under(p, w0, w, payload.id) && At(w, payload.id).task.None? && payload.id != "" &&
        (key != "" ==> key !in w.db.work.keys)
    ensures var r := Register(w, payload, key, webhook, wall);
            && Under(p, w0, r, payload.id)
            && InState(At(r, payload.id), Received) && At(r, payload.id).row == At(w, payload.id).row
            && r.db.work.keys == if key != "" then w.db.work.keys[key := payload.id] else w.db.work.keys
  {
    hide Under;
    Moved(p, w0, w, payload.id, Create(InitialTask(payload, wall), webhook));
    var w1 := Put(w, payload.id, Create(InitialTask(payload, wall), webhook));
    if key != "" {
      Moved(p, w0, w1, payload.id, NoteKey(key));
    }
    var w2 := if key != "" then Put(w1, payload.id, NoteKey(key)) else w1;
    if payload.approvalRequired {
      Moved(p, w0, w2, payload.id, Ask);
    }
  }

  lemma SubmitRun(p: Profile, w: World, payload: Payload, key: Key, webhook: bool, now: Micros, wall: Seconds,
          turn: Turn)
    requires AtRest(p, w) && FitsTurn(p, turn)
    ensures Ends(p, w, Submit(w, payload, key, webhook, now, wall, turn).w)
    decreases turn, 7
  {
    hide Under, Ends, AtRest, Perform, RunAll, Admit;
    var id := payload.id;
    Begin(p, w, id);
    if Repeats(w.db.work, key) || !ValidPayload(payload) || At(w, id).task.Some? {
      Finish(p, w, w, id);
    } else if key != "" && key in w.db.work.keys {
      Moved(p, w, w, id, Create(InitialTask(payload, wall), webhook));
      Finish(p, w, Put(w, id, Create(InitialTask(payload, wall), webhook)), id);
    } else {
      RegisterRun(p, w, w, payload, key, webhook, wall);
      AdmitRun(p, w, Register(w, payload, key, webhook, wall), payload, now, wall, turn);
    }
  }

  // submit_task once the rows are written.
  lemma AdmitRun(p: Profile, w0: World, w: World, payload: Payload, now: Micros, wall: Seconds, turn: Turn)
    requires Under(p, w0, w, payload.id) && FitsTurn(p, turn) && InState(At(w, payload.id), Received)
    requires At(w, payload.id).row.None?
    ensures Ends(p, w0, Admit(w, payload, now, wall, turn).w)
    ensures Ends(p, TransitionTask(w, payload.id, Validating, wall).w, Admit(w, payload, now, wall, turn).w)
    decreases turn, 6
  {
    hide Under, Ends, Perform, RunAll, Dispatch, Process, TransitionTask, Route;
    TransitionRun(p, w0, w, payload.id, Validating, wall);
    var w1 := TransitionTask(w, payload.id, Validating, wall).w;
    RouteRun(p, w0, w1, payload, now, wall, turn);
    UnderSelf(p, w0, w1, payload.id);
    RouteRun(p, w1, w1, payload, now, wall, turn);
  }

  lemma UnderSelf(p: Profile, w0: World, w: World, id: Id)
    requires Under(p, w0, w, id)
    ensures Under(p, w, w, id) && w.db == After(w.trace)
  {
  }

  // Before there is a row, tasks are coupled.
  lemma RowlessShiftsWell(r: Record, to: State, wall: Seconds)
    requires r.task.Some? && r.row.None? && (to == Validating || to == PendingApproval || to == Approved)
    ensures ShiftsWell(r, to, wall) && CoupledRecord(Apply(r, Shift(to, wall)))
  {
  }

  // The validated task goes to the approval or to the queue.
  lemma RouteRun(p: Profile, w0: World, w: World, payload: Payload, now: Micros, wall: Seconds, turn: Turn)
    requires Under(p, w0, w, payload.id) && FitsTurn(p, turn) && InState(At(w, payload.id), Validating)
    requires At(w, payload.id).row.None?
    ensures Ends(p, w0, Route(w, payload, now, wall, turn).w)
    decreases turn, 5
  {
    hide Under, Ends, Perform, RunAll, Dispatch, Process, TransitionTask, EnqueueTask, ShiftsWell;
    var id := payload.id;
    RowlessShiftsWell(At(w, id), PendingApproval, wall);
    RowlessShiftsWell(At(w, id), Approved, wall);
    if NeedsApproval(payload) {
      TransitionRun(p, w0, w, id, PendingApproval, wall);
      Finish(p, w0, TransitionTask(w, id, PendingApproval, wall).w, id);
    } else {
      TransitionRun(p, w0, w, id, Approved, wall);
      var w1 := TransitionTask(w, id, Approved, wall).w;
      EnqueueRun(p, w0, w1, id, wall);
      ProcessRun(p, w0, EnqueueTask(w1, id, wall).w, id, None, now, wall, turn);
    }
  }

  // A new submission continues from the commit of its first transition.
  lemma SubmitContinues(p: Profile, w: World, payload: Payload, key: Key, webhook: bool, now: Micros, wall: Seconds,
          turn: Turn)
    requires AtRest(p, w) && FitsTurn(p, turn)
    requires ValidPayload(payload) && At(w, payload.id).task.None? && (key != "" ==> key !in w.db.work.keys)
    ensures var w1 := TransitionTask(Register(w, payload, key, webhook, wall), payload.id, Validating, wall).w;
            && w1.db == After(w1.trace) && Extends(w1, w)
            && Ends(p, w1, Submit(w, payload, key, webhook, now, wall, turn).w)
  {
    hide Under, Ends, AtRest, Perform, RunAll, Admit, TransitionTask, Extends;
    Begin(p, w, payload.id);
    RegisterRun(p, w, w, payload, key, webhook, wall);
    var w0 := Register(w, payload, key, webhook, wall);
    AdmitRun(p, w, w0, payload, now, wall, turn);
    TransitionRun(p, w, w0, payload.id, Validating, wall);
    UnderSelf(p, w, TransitionTask(w0, payload.id, Validating, wall).w, payload.id);
    UnderExtends(p, w, TransitionTask(w0, payload.id, Validating, wall).w, payload.id);
  }

  lemma UnderExtends(p: Profile, w0: World, w: World, id: Id)
    requires Under(p, w0, w, id)
    ensures Extends(w, w0)
  {
  }

  // ----- the other calls

  // A coupled task that can finish stays coupled.
  lemma FinishesWell(r: Record, to: State, wall: Seconds)
    requires CoupledRecord(r) && r.task.Some? && CanTransition(r.task.value.state, to) &&
        (to == Succeeded || to == Failed)
    ensures ShiftsWell(r, to, wall) && CoupledRecord(Apply(r, Shift(to, wall)))
  {
  }

  lemma AcceptRun(p: Profile, w: World, id: Id, result: RunResult, wall: Seconds)
    requires AtRest(p, w)
    ensures Ends(p, w, AcceptResult(w, id, result, wall).w)
  {
    hide Under, Ends, AtRest, TransitionTask, ShiftsWell, SoundRecord;
    Begin(p, w, id);
    if At(w, id).task.None? || At(w, id).result.Some? || (!InState(At(w, id), Cancelled) && result.status.None?) {
      Finish(p, w, w, id);
    } else if InState(At(w, id), Cancelled) {
      Moved(p, w, w, id, Note(ResultIgnored));
      Finish(p, w, Put(w, id, Note(ResultIgnored)), id);
    } else {
      var target := if result.status.value == "succeeded" then Succeeded else Failed;
      if Clean(p) && CanTransition(At(w, id).task.value.state, target) {
        FinishesWell(At(w, id), target, wall);
      }
      TransitionRun(p, w, w, id, target, wall);
      var finished := TransitionTask(w, id, target, wall);
      if finished.out.Returned? {
        KeepRun(p, w, finished.w, id, result);
      } else {
        Finish(p, w, w, id);
      }
    }
  }

  // store_result_with_audit and what follows it.
  lemma KeepRun(p: Profile, w0: World, w: World, id: Id, result: RunResult)
    requires Under(p, w0, w, id) && At(w, id).task.Some? && At(w, id).result.None?
    requires Clean(p) ==> CoupledRecord(At(w, id))
    ensures var w1 := Do(Put(w, id, Keep(result)), Commit);
            Ends(p, w0, if result.memoryProvenance then Put(w1, id, Note(MemoryProvenanceRecorded)) else w1)
  {
    hide Under, Ends;
    Moved(p, w0, w, id, Keep(result));
    var w1 := Do(Put(w, id, Keep(result)), Commit);
    Committed(p, w0, Put(w, id, Keep(result)), id);
    if result.memoryProvenance {
      Moved(p, w0, w1, id, Note(MemoryProvenanceRecorded));
      Finish(p, w0, Put(w1, id, Note(MemoryProvenanceRecorded)), id);
    } else {
      Finish(p, w0, w1, id);
    }
  }

  // A single move on a task at rest.
  lemma MoveRun(p: Profile, w: World, id: Id, m: Move)
    requires AtRest(p, w) && !m.Erase? && (m.Shift? ==> m.to != Running)
    requires Permitted(w.cfg, w.db.work, Touch(id, m)) && Expected(p, w.cfg, w.trace, w.db.work, Touch(id, m))
    requires Clean(p) ==> CoupledRecord(At(w, id)) ==> CoupledRecord(Apply(At(w, id), m))
    ensures Ends(p, w, Put(w, id, m))
  {
    hide Under, Ends, AtRest;
    Begin(p, w, id);
    Moved(p, w, w, id, m);
    Finish(p, w, Put(w, id, m), id);
  }

  lemma StayRun(p: Profile, w: World)
    requires AtRest(p, w)
    ensures Ends(p, w, w)
  {
  }

  // Between calls no row is running, so the sweep finds nothing to do.
  lemma SweepRun(p: Profile, w: World, now: Micros, wall: Seconds, order: seq<Id>)
    requires AtRest(p, w)
    ensures Sweep(w, now, wall, order) == SweepReply(w, None, [])
    decreases |order|
  {
    if order != [] {
      Begin(p, w, order[0]);
      SweepRun(p, w, now, wall, order[1..]);
    }
  }

  lemma ReconcileRun(p: Profile, w: World, order: seq<Id>)
    requires AtRest(p, w)
    ensures ReconcileApprovals(w.db.work, order) == []
  {
    if order != [] {
      Begin(p, w, order[0]);
      ReconcileRun(p, w, order[1..]);
    }
  }

  lemma FindExpiredRun(p: Profile, w: World, now: Micros, order: seq<Id>)
    requires AtRest(p, w)
    ensures var e := FindExpired(w, now, order);
            && Ends(p, w, e.w)
            && (forall i {:trigger At(e.w, i)} :: At(e.w, i).task == At(w, i).task)
            && (forall i :: i in e.ids <==> i in order && ApprovalLapsed(w.cfg, At(w, i), now))
    decreases |order|
  {
    hide Ends, AtRest;
    StayRun(p, w);
    if order != [] {
      if ApprovalLapsed(w.cfg, At(w, order[0]), now) {
        var w1 := Put(w, order[0], Note(ApprovalExpired));
        MoveRun(p, w, order[0], Note(ApprovalExpired));
        forall i ensures At(w1, i).task == At(w, i).task {}
        EndsAtRest(p, w, w1);
        FindExpiredRun(p, w1, now, order[1..]);
        Chain(p, w, w1, FindExpired(w1, now, order[1..]).w);
      } else {
        FindExpiredRun(p, w, now, order[1..]);
      }
    }
  }

  lemma EndsAtRest(p: Profile, w0: World, w: World)
    requires Ends(p, w0, w)
    ensures AtRest(p, w) && w.cfg == w0.cfg
  {
  }

  lemma StuckRun(p: Profile, w: World, now: Micros, order: seq<Id>)
    requires AtRest(p, w)
    ensures var stuck := StuckApprovals(w, now, order);
            && Ends(p, w, stuck.w)
            && (forall i :: i in stuck.reasons <==> i in order && ApprovalLapsed(w.cfg, At(w, i), now))
            && (forall i :: i in stuck.reasons ==>
                              stuck.reasons[i] == ExpiredPendingApproval && InState(At(stuck.w, i), PendingApproval))
  {
    hide Ends, AtRest;
    ReconcileRun(p, w, order);
    FindExpiredRun(p, w, now, order);
  }

  // A pending task has no row to reset behind, unless resets have been made at will.
  lemma PendingHasNoRow(p: Profile, w: World, id: Id)
    requires AtRest(p, w) && !FreeResets(p) && InState(At(w, id), PendingApproval)
    ensures At(w, id).row.None?
  {
    LawfulResetsSpareRows(p, w.cfg, w.trace, id);
  }

  lemma ResetRun(p: Profile, w: World, id: Id, wall: Seconds)
    requires AtRest(p, w) && (FreeResets(p) || InState(At(w, id), PendingApproval))
    ensures Ends(p, w, RecoverStuckApproval(w, id, wall).w)
  {
    hide Ends, AtRest;
    if At(w, id).task.Some? {
      if !FreeResets(p) {
        PendingHasNoRow(p, w, id);
      }
      MoveRun(p, w, id, Reset(wall));
    } else {
      StayRun(p, w);
    }
  }

  // The deletion, which its commit is to follow.
  lemma EraseStep(p: Profile, w: World, id: Id)
    requires AtRest(p, w) && At(w, id).task.Some?
    ensures var w1 := Put(w, id, Erase); Linked(p, w1) && Extends(w1, w) && (Clean(p) ==> Coupled(w1.db.work))
  {
    hide Lawful, CoupledRecord;
    var w1 := Put(w, id, Erase);
    Step(p, w, Touch(id, Erase));
    BlankIsCoupled();
    forall i ensures Rec(w1.db.work, i) == if i == id then BLANK else At(w, i) {}
  }

  lemma BlankIsCoupled()
    ensures CoupledRecord(BLANK)
  {
  }

  lemma EraseCommit(p: Profile, w0: World, w: World, id: Id)
    requires Linked(p, w) && Extends(w, w0) && (Clean(p) ==> Coupled(w.db.work))
    requires w.trace != [] && w.trace[|w.trace| - 1] == Touch(id, Erase)
    ensures Ends(p, w0, Do(w, Commit))
  {
    hide Lawful, CoupledRecord;
    Step(p, w, Commit);
    assert Do(w, Commit).db.work == w.db.work;
  }

  lemma DeleteRun(p: Profile, w: World, id: Id)
    requires AtRest(p, w)
    ensures Ends(p, w, Delete(w, id).w)
  {
    hide AtRest, Ends, Linked, Extends, Coupled;
    StayRun(p, w);
    if At(w, id).task.Some? {
      EraseStep(p, w, id);
      EraseCommit(p, w, Put(w, id, Erase), id);
    }
  }

  lemma RejectRun(p: Profile, w: World, id: Id, wall: Seconds)
    requires AtRest(p, w)
    ensures Ends(p, w, TransitionTask(w, id, Rejected, wall).w)
  {
    hide Under, Ends, AtRest;
    Begin(p, w, id);
    TransitionRun(p, w, w, id, Rejected, wall);
    Finish(p, w, TransitionTask(w, id, Rejected, wall).w, id);
  }

  lemma ClaimOneRun(p: Profile, w: World, id: Id, worker: Worker, now: Micros)
    requires AtRest(p, w)
    ensures Ends(p, w, ClaimQueueItem(w, id, worker, now).w)
  {
    hide Under, Ends, AtRest;
    Begin(p, w, id);
    ClaimRun(p, w, w, id, worker, now);
    Finish(p, w, ClaimQueueItem(w, id, worker, now).w, id);
  }

  lemma CancelRun(p: Profile, w: World, id: Id, wall: Seconds)
    requires AtRest(p, w)
    ensures Ends(p, w, CancelOne(w, id, wall).w)
  {
    hide Ends, AtRest;
    StayRun(p, w);
    if At(w, id).task.Some? && !Terminal(At(w, id).task.value.state) {
      MoveRun(p, w, id, Cancel(wall));
    }
  }

  lemma RecoverJobRun(p: Profile, w: World, id: Id, now: Micros)
    requires AtRest(p, w)
    ensures Ends(p, w, RecoverStuckJob(w, id, now).w)
  {
    hide Ends, AtRest;
    StayRun(p, w);
    if At(w, id).task.Some? && At(w, id).row.Some? && LeaseLapsed(At(w, id).row.value, now) {
      MoveRun(p, w, id, Requeue(now));
    }
  }

  lemma PerformRun(p: Profile, w: World, op: Op)
    requires AtRest(p, w) && Fits(p, op)
    ensures Ends(p, w, Perform(w, op).w)
    decreases op, 0
  {
    hide Ends, AtRest, Submit, Process, Dispatch, RunAll, ApproveTask, AcceptResult, Delete, CancelOne, RecoverStuckJob,
        TransitionTask;
    hide ClaimQueueItem, Sweep, StuckApprovals, RecoverStuckApproval, FitsTurn, FitsAll;
    match op
    case SubmitTask(payload, key, webhook, now, wall, turn) => SubmitRun(p, w, payload, key, webhook, now, wall, turn);
    case Approve(id, wall, turn) => ApproveRun(p, w, id, wall, turn);
    case ProcessQueue(id, holder, now, wall, turn) =>
      Begin(p, w, id);
      ProcessRun(p, w, w, id, holder, now, wall, turn);
    case RecordResult(id, result, wall) => AcceptRun(p, w, id, result, wall);
    case EnforceTimeouts(now, wall, order) =>
      SweepRun(p, w, now, wall, order);
      StayRun(p, w);
    case ListStuckApprovals(now, order) => StuckRun(p, w, now, order);
    case RecoverApproval(id, wall) => ResetRun(p, w, id, wall);
    case RecoverListedApproval(id, now, wall, order) =>
      StuckRun(p, w, now, order);
      var stuck := StuckApprovals(w, now, order);
      EndsAtRest(p, w, stuck.w);
      if id in stuck.reasons {
        ResetRun(p, stuck.w, id, wall);
        Chain(p, w, stuck.w, RecoverStuckApproval(stuck.w, id, wall).w);
      }
    case DeleteTask(id) => DeleteRun(p, w, id);
    case Reject(id, wall) => RejectRun(p, w, id, wall);
    case ClaimItem(id, worker, now) => ClaimOneRun(p, w, id, worker, now);
    case CancelTask(id, wall) => CancelRun(p, w, id, wall);
    case RecoverJob(id, now) => RecoverJobRun(p, w, id, now);
  }

  lemma AllRun(p: Profile, w: World, ops: seq<Op>)
    requires AtRest(p, w) && FitsAll(p, ops)
    ensures Ends(p, w, RunAll(w, ops))
    decreases ops, 0
  {
    hide Ends, AtRest, Perform;
    StayRun(p, w);
    if ops != [] {
      var w1 := Perform(w, ops[0]).w;
      PerformRun(p, w, ops[0]);
      EndsAtRest(p, w, w1);
      AllRun(p, w1, ops[1..]);
      Chain(p, w, w1, RunAll(w1, ops[1..]));
    }
  }

  // ----- whole runs

  lemma RunsAreLawful(p: Profile, cfg: Config, ops: seq<Op>)
    requires FitsAll(p, ops)
    ensures AtRest(p, Run(cfg, ops)) && Run(cfg, ops).cfg == cfg
  {
    AllRun(p, Boot(cfg), ops);
  }

  // Also at the moment a clean client is called, every task is coupled to its row.
  lemma ClientSeesCoupledTables(w: World, id: Id, holder: Option<Worker>, now: Micros, wall: Seconds, accepted: bool)
    requires AtRest(CleanClient, w) && InState(At(w, id), Queued) && JustClaimed(w, id, holder, now)
    ensures Coupled(Handed(w, id, holder, now, wall, accepted).db.work)
  {
    Begin(CleanClient, w, id);
    HandRun(CleanClient, w, w, id, holder, now, wall, accepted);
  }
}
