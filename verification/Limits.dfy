// Where the guarantees end: what becomes of them when the client is not clean, when an approval is
// reset that nobody listed, and when a lease is dropped.

module Limits {
  import opened Basics
  import opened StateMachine
  import opened Records
  import opened Logs
  import opened Worlds
  import opened Engine
  import opened Runs
  import opened Gates
  import opened Histories
  import opened Dispatching
  import opened Approvals
  import opened AuditTrail
  import opened Leases

  // A client that reports success and then raises.
  function ReportThenRaise(id: Id, result: RunResult, wall: Seconds): Turn {
    Turn([RecordResult(id, result, wall)], true)
  }

  lemma ReportedDispatch(w: World, id: Id, now: Micros, wall: Seconds, result: RunResult)
    requires InState(At(w, id), Queued) && RowIs(At(w, id), RowQueued) && At(w, id).result.None?
    requires result.status == Some("succeeded")
    ensures var d := Dispatch(w, id, None, now, wall, ReportThenRaise(id, result, wall));
            d.out == Raised(ClientError) && InState(At(d.w, id), Succeeded) && At(d.w, id).result == Some(result)
  {
    hide Process, Submit, ApproveTask, TransitionTask, AcceptResult, Handed;
    var turn := ReportThenRaise(id, result, wall);
    var h := Handed(w, id, None, now, wall, false);
    HandedKeeps(w, id, None, now, wall);
    assert At(h, id).result.None? by {
      HandedKeepsResult(w, id, now, wall);
    }
    var w1 := AcceptResult(h, id, result, wall).w;
    Accepted(h, id, result, wall);
    assert Perform(h, turn.calls[0]).w == w1;
    assert RunAll(h, turn.calls) == RunAll(w1, turn.calls[1..]) == w1;
    assert DispatchQueued(w, id, None, now, wall, turn) == Reply(w1, Raised(ClientError));
  }

  lemma HandedKeepsResult(w: World, id: Id, now: Micros, wall: Seconds)
    ensures At(Handed(w, id, None, now, wall, false), id).result == At(w, id).result
  {
  }

  lemma Accepted(w: World, id: Id, result: RunResult, wall: Seconds)
    requires InState(At(w, id), Running) && At(w, id).result.None? && result.status == Some("succeeded")
    ensures InState(At(AcceptResult(w, id, result, wall).w, id), Succeeded)
    ensures At(AcceptResult(w, id, result, wall).w, id).result == Some(result)
  {
    hide TransitionTask, Settled;
    TransitionRecord(w, id, Succeeded, wall);
    KeptResult(TransitionTask(w, id, Succeeded, wall).w, id, result);
    assert forall db :: Settled(db, id, result) ==> Rec(db.work, id).result == Some(result) by {
      SettledMeans(id, result);
    }
  }

  lemma SettledMeans(id: Id, result: RunResult)
    ensures forall db :: Settled(db, id, result) ==> Rec(db.work, id).result == Some(result)
  {
  }

  // A finished task goes back to the queue, its result kept, when the client reports success and
  // then raises while attempts are left.
  lemma UncleanClientRequeuesFinishedTask(w: World, id: Id, now: Micros, wall: Seconds, result: RunResult,
          attempts: int, maxAttempts: int)
    requires Waiting(w, id, attempts, maxAttempts) && attempts + 1 < maxAttempts
    requires At(w, id).result.None? && result.status == Some("succeeded")
    requires At(w, id).row.value.nextAttemptAt * SECOND <= now
    ensures var w' := Process(w, id, None, now, wall, ReportThenRaise(id, result, wall)).w;
            InState(At(w', id), Queued) && At(w', id).result == Some(result)
  {
    hide Perform, RunAll, Dispatch;
    ReportedDispatch(w, id, now, wall, result);
  }

  // ----- approvals reset by hand

  // Claiming the row when its lease has run out, recovering the job when the new lease has run out
  // in turn, and processing the row when it is due.
  function Bypass(w: World, id: Id, wall: Seconds): (ops: seq<Op>)
    ensures |ops| == 3
  {
    [ClaimItem(id, "operator", LeaseEnd(At(w, id))),
     RecoverJob(id, (Floor(LeaseEnd(At(w, id))) + w.cfg.lease) * SECOND),
     ProcessQueue(id, None, RowOf(At(w, id)).nextAttemptAt * SECOND, wall, ACCEPTANCE)]
  }

  function LeaseEnd(r: Record): Micros {
    if RowOf(r).leaseExpiresAt.Some? then RowOf(r).leaseExpiresAt.value * SECOND else 0
  }

  // What the first of the three calls and the second do to the record.
  function BypassClaim(r: Record, cfg: Config): Move {
    Claim("operator", LeaseEnd(r), Floor(LeaseEnd(r)) + cfg.lease)
  }

  function BypassRequeue(r: Record, cfg: Config): Move {
    Requeue((Floor(LeaseEnd(r)) + cfg.lease) * SECOND)
  }

  lemma PerformsClaim(w: World, id: Id, worker: Worker, now: Micros)
    ensures Perform(w, ClaimItem(id, worker, now)) == ClaimQueueItem(w, id, worker, now)
  {
    hide ClaimQueueItem;
  }

  lemma PerformsRecovery(w: World, id: Id, now: Micros)
    ensures Perform(w, RecoverJob(id, now)) == RecoverStuckJob(w, id, now)
  {
    hide RecoverStuckJob;
  }

  lemma BypassClaims(w: World, id: Id, wall: Seconds)
    requires At(w, id).task.Some? && At(w, id).row.Some?
    ensures Perform(w, Bypass(w, id, wall)[0]).w == Put(w, id, BypassClaim(At(w, id), w.cfg))
  {
    hide Apply, Perform;
    var t := LeaseEnd(At(w, id));
    assert Floor(t + w.cfg.lease * SECOND) == Floor(t) + w.cfg.lease;
    assert !HeldByOther(At(w, id).row.value, "operator", t);
    PerformsClaim(w, id, "operator", t);
  }

  lemma BypassRecovers(w: World, id: Id, wall: Seconds)
    requires At(w, id).task.Some? && At(w, id).row.Some?
    ensures var c := Put(w, id, BypassClaim(At(w, id), w.cfg));
            Perform(c, Bypass(w, id, wall)[1]).w == Put(c, id, BypassRequeue(At(w, id), w.cfg))
  {
    hide Perform;
    var c := Put(w, id, BypassClaim(At(w, id), w.cfg));
    assert At(c, id) == Apply(At(w, id), BypassClaim(At(w, id), w.cfg));
    PerformsRecovery(c, id, BypassRequeue(At(w, id), w.cfg).now);
  }

  // The record after the reset and the two calls.
  lemma BypassedRecord(r: Record, cfg: Config, wall: Seconds)
    requires r.task.Some? && r.row.Some?
    ensures var r1 := Apply(r, Reset(wall));
            var r3 := Apply(Apply(r1, BypassClaim(r1, cfg)), BypassRequeue(r1, cfg));
            && InState(r3, Queued) && RowIs(r3, RowQueued) && r3.row.value.nextAttemptAt == RowOf(r).nextAttemptAt
            && r3.task.value.approval == StatusPending && !Logs.Granted(r3.log)
  {
    hide Logs.Granted;
    var r1 := Apply(r, Reset(wall));
    var r2 := Apply(r1, BypassClaim(r1, cfg));
    SnocGranted(r.log, ApprovalReset);
    SnocGranted(r1.log, TaskClaimed("operator", BypassClaim(r1, cfg).expiry));
    SnocGranted(r2.log, TaskRecovered("operator"));
  }

  lemma AcceptedAttempt(w: World, id: Id, now: Micros, wall: Seconds)
    requires InState(At(w, id), Queued) && RowIs(At(w, id), RowQueued) &&
        At(w, id).row.value.nextAttemptAt * SECOND <= now
    ensures var w1 := Do(Put(w, id, Shift(Running, wall)), Commit);
            var w2 := Put(w1, id, Hand(wall, wall + w.cfg.timeout, true, None, now));
            && Process(w, id, None, now, wall, ACCEPTANCE) == Answer(w2, id)
            && At(w1, id) == Apply(At(w, id), Shift(Running, wall))
            && InState(At(w2, id), Running) && RowIs(At(w2, id), RowDispatched)
            && At(w2, id).task == At(w1, id).task && At(w2, id).log == At(w1, id).log
  {
    hide Perform, TransitionTask;
    TransitionRecord(w, id, Running, wall);
    var h := Handed(w, id, None, now, wall, true);
    assert RunAll(h, []) == h;
    assert DispatchQueued(w, id, None, now, wall, ACCEPTANCE) == Answer(h, id);
    assert Dispatch(w, id, None, now, wall, ACCEPTANCE) == Answer(h, id);
  }

  lemma AcceptedHandOver(w: World, id: Id, now: Micros, wall: Seconds)
    requires InState(At(w, id), Queued) && RowIs(At(w, id), RowQueued) &&
        At(w, id).row.value.nextAttemptAt * SECOND <= now
    ensures var w' := Process(w, id, None, now, wall, ACCEPTANCE).w;
            w' == Handed(w, id, None, now, wall, true) && InState(At(w', id), Running) &&
                RowIs(At(w', id), RowDispatched)
  {
    AcceptedAttempt(w, id, now, wall);
  }

  // The world after the reset and the first two calls.
  function Bypassed(w: World, id: Id, wall: Seconds): World {
    var w1 := Put(w, id, Reset(wall));
    Put(Put(w1, id, BypassClaim(At(w1, id), w.cfg)), id, BypassRequeue(At(w1, id), w.cfg))
  }

  lemma BypassedReplays(w: World, id: Id, wall: Seconds)
    requires Replays(w)
    ensures Replays(Bypassed(w, id, wall))
  {
    hide Replays;
    var w1 := Put(w, id, Reset(wall));
    DoReplays(w, Touch(id, Reset(wall)));
    DoReplays(w1, Touch(id, BypassClaim(At(w1, id), w.cfg)));
    DoReplays(Put(w1, id, BypassClaim(At(w1, id), w.cfg)), Touch(id, BypassRequeue(At(w1, id), w.cfg)));
  }

  lemma PendingTaskIsHandedOver(w: World, id: Id, wall: Seconds, n: nat)
    requires InState(At(w, id), Queued) && RowIs(At(w, id), RowQueued)
    requires At(w, id).task.value.approval == StatusPending && !Logs.Granted(At(w, id).log)
    ensures var w2 := Process(w, id, None, At(w, id).row.value.nextAttemptAt * SECOND, wall, ACCEPTANCE).w;
            && InState(At(w2, id), Running) && At(w2, id).task.value.approval == StatusPending &&
                !Logs.Granted(At(w2, id).log)
            && (Replays(w) && n <= |w.trace| ==> !HandedOverCleared(w2.trace, id, n))
  {
    hide Logs.Granted, Process;
    var w1 := Do(Put(w, id, Shift(Running, wall)), Commit);
    var now := At(w, id).row.value.nextAttemptAt * SECOND;
    var w2 := Process(w, id, None, now, wall, ACCEPTANCE).w;
    SnocGranted(At(w, id).log, StateChanged(Queued, Running));
    AcceptedAttempt(w, id, now, wall);
    if Replays(w) && n <= |w.trace| {
      DoReplays(w, Touch(id, Shift(Running, wall)));
      DoReplays(Put(w, id, Shift(Running, wall)), Commit);
      assert w2.trace[..|w1.trace|] == w1.trace && w2.trace[|w1.trace|].move.Hand?;
    }
  }

  // Any task with a queue row, whatever its state and its row's, reaches the client by listed
  // operations alone after its approval was reset, with the approval pending and not granted.
  lemma UnlistedResetSkipsApproval(w: World, id: Id, wall: Seconds)
    requires At(w, id).task.Some? && At(w, id).row.Some?
    ensures var w1 := RecoverStuckApproval(w, id, wall).w;
            var w2 := RunAll(w1, Bypass(w1, id, wall));
            && InState(At(w2, id), Running) && At(w2, id).task.value.approval == StatusPending &&
                !Logs.Granted(At(w2, id).log)
            && (Replays(w) ==> !HandedOverCleared(w2.trace, id, |w1.trace|))
  {
    hide Logs.Granted, BypassClaim, BypassRequeue, HandedOverCleared, Replays, RunAll, Process, RecoverStuckJob,
        ClaimQueueItem;
    var w1 := Put(w, id, Reset(wall));
    var ops := Bypass(w1, id, wall);
    var r := Bypassed(w, id, wall);
    BypassedRecord(At(w, id), w.cfg, wall);
    BypassClaims(w1, id, wall);
    BypassRecovers(w1, id, wall);
    assert ops == [ops[0], ops[1], ops[2]];
    RunThree(w1, ops[0], ops[1], ops[2]);
    PendingTaskIsHandedOver(r, id, wall, |w1.trace|);
    if Replays(w) {
      BypassedReplays(w, id, wall);
    }
  }

  lemma FitsThree(p: Profile, a: Op, b: Op, c: Op)
    requires Fits(p, a) && Fits(p, b) && Fits(p, c)
    ensures FitsAll(p, [a, b, c])
  {
    hide Fits;
    assert [a, b, c][1..] == [b, c] && [b, c][1..] == [c] && [c][1..] == [];
    assert FitsAll(p, [c]);
    assert FitsAll(p, [b, c]);
  }

  lemma BypassFits(w: World, id: Id, wall: Seconds)
    ensures FitsAll(ListedResets, Bypass(w, id, wall))
  {
    hide FitsAll, FitsTurn;
    QuietTurnFits(ListedResets, ACCEPTANCE);
    FitsThree(ListedResets, ClaimItem(id, "operator", LeaseEnd(At(w, id))),
              RecoverJob(id, (Floor(LeaseEnd(At(w, id))) + w.cfg.lease) * SECOND),
              ProcessQueue(id, None, RowOf(At(w, id)).nextAttemptAt * SECOND, wall, ACCEPTANCE));
  }

  lemma RunOne(w: World, op: Op)
    ensures RunAll(w, [op]) == Perform(w, op).w
  {
    hide Perform;
    assert [op][1..] == [];
    assert RunAll(w, [op]) == RunAll(Perform(w, op).w, []);
  }

  lemma RunThree(w: World, a: Op, b: Op, c: Op)
    ensures RunAll(w, [a, b, c]) == Perform(Perform(Perform(w, a).w, b).w, c).w
  {
    hide Perform;
    var w1 := Perform(w, a).w;
    var w2 := Perform(w1, b).w;
    assert [a, b, c][1..] == [b, c] && [b, c][1..] == [c];
    assert RunAll(w, [a, b, c]) == RunAll(w1, [b, c]);
    assert RunAll(w1, [b, c]) == RunAll(w2, [c]);
    RunOne(w2, c);
  }

  // In the continuation the client is given the task only when it is cleared, provided that
  // approvals are reset only for listed tasks.
  ghost predicate KeepsGate(w: World, lives: seq<Life>, ops: seq<Op>, id: Id) {
    FitsLives(ListedResets, lives) && FitsAll(ListedResets, ops) ==>
      HandedOverCleared(RunAll(Survive(w, lives), ops).trace, id, |w.trace|)
  }

  // Resetting an approval keeps the gate shut, through every continuation with listed resets, any
  // client and any crashes, exactly when the task has no queue row.
  lemma ResetKeepsGateIff(w: World, id: Id, wall: Seconds)
    requires AtRest(ListedResets, w) && At(w, id).task.Some?
    ensures (forall lives, ops :: KeepsGate(RecoverStuckApproval(w, id, wall).w, lives, ops, id)) <==>
        At(w, id).row.None?
  {
    hide KeepsGate, AtRest, RunAll, Survive;
    var w1 := RecoverStuckApproval(w, id, wall).w;
    if At(w, id).row.None? {
      forall lives, ops ensures KeepsGate(w1, lives, ops, id) {
        RowlessResetKeepsGate(w, id, wall, lives, ops);
      }
    } else {
      BypassBreaksGate(w, id, wall);
    }
  }

  lemma RowlessResetKeepsGate(w: World, id: Id, wall: Seconds, lives: seq<Life>, ops: seq<Op>)
    requires AtRest(ListedResets, w) && At(w, id).task.Some? && At(w, id).row.None?
    ensures KeepsGate(RecoverStuckApproval(w, id, wall).w, lives, ops, id)
  {
    hide RunAll, Survive, Gated;
    if FitsLives(ListedResets, lives) && FitsAll(ListedResets, ops) {
      var w1 := Put(w, id, Reset(wall));
      MoveRun(ListedResets, w, id, Reset(wall));
      SurviveAtRest(ListedResets, w1, lives);
      AllRun(ListedResets, Survive(w1, lives), ops);
      var w2 := RunAll(Survive(w1, lives), ops);
      LawfulResetsSpareRows(ListedResets, w2.cfg, w2.trace, id);
      SparedRowsKeepGate(ListedResets, w2.cfg, w2.trace, id);
    }
  }

  lemma BypassBreaksGate(w: World, id: Id, wall: Seconds)
    requires AtRest(ListedResets, w) && At(w, id).task.Some? && At(w, id).row.Some?
    ensures var w1 := RecoverStuckApproval(w, id, wall).w; !KeepsGate(w1, [], Bypass(w1, id, wall), id)
  {
    hide RunAll, HandedOverCleared;
    var w1 := RecoverStuckApproval(w, id, wall).w;
    UnlistedResetSkipsApproval(w, id, wall);
    BypassFits(w1, id, wall);
    assert Survive(w1, []) == w1;
  }

  // ----- leases that a claim does not see

  // The task has a row that the worker may claim now.
  predicate Claimable(r: Record, worker: Worker, now: Micros) {
    r.task.Some? && r.row.Some? && !HeldByOther(r.row.value, worker, now)
  }

  function LeaseFrom(cfg: Config, worker: Worker, now: Micros): Lease {
    Lease(worker, now, Floor(now) + cfg.lease)
  }

  lemma ClaimedLease(w: World, id: Id, worker: Worker, now: Micros)
    requires Claimable(At(w, id), worker, now)
    ensures var w' := ClaimQueueItem(w, id, worker, now).w;
            && w' == Put(w, id, Claim(worker, now, Floor(now) + w.cfg.lease))
            && Grants(w'.trace, id) == Grants(w.trace, id) + [LeaseFrom(w.cfg, worker, now)]
            && At(w', id) == Apply(At(w, id), Claim(worker, now, Floor(now) + w.cfg.lease))
  {
    assert Floor(now + w.cfg.lease * SECOND) == Floor(now) + w.cfg.lease;
    var a := Touch(id, Claim(worker, now, Floor(now) + w.cfg.lease));
    assert (w.trace + [a])[..|w.trace|] == w.trace;
  }

  lemma LeasesCollide(cfg: Config, leases: seq<Lease>, a: Worker, b: Worker, now: Micros)
    requires cfg.lease >= 1 && a != b && LeaseFrom(cfg, a, now) in leases && LeaseFrom(cfg, b, now) in leases
    ensures !Exclusive(leases)
  {
    assert !Disjoint(LeaseFrom(cfg, a, now), LeaseFrom(cfg, b, now));
  }

  lemma {:induction false} GrantSurvives(tr: seq<Action>, more: seq<Action>, id: Id, l: Lease)
    requires tr != [] && tr[|tr| - 1] != Touch(id, Erase) && Touch(id, Erase) !in more && l in Grants(tr, id)
    ensures l in Grants(tr + more, id)
  {
    if more == [] {
      assert tr + more == tr;
    } else {
      var init := more[..|more| - 1];
      GrantSurvives(tr, init, id, l);
      assert (tr + more)[..|tr + more| - 1] == tr + init;
      assert (tr + init)[|tr + init| - 1] != Touch(id, Erase) by {
        assert |init| > 0 ==> init[|init| - 1] == more[|init| - 1] && more[|init| - 1] in more;
      }
    }
  }

  // A holder with an empty name never blocks another claim.
  lemma UnnamedHolderIsIgnored(w: World, id: Id, worker: Worker, now: Micros)
    requires w.cfg.lease >= 1 && Claimable(At(w, id), "", now) && worker != ""
    ensures !Exclusive(Grants(ClaimQueueItem(ClaimQueueItem(w, id, "", now).w, id, worker, now).w.trace, id))
  {
    hide Grants, Exclusive;
    var w1 := ClaimQueueItem(w, id, "", now).w;
    ClaimedLease(w, id, "", now);
    assert !HeldByOther(At(w1, id).row.value, worker, now);
    ClaimedLease(w1, id, worker, now);
    hide ClaimQueueItem;
    LeasesCollide(w.cfg, Grants(ClaimQueueItem(w1, id, worker, now).w.trace, id), "", worker, now);
  }

  // A claim is not committed, so that a crash frees the row for others.
  lemma CrashDropsLease(w: World, id: Id, a: Worker, b: Worker, now: Micros)
    requires w.cfg.lease >= 1 && Replays(w) && a != b
    requires Claimable(At(w, id), a, now) && Claimable(Rec(w.db.disk, id), b, now)
    ensures var w1 := Interrupted(w, ClaimQueueItem(w, id, a, now).w, 1);
            !Exclusive(Grants(ClaimQueueItem(w1, id, b, now).w.trace, id))
  {
    var c := ClaimQueueItem(w, id, a, now).w;
    var w1 := Interrupted(w, c, 1);
    ClaimedLease(w, id, a, now);
    DoReplays(w, Touch(id, Claim(a, now, Floor(now) + w.cfg.lease)));
    assert c.trace[..|w.trace| + 1] == c.trace;
    DoReplays(c, Crash);
    assert w1 == Do(c, Crash) && At(w1, id) == Rec(w.db.disk, id);
    assert (c.trace + [Crash])[..|c.trace|] == c.trace;
    ClaimedLease(w1, id, b, now);
    LeasesCollide(w.cfg, Grants(ClaimQueueItem(w1, id, b, now).w.trace, id), a, b, now);
  }

  lemma ApprovedWorld(w: World, id: Id, wall: Seconds)
    requires InState(At(w, id), PendingApproval)
    ensures var w' := ApproveTask(w, id, wall, ACCEPTANCE).w;
            && w'.cfg == w.cfg && At(w', id).task.Some? && At(w', id).row.Some? && At(w', id).row.value.worker.None?
            && w.trace <= w'.trace && Touch(id, Erase) !in w'.trace[|w.trace|..]
  {
    hide Perform, TransitionTask, EnqueueTask, Handed;
    TransitionRecord(w, id, Approved, wall);
    var w1 := TransitionTask(w, id, Approved, wall).w;
    EnqueuedRecord(w1, id, wall);
    var w2 := EnqueueTask(w1, id, wall).w;
    HandedRecord(w2, id, None, 0, wall, true);
    var h := Handed(w2, id, None, 0, wall, true);
    var s1 := [Touch(id, Shift(Approved, wall)), Commit];
    var s2 := [Touch(id, Shift(Queued, wall)), Commit, Touch(id, Insert(w1.cfg.maxAttempts, wall))];
    var s3 := [Touch(id, Shift(Running, wall)), Commit, Touch(id, Hand(wall, wall + w2.cfg.timeout, true, None, 0))];
    assert w1.trace == w.trace + s1;
    assert w2.trace == w1.trace + s2;
    assert h.trace == w2.trace + s3;
    assert h.trace[|w.trace|..] == s1 + s2 + s3;
    assert Touch(id, Erase) !in s1 && Touch(id, Erase) !in s2 && Touch(id, Erase) !in s3;
    assert RunAll(h, []) == h;
    assert DispatchQueued(w2, id, None, 0, wall, ACCEPTANCE) == Answer(h, id);
    assert Dispatch(w1, id, None, 0, wall, ACCEPTANCE) == Answer(h, id);
  }

  // Approving a task again after an unlisted reset replaces its row and the lease on it.
  lemma UnlistedResetDropsLease(w: World, id: Id, a: Worker, b: Worker, now: Micros, wall: Seconds)
    requires w.cfg.lease >= 1 && Claimable(At(w, id), a, now) && a != b
    ensures var w1 := RecoverStuckApproval(ClaimQueueItem(w, id, a, now).w, id, wall).w;
            var w2 := ApproveTask(w1, id, wall, ACCEPTANCE).w;
            !Exclusive(Grants(ClaimQueueItem(w2, id, b, now).w.trace, id))
  {
    hide ApproveTask, Grants, Exclusive;
    var c := ClaimQueueItem(w, id, a, now).w;
    ClaimedLease(w, id, a, now);
    var w1 := RecoverStuckApproval(c, id, wall).w;
    ApprovedWorld(w1, id, wall);
    var w2 := ApproveTask(w1, id, wall, ACCEPTANCE).w;
    GrantSurvives(c.trace, [Touch(id, Reset(wall))], id, LeaseFrom(w.cfg, a, now));
    GrantSurvives(w1.trace, w2.trace[|w1.trace|..], id, LeaseFrom(w.cfg, a, now));
    assert w1.trace + w2.trace[|w1.trace|..] == w2.trace;
    ClaimedLease(w2, id, b, now);
    LeasesCollide(w.cfg, Grants(ClaimQueueItem(w2, id, b, now).w.trace, id), a, b, now);
  }

  // ----- hand-overs beyond the bounds

  // An approval hands the task over, and an accepting client leaves it at that.
  lemma ApprovalTally(w: World, id: Id, wall: Seconds)
    requires InState(At(w, id), PendingApproval)
    ensures var t, w' := Tallied(w.trace, id), ApproveTask(w, id, wall, ACCEPTANCE).w;
            && InState(At(w', id), Running)
            && Tallied(w'.trace, id) == t.(calls := t.calls + 1, accepted := t.accepted + 1, enqueues := t.enqueues + 1)
  {
    hide Perform, TransitionTask, EnqueueTask, Handed, Tallied;
    TransitionRecord(w, id, Approved, wall);
    TransitionTally(w, id, Approved, wall);
    var w1 := TransitionTask(w, id, Approved, wall).w;
    EnqueuedRecord(w1, id, wall);
    EnqueueTally(w1, id, wall);
    var w2 := EnqueueTask(w1, id, wall).w;
    HandedRecord(w2, id, None, 0, wall, true);
    HandedTally(w2, id, None, 0, wall, true);
    var h := Handed(w2, id, None, 0, wall, true);
    assert RunAll(h, []) == h;
    assert DispatchQueued(w2, id, None, 0, wall, ACCEPTANCE) == Answer(h, id);
    assert Dispatch(w1, id, None, 0, wall, ACCEPTANCE) == Answer(h, id);
  }

  // Any task, in whatever state, is accepted once more when its approval is reset and granted again.
  lemma UnlistedResetRepeatsHandOver(w: World, id: Id, wall: Seconds)
    requires At(w, id).task.Some?
    ensures var t, w1 := Tallied(w.trace, id), RecoverStuckApproval(w, id, wall).w;
            var w2 := ApproveTask(w1, id, wall, ACCEPTANCE).w;
            && InState(At(w2, id), Running)
            && Tallied(w2.trace, id) == t.(calls := t.calls + 1, accepted := t.accepted + 1, enqueues := t.enqueues + 1)
  {
    hide ApproveTask, Tallied;
    TalliedSnoc(w.trace, Touch(id, Reset(wall)), id);
    ApprovalTally(RecoverStuckApproval(w, id, wall).w, id, wall);
  }

  // Deleting the task and submitting it again, as a client may do that then raises.
  function ReplaceThenRaise(p: Payload, now: Micros, wall: Seconds): Turn {
    Turn([DeleteTask(p.id), SubmitTask(p, "", false, now, wall, ACCEPTANCE)], true)
  }

  lemma DeletedTally(w: World, id: Id)
    requires At(w, id).task.Some?
    ensures var d := Delete(w, id).w; Tallied(d.trace, id) == NOTHING_YET && At(d, id) == BLANK && d.cfg == w.cfg
  {
    var d := Delete(w, id).w;
    assert d.trace == w.trace + [Touch(id, Erase)] + [Commit];
  }

  lemma RegisterTally(w: World, p: Payload, wall: Seconds)
    requires Fresh(w, p, "")
    ensures Tallied(Register(w, p, "", false, wall).trace, p.id) == Tallied(w.trace, p.id)
  {
    hide Tallied, Fresh;
    var create := Touch(p.id, Create(InitialTask(p, wall), false));
    TalliedSnoc(w.trace, create, p.id);
    TalliedSnoc(w.trace + [create], Touch(p.id, Ask), p.id);
  }

  // A new submission that needs no approval is handed over at once and accepted.
  lemma AcceptedSubmission(w: World, p: Payload, now: Micros, wall: Seconds)
    requires Fresh(w, p, "") && (p.approvalRequired ==> p.approvalStatus == StatusApproved) && wall * SECOND <= now
    ensures var t, w' := Tallied(w.trace, p.id), Submit(w, p, "", false, now, wall, ACCEPTANCE).w;
            && InState(At(w', p.id), Running) && At(w', p.id).row.Some? &&
                At(w', p.id).row.value.maxAttempts == w.cfg.maxAttempts
            && Tallied(w'.trace, p.id) ==
                t.(calls := t.calls + 1, accepted := t.accepted + 1, enqueues := t.enqueues + 1)
  {
    hide TransitionTask, EnqueueTask, Process, Register, Submit, Handed, Tallied;
    FreshSubmission(w, p, "", false, now, wall, ACCEPTANCE);
    RegisteredRecord(w, p, "", false, wall);
    RegisterTally(w, p, wall);
    hide Fresh;
    var w0 := Register(w, p, "", false, wall);
    TransitionRecord(w0, p.id, Validating, wall);
    TransitionTally(w0, p.id, Validating, wall);
    var w1 := TransitionTask(w0, p.id, Validating, wall).w;
    TransitionRecord(w1, p.id, Approved, wall);
    TransitionTally(w1, p.id, Approved, wall);
    var w2 := TransitionTask(w1, p.id, Approved, wall).w;
    EnqueuedRecord(w2, p.id, wall);
    EnqueueTally(w2, p.id, wall);
    var w3 := EnqueueTask(w2, p.id, wall).w;
    AcceptedHandOver(w3, p.id, now, wall);
    HandedRecord(w3, p.id, None, now, wall, true);
    HandedTally(w3, p.id, None, now, wall, true);
    assert Route(w1, p, now, wall, ACCEPTANCE).w == Process(w3, p.id, None, now, wall, ACCEPTANCE).w;
  }

  lemma RunTwo(w: World, a: Op, b: Op)
    ensures RunAll(w, [a, b]) == Perform(Perform(w, a).w, b).w
  {
    hide Perform;
    assert [a, b][1..] == [b];
    assert RunAll(w, [a, b]) == RunAll(Perform(w, a).w, [b]);
    RunOne(Perform(w, a).w, b);
  }

  // A task that is running although its attempt has failed is retried, and accepted when it is due.
  lemma RetriedAndAccepted(w: World, id: Id, item: Row, now: Micros, wall: Seconds)
    requires InState(At(w, id), Running) && At(w, id).row.Some? && At(w, id).row.value.maxAttempts == item.maxAttempts
    requires item.attempts + 1 < item.maxAttempts
    ensures var w1 := FailAttempt(w, id, item, now, wall).w;
            var w2 := Process(w1, id, None, RowOf(At(w1, id)).nextAttemptAt * SECOND, wall, ACCEPTANCE).w;
            var t := Tallied(w.trace, id);
            Tallied(w2.trace, id) == t.(calls := t.calls + 1, accepted := t.accepted + 1, retries := t.retries + 1)
  {
    hide Process, Handed, Tallied, FailAttempt;
    RetryOnce(w, id, item, now, wall);
    RetriedWorld(w, id, item, now, wall);
    var w1 := FailAttempt(w, id, item, now, wall).w;
    var next := Floor(now) + BackoffSeconds(w.cfg, item.attempts + 1);
    TalliedSnoc(w.trace, Touch(id, Retry(item.attempts + 1, next, Floor(now), wall)), id);
    var due := At(w1, id).row.value.nextAttemptAt * SECOND;
    AcceptedHandOver(w1, id, due, wall);
    HandedTally(w1, id, None, due, wall, true);
  }

  // The turn of a client that replaces the task and accepts the new one.
  lemma ReplacedTally(w: World, p: Payload, now: Micros, wall: Seconds)
    requires At(w, p.id).task.Some? && ValidPayload(p) && wall * SECOND <= now
    requires p.approvalRequired ==> p.approvalStatus == StatusApproved
    ensures var u := RunAll(w, ReplaceThenRaise(p, now, wall).calls);
            && InState(At(u, p.id), Running) && At(u, p.id).row.Some? &&
                At(u, p.id).row.value.maxAttempts == w.cfg.maxAttempts
            && Tallied(u.trace, p.id) == NOTHING_YET.(calls := 1, accepted := 1, enqueues := 1)
  {
    hide Tallied, Submit, Delete, RunAll;
    var calls := ReplaceThenRaise(p, now, wall).calls;
    RunTwo(w, calls[0], calls[1]);
    DeletedTally(w, p.id);
    AcceptedSubmission(Delete(w, p.id).w, p, now, wall);
  }

  // A client that deletes the task, submits it again and accepts it, and only then raises, sends the
  // accepted task back to the queue, and the next processing has it accepted a second time.
  lemma UncleanClientAcceptsTwice(w: World, p: Payload, now: Micros, wall: Seconds)
    requires Waiting(w, p.id, 0, w.cfg.maxAttempts) && 1 < w.cfg.maxAttempts && ValidPayload(p)
    requires p.approvalRequired ==> p.approvalStatus == StatusApproved
    requires At(w, p.id).row.value.nextAttemptAt * SECOND <= now && wall * SECOND <= now
    ensures var w1 := Process(w, p.id, None, now, wall, ReplaceThenRaise(p, now, wall)).w;
            var w2 := Process(w1, p.id, None, RowOf(At(w1, p.id)).nextAttemptAt * SECOND, wall, ACCEPTANCE).w;
            Tallied(w2.trace, p.id) == NOTHING_YET.(calls := 2, accepted := 2, enqueues := 1, retries := 1)
  {
    hide Process, Handed, Tallied, FailAttempt, RunAll;
    var turn, item := ReplaceThenRaise(p, now, wall), At(w, p.id).row.value;
    DueTaskRuns(w, p.id, None, now, wall, turn);
    var h := Handed(w, p.id, None, now, wall, false);
    HandedRecord(w, p.id, None, now, wall, false);
    ReplacedTally(h, p, now, wall);
    RetriedAndAccepted(RunAll(h, turn.calls), p.id, item, now, wall);
  }
}
