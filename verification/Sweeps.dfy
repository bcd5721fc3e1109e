// The timeout sweep and the recovery of stuck jobs, on arbitrary stores and on reachable ones.

module Sweeps {
  import opened Basics
  import opened StateMachine
  import opened Records
  import opened Worlds
  import opened Engine
  import opened Runs
  import opened Histories

  // The record of a running task whose row timed out.
  function TimedOut(r: Record, wall: Seconds): Record {
    if r.task.None? || r.row.None? then r else
      Record(Some(r.task.value.(state := Failed, updatedAt := wall)),
             Some(r.row.value.(status := RowTimedOut)),
             r.result,
             r.log + [StateChanged(Running, Failed)] + [TaskTimedOut])
  }

  // Where the sweep gets stuck: the row is overdue but its task is not running.
  predicate Stranded(r: Record, now: Micros) {
    Overdue(r, now) && !InState(r, Running)
  }

  // The effect of failing one task.
  lemma SweepOne(w: World, id: Id, now: Micros, wall: Seconds)
    requires Overdue(At(w, id), now) && InState(At(w, id), Running)
    ensures var failed := TransitionTask(Put(w, id, Expire), id, Failed, wall);
            && failed.out.Returned?
            && At(Put(failed.w, id, Note(TaskTimedOut)), id) == TimedOut(At(w, id), wall)
            && (forall i :: i != id ==> At(Put(failed.w, id, Note(TaskTimedOut)), i) == At(w, i))
            && Put(failed.w, id, Note(TaskTimedOut)).db.work.keys == w.db.work.keys
  {
    hide TransitionTask;
    TransitionRecord(Put(w, id, Expire), id, Failed, wall);
  }

  lemma StrandedRaises(w: World, id: Id, now: Micros, wall: Seconds)
    requires Stranded(At(w, id), now)
    ensures TransitionTask(Put(w, id, Expire), id, Failed, wall).out.Raised?
  {
  }

  // The sweep raises exactly when it lists a running row past its timeout whose task is not running.
  lemma {:induction false} SweepRaisesIff(w: World, now: Micros, wall: Seconds, order: seq<Id>)
    ensures Sweep(w, now, wall, order).raised.Some? <==>
            exists id ::
              && id in order && At(w, id).row.Some? && At(w, id).row.value.status == RowRunning
              && At(w, id).row.value.timeoutAt.Some? && At(w, id).row.value.timeoutAt.value * SECOND <= now
              && !(At(w, id).task.Some? && At(w, id).task.value.state == Running)
    decreases |order|
  {
    hide TransitionTask, TimedOut;
    if order != [] {
      var id, rest := order[0], order[1..];
      assert forall i :: i in order <==> i == id || i in rest;
      if Stranded(At(w, id), now) {
        StrandedRaises(w, id, now, wall);
      } else if Overdue(At(w, id), now) {
        SweepOne(w, id, now, wall);
        var w1 := Put(TransitionTask(Put(w, id, Expire), id, Failed, wall).w, id, Note(TaskTimedOut));
        SweepRaisesIff(w1, now, wall, rest);
        TimedOutIsNotOverdue(At(w, id), wall, now);
      } else {
        SweepRaisesIff(w, now, wall, rest);
      }
    }
  }

  lemma TimedOutIsNotOverdue(r: Record, wall: Seconds, now: Micros)
    requires r.task.Some? && r.row.Some?
    ensures !Overdue(TimedOut(r, wall), now)
  {
  }

  // On any store whose overdue rows have running tasks, the sweep fails exactly the listed tasks whose
  // rows are running past their timeouts, each once, and touches nothing else.
  lemma {:induction false} SweepIsExact(w: World, now: Micros, wall: Seconds, order: seq<Id>)
    requires forall id :: id in order ==> !Stranded(At(w, id), now)
    ensures var s := Sweep(w, now, wall, order);
            && s.raised.None?
            && (forall id :: id in s.timedOut <==>
                  && id in order && At(w, id).row.Some? && At(w, id).row.value.status == RowRunning
                  && At(w, id).row.value.timeoutAt.Some? && At(w, id).row.value.timeoutAt.value * SECOND <= now)
            && (forall id :: At(s.w, id) == if id in s.timedOut then TimedOut(At(w, id), wall) else At(w, id))
            && s.w.db.work.keys == w.db.work.keys
            && (forall i, j :: 0 <= i < j < |s.timedOut| ==> s.timedOut[i] != s.timedOut[j])
    decreases |order|
  {
    hide TransitionTask, TimedOut;
    if order != [] {
      var id, rest := order[0], order[1..];
      assert forall i :: i in order <==> i == id || i in rest;
      if Overdue(At(w, id), now) {
        SweepOne(w, id, now, wall);
        TimedOutIsNotOverdue(At(w, id), wall, now);
        var w1 := Put(TransitionTask(Put(w, id, Expire), id, Failed, wall).w, id, Note(TaskTimedOut));
        assert forall i :: i in rest ==> !Stranded(At(w1, i), now);
        SweepIsExact(w1, now, wall, rest);
      } else {
        SweepIsExact(w, now, wall, rest);
      }
    }
  }

  // Where the sweep raises, it leaves the stranded row marked, the overdue tasks before it failed, and
  // everything after it as it was.
  lemma {:induction false} SweepStopsAt(w: World, now: Micros, wall: Seconds, order: seq<Id>, n: nat)
    requires n < |order| && Stranded(At(w, order[n]), now)
    requires forall i :: 0 <= i < n ==> !Stranded(At(w, order[i]), now)
    ensures var s, at := Sweep(w, now, wall, order), order[n];
            && s.raised == Some(if At(w, at).task.None? then KeyError else ValueError)
            && At(s.w, at) == At(w, at).(row := Some(At(w, at).row.value.(status := RowTimedOut)))
            && (forall id :: id != at ==>
                  At(s.w, id) == if id in order[..n] && Overdue(At(w, id), now) then TimedOut(At(w, id), wall)
                                 else At(w, id))
    decreases n
  {
    hide TransitionTask, TimedOut;
    var first, rest := order[0], order[1..];
    if n == 0 {
      StrandedStays(w, first, now, wall);
    } else {
      assert forall id :: id in order[..n] <==> id == first || id in rest[..n - 1];
      assert forall i :: 0 <= i < n - 1 ==> rest[i] == order[i + 1];
      if Overdue(At(w, first), now) {
        SweepOne(w, first, now, wall);
        TimedOutIsNotOverdue(At(w, first), wall, now);
        SweepStopsAt(Put(TransitionTask(Put(w, first, Expire), first, Failed, wall).w, first, Note(TaskTimedOut)), now,
            wall, rest, n - 1);
      } else {
        SweepStopsAt(w, now, wall, rest, n - 1);
      }
    }
  }

  lemma StrandedStays(w: World, id: Id, now: Micros, wall: Seconds)
    requires Stranded(At(w, id), now)
    ensures var w1 := Put(w, id, Expire);
            && TransitionTask(w1, id, Failed, wall) ==
                Reply(w1, Raised(if At(w, id).task.None? then KeyError else ValueError))
            && At(w1, id) == At(w, id).(row := Some(At(w, id).row.value.(status := RowTimedOut)))
            && (forall i :: i != id ==> At(w1, i) == At(w, i))
  {
  }

  // Sweeping again at the same moment does nothing.
  lemma {:induction false} NothingOverdue(w: World, now: Micros, wall: Seconds, order: seq<Id>)
    requires forall id :: id in order ==> !Overdue(At(w, id), now)
    ensures Sweep(w, now, wall, order) == SweepReply(w, None, [])
    decreases |order|
  {
    if order != [] {
      assert forall id :: id in order[1..] ==> id in order;
      NothingOverdue(w, now, wall, order[1..]);
    }
  }

  lemma SecondSweepIsIdle(w: World, now: Micros, wall: Seconds, order: seq<Id>, wall': Seconds, order': seq<Id>)
    requires forall id :: RowIs(At(w, id), RowRunning) ==> InState(At(w, id), Running) && id in order
    ensures var w' := Sweep(w, now, wall, order).w;
            Sweep(w', now, wall', order') == SweepReply(w', None, [])
  {
    SweepIsExact(w, now, wall, order);
    var w' := Sweep(w, now, wall, order).w;
    forall id ensures !Overdue(At(w', id), now) {
      if Overdue(At(w, id), now) {
        TimedOutIsNotOverdue(At(w, id), wall, now);
      }
    }
    NothingOverdue(w', now, wall', order');
  }

  // ----- stuck jobs

  // The recoverable jobs are, in the listed order, the running rows that name a worker whose lease has
  // run out.
  lemma {:induction false} RecoverableIsExact(s: Store, now: Micros, order: seq<Id>)
    ensures RecoverableJobs(s, now, order) == Select(order, id =>
              var row := Rec(s, id).row;
              && row.Some? && row.value.status == RowRunning && row.value.worker.Some? && row.value.worker.value != ""
              && row.value.leaseExpiresAt.Some? && row.value.leaseExpiresAt.value * SECOND <= now)
  {
    if order != [] {
      RecoverableIsExact(s, now, order[1..]);
    }
  }

  lemma {:induction false} RecoverableIff(s: Store, now: Micros, order: seq<Id>, id: Id)
    ensures id in RecoverableJobs(s, now, order) <==> id in order && StuckJob(Rec(s, id), now)
  {
    if order != [] {
      RecoverableIff(s, now, order[1..], id);
    }
  }

  function RecoverAll(w: World, ids: seq<Id>, now: Micros): World
    decreases |ids|
  {
    if ids == [] then w else RecoverAll(RecoverStuckJob(w, ids[0], now).w, ids[1..], now)
  }

  lemma {:induction false} RecoverAllIsExact(w: World, ids: seq<Id>, now: Micros, id: Id)
    ensures StuckJob(At(RecoverAll(w, ids, now), id), now) <==>
            StuckJob(At(w, id), now) && (id !in ids || At(w, id).task.None?)
    decreases |ids|
  {
    if ids != [] {
      var w1 := RecoverStuckJob(w, ids[0], now).w;
      assert id != ids[0] ==> At(w1, id) == At(w, id);
      assert id == ids[0] && StuckJob(At(w, id), now) ==>
          (if At(w, id).task.Some? then !StuckJob(At(w1, id), now) else w1 == w);
      assert StuckJob(At(w1, id), now) ==> At(w1, id) == At(w, id);
      RecoverAllIsExact(w1, ids[1..], now, id);
    }
  }

  // Recovering every listed job empties the list exactly when the task of every listed job exists.
  lemma RecoveringEmptiesTheList(w: World, now: Micros, order: seq<Id>)
    ensures var listed := RecoverableJobs(w.db.work, now, order);
            RecoverableJobs(RecoverAll(w, listed, now).db.work, now, order) == [] <==>
            forall id :: id in listed ==> At(w, id).task.Some?
  {
    var listed := RecoverableJobs(w.db.work, now, order);
    var w' := RecoverAll(w, listed, now);
    forall id ensures id in RecoverableJobs(w'.db.work, now, order) <==> id in listed && At(w, id).task.None? {
      RecoverableIff(w.db.work, now, order, id);
      RecoverableIff(w'.db.work, now, order, id);
      RecoverAllIsExact(w, listed, now, id);
    }
    var left := RecoverableJobs(w'.db.work, now, order);
    if left != [] {
      assert left[0] in left;
    }
  }

  // ----- reachable stores

  // dispatch_task marks a row running and dispatched in one go, so in every reachable store, even
  // after crashes, no row is running: the sweep never fails a task and no job is ever recoverable
  // from the list, however long ago a task was dispatched.
  lemma TimeoutsNeverFire(cfg: Config, lives: seq<Life>, ops: seq<Op>, now: Micros, wall: Seconds, order: seq<Id>)
    ensures Sweep(History(cfg, lives, ops), now, wall, order) == SweepReply(History(cfg, lives, ops), None, [])
    ensures RecoverableJobs(History(cfg, lives, ops).db.work, now, order) == []
    decreases |order|
  {
    var w := History(cfg, lives, ops);
    AnyHistory(cfg, lives, ops);
    SweepRun(AnyClient, w, now, wall, order);
    if order != [] {
      Begin(AnyClient, w, order[0]);
      TimeoutsNeverFire(cfg, lives, ops, now, wall, order[1..]);
    }
  }
}
