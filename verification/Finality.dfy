// When a finished task is finished for good, with a client that is clean and a process that may die
// at any moment.

module Finality {
  import opened Basics
  import opened StateMachine
  import opened Records
  import opened Worlds
  import opened Engine
  import opened Coupling
  import opened Gates
  import opened Runs
  import opened Histories
  import opened AuditTrail
  import opened Dispatching
  import opened Limits
  import opened Outcomes
  import opened Crashes

  predicate Finished(r: Record) {
    r.task.Some? && Terminal(r.task.value.state)
  }

  // The row is queued and has attempts left.
  predicate Open(r: Record) {
    RowIs(r, RowQueued) && r.row.value.attempts + 1 < r.row.value.maxAttempts
  }

  // The task has finished in memory and on disk.
  predicate Ended(db: Db, id: Id) {
    Finished(Rec(db.work, id)) && StateOf(Rec(db.disk, id)) == StateOf(Rec(db.work, id))
  }

  // ----- a task that has finished

  // Finished in the given state, with no queued row that could take it back.
  predicate Shut(r: Record, s: State) {
    InState(r, s) && Terminal(s) && !Open(r)
  }

  lemma MoveKeepsShut(cfg: Config, tr: seq<Action>, store: Store, id: Id, m: Move, s: State)
    requires Enabled(cfg, Rec(store, id), m) && Expected(CleanDeaths, cfg, tr, store, Touch(id, m))
    requires Shut(Rec(store, id), s) && !m.Erase? && !m.Requeue?
    ensures Shut(Apply(Rec(store, id), m), s)
  {
  }

  predicate ShutBoth(db: Db, id: Id, s: State) {
    Shut(Rec(db.work, id), s) && Shut(Rec(db.disk, id), s)
  }

  lemma ShutStep(cfg: Config, tr: seq<Action>, id: Id, s: State)
    requires tr != [] && Lawful(CleanDeaths, cfg, tr) && LeftAlone([tr[|tr| - 1]], id)
    requires ShutBoth(After(tr[..|tr| - 1]), id, s)
    ensures ShutBoth(After(tr), id, s)
  {
    hide Shut, Enabled, Apply, Expected, Lawful;
    var init, a := tr[..|tr| - 1], tr[|tr| - 1];
    LawfulInit(CleanDeaths, cfg, tr);
    assert a in [a];
    if Touches(a, id) {
      MoveKeepsShut(cfg, init, After(init).work, id, a.move, s);
    }
  }

  lemma {:induction false} ShutAlongTrace(cfg: Config, tr: seq<Action>, id: Id, k: nat, s: State)
    requires Lawful(CleanDeaths, cfg, tr) && k <= |tr| && LeftAlone(tr[k..], id) && ShutBoth(After(tr[..k]), id, s)
    ensures ShutBoth(After(tr), id, s)
    decreases |tr|
  {
    hide ShutBoth, After, Expected;
    if k == |tr| {
      assert tr[..k] == tr;
    } else {
      Stretch(tr, k);
      ShutAlongTrace(cfg, tr[..|tr| - 1], id, k, s);
      ShutStep(cfg, tr, id, s);
    }
  }

  // Through the continuation the task keeps its state unless it is deleted or recovered.
  ghost predicate KeepsState(w: World, lives: seq<Life>, ops: seq<Op>, id: Id) {
    var w' := RunAll(Survive(w, lives), ops);
    FitsLives(CleanDeaths, lives) && FitsAll(CleanDeaths, ops) && LeftAlone(Since(w'.trace, |w.trace|), id) ==>
      StateOf(At(w', id)) == StateOf(At(w, id))
  }

  // A task that has finished keeps its state, through any calls of a clean client and any deaths, until
  // it is deleted or recovered from a stuck job, exactly when neither its row nor the one on disk is
  // queued with attempts left.
  lemma FinishedTasksStayIff(w: World, id: Id)
    requires AtRest(CleanDeaths, w) && Ended(w.db, id)
    ensures (forall lives, ops :: KeepsState(w, lives, ops, id)) <==> !Open(At(w, id)) && !Open(Rec(w.db.disk, id))
  {
    hide KeepsState, AtRest, Open, Ended;
    if !Open(At(w, id)) && !Open(Rec(w.db.disk, id)) {
      forall lives, ops ensures KeepsState(w, lives, ops, id) {
        ShutTasksStay(w, id, lives, ops);
      }
    } else if Open(At(w, id)) {
      OpenTaskReturns(w, id);
    } else {
      DeathOpensTask(w, id);
    }
  }

  lemma ShutTasksStay(w: World, id: Id, lives: seq<Life>, ops: seq<Op>)
    requires AtRest(CleanDeaths, w) && Ended(w.db, id) && !Open(At(w, id)) && !Open(Rec(w.db.disk, id))
    ensures KeepsState(w, lives, ops, id)
  {
    hide Lawful, RunAll, Survive, Open;
    var w' := RunAll(Survive(w, lives), ops);
    if FitsLives(CleanDeaths, lives) && FitsAll(CleanDeaths, ops) && LeftAlone(Since(w'.trace, |w.trace|), id) {
      Continued(w, lives, ops);
      assert w'.trace[..|w.trace|] == w.trace;
      ShutAlongTrace(w.cfg, w'.trace, id, |w.trace|, At(w, id).task.value.state);
    }
  }

  // A continuation is a lawful trace that starts with the one so far.
  lemma Continued(w: World, lives: seq<Life>, ops: seq<Op>)
    requires AtRest(CleanDeaths, w) && FitsLives(CleanDeaths, lives) && FitsAll(CleanDeaths, ops)
    ensures var w' := RunAll(Survive(w, lives), ops); AtRest(CleanDeaths, w') && w'.cfg == w.cfg && w.trace <= w'.trace
  {
    hide Lawful, RunAll, Free;
    SurviveAtRest(CleanDeaths, w, lives);
    SurviveExtends(w, lives);
    AllRun(CleanDeaths, Survive(w, lives), ops);
  }

  lemma {:induction false} SurviveExtends(w: World, lives: seq<Life>)
    requires AtRest(CleanDeaths, w) && FitsLives(CleanDeaths, lives)
    ensures w.trace <= Survive(w, lives).trace
    decreases |lives|
  {
    hide AtRest, RunAll;
    if lives != [] {
      var w' := RunAll(w, lives[0].ops);
      AllRun(CleanDeaths, w, lives[0].ops);
      InterruptedAtRest(CleanDeaths, w, w', lives[0].cut);
      SurviveExtends(Interrupted(w, w', lives[0].cut), lives[1..]);
    }
  }

  // The call of process_queue that finds the row queued and the task not.
  function Reprocess(r: Record, id: Id): Op {
    ProcessQueue(id, None, RowOf(r).nextAttemptAt * SECOND, 0, ACCEPTANCE)
  }

  lemma Reprocessed(w: World, id: Id)
    requires Finished(At(w, id)) && Open(At(w, id))
    ensures var w' := RunAll(w, [Reprocess(At(w, id), id)]);
            && InState(At(w', id), Queued) && w.trace <= w'.trace && LeftAlone(Since(w'.trace, |w.trace|), id)
            && Crash !in Since(w'.trace, |w.trace|) && At(w', id).result == At(w, id).result
    ensures FitsAll(CleanDeaths, [Reprocess(At(w, id), id)])
  {
    hide Process, Submit, ApproveTask, FailAttempt, RunAll;
    var op, q := Reprocess(At(w, id), id), At(w, id).row.value;
    var w' := Process(w, id, None, op.now, 0, ACCEPTANCE).w;
    QuietTurnFits(CleanDeaths, ACCEPTANCE);
    FitsOne(CleanDeaths, op);
    RunOne(w, op);
    FinishedAttemptFails(w, id, op.now);
    RetriedWorld(w, id, q, op.now, 0);
    var m := Retry(q.attempts + 1, Floor(op.now) + BackoffSeconds(w.cfg, q.attempts + 1), Floor(op.now), 0);
    assert w'.trace[|w.trace|..] == [Touch(id, m)];
    assert At(w', id) == Apply(At(w, id), m);
  }

  lemma FitsOne(p: Profile, op: Op)
    requires Fits(p, op)
    ensures FitsAll(p, [op])
  {
    hide Fits;
    assert [op][1..] == [];
  }

  lemma FinishedAttemptFails(w: World, id: Id, now: Micros)
    requires Finished(At(w, id)) && RowIs(At(w, id), RowQueued) && At(w, id).row.value.nextAttemptAt * SECOND <= now
    ensures Process(w, id, None, now, 0, ACCEPTANCE) == FailAttempt(w, id, At(w, id).row.value, now, 0)
  {
    hide TransitionTask, Perform, RunAll, FailAttempt;
    assert DispatchQueued(w, id, None, now, 0, ACCEPTANCE) == Reply(w, Raised(ValueError));
    assert Dispatch(w, id, None, now, 0, ACCEPTANCE) == Reply(w, Raised(ValueError));
  }

  lemma OpenTaskReturns(w: World, id: Id)
    requires Ended(w.db, id) && Open(At(w, id))
    ensures !KeepsState(w, [], [Reprocess(At(w, id), id)], id)
  {
    hide RunAll, Open;
    Reprocessed(w, id);
    assert Survive(w, []) == w;
  }

  lemma DeathOpensTask(w: World, id: Id)
    requires AtRest(CleanDeaths, w) && Ended(w.db, id) && Open(Rec(w.db.disk, id))
    ensures !KeepsState(w, [Life([], 0)], [Reprocess(Rec(w.db.disk, id), id)], id)
  {
    hide RunAll, Open, Lawful, Free;
    var x := Do(w, Crash);
    DiesAtOnce(w);
    Reprocessed(x, id);
    var w' := RunAll(x, [Reprocess(At(x, id), id)]);
    assert Since(w'.trace, |w.trace|) == [Crash] + Since(w'.trace, |x.trace|);
    FitsNoCalls();
  }

  lemma DiesAtOnce(w: World)
    requires Replays(w)
    ensures Survive(w, [Life([], 0)]) == Do(w, Crash)
  {
    var life := Life([], 0);
    assert RunAll(w, life.ops) == w;
    InterruptedAfter(w, w, 0);
    assert [life][1..] == [];
    assert Survive(w, [life]) == Survive(Interrupted(w, w, 0), []);
  }

  lemma FitsNoCalls()
    ensures FitsLives(CleanDeaths, [Life([], 0)])
  {
    var life := Life([], 0);
    assert FitsAll(CleanDeaths, life.ops);
    assert [life][1..] == [];
    assert FitsLives(CleanDeaths, []);
  }

  // ----- a task whose hand-over a death has cut short

  // The row could take the task back once it has finished.
  predicate Exposed(r: Record) {
    Open(r) && (Finished(r) || (InState(r, Running) && r.result.None?))
  }

  // The task is on its way to running.
  predicate InFlight(tr: seq<Action>, id: Id) {
    (Starting(tr) && tr[|tr| - 1].id == id) || Started(tr, id)
  }

  lemma MoveKeepsHidden(cfg: Config, tr: seq<Action>, store: Store, id: Id, m: Move)
    requires Enabled(cfg, Rec(store, id), m) && Expected(CleanDeaths, cfg, tr, store, Touch(id, m))
    requires Gated(Rec(store, id)) && !Exposed(Rec(store, id)) && !(m.Shift? && m.to == Running)
    ensures !Exposed(Apply(Rec(store, id), m))
  {
  }

  // The task is not exposed, except while a call is handing it over.
  predicate HiddenAfter(tr: seq<Action>, id: Id) {
    && (InFlight(tr, id) || !Exposed(Rec(After(tr).work, id)))
    && (Passing(tr, id) || !Exposed(Rec(After(tr).disk, id)))
  }

  // No death from the n-th action on cuts the task's own enqueue or hand-over short.
  predicate Spared(tr: seq<Action>, id: Id, n: nat) {
    forall i :: n <= i < |tr| && tr[i] == Crash ==> !Passing(tr[..i], id)
  }

  lemma SparedInit(tr: seq<Action>, id: Id, n: nat)
    requires n < |tr| && Spared(tr, id, n)
    ensures Spared(tr[..|tr| - 1], id, n) && (tr[|tr| - 1] == Crash ==> !Passing(tr[..|tr| - 1], id))
  {
    hide Passing;
    var init := tr[..|tr| - 1];
    forall i | n <= i < |init| && init[i] == Crash ensures !Passing(init[..i], id) {
      assert init[..i] == tr[..i];
    }
  }

  lemma {:induction false} HiddenAlongTrace(cfg: Config, tr: seq<Action>, id: Id, n: nat)
    requires Lawful(CleanDeaths, cfg, tr) && n <= |tr| && Spared(tr, id, n) && HiddenAfter(tr[..n], id)
    ensures HiddenAfter(tr, id)
    decreases |tr|
  {
    hide HiddenAfter, Lawful, Spared, Enabled, Expected;
    if n == |tr| {
      assert tr[..n] == tr;
    } else {
      LawfulInit(CleanDeaths, cfg, tr);
      SparedInit(tr, id, n);
      assert tr[..|tr| - 1][..n] == tr[..n];
      HiddenAlongTrace(cfg, tr[..|tr| - 1], id, n);
      LawfulResetsSpareRows(CleanDeaths, cfg, tr[..|tr| - 1], id);
      ActionKeepsHidden(cfg, tr, id);
    }
  }

  lemma ActionKeepsHidden(cfg: Config, tr: seq<Action>, id: Id)
    requires tr != [] && HiddenAfter(tr[..|tr| - 1], id) && (tr[|tr| - 1] == Crash ==> !Passing(tr[..|tr| - 1], id))
    requires var init, a := tr[..|tr| - 1], tr[|tr| - 1];
             && Permitted(cfg, After(init).work, a) && Expected(CleanDeaths, cfg, init, After(init).work, a) &&
                 Follows(init, a)
             && Gated(Rec(After(init).work, id))
    ensures HiddenAfter(tr, id)
  {
    hide HiddenAfter, Permitted, Expected, Gated;
    match tr[|tr| - 1]
    case Touch(i, m) => TouchKeepsHidden(cfg, tr, id);
    case Commit => CommitKeepsHidden(cfg, tr, id);
    case Crash => CrashKeepsHidden(tr, id);
  }

  lemma TouchKeepsHidden(cfg: Config, tr: seq<Action>, id: Id)
    requires tr != [] && HiddenAfter(tr[..|tr| - 1], id) && tr[|tr| - 1].Touch?
    requires var init, a := tr[..|tr| - 1], tr[|tr| - 1];
             && Permitted(cfg, After(init).work, a) && Expected(CleanDeaths, cfg, init, After(init).work, a) &&
                 Follows(init, a)
             && Gated(Rec(After(init).work, id))
    ensures HiddenAfter(tr, id)
  {
    hide Enabled, Apply, Exposed, Gated, LastSaved;
    var init, a := tr[..|tr| - 1], tr[|tr| - 1];
    assert LastSaved(tr) == LastSaved(init) && After(tr).disk == After(init).disk by {
      TouchSavesNothing(tr);
    }
    if Touches(a, id) {
      if a.move.Hand? {
        HandHides(cfg, Rec(After(init).work, id), a.move);
      } else if !(a.move.Shift? && a.move.to == Running) {
        MoveKeepsHidden(cfg, init, After(init).work, id, a.move);
      }
    }
  }

  lemma TouchSavesNothing(tr: seq<Action>)
    requires tr != [] && tr[|tr| - 1].Touch?
    ensures LastSaved(tr) == LastSaved(tr[..|tr| - 1]) && After(tr).disk == After(tr[..|tr| - 1]).disk
  {
  }

  lemma CommitKeepsHidden(cfg: Config, tr: seq<Action>, id: Id)
    requires tr != [] && HiddenAfter(tr[..|tr| - 1], id) && tr[|tr| - 1] == Commit
    requires var init := tr[..|tr| - 1]; Expected(CleanDeaths, cfg, init, After(init).work, Commit)
    ensures HiddenAfter(tr, id)
  {
    hide Exposed;
    var init := tr[..|tr| - 1];
    assert init[|init| - 1].Touch? && tr[|tr| - 2] == init[|init| - 1];
  }

  lemma CrashKeepsHidden(tr: seq<Action>, id: Id)
    requires tr != [] && HiddenAfter(tr[..|tr| - 1], id) && tr[|tr| - 1] == Crash && !Passing(tr[..|tr| - 1], id)
    ensures HiddenAfter(tr, id)
  {
    hide Exposed;
  }

  lemma HandHides(cfg: Config, r: Record, m: Move)
    requires Enabled(cfg, r, m) && m.Hand?
    ensures !Exposed(Apply(r, m))
  {
  }

  // A task in passing is on disk in the state that it is passing to.
  lemma {:induction false} PassingState(p: Profile, cfg: Config, tr: seq<Action>, id: Id)
    requires Lawful(p, cfg, tr) && Passing(tr, id)
    ensures StateOf(Rec(After(tr).disk, id)) == Some(LastSaved(tr).value.move.to)
  {
    hide Enabled, Expected, Lawful;
    var init, a := tr[..|tr| - 1], tr[|tr| - 1];
    LawfulInit(p, cfg, tr);
    if a == Commit {
      LawfulInit(p, cfg, init);
      ShiftedState(cfg, Rec(After(init[..|init| - 1]).work, id), init[|init| - 1].move);
    } else {
      PassingState(p, cfg, init, id);
    }
  }

  lemma ShiftedState(cfg: Config, r: Record, m: Move)
    requires m.Shift? && Enabled(cfg, r, m)
    ensures StateOf(Apply(r, m)) == Some(m.to)
  {
  }

  lemma FlyingState(p: Profile, cfg: Config, tr: seq<Action>, id: Id)
    requires Lawful(p, cfg, tr) && InFlight(tr, id)
    ensures StateOf(Rec(After(tr).work, id)) == Some(Running)
  {
    hide Enabled, Expected, Lawful;
    LawfulInit(p, cfg, tr);
    var shifted := if Starting(tr) then tr else tr[..|tr| - 1];
    LawfulInit(p, cfg, shifted);
    ShiftedState(cfg, Rec(After(shifted[..|shifted| - 1]).work, id), shifted[|shifted| - 1].move);
  }

  lemma HiddenEndsAreShut(cfg: Config, tr: seq<Action>, id: Id)
    requires Lawful(CleanDeaths, cfg, tr) && HiddenAfter(tr, id) && Ended(After(tr), id)
    ensures !Open(Rec(After(tr).work, id)) && !Open(Rec(After(tr).disk, id))
  {
    hide Lawful, After, InFlight, Passing, Open;
    if InFlight(tr, id) {
      FlyingState(CleanDeaths, cfg, tr, id);
    }
    if Passing(tr, id) {
      PassingEnds(cfg, tr, id);
    }
  }

  lemma PassingEnds(cfg: Config, tr: seq<Action>, id: Id)
    requires Lawful(CleanDeaths, cfg, tr) && Passing(tr, id)
    ensures !Ended(After(tr), id)
  {
    hide Lawful, After, LastSaved;
    PassingState(CleanDeaths, cfg, tr, id);
  }

  // Through the continuation, whenever the task is finished in memory and on disk it stays so, unless
  // it is deleted or recovered, and as long as no further death cuts its own hand-over short.
  ghost predicate KeepsEnds(w: World, lives: seq<Life>, ops: seq<Op>, id: Id) {
    var tr := RunAll(Survive(w, lives), ops).trace;
    FitsLives(CleanDeaths, lives) && FitsAll(CleanDeaths, ops) && Spared(tr, id, |w.trace|) ==>
      forall k :: |w.trace| <= k <= |tr| && Ended(After(tr[..k]), id) && LeftAlone(tr[k..], id) ==>
                    StateAfter(tr, id) == StateAfter(tr[..k], id)
  }

  // Right after a death, all later ends of the task are final exactly when the task is not exposed.
  lemma EndsAreFinalIff(w: World, id: Id)
    requires AtRest(CleanDeaths, w) && w.db.work == w.db.disk
    ensures (forall lives, ops :: KeepsEnds(w, lives, ops, id)) <==> !Exposed(At(w, id))
  {
    hide KeepsEnds, AtRest, Exposed;
    if !Exposed(At(w, id)) {
      forall lives, ops ensures KeepsEnds(w, lives, ops, id) {
        HiddenEndsStay(w, id, lives, ops);
      }
    } else {
      ExposedEndReturns(w, id);
    }
  }

  lemma HiddenEndsStay(w: World, id: Id, lives: seq<Life>, ops: seq<Op>)
    requires AtRest(CleanDeaths, w) && w.db.work == w.db.disk && !Exposed(At(w, id))
    ensures KeepsEnds(w, lives, ops, id)
  {
    hide Lawful, RunAll, Survive, Exposed, Open, Spared, InFlight, Passing, Ended;
    var w' := RunAll(Survive(w, lives), ops);
    var tr := w'.trace;
    if FitsLives(CleanDeaths, lives) && FitsAll(CleanDeaths, ops) && Spared(tr, id, |w.trace|) {
      Continued(w, lives, ops);
      assert tr[..|w.trace|] == w.trace;
      forall k | |w.trace| <= k <= |tr| && Ended(After(tr[..k]), id) && LeftAlone(tr[k..], id)
        ensures StateAfter(tr, id) == StateAfter(tr[..k], id)
      {
        EndStays(w, tr, id, k);
      }
    }
  }

  lemma EndStays(w: World, tr: seq<Action>, id: Id, k: nat)
    requires |w.trace| <= k <= |tr| && Lawful(CleanDeaths, w.cfg, tr) && HiddenAfter(tr[..|w.trace|], id)
    requires Spared(tr, id, |w.trace|) && Ended(After(tr[..k]), id) && LeftAlone(tr[k..], id)
    ensures StateAfter(tr, id) == StateAfter(tr[..k], id)
  {
    hide Lawful, HiddenAfter, Open, Spared;
    LawfulPrefix(CleanDeaths, w.cfg, tr, k);
    SparedBefore(tr, id, |w.trace|, k);
    assert tr[..k][..|w.trace|] == tr[..|w.trace|];
    HiddenAlongTrace(w.cfg, tr[..k], id, |w.trace|);
    HiddenEndsAreShut(w.cfg, tr[..k], id);
    ShutAlongTrace(w.cfg, tr, id, k, StateAfter(tr[..k], id).value);
  }

  lemma SparedBefore(tr: seq<Action>, id: Id, n: nat, k: nat)
    requires Spared(tr, id, n) && n <= k <= |tr|
    ensures Spared(tr[..k], id, n)
  {
    hide Passing;
    forall i | n <= i < k && tr[..k][i] == Crash ensures !Passing(tr[..k][..i], id) {
      assert tr[..k][..i] == tr[..i];
    }
  }

  const SUCCESS := RunResult(Some("succeeded"), "", false)

  // The late report of a success, and the next processing.
  function Reopening(r: Record, id: Id): seq<Op> {
    if Finished(r) then [Reprocess(r, id)] else [RecordResult(id, SUCCESS, 0), Reprocess(r, id)]
  }

  lemma ExposedEndReturns(w: World, id: Id)
    requires AtRest(CleanDeaths, w) && w.db.work == w.db.disk && Exposed(At(w, id))
    ensures !KeepsEnds(w, [], Reopening(At(w, id), id), id)
  {
    hide RunAll, Open, AtRest, AcceptResult, KeepsEnds;
    var r := At(w, id);
    if Finished(r) {
      Reprocessed(w, id);
      assert w.trace[|w.trace|..] == [];
      OpenEndReturns(w, w, id, [Reprocess(r, id)]);
    } else {
      var w1 := AcceptResult(w, id, SUCCESS, 0).w;
      SuccessRecorded(w, id);
      RunTwo(w, RecordResult(id, SUCCESS, 0), Reprocess(r, id));
      RunOne(w1, Reprocess(r, id));
      assert At(w1, id).row == r.row;
      RowDecidesOpen(At(w1, id), r);
      Reprocessed(w1, id);
      FitsTwo(CleanDeaths, RecordResult(id, SUCCESS, 0), Reprocess(r, id));
      OpenEndReturns(w, w1, id, Reopening(r, id));
    }
  }

  lemma RowDecidesOpen(r: Record, r': Record)
    requires r.row == r'.row
    ensures Open(r) == Open(r')
  {
  }

  // From `w` the calls lead through `w1`, where the task has ended with an open row, to its processing.
  lemma OpenEndReturns(w: World, w1: World, id: Id, ops: seq<Op>)
    requires AtRest(CleanDeaths, w) && AtRest(CleanDeaths, w1) && Ended(w1.db, id) && Open(At(w1, id))
    requires w.trace <= w1.trace && Crash !in w1.trace[|w.trace|..] && FitsAll(CleanDeaths, ops)
    requires RunAll(w, ops) == RunAll(w1, [Reprocess(At(w1, id), id)])
    ensures !KeepsEnds(w, [], ops, id)
  {
    hide RunAll, Open, AtRest;
    var w2 := RunAll(w, ops);
    Reprocessed(w1, id);
    RunAtRest(w, ops);
    assert Survive(w, []) == w;
    assert w2.trace[|w.trace|..] == w1.trace[|w.trace|..] + Since(w2.trace, |w1.trace|);
    EndLost(w, w1, w2, id);
  }

  lemma RunAtRest(w: World, ops: seq<Op>)
    requires AtRest(CleanDeaths, w) && FitsAll(CleanDeaths, ops)
    ensures Replays(RunAll(w, ops))
  {
    hide Lawful, RunAll;
    AllRun(CleanDeaths, w, ops);
  }

  lemma FitsTwo(p: Profile, a: Op, b: Op)
    requires Fits(p, a) && FitsAll(p, [b])
    ensures FitsAll(p, [a, b])
  {
    hide Fits;
    assert [a, b][1..] == [b];
  }

  // The late result is stored and committed, and the row is still what it was.
  lemma SuccessRecorded(w: World, id: Id)
    requires AtRest(CleanDeaths, w) && InState(At(w, id), Running) && At(w, id).result.None?
    ensures var w' := AcceptResult(w, id, SUCCESS, 0).w;
            && InState(At(w', id), Succeeded) && At(w', id).row == At(w, id).row && Ended(w'.db, id)
            && w.trace <= w'.trace && Crash !in w'.trace[|w.trace|..] && AtRest(CleanDeaths, w') && w'.cfg == w.cfg
  {
    hide Lawful, Free;
    RunningTaskTakesResult(w, id, SUCCESS, 0);
    AcceptRun(CleanDeaths, w, id, SUCCESS, 0);
    TransitionRecord(w, id, Succeeded, 0);
    assert AcceptResult(w, id, SUCCESS, 0).w.trace
           == w.trace + [Touch(id, Shift(Succeeded, 0))] + [Commit] + [Touch(id, Keep(SUCCESS))] + [Commit];
  }

  lemma EndLost(w: World, w1: World, w2: World, id: Id)
    requires AtRest(CleanDeaths, w1) && Ended(w1.db, id) && w.trace <= w1.trace <= w2.trace && Replays(w2)
    requires InState(At(w2, id), Queued) && LeftAlone(Since(w2.trace, |w1.trace|), id) &&
        Crash !in w2.trace[|w.trace|..]
    ensures Spared(w2.trace, id, |w.trace|)
    ensures var tr, k := w2.trace, |w1.trace|;
            |w.trace| <= k <= |tr| && Ended(After(tr[..k]), id) && LeftAlone(tr[k..], id) &&
                StateAfter(tr, id) != StateAfter(tr[..k], id)
  {
    hide Lawful, Passing;
    assert w2.trace[..|w1.trace|] == w1.trace;
    forall i | |w.trace| <= i < |w2.trace| ensures w2.trace[i] != Crash {
      assert w2.trace[|w.trace|..][i - |w.trace|] == w2.trace[i];
    }
  }

  // ----- the next death

  lemma {:induction false} FitsAsWell(ops: seq<Op>)
    ensures FitsAll(CleanDeaths, ops) == FitsAll(CleanRestarts, ops)
    decreases ops, 0
  {
    if ops != [] {
      FitsAsWellOp(ops[0]);
      FitsAsWell(ops[1..]);
    }
  }

  lemma {:induction false} FitsAsWellOp(op: Op)
    ensures Fits(CleanDeaths, op) == Fits(CleanRestarts, op)
    decreases op, 0
  {
    match op
    case SubmitTask(_, _, _, _, _, turn) => FitsAsWell(turn.calls);
    case Approve(_, _, turn) => FitsAsWell(turn.calls);
    case ProcessQueue(_, _, _, _, turn) => FitsAsWell(turn.calls);
    case _ =>
  }

  lemma {:induction false} FitsLivesAsWell(lives: seq<Life>)
    ensures FitsLives(CleanDeaths, lives) == FitsLives(CleanRestarts, lives)
  {
    if lives != [] {
      FitsAsWell(lives[0].ops);
      FitsLivesAsWell(lives[1..]);
    }
  }

  // The death has cut the task's own hand-over short: the task is running, its row is still queued with
  // attempts left, and it has no result.
  predicate HandOverCut(w: World, id: Id) {
    && Passing(w.trace, id) && LastSaved(w.trace).value.move.to == Running
    && At(w, id).row.Some? && At(w, id).row.value.attempts + 1 < At(w, id).row.value.maxAttempts &&
        At(w, id).result.None?
  }

  lemma CoupledIsHidden(r: Record)
    requires CoupledRecord(r)
    ensures !Exposed(r)
  {
  }

  lemma HalfwayIsExposedIff(r: Record, to: State)
    requires Halfway(r, to) && (to == Queued || to == Running)
    ensures Exposed(r) <==> to == Running && r.row.value.attempts + 1 < r.row.value.maxAttempts && r.result.None?
  {
  }

  // With a clean client, after any deaths that cut nothing short: the next death leaves every later end
  // of a task final, in memory and on disk, until deletion or recovery and however the process dies
  // after that short of cutting the task's hand-over once more, exactly when it has not cut short the
  // hand-over of that task with attempts left.
  lemma DeathKeepsEndsFinalIff(cfg: Config, lives: seq<Life>, ops: seq<Op>, cut: nat, id: Id)
    requires FitsLives(CleanRestarts, lives) && FitsAll(CleanRestarts, ops) && SafeDeaths(Boot(cfg), lives)
    ensures var w := Survive(Boot(cfg), lives);
            var x := Interrupted(w, RunAll(w, ops), cut);
            (forall lives', ops' :: KeepsEnds(x, lives', ops', id)) <==> !HandOverCut(x, id)
  {
    hide KeepsEnds, RunAll, Survive, AtRest, Lawful, Exposed, CoupledRecord, Halfway, Interrupted;
    var w := Survive(Boot(cfg), lives);
    var x := Interrupted(w, RunAll(w, ops), cut);
    NextDeath(cfg, lives, ops, cut);
    CrashUncouplesIff(cfg, lives, ops, cut, id);
    if CoupledRecord(At(x, id)) {
      CoupledIsHidden(At(x, id));
    } else {
      HalfwayIsExposedIff(At(x, id), LastSaved(x.trace).value.move.to);
      HalfwayHasRow(At(x, id), LastSaved(x.trace).value.move.to);
    }
    EndsAreFinalIff(x, id);
  }

  lemma HalfwayHasRow(r: Record, to: State)
    requires Halfway(r, to)
    ensures to == Running ==> r.row.Some?
  {
  }

  lemma NextDeath(cfg: Config, lives: seq<Life>, ops: seq<Op>, cut: nat)
    requires FitsLives(CleanRestarts, lives) && FitsAll(CleanRestarts, ops)
    ensures var w := Survive(Boot(cfg), lives);
            var x := Interrupted(w, RunAll(w, ops), cut);
            AtRest(CleanDeaths, x) && x.db.work == x.db.disk
  {
    hide RunAll, Survive, Lawful, Free;
    var w := Survive(Boot(cfg), lives);
    FitsLivesAsWell(lives);
    FitsAsWell(ops);
    RunsAreLawful(CleanDeaths, cfg, []);
    assert Run(cfg, []) == Boot(cfg) by {
      RunNothing(Boot(cfg));
    }
    SurviveAtRest(CleanDeaths, Boot(cfg), lives);
    AllRun(CleanDeaths, w, ops);
    InterruptedAtRest(CleanDeaths, w, RunAll(w, ops), cut);
    DiskIsSeen(w, RunAll(w, ops), cut);
  }

  lemma DiskIsSeen(w: World, w': World, cut: nat)
    ensures Interrupted(w, w', cut).db.work == Interrupted(w, w', cut).db.disk
  {
  }

  // A client accepts the task and the process dies; the result comes in late and is committed; and the
  // next processing takes the finished task back to the queue, its result kept.
  lemma LateResultIsReopened(w: World, id: Id, holder: Option<Worker>, now: Micros, wall: Seconds, attempts: int,
          maxAttempts: int)
    requires Replays(w) && Waiting(w, id, attempts, maxAttempts) && attempts + 1 < maxAttempts && At(w, id).result.None?
    ensures var x := Interrupted(w, Handed(w, id, holder, now, wall, true), 3);
            var w1 := AcceptResult(x, id, SUCCESS, wall).w;
            var w2 := RunAll(w1, [Reprocess(At(w1, id), id)]);
            && InState(At(w1, id), Succeeded) && Settled(w1.db, id, SUCCESS) && Ended(w1.db, id)
            && InState(At(w2, id), Queued) && At(w2, id).result == Some(SUCCESS)
  {
    hide RunAll, Handed, Interrupted, AcceptResult, Replays;
    CrashForgetsHandOver(w, id, holder, now, wall, true);
    HandedRecord(w, id, holder, now, wall, true);
    var x := Interrupted(w, Handed(w, id, holder, now, wall, true), 3);
    assert At(x, id).result.None?;
    RunningTaskTakesResult(x, id, SUCCESS, wall);
    var w1 := AcceptResult(x, id, SUCCESS, wall).w;
    Reprocessed(w1, id);
  }
}
