// The audit log as the source of truth, the legality of every state change, and the finality of
// results.

module AuditTrail {
  import opened Basics
  import opened StateMachine
  import opened Records
  import opened Logs
  import opened Worlds
  import opened Engine
  import opened Soundness
  import opened Runs
  import opened Histories

  // The stored state of every task is the one its audit log replays to, and every transition that
  // the log announces starts from the replayed state and is in the table.
  ghost predicate EventSourced(s: Store) {
    forall id :: Replay(Rec(s, id).log) == StateOf(Rec(s, id)) && LegalLog(Rec(s, id).log)
  }

  // After every single action of every history, in memory and on disk.
  lemma AuditLogIsTheEventSource(cfg: Config, lives: seq<Life>, ops: seq<Op>, k: nat)
    requires k <= |History(cfg, lives, ops).trace|
    ensures EventSourced(After(History(cfg, lives, ops).trace[..k]).work)
    ensures EventSourced(After(History(cfg, lives, ops).trace[..k]).disk)
    ensures EventSourced(History(cfg, lives, ops).db.work)
  {
    var w := History(cfg, lives, ops);
    AnyHistory(cfg, lives, ops);
    LawfulPrefix(AnyClient, cfg, w.trace, k);
    LawfulTracesAreSound(AnyClient, cfg, w.trace[..k]);
    LawfulTracesAreSound(AnyClient, cfg, w.trace);
  }

  lemma {:induction false} LegalLogMeans(log: seq<Event>)
    ensures LegalLog(log) <==> forall i :: 0 <= i < |log| ==> LegalNext(Replay(log[..i]), log[i])
  {
    if log != [] {
      var init := log[..|log| - 1];
      LegalLogMeans(init);
      assert forall i :: 0 <= i < |init| ==> init[..i] == log[..i];
      if forall i :: 0 <= i < |log| ==> LegalNext(Replay(log[..i]), log[i]) {
        forall i | 0 <= i < |init| ensures LegalNext(Replay(init[..i]), init[i]) {
          assert LegalNext(Replay(log[..i]), log[i]);
        }
      }
      if LegalLog(log) {
        forall i | 0 <= i < |log| ensures LegalNext(Replay(log[..i]), log[i]) {
          if i < |init| {
            assert LegalNext(Replay(init[..i]), init[i]);
          }
        }
      }
    }
  }

  // ----- legal edges and absorbing ends

  function StateAfter(tr: seq<Action>, id: Id): Option<State> {
    StateOf(Rec(After(tr).work, id))
  }

  // The same of what is on disk.
  function SavedState(tr: seq<Action>, id: Id): Option<State> {
    StateOf(Rec(After(tr).disk, id))
  }

  // What one action may do to the state of a task under a clean client.
  predicate LegalChange(before: Option<State>, after: Option<State>, a: Action, id: Id) {
    || after == before
    || (Touches(a, id) &&
        match a.move
        case Create(_, _) => before == None && after == Some(Received)
        case Shift(to, _) => before.Some? && after == Some(to) && CanTransition(before.value, to)
        case Cancel(_) => before.Some? && after == Some(Cancelled) && CanTransition(before.value, Cancelled)
        case Retry(_, _, _, _) => before == Some(Running) && after == Some(Queued)
        case Requeue(_) => after == Some(Queued)
        case Erase => after == None
        case _ => false)
  }

  lemma ActionMakesLegalChange(cfg: Config, tr: seq<Action>, id: Id)
    requires tr != [] && Lawful(CleanRestarts, cfg, tr) && tr[|tr| - 1] != Crash
    ensures LegalChange(StateAfter(tr[..|tr| - 1], id), StateAfter(tr, id), tr[|tr| - 1], id)
  {
  }

  // With a clean client, and whenever the process dies without cutting an enqueue or a hand-over
  // short: every action moves a task along an edge of the table or one of the named direct writes,
  // and a death takes it back to its committed state.
  lemma EveryChangeIsAnEdge(cfg: Config, lives: seq<Life>, ops: seq<Op>, id: Id, k: nat)
    requires FitsLives(CleanRestarts, lives) && FitsAll(CleanRestarts, ops) && SafeDeaths(Boot(cfg), lives)
    requires k < |History(cfg, lives, ops).trace|
    ensures var tr := History(cfg, lives, ops).trace;
            if tr[k] == Crash then StateAfter(tr[..k + 1], id) == SavedState(tr[..k], id)
            else LegalChange(StateAfter(tr[..k], id), StateAfter(tr[..k + 1], id), tr[k], id)
  {
    hide Lawful, LegalChange, RunAll, Survive;
    var tr := History(cfg, lives, ops).trace;
    HistoriesAreLawful(CleanRestarts, cfg, lives, ops);
    LawfulPrefix(CleanRestarts, cfg, tr, k + 1);
    assert tr[..k + 1][..k] == tr[..k];
    if tr[k] != Crash {
      ActionMakesLegalChange(cfg, tr[..k + 1], id);
    }
  }

  // The task is neither deleted nor recovered from a stuck job in the given stretch of the trace.
  predicate LeftAlone(tr: seq<Action>, id: Id) {
    forall a :: a in tr ==> Touches(a, id) ==> !a.move.Erase? && !a.move.Requeue?
  }

  // What the trace adds to its first `n` actions.
  function Since(tr: seq<Action>, n: nat): seq<Action> {
    if n <= |tr| then tr[n..] else []
  }

  // The last action of a stretch of the trace, and those before it.
  lemma Stretch(tr: seq<Action>, k: nat)
    requires k < |tr|
    ensures var init := tr[..|tr| - 1]; init[..k] == tr[..k] && tr[k..] == init[k..] + [tr[|tr| - 1]]
  {
  }

  lemma TerminalStep(cfg: Config, tr: seq<Action>, id: Id)
    requires tr != [] && Lawful(CleanRestarts, cfg, tr) && LeftAlone([tr[|tr| - 1]], id)
    requires var s := StateAfter(tr[..|tr| - 1], id); s.Some? && Terminal(s.value)
    ensures tr[|tr| - 1] != Crash ==> StateAfter(tr, id) == StateAfter(tr[..|tr| - 1], id)
  {
    hide Lawful, StateAfter;
    if tr[|tr| - 1] != Crash {
      ActionMakesLegalChange(cfg, tr, id);
      assert tr[|tr| - 1] in [tr[|tr| - 1]];
    }
  }

  // A crash brings back what is on disk, and a commit saves what is in memory.
  lemma SavedStep(tr: seq<Action>, id: Id)
    requires tr != []
    ensures var init, a := tr[..|tr| - 1], tr[|tr| - 1];
            && SavedState(tr, id) == (if a == Commit then StateAfter(init, id) else SavedState(init, id))
            && (a == Crash ==> StateAfter(tr, id) == SavedState(init, id))
  {
  }

  // `saved` says whether the state is on disk as well; it has to be if the process dies.
  lemma {:induction false} TerminalAlongTrace(cfg: Config, tr: seq<Action>, id: Id, k: nat, saved: bool)
    requires Lawful(CleanRestarts, cfg, tr) && k <= |tr| && LeftAlone(tr[k..], id)
    requires StateAfter(tr[..k], id).Some? && Terminal(StateAfter(tr[..k], id).value)
    requires if saved then SavedState(tr[..k], id) == StateAfter(tr[..k], id) else Crash !in tr[k..]
    ensures StateAfter(tr, id) == StateAfter(tr[..k], id)
    ensures saved ==> SavedState(tr, id) == StateAfter(tr, id)
    decreases |tr|
  {
    hide StateAfter, SavedState;
    if k == |tr| {
      assert tr[..k] == tr;
    } else {
      var init := tr[..|tr| - 1];
      Stretch(tr, k);
      TerminalAlongTrace(cfg, init, id, k, saved);
      TerminalStep(cfg, tr, id);
      SavedStep(tr, id);
      assert tr[|tr| - 1] in tr[k..];
    }
  }

  // succeeded, failed, rejected and cancelled never change until the task is deleted or recovered
  // from a stuck job: with a clean client, through any later calls, and once they are committed
  // through deaths too that cut no enqueue and no hand-over short.
  lemma TerminalStatesAbsorb(cfg: Config, lives: seq<Life>, ops: seq<Op>, id: Id, k: nat)
    requires FitsLives(CleanRestarts, lives) && FitsAll(CleanRestarts, ops) && SafeDeaths(Boot(cfg), lives)
    requires var tr := History(cfg, lives, ops).trace;
             && k <= |tr| && LeftAlone(tr[k..], id)
             && StateAfter(tr[..k], id).Some? && Terminal(StateAfter(tr[..k], id).value)
             && (Crash in tr[k..] ==> SavedState(tr[..k], id) == StateAfter(tr[..k], id))
    ensures var tr := History(cfg, lives, ops).trace; StateAfter(tr, id) == StateAfter(tr[..k], id)
  {
    hide Lawful, RunAll, Survive, StateAfter, SavedState;
    var tr := History(cfg, lives, ops).trace;
    HistoriesAreLawful(CleanRestarts, cfg, lives, ops);
    TerminalAlongTrace(cfg, tr, id, k, SavedState(tr[..k], id) == StateAfter(tr[..k], id));
  }

  // With a client that calls back and then raises, the handler of process_queue puts a finished
  // task back into the queue exactly when it still has attempts left.
  lemma FailedAttemptKeepsTerminalIff(w: World, id: Id, item: Row, now: Micros, wall: Seconds)
    requires At(w, id).task.Some? && Terminal(At(w, id).task.value.state)
    ensures StateOf(At(FailAttempt(w, id, item, now, wall).w, id)) == StateOf(At(w, id))
            <==> item.attempts + 1 >= item.maxAttempts
  {
    var attempts := item.attempts + 1;
    if attempts >= item.maxAttempts {
      var buried := Put(w, id, Bury(attempts, Floor(now)));
      assert StateOf(At(buried, id)) == StateOf(At(w, id));
      assert TransitionTask(buried, id, Failed, wall) == Reply(buried, Raised(ValueError));
    }
  }

  // process_queue at work on a queued task whose row is due and may be claimed.
  predicate Due(r: Record, holder: Option<Worker>, now: Micros) {
    && InState(r, Queued) && RowIs(r, RowQueued) && r.row.value.nextAttemptAt * SECOND <= now
    && (holder.Some? ==> !HeldByOther(r.row.value, holder.value, now))
  }

  // The world after the claim, if there is a worker to make one.
  function ClaimedBy(w: World, id: Id, holder: Option<Worker>, now: Micros): World {
    if holder.Some? then ClaimQueueItem(w, id, holder.value, now).w else w
  }

  lemma ClaimedRecord(w: World, id: Id, holder: Option<Worker>, now: Micros)
    requires Due(At(w, id), holder, now)
    ensures var c := ClaimedBy(w, id, holder, now);
            var m := if holder.Some? then [Touch(id, Claim(holder.value, now, Floor(now) + w.cfg.lease))] else [];
            && c.cfg == w.cfg && c.trace == w.trace + m && InState(At(c, id), Queued) && RowIs(At(c, id), RowQueued)
            && (holder.Some? ==> ClaimQueueItem(w, id, holder.value, now).out.Returned?)
            && (holder.Some? ==> At(c, id).row.value.worker == holder)
            && At(c, id).row.value.attempts == At(w, id).row.value.attempts
            && At(c, id).row.value.maxAttempts == At(w, id).row.value.maxAttempts
  {
    assert Floor(now + w.cfg.lease * SECOND) == Floor(now) + w.cfg.lease;
    assert w.trace + [] == w.trace;
  }

  // What the client leaves behind when its turn is over.
  function AfterTurn(w: World, id: Id, holder: Option<Worker>, now: Micros, wall: Seconds, turn: Turn): World {
    RunAll(Handed(ClaimedBy(w, id, holder, now), id, holder, now, wall, !turn.raises), turn.calls)
  }

  // Processing such a task hands it over once and gives the client its turn; if the client raises,
  // the handler deals with what it left behind by the row as it was read before.
  lemma DueTaskRuns(w: World, id: Id, holder: Option<Worker>, now: Micros, wall: Seconds, turn: Turn)
    requires Due(At(w, id), holder, now)
    ensures var w1, c := AfterTurn(w, id, holder, now, wall, turn), ClaimedBy(w, id, holder, now);
            && At(c, id).row.Some?
            && Process(w, id, holder, now, wall, turn)
               == if turn.raises then FailAttempt(w1, id, At(c, id).row.value, now, wall) else Answer(w1, id)
  {
    hide RunAll, Perform, FailAttempt, Handed, ClaimQueueItem;
    ClaimedRecord(w, id, holder, now);
    var c := ClaimedBy(w, id, holder, now);
    assert DispatchQueued(c, id, holder, now, wall, turn)
           == var w1 := AfterTurn(w, id, holder, now, wall, turn); if turn.raises then Reply(w1, Raised(ClientError))
               else Answer(w1, id);
    assert Dispatch(c, id, holder, now, wall, turn) == DispatchQueued(c, id, holder, now, wall, turn);
  }

  // When the client's turn leaves the task finished, process_queue keeps it so exactly when the
  // client does not raise or the row's attempts, as read before dispatching, are used up.
  lemma ProcessKeepsFinishedTaskIff(w: World, id: Id, holder: Option<Worker>, now: Micros, wall: Seconds, turn: Turn)
    requires Due(At(w, id), holder, now)
    requires var r := At(AfterTurn(w, id, holder, now, wall, turn), id); r.task.Some? && Terminal(r.task.value.state)
    ensures var w1, w2 := AfterTurn(w, id, holder, now, wall, turn), Process(w, id, holder, now, wall, turn).w;
            StateOf(At(w2, id)) == StateOf(At(w1, id))
            <==> !turn.raises || At(w, id).row.value.attempts + 1 >= At(w, id).row.value.maxAttempts
  {
    hide Process, AfterTurn, FailAttempt, ClaimedBy;
    DueTaskRuns(w, id, holder, now, wall, turn);
    ClaimedRecord(w, id, holder, now);
    if turn.raises {
      FailedAttemptKeepsTerminalIff(AfterTurn(w, id, holder, now, wall, turn), id,
          At(ClaimedBy(w, id, holder, now), id).row.value, now, wall);
    }
  }

  // ----- first result wins

  // The committed result of the task is `result`, and the connection sees the same.
  predicate Settled(db: Db, id: Id, result: RunResult) {
    Rec(db.work, id).result == Some(result) && Rec(db.disk, id).result == Some(result)
  }

  predicate NotErased(tr: seq<Action>, id: Id) {
    forall a :: a in tr ==> Touches(a, id) ==> !a.move.Erase?
  }

  lemma ResultStep(p: Profile, cfg: Config, tr: seq<Action>, id: Id, result: RunResult)
    requires tr != [] && Lawful(p, cfg, tr) && NotErased([tr[|tr| - 1]], id) &&
        Settled(After(tr[..|tr| - 1]), id, result)
    ensures Settled(After(tr), id, result)
  {
    hide Lawful, Expected;
    assert Permitted(cfg, After(tr[..|tr| - 1]).work, tr[|tr| - 1]) by {
      LawfulLast(p, cfg, tr);
    }
    assert tr[|tr| - 1] in [tr[|tr| - 1]];
  }

  lemma {:induction false} ResultAlongTrace(p: Profile, cfg: Config, tr: seq<Action>, id: Id, result: RunResult, k: nat)
    requires Lawful(p, cfg, tr) && k <= |tr| && NotErased(tr[k..], id)
    requires Settled(After(tr[..k]), id, result)
    ensures Settled(After(tr), id, result)
    decreases |tr|
  {
    hide Settled, After;
    if k == |tr| {
      assert tr[..k] == tr;
    } else {
      var init := tr[..|tr| - 1];
      Stretch(tr, k);
      ResultAlongTrace(p, cfg, init, id, result, k);
      ResultStep(p, cfg, tr, id, result);
    }
  }

  // Storing a result commits it.
  lemma StoringCommits(w: World, id: Id, result: RunResult, wall: Seconds)
    ensures var w' := AcceptResult(w, id, result, wall).w;
            At(w, id).result.None? && At(w', id).result.Some? ==> Settled(w'.db, id, result)
  {
    hide TransitionTask;
    if result.status.Some? && At(w, id).task.Some? {
      var target := if result.status.value == "succeeded" then Succeeded else State.Failed;
      if CanTransition(At(w, id).task.value.state, target) {
        TransitionRecord(w, id, target, wall);
        KeptResult(TransitionTask(w, id, target, wall).w, id, result);
      } else {
        assert TransitionTask(w, id, target, wall) == Reply(w, Raised(ValueError)) by {
          TransitionRefused(w, id, target, wall);
        }
      }
    }
  }

  lemma TransitionRefused(w: World, id: Id, to: State, wall: Seconds)
    requires At(w, id).task.Some? && !CanTransition(At(w, id).task.value.state, to)
    ensures TransitionTask(w, id, to, wall) == Reply(w, Raised(ValueError))
  {
  }

  // What store_result_with_audit leaves in memory and on disk.
  lemma KeptResult(w: World, id: Id, result: RunResult)
    ensures var w' := Do(Put(w, id, Keep(result)), Commit);
            && Settled(w'.db, id, result) && Settled(Put(w', id, Note(MemoryProvenanceRecorded)).db, id, result)
            && At(w', id).task == At(w, id).task && At(w', id).row == At(w, id).row && w'.db.disk == w'.db.work
            && At(Put(w', id, Note(MemoryProvenanceRecorded)), id).task == At(w, id).task
            && At(Put(w', id, Note(MemoryProvenanceRecorded)), id).row == At(w, id).row
  {
  }

  // Once stored, a result outlives every later call, callback and crash until the task is deleted,
  // and the log announces exactly one.
  lemma FirstResultWins(cfg: Config, lives: seq<Life>, ops: seq<Op>, id: Id, result: RunResult, k: nat)
    requires var tr := History(cfg, lives, ops).trace;
             k <= |tr| && Settled(After(tr[..k]), id, result) && NotErased(tr[k..], id)
    ensures Settled(History(cfg, lives, ops).db, id, result)
    ensures ResultCount(At(History(cfg, lives, ops), id).log) == 1
  {
    var w := History(cfg, lives, ops);
    AnyHistory(cfg, lives, ops);
    ResultAlongTrace(AnyClient, cfg, w.trace, id, result, k);
    LawfulTracesAreSound(AnyClient, cfg, w.trace);
    assert SoundRecord(At(w, id));
  }

  lemma ResultEventsMatchResults(cfg: Config, lives: seq<Life>, ops: seq<Op>, id: Id)
    ensures var r := At(History(cfg, lives, ops), id); ResultCount(r.log) == if r.result.Some? then 1 else 0
  {
    AnyHistory(cfg, lives, ops);
    LawfulTracesAreSound(AnyClient, cfg, History(cfg, lives, ops).trace);
    assert SoundRecord(At(History(cfg, lives, ops), id));
  }
}
