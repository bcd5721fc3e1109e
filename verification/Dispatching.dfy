// How often, and how soon after one another, the client is handed a task.

module Dispatching {
  import opened Basics
  import opened StateMachine
  import opened Records
  import opened Logs
  import opened Worlds
  import opened Engine
  import opened Soundness
  import opened Runs
  import opened Histories
  import opened Gates

  // ----- counts over the trace, since the task was last deleted

  // Client submit calls for the task and those that did not raise, successful stuck-job recoveries,
  // enqueues, scheduled retries, and deaths of the process.
  datatype Tally = Tally(calls: nat, accepted: nat, recoveries: nat, enqueues: nat, retries: nat, deaths: nat)

  const NOTHING_YET := Tally(0, 0, 0, 0, 0, 0)

  function Count(t: Tally, m: Move): Tally {
    match m
    case Hand(_, _, accepted, _, _) => t.(calls := t.calls + 1, accepted := t.accepted + if accepted then 1 else 0)
    case Requeue(_) => t.(recoveries := t.recoveries + 1)
    case Insert(_, _) => t.(enqueues := t.enqueues + 1)
    case Retry(_, _, _, _) => t.(retries := t.retries + 1)
    case _ => t
  }

  function Tallied(tr: seq<Action>, id: Id): Tally {
    if tr == [] || Deleted(tr, id) then NOTHING_YET else
      var earlier := Tallied(tr[..|tr| - 1], id);
      match tr[|tr| - 1]
      case Touch(i, m) => if i == id then Count(earlier, m) else earlier
      case Crash => earlier.(deaths := earlier.deaths + 1)
      case Commit => earlier
  }

  lemma TalliedSnoc(tr: seq<Action>, a: Action, id: Id)
    requires !Deleted(tr + [a], id)
    ensures Tallied(tr + [a], id) == var t := Tallied(tr, id);
                                     if Touches(a, id) then Count(t, a.move)
                                     else if a == Crash then t.(deaths := t.deaths + 1) else t
  {
    assert (tr + [a])[..|tr|] == tr;
  }

  // How many of the actions pass.
  function Occurrences(tr: seq<Action>, passes: Action -> bool): nat {
    |set i | 0 <= i < |tr| && passes(tr[i])|
  }

  lemma NoOccurrences(passes: Action -> bool)
    ensures Occurrences([], passes) == 0
  {
  }

  lemma OccurrencesSnoc(tr: seq<Action>, a: Action, passes: Action -> bool)
    ensures Occurrences(tr + [a], passes) == Occurrences(tr, passes) + if passes(a) then 1 else 0
  {
    var before := set i | 0 <= i < |tr| && passes(tr[i]);
    var after := set i | 0 <= i < |tr + [a]| && passes((tr + [a])[i]);
    assert after == before + if passes(a) then {|tr|} else {};
  }

  // The counts are those of the task's moves in the trace since its last deletion.
  lemma {:induction false} TalliesCount(tr: seq<Action>, since: seq<Action>, id: Id)
    requires tr == [] || Deleted(tr, id)
    requires forall k :: 0 < k <= |since| ==> !Deleted(tr + since[..k], id)
    ensures Tallied(tr + since, id) == Tally(
              Occurrences(since, a => Touches(a, id) && a.move.Hand?),
              Occurrences(since, a => Touches(a, id) && a.move.Hand? && a.move.accepted),
              Occurrences(since, a => Touches(a, id) && a.move.Requeue?),
              Occurrences(since, a => Touches(a, id) && a.move.Insert?),
              Occurrences(since, a => Touches(a, id) && a.move.Retry?),
              Occurrences(since, a => a == Crash))
    decreases |since|
  {
    hide Deleted, Tallied, Occurrences;
    if since == [] {
      assert tr + since == tr;
      NothingTallied(tr, id);
      NoOccurrences(a => Touches(a, id) && a.move.Hand?);
      NoOccurrences(a => Touches(a, id) && a.move.Hand? && a.move.accepted);
      NoOccurrences(a => Touches(a, id) && a.move.Requeue?);
      NoOccurrences(a => Touches(a, id) && a.move.Insert?);
      NoOccurrences(a => Touches(a, id) && a.move.Retry?);
      NoOccurrences(a => a == Crash);
    } else {
      var n := |since| - 1;
      var init, a := since[..n], since[n];
      assert since == init + [a] && since[..|since|] == since;
      assert forall k :: 0 < k <= n ==> init[..k] == since[..k];
      TalliesCount(tr, init, id);
      assert tr + since == (tr + init) + [a];
      TalliedSnoc(tr + init, a, id);
      OccurrencesSnoc(init, a, a => Touches(a, id) && a.move.Hand?);
      OccurrencesSnoc(init, a, a => Touches(a, id) && a.move.Hand? && a.move.accepted);
      OccurrencesSnoc(init, a, a => Touches(a, id) && a.move.Requeue?);
      OccurrencesSnoc(init, a, a => Touches(a, id) && a.move.Insert?);
      OccurrencesSnoc(init, a, a => Touches(a, id) && a.move.Retry?);
      OccurrencesSnoc(init, a, a => a == Crash);
    }
  }

  lemma NothingTallied(tr: seq<Action>, id: Id)
    requires tr == [] || Deleted(tr, id)
    ensures Tallied(tr, id) == NOTHING_YET
  {
  }

  // An accepted hand-over, whether or not its call came to an end.
  lemma HandedTally(w: World, id: Id, holder: Option<Worker>, now: Micros, wall: Seconds, accepted: bool)
    requires InState(At(w, id), Queued) && RowIs(At(w, id), RowQueued)
    ensures var t, t' := Tallied(w.trace, id), Tallied(Handed(w, id, holder, now, wall, accepted).trace, id);
            t' == t.(calls := t.calls + 1, accepted := t.accepted + if accepted then 1 else 0)
  {
    HandedRecord(w, id, holder, now, wall, accepted);
    var a1, a2 := Touch(id, Shift(Running, wall)), Touch(id, Hand(wall, wall + w.cfg.timeout, accepted, holder, now));
    TalliedSnoc(w.trace, a1, id);
    TalliedSnoc(w.trace + [a1], Commit, id);
    TalliedSnoc(w.trace + [a1] + [Commit], a2, id);
  }

  lemma TransitionTally(w: World, id: Id, to: State, wall: Seconds)
    requires At(w, id).task.Some? && CanTransition(At(w, id).task.value.state, to)
    ensures Tallied(TransitionTask(w, id, to, wall).w.trace, id) == Tallied(w.trace, id)
  {
    hide Tallied;
    TransitionRecord(w, id, to, wall);
    TalliedSnoc(w.trace, Touch(id, Shift(to, wall)), id);
    TalliedSnoc(w.trace + [Touch(id, Shift(to, wall))], Commit, id);
  }

  lemma EnqueueTally(w: World, id: Id, wall: Seconds)
    requires InState(At(w, id), Approved)
    ensures var t := Tallied(w.trace, id);
            Tallied(EnqueueTask(w, id, wall).w.trace, id) == t.(enqueues := t.enqueues + 1)
  {
    hide Tallied;
    TransitionTally(w, id, Queued, wall);
    EnqueuedRecord(w, id, wall);
    TalliedSnoc(TransitionTask(w, id, Queued, wall).w.trace, Touch(id, Insert(w.cfg.maxAttempts, wall)), id);
  }

  // A queued row still has room for one more call.
  predicate Budgeted(cfg: Config, r: Record, t: Tally) {
    match r.row
    case None => t.calls == 0 && t.accepted == 0 && t.recoveries == 0
    case Some(q) =>
      && q.maxAttempts == cfg.maxAttempts && 0 <= q.attempts
      && (if q.status == RowQueued then
            && t.calls <= q.attempts + t.recoveries
            && t.calls <= Max(1, cfg.maxAttempts) - 1 + t.recoveries
            && t.accepted <= t.recoveries
          else
            && t.calls <= q.attempts + 1 + t.recoveries
            && t.calls <= Max(1, cfg.maxAttempts) + t.recoveries
            && t.accepted <= 1 + t.recoveries)
  }

  // Moves that leave the counting columns of the row alone.
  predicate Quiet(m: Move) {
    m.Create? || m.NoteKey? || m.Ask? || m.Note? || m.Shift? || m.Claim? || m.Keep? || m.Reset?
  }

  // The columns of two rows that counting and waiting go by.
  predicate SameColumns(a: Option<Row>, b: Option<Row>) {
    && a.Some? == b.Some?
    && (a.Some? ==>
          && a.value.status == b.value.status && a.value.attempts == b.value.attempts
          && a.value.maxAttempts == b.value.maxAttempts && a.value.nextAttemptAt == b.value.nextAttemptAt)
  }

  lemma QuietMoveKeepsColumns(r: Record, m: Move, t: Tally)
    requires Quiet(m)
    ensures SameColumns(r.row, Apply(r, m).row) && Count(t, m) == t
  {
  }

  lemma MoveKeepsBudget(cfg: Config, tr: seq<Action>, r: Record, id: Id, m: Move, t: Tally, s: Store)
    requires Enabled(cfg, r, m) && Budgeted(cfg, r, t) && Gated(r) && Tidy(r) && r == Rec(s, id) && !m.Erase?
    requires Expected(CleanRestarts, cfg, tr, s, Touch(id, m))
    requires Refused(tr, id) ==> t.accepted <= t.recoveries
    ensures Budgeted(cfg, Apply(r, m), Count(t, m))
    ensures m.Hand? && !m.accepted ==> Count(t, m).accepted <= Count(t, m).recoveries
  {
    hide Tidy, Gated;
    if Quiet(m) {
      hide Enabled, Expected, Apply;
      QuietMoveKeepsColumns(r, m, t);
    } else {
      RowMoveKeepsBudget(cfg, tr, r, id, m, t, s);
    }
  }

  lemma RowMoveKeepsBudget(cfg: Config, tr: seq<Action>, r: Record, id: Id, m: Move, t: Tally, s: Store)
    requires Enabled(cfg, r, m) && Budgeted(cfg, r, t) && Gated(r) && Tidy(r) && r == Rec(s, id) && !m.Erase? &&
        !Quiet(m)
    requires Expected(CleanRestarts, cfg, tr, s, Touch(id, m))
    requires Refused(tr, id) ==> t.accepted <= t.recoveries
    ensures Budgeted(cfg, Apply(r, m), Count(t, m))
    ensures m.Hand? && !m.accepted ==> Count(t, m).accepted <= Count(t, m).recoveries
  {
  }

  // What is on disk is budgeted too, unless the task is in passing.  A row that only the connection
  // sees belongs to a task in passing.
  ghost predicate SafelyBudgeted(cfg: Config, tr: seq<Action>, id: Id) {
    !Passing(tr, id) ==>
      && Budgeted(cfg, Rec(After(tr).disk, id), Tallied(tr, id))
      && (Rec(After(tr).work, id).row.Some? ==> Rec(After(tr).disk, id).row.Some?)
  }

  lemma {:induction false} BudgetAlongTrace(cfg: Config, tr: seq<Action>, id: Id)
    requires Lawful(CleanRestarts, cfg, tr)
    ensures tr == [] || tr[|tr| - 1] != Touch(id, Erase) ==> Budgeted(cfg, Rec(After(tr).work, id), Tallied(tr, id))
    ensures SafelyBudgeted(cfg, tr, id)
    ensures Refused(tr, id) ==> Tallied(tr, id).accepted <= Tallied(tr, id).recoveries
  {
    hide Enabled, Apply, Expected, Budgeted, Gated;
    if tr == [] {
      NothingBudgeted(cfg);
    } else {
      var init, a := tr[..|tr| - 1], tr[|tr| - 1];
      BudgetAlongTrace(cfg, init, id);
      if Deleted(tr, id) {
        NothingBudgeted(cfg);
        DeletedRecord(init, id);
      } else if a == Crash {
        CrashIsSafe(cfg, init);
        DeathKeepsBudget(cfg, Rec(After(init).disk, id), Tallied(init, id));
      } else if a.Touch? && a.id == id {
        LawfulResetsSpareRows(CleanRestarts, cfg, init, id);
        LawfulTracesAreSound(CleanRestarts, cfg, init);
        assert SoundRecord(Rec(After(init).work, id));
        if !a.move.Erase? {
          MoveKeepsBudget(cfg, init, Rec(After(init).work, id), id, a.move, Tallied(init, id), After(init).work);
        }
        MoveKeepsSafety(cfg, tr, id);
      }
    }
  }

  lemma DeathKeepsBudget(cfg: Config, r: Record, t: Tally)
    requires Budgeted(cfg, r, t)
    ensures Budgeted(cfg, r, t.(deaths := t.deaths + 1))
  {
  }

  lemma BudgetMeans(cfg: Config, r: Record, t: Tally)
    requires Budgeted(cfg, r, t)
    ensures t.calls <= Max(1, cfg.maxAttempts) + t.recoveries && t.accepted <= 1 + t.recoveries
  {
  }

  lemma NothingBudgeted(cfg: Config)
    ensures Budgeted(cfg, BLANK, NOTHING_YET)
  {
  }

  lemma DeletedRecord(tr: seq<Action>, id: Id)
    requires tr != [] && tr[|tr| - 1] == Touch(id, Erase)
    ensures Rec(After(tr).work, id) == BLANK
  {
  }

  lemma CrashIsSafe(cfg: Config, tr: seq<Action>)
    requires Lawful(CleanRestarts, cfg, tr + [Crash])
    ensures !CutShort(tr)
  {
    assert (tr + [Crash])[..|tr|] == tr;
  }

  lemma MoveKeepsSafety(cfg: Config, tr: seq<Action>, id: Id)
    requires tr != [] && Lawful(CleanRestarts, cfg, tr) && Touches(tr[|tr| - 1], id) &&
        SafelyBudgeted(cfg, tr[..|tr| - 1], id)
    ensures SafelyBudgeted(cfg, tr, id)
  {
    hide Gated, Tidy;
    var init, m := tr[..|tr| - 1], tr[|tr| - 1].move;
    assert Passing(tr, id) == Passing(init, id) && After(tr).disk == After(init).disk;
    assert Tallied(tr, id) == Count(Tallied(init, id), m);
  }

  // With a clean client, and whenever the process dies without cutting an enqueue or a hand-over
  // short: a task that was recovered R times is handed over at most max(1, max_attempts) + R times,
  // and at most 1 + R of these calls are accepted.
  lemma DispatchesAreBounded(cfg: Config, lives: seq<Life>, ops: seq<Op>, id: Id)
    requires FitsLives(CleanRestarts, lives) && FitsAll(CleanRestarts, ops) && SafeDeaths(Boot(cfg), lives)
    ensures var t := Tallied(History(cfg, lives, ops).trace, id);
            t.calls <= Max(1, cfg.maxAttempts) + t.recoveries && t.accepted <= 1 + t.recoveries
  {
    hide Budgeted, SafelyBudgeted, Lawful, RunAll, Survive, Tallied;
    var w := History(cfg, lives, ops);
    HistoriesAreLawful(CleanRestarts, cfg, lives, ops);
    BudgetAlongTrace(cfg, w.trace, id);
    BudgetMeans(cfg, At(w, id), Tallied(w.trace, id));
  }

  // ----- deaths at any moment

  // The calls that the record leaves room for.  A row that is queued behind a task that is not may
  // owe one, to a hand-over that a death has cut short.
  predicate RoomLeft(cfg: Config, r: Record, t: Tally) {
    match r.row
    case None => t.calls == 0
    case Some(q) =>
      && q.maxAttempts == cfg.maxAttempts && 0 <= q.attempts
      && (if q.status == RowQueued && InState(r, Queued) then
            t.calls <= q.attempts + t.recoveries && t.calls <= Max(1, cfg.maxAttempts) - 1 + t.recoveries
          else
            t.calls <= q.attempts + 1 + t.recoveries && t.calls <= Max(1, cfg.maxAttempts) + t.recoveries)
  }

  lemma MoveKeepsRoom(cfg: Config, tr: seq<Action>, s: Store, id: Id, m: Move, t: Tally)
    requires Enabled(cfg, Rec(s, id), m) && RoomLeft(cfg, Rec(s, id), t) && Gated(Rec(s, id)) && !m.Erase? && !m.Hand?
    requires Expected(CleanDeaths, cfg, tr, s, Touch(id, m))
    ensures RoomLeft(cfg, Apply(Rec(s, id), m), Count(t, m))
  {
  }

  // The hand-over, with the transition and the commit before it.
  lemma HandKeepsRoom(cfg: Config, r: Record, t: Tally, at: Seconds, m: Move)
    requires RoomLeft(cfg, r, t) && Enabled(cfg, r, Shift(Running, at)) && m.Hand?
    ensures var r1 := Apply(r, Shift(Running, at));
            RoomLeft(cfg, r1, Count(t, m)) && RoomLeft(cfg, Apply(r1, m), Count(t, m))
  {
  }

  // What the trace has left room for, in memory and on disk.
  ghost predicate RoomAfter(cfg: Config, tr: seq<Action>, id: Id) {
    && (tr == [] || tr[|tr| - 1] != Touch(id, Erase) ==> RoomLeft(cfg, Rec(After(tr).work, id), Tallied(tr, id)))
    && RoomLeft(cfg, Rec(After(tr).disk, id), Tallied(tr, id))
  }

  lemma {:induction false} RoomAlongTrace(cfg: Config, tr: seq<Action>, id: Id)
    requires Lawful(CleanDeaths, cfg, tr)
    ensures RoomAfter(cfg, tr, id)
    decreases |tr|
  {
    hide Enabled, Apply, Expected, RoomLeft, Lawful;
    if tr == [] {
      NoRoomNeeded(cfg);
    } else {
      var init, a := tr[..|tr| - 1], tr[|tr| - 1];
      LawfulInit(CleanDeaths, cfg, tr);
      RoomAlongTrace(cfg, init, id);
      if Deleted(tr, id) {
        NoRoomNeeded(cfg);
        DeletedRecord(init, id);
      } else if Touches(a, id) {
        if a.move.Hand? {
          LawfulPrefix(CleanDeaths, cfg, tr, |init| - 2);
          assert tr[..|init| - 2] == init[..|init| - 2];
          RoomAlongTrace(cfg, init[..|init| - 2], id);
          HandActionKeepsRoom(cfg, tr, id);
        } else if !a.move.Erase? {
          LawfulResetsSpareRows(CleanDeaths, cfg, init, id);
          MoveKeepsRoom(cfg, init, After(init).work, id, a.move, Tallied(init, id));
          RecoveryLeavesRoom(cfg, Rec(After(init).disk, id), Tallied(init, id), a.move);
        }
      } else if a == Crash {
        DeathLeavesRoom(cfg, Rec(After(init).disk, id), Tallied(init, id));
      }
    }
  }

  lemma LawfulInit(p: Profile, cfg: Config, tr: seq<Action>)
    requires tr != [] && Lawful(p, cfg, tr)
    ensures var init, a := tr[..|tr| - 1], tr[|tr| - 1];
            && Lawful(p, cfg, init) && Permitted(cfg, After(init).work, a) &&
                Expected(p, cfg, init, After(init).work, a)
            && Follows(init, a) && (a.Touch? && a.move.Hand? ==> Started(init, a.id))
  {
  }

  lemma NoRoomNeeded(cfg: Config)
    ensures RoomLeft(cfg, BLANK, NOTHING_YET)
  {
  }

  lemma RecoveryLeavesRoom(cfg: Config, r: Record, t: Tally, m: Move)
    requires RoomLeft(cfg, r, t) && !m.Hand?
    ensures RoomLeft(cfg, r, Count(t, m))
  {
  }

  lemma DeathLeavesRoom(cfg: Config, r: Record, t: Tally)
    requires RoomLeft(cfg, r, t)
    ensures RoomLeft(cfg, r, t.(deaths := t.deaths + 1))
  {
  }

  lemma HandActionKeepsRoom(cfg: Config, tr: seq<Action>, id: Id)
    requires |tr| >= 3 && Lawful(CleanDeaths, cfg, tr) && Touches(tr[|tr| - 1], id) && tr[|tr| - 1].move.Hand?
    requires Started(tr[..|tr| - 1], id) && RoomAfter(cfg, tr[..|tr| - 1][..|tr| - 3], id)
    ensures RoomAfter(cfg, tr, id)
  {
    hide Enabled, Apply, Expected, RoomLeft, Lawful;
    var init := tr[..|tr| - 1];
    var shifted := init[..|init| - 1];
    var before := shifted[..|shifted| - 1];
    assert before == tr[..|tr| - 1][..|tr| - 3];
    LawfulPrefix(CleanDeaths, cfg, tr, |shifted|);
    assert tr[..|shifted|] == shifted;
    LawfulInit(CleanDeaths, cfg, shifted);
    var a := shifted[|shifted| - 1];
    assert a == init[|init| - 2];
    assert Tallied(init, id) == Tallied(shifted, id) == Tallied(before, id);
    var r, m := Rec(After(before).work, id), tr[|tr| - 1].move;
    HandKeepsRoom(cfg, r, Tallied(before, id), a.move.at, m);
    assert After(init).work == After(shifted).work == After(init).disk == After(tr).disk;
    assert Rec(After(shifted).work, id) == Apply(r, a.move) && Rec(After(tr).work, id) == Apply(Apply(r, a.move), m);
    assert Tallied(tr, id) == Count(Tallied(before, id), m);
  }

  // Each death lets one more acceptance through.
  ghost predicate Acceptable(tr: seq<Action>, id: Id) {
    var t := Tallied(tr, id);
    && t.accepted <= t.calls && t.accepted <= 1 + t.recoveries + t.deaths
    && (RowIs(Rec(After(tr).work, id), RowQueued) || Refused(tr, id) ==> t.accepted <= t.recoveries + t.deaths)
  }

  lemma {:induction false} AcceptedAlongTrace(cfg: Config, tr: seq<Action>, id: Id)
    requires Lawful(CleanDeaths, cfg, tr)
    ensures Acceptable(tr, id)
  {
    hide Enabled, Apply, Expected, Lawful, RoomLeft, FailedAttempt;
    if tr != [] {
      var init, a := tr[..|tr| - 1], tr[|tr| - 1];
      LawfulInit(CleanDeaths, cfg, tr);
      AcceptedAlongTrace(cfg, init, id);
      if Deleted(tr, id) {
        DeletedRecord(init, id);
      } else if Touches(a, id) {
        RoomAlongTrace(cfg, init, id);
        LawfulResetsSpareRows(CleanDeaths, cfg, init, id);
        NoRowNoCall(cfg, Rec(After(init).work, id), Tallied(init, id));
        MoveKeepsAcceptable(cfg, init, After(init).work, id, a.move, Tallied(init, id));
      }
    }
  }

  lemma NoRowNoCall(cfg: Config, r: Record, t: Tally)
    ensures RoomLeft(cfg, r, t) && r.row.None? ==> t.calls == 0
  {
  }

  lemma MoveKeepsAcceptable(cfg: Config, tr: seq<Action>, s: Store, id: Id, m: Move, t: Tally)
    requires Enabled(cfg, Rec(s, id), m) && Expected(CleanDeaths, cfg, tr, s, Touch(id, m)) && Gated(Rec(s, id))
    requires t.accepted <= t.calls && t.accepted <= 1 + t.recoveries + t.deaths
    requires RowIs(Rec(s, id), RowQueued) || Refused(tr, id) ==> t.accepted <= t.recoveries + t.deaths
    requires Rec(s, id).row.None? && m.Insert? ==> t.calls == 0
    ensures var t' := Count(t, m);
            && t'.accepted <= t'.calls && t'.accepted <= 1 + t'.recoveries + t'.deaths
            && (RowIs(Apply(Rec(s, id), m), RowQueued) || (m.Hand? && !m.accepted) ==>
                t'.accepted <= t'.recoveries + t'.deaths)
  {
  }

  // With a clean client, and whatever the moments at which the process dies: a task that was recovered
  // R times is handed over at most max(1, max_attempts) + R times; after D deaths at most 1 + R + D
  // of these calls are accepted.
  lemma CallsAreBounded(cfg: Config, lives: seq<Life>, ops: seq<Op>, id: Id)
    requires FitsLives(CleanDeaths, lives) && FitsAll(CleanDeaths, ops)
    ensures var t := Tallied(History(cfg, lives, ops).trace, id);
            t.calls <= Max(1, cfg.maxAttempts) + t.recoveries && t.accepted <= 1 + t.recoveries + t.deaths
  {
    hide Lawful, RunAll, Survive, Tallied;
    HistoriesAreLawful(CleanDeaths, cfg, lives, ops);
    RoomAlongTrace(cfg, History(cfg, lives, ops).trace, id);
    AcceptedAlongTrace(cfg, History(cfg, lives, ops).trace, id);
  }

  // ----- any client, any operators

  // A queued row is owed a call by whatever put it in the queue.
  predicate Owed(r: Record, t: Tally) {
    var causes := t.enqueues + t.retries + t.recoveries + t.deaths;
    t.calls <= causes && (RowIs(r, RowQueued) ==> t.calls + 1 <= causes)
  }

  lemma MoveKeepsOwed(cfg: Config, r: Record, m: Move, t: Tally)
    requires Enabled(cfg, r, m) && Owed(r, t)
    ensures Owed(Apply(r, m), Count(t, m))
  {
  }

  lemma {:induction false} OwedAlongTrace(p: Profile, cfg: Config, tr: seq<Action>, id: Id)
    requires Lawful(p, cfg, tr)
    ensures Owed(Rec(After(tr).work, id), Tallied(tr, id))
  {
    hide Enabled, Apply, Expected, Lawful;
    if tr != [] {
      var init, a := tr[..|tr| - 1], tr[|tr| - 1];
      LawfulInit(p, cfg, tr);
      OwedAlongTrace(p, cfg, init, id);
      if Deleted(tr, id) {
        DeletedRecord(init, id);
      } else if Touches(a, id) {
        MoveKeepsOwed(cfg, Rec(After(init).work, id), a.move, Tallied(init, id));
      }
    }
  }

  // Whatever client, operators and deaths do: the client is not called more often than the task was
  // enqueued, scheduled for a retry, recovered or brought back by a death, since it was last deleted.
  lemma CallsAreAccounted(cfg: Config, lives: seq<Life>, ops: seq<Op>, id: Id)
    ensures var t := Tallied(History(cfg, lives, ops).trace, id);
            t.calls <= t.enqueues + t.retries + t.recoveries + t.deaths
  {
    hide Lawful, RunAll, Survive, Tallied;
    AnyHistory(cfg, lives, ops);
    OwedAlongTrace(AnyClient, cfg, History(cfg, lives, ops).trace, id);
  }

  // ----- a clean client and any operators

  // `n` times `m`.
  function Times(n: nat, m: int): int {
    if n == 0 then 0 else Times(n - 1, m) + m
  }

  lemma {:induction false} TimesIsProduct(n: nat, m: int)
    ensures Times(n, m) == n * m
  {
    if n > 0 {
      TimesIsProduct(n - 1, m);
      Distributes(m, n - 1, 1);
    }
  }

  // Each enqueue brings a budget of its own.
  predicate Allowed(cfg: Config, r: Record, t: Tally) {
    match r.row
    case None => t.calls == 0 && t.accepted == 0 && t.enqueues == 0
    case Some(q) =>
      var m := Max(1, cfg.maxAttempts);
      && q.maxAttempts == cfg.maxAttempts && 0 <= q.attempts && 1 <= t.enqueues
      && (var used := t.calls - Times(t.enqueues - 1, m) - t.recoveries;
          if q.status == RowQueued then used <= q.attempts && used <= m - 1 &&
              t.accepted <= t.enqueues - 1 + t.recoveries
          else used <= q.attempts + 1 && used <= m && t.accepted <= t.enqueues + t.recoveries)
  }

  lemma MoveKeepsAllowed(cfg: Config, tr: seq<Action>, s: Store, id: Id, m: Move, t: Tally)
    requires Enabled(cfg, Rec(s, id), m) && Allowed(cfg, Rec(s, id), t) && Tidy(Rec(s, id)) && !m.Erase?
    requires Expected(CleanOperators, cfg, tr, s, Touch(id, m))
    requires Refused(tr, id) ==> t.accepted + 1 <= t.enqueues + t.recoveries
    ensures Allowed(cfg, Apply(Rec(s, id), m), Count(t, m))
    ensures m.Hand? && !m.accepted ==> Count(t, m).accepted + 1 <= Count(t, m).enqueues + Count(t, m).recoveries
  {
    hide Tidy;
    if Quiet(m) {
      hide Enabled, Expected, Apply;
      QuietMoveKeepsColumns(Rec(s, id), m, t);
    } else {
      RowMoveKeepsAllowed(cfg, tr, s, id, m, t);
    }
  }

  lemma RowMoveKeepsAllowed(cfg: Config, tr: seq<Action>, s: Store, id: Id, m: Move, t: Tally)
    requires Enabled(cfg, Rec(s, id), m) && Allowed(cfg, Rec(s, id), t) && Tidy(Rec(s, id)) && !m.Erase? && !Quiet(m)
    requires Expected(CleanOperators, cfg, tr, s, Touch(id, m))
    requires Refused(tr, id) ==> t.accepted + 1 <= t.enqueues + t.recoveries
    ensures Allowed(cfg, Apply(Rec(s, id), m), Count(t, m))
    ensures m.Hand? && !m.accepted ==> Count(t, m).accepted + 1 <= Count(t, m).enqueues + Count(t, m).recoveries
  {
  }

  lemma {:induction false} AllowedAlongTrace(cfg: Config, tr: seq<Action>, id: Id)
    requires Lawful(CleanOperators, cfg, tr)
    ensures tr == [] || tr[|tr| - 1] != Touch(id, Erase) ==> Allowed(cfg, Rec(After(tr).work, id), Tallied(tr, id))
    ensures Refused(tr, id) ==> Tallied(tr, id).accepted + 1 <= Tallied(tr, id).enqueues + Tallied(tr, id).recoveries
  {
    hide Enabled, Apply, Expected, Lawful, Allowed, Tidy;
    if tr == [] {
      NothingAllowed(cfg);
    } else {
      var init, a := tr[..|tr| - 1], tr[|tr| - 1];
      LawfulInit(CleanOperators, cfg, tr);
      AllowedAlongTrace(cfg, init, id);
      if Deleted(tr, id) {
        NothingAllowed(cfg);
        DeletedRecord(init, id);
      } else if Touches(a, id) && !a.move.Erase? {
        LawfulTracesAreSound(CleanOperators, cfg, init);
        assert SoundRecord(Rec(After(init).work, id));
        MoveKeepsAllowed(cfg, init, After(init).work, id, a.move, Tallied(init, id));
      } else if a == Crash {
        NoCrash(cfg, tr);
      }
    }
  }

  lemma NoCrash(cfg: Config, tr: seq<Action>)
    requires tr != [] && Lawful(CleanOperators, cfg, tr)
    ensures tr[|tr| - 1] != Crash
  {
  }

  lemma NothingAllowed(cfg: Config)
    ensures Allowed(cfg, BLANK, NOTHING_YET)
  {
  }

  lemma AllowedMeans(cfg: Config, r: Record, t: Tally)
    requires Allowed(cfg, r, t)
    ensures t.calls <= t.enqueues * Max(1, cfg.maxAttempts) + t.recoveries && t.accepted <= t.enqueues + t.recoveries
  {
    TimesIsProduct(t.enqueues, Max(1, cfg.maxAttempts));
  }

  // With a clean client and no deaths, but approvals reset at will: each enqueue of the task allows
  // max(1, max_attempts) calls and one acceptance, each recovery one more of both.
  lemma DispatchesPerEnqueue(cfg: Config, ops: seq<Op>, id: Id)
    requires FitsAll(CleanOperators, ops)
    ensures var t := Tallied(Run(cfg, ops).trace, id);
            t.calls <= t.enqueues * Max(1, cfg.maxAttempts) + t.recoveries && t.accepted <= t.enqueues + t.recoveries
  {
    hide Lawful, RunAll, Tallied, Allowed;
    var w := Run(cfg, ops);
    RunsAreLawful(CleanOperators, cfg, ops);
    AllowedAlongTrace(cfg, w.trace, id);
    AllowedMeans(cfg, At(w, id), Tallied(w.trace, id));
  }

  // Any client: as long as approvals are reset only while there is no row, and nobody dies, a task is
  // enqueued at most once before it is deleted, and exactly when it has a row.
  lemma EnqueuedOnce(cfg: Config, ops: seq<Op>, id: Id)
    requires ResetsSpareRows(Run(cfg, ops).trace, id) && Crash !in Run(cfg, ops).trace
    ensures Tallied(Run(cfg, ops).trace, id).enqueues == if At(Run(cfg, ops), id).row.Some? then 1 else 0
  {
    hide Lawful, RunAll, Tallied;
    AnyHistory(cfg, [], ops);
    EnqueuesAlongTrace(AnyClient, cfg, Run(cfg, ops).trace, id);
  }

  lemma {:induction false} EnqueuesAlongTrace(p: Profile, cfg: Config, tr: seq<Action>, id: Id)
    requires Lawful(p, cfg, tr) && ResetsSpareRows(tr, id) && Crash !in tr
    ensures tr == [] || tr[|tr| - 1] != Touch(id, Erase) ==>
              Tallied(tr, id).enqueues == if Rec(After(tr).work, id).row.Some? then 1 else 0
  {
    hide Enabled, Apply, Expected, Lawful, Gated;
    if tr != [] {
      var init, a := tr[..|tr| - 1], tr[|tr| - 1];
      LawfulInit(p, cfg, tr);
      assert a in tr && forall b :: b in init ==> b in tr;
      EnqueuesAlongTrace(p, cfg, init, id);
      if Deleted(tr, id) {
        DeletedRecord(init, id);
      } else if Touches(a, id) && !a.move.Erase? {
        GatedAlongTrace(p, cfg, init, id);
        MoveKeepsRow(cfg, Rec(After(init).work, id), a.move);
      }
    }
  }

  // Only the insertion makes a row, and where there is none.
  lemma MoveKeepsRow(cfg: Config, r: Record, m: Move)
    requires Gated(r) && Enabled(cfg, r, m) && !m.Erase?
    ensures if m.Insert? then r.row.None? && Apply(r, m).row.Some? else Apply(r, m).row.Some? == r.row.Some?
  {
  }

  // ----- exponential spacing

  // The whole seconds of the failed attempts since the task was enqueued, up to its dead letter.
  datatype Failures = Failures(times: seq<Seconds>, buried: bool)

  function Fail(f: Failures, m: Move): Failures {
    match m
    case Retry(_, _, failedAt, _) => if f.buried then f else f.(times := f.times + [failedAt])
    case Bury(_, failedAt) => if f.buried then f else Failures(f.times + [failedAt], true)
    case Insert(_, _) => Failures([], false)
    case _ => f
  }

  function Failed(tr: seq<Action>, id: Id): Failures {
    if tr == [] || Deleted(tr, id) then Failures([], false) else
      var earlier := Failed(tr[..|tr| - 1], id);
      match tr[|tr| - 1]
      case Touch(i, m) => if i == id then Fail(earlier, m) else earlier
      case _ => earlier
  }

  ghost predicate Spaced(cfg: Config, times: seq<Seconds>) {
    forall i :: 0 <= i < |times| - 1 ==> times[i + 1] >= times[i] + cfg.backoff * Pow2(i)
  }

  // The row waits for the last failure's backoff to pass.
  ghost predicate Backing(cfg: Config, r: Record, f: Failures) {
    && Spaced(cfg, f.times)
    && (r.row.None? ==> f == Failures([], false))
    && (r.row.Some? && !f.buried ==>
          && r.row.value.attempts == |f.times|
          && (f.times != [] ==>
                r.row.value.nextAttemptAt == f.times[|f.times| - 1] + cfg.backoff * Pow2(|f.times| - 1)))
  }

  lemma SpacedSnoc(cfg: Config, times: seq<Seconds>, t: Seconds)
    requires Spaced(cfg, times)
    requires times != [] ==> t >= times[|times| - 1] + cfg.backoff * Pow2(|times| - 1)
    ensures Spaced(cfg, times + [t])
  {
    var ts := times + [t];
    forall i | 0 <= i < |ts| - 1 ensures ts[i + 1] >= ts[i] + cfg.backoff * Pow2(i) {
      if i < |times| - 1 {
        assert times[i + 1] >= times[i] + cfg.backoff * Pow2(i);
      }
    }
  }

  lemma RefusalKeepsBacking(cfg: Config, tr: seq<Action>, r: Record, id: Id, f: Failures, attempts: int,
          failedAt: Seconds)
    requires Backing(cfg, r, f) && !f.buried && JustRefused(tr, r, id, attempts, failedAt)
    ensures Spaced(cfg, f.times + [failedAt]) && attempts == |f.times + [failedAt]|
    ensures BackoffSeconds(cfg, attempts) == cfg.backoff * Pow2(|f.times + [failedAt]| - 1)
  {
    SpacedSnoc(cfg, f.times, failedAt);
  }

  lemma MoveKeepsBacking(cfg: Config, tr: seq<Action>, s: Store, id: Id, m: Move, f: Failures)
    requires Enabled(cfg, Rec(s, id), m) && Backing(cfg, Rec(s, id), f)
    requires Gated(Rec(s, id)) && Tidy(Rec(s, id)) && Expected(CleanRestarts, cfg, tr, s, Touch(id, m)) && !m.Erase?
    ensures Backing(cfg, Apply(Rec(s, id), m), Fail(f, m))
  {
    hide Tidy, Gated, Spaced, Pow2;
    if Quiet(m) {
      hide Enabled, Expected, Apply;
      QuietMoveKeepsColumns(Rec(s, id), m, NOTHING_YET);
    } else {
      RowMoveKeepsBacking(cfg, tr, s, id, m, f);
    }
  }

  lemma RowMoveKeepsBacking(cfg: Config, tr: seq<Action>, s: Store, id: Id, m: Move, f: Failures)
    requires Enabled(cfg, Rec(s, id), m) && Backing(cfg, Rec(s, id), f)
    requires Gated(Rec(s, id)) && Tidy(Rec(s, id)) && Expected(CleanRestarts, cfg, tr, s, Touch(id, m)) && !m.Erase? &&
        !Quiet(m)
    ensures Backing(cfg, Apply(Rec(s, id), m), Fail(f, m))
  {
    hide Spaced, Pow2, BackoffSeconds, Granted, EndsWith;
    assert Spaced(cfg, []) by {
      SpacedNone(cfg);
    }
    if m.Retry? && !f.buried {
      RefusalKeepsBacking(cfg, tr, Rec(s, id), id, f, m.attempts, m.failedAt);
    }
    if m.Bury? && !f.buried {
      RefusalKeepsBacking(cfg, tr, Rec(s, id), id, f, m.attempts, m.failedAt);
    }
  }

  lemma SpacedNone(cfg: Config)
    ensures Spaced(cfg, [])
  {
  }

  // The same of the row on disk, unless the task is in passing.
  ghost predicate SafelyBacking(cfg: Config, tr: seq<Action>, id: Id) {
    !Passing(tr, id) ==> Backing(cfg, Rec(After(tr).disk, id), Failed(tr, id))
  }

  lemma {:induction false} BackingAlongTrace(cfg: Config, tr: seq<Action>, id: Id)
    requires Lawful(CleanRestarts, cfg, tr)
    ensures tr == [] || tr[|tr| - 1] != Touch(id, Erase) ==> Backing(cfg, Rec(After(tr).work, id), Failed(tr, id))
    ensures SafelyBacking(cfg, tr, id)
    ensures Spaced(cfg, Failed(tr, id).times)
  {
    hide Enabled, Apply, Expected, Backing, Gated, Spaced;
    if tr == [] {
      NothingFailed(cfg);
    } else {
      var init, a := tr[..|tr| - 1], tr[|tr| - 1];
      BackingAlongTrace(cfg, init, id);
      if Deleted(tr, id) {
        NothingFailed(cfg);
        DeletedRecord(init, id);
      } else if a == Crash {
        CrashIsSafe(cfg, init);
      } else if a.Touch? && a.id == id {
        LawfulResetsSpareRows(CleanRestarts, cfg, init, id);
        LawfulTracesAreSound(CleanRestarts, cfg, init);
        assert SoundRecord(Rec(After(init).work, id));
        if !a.move.Erase? {
          MoveKeepsBacking(cfg, init, After(init).work, id, a.move, Failed(init, id));
          BackingIsSpaced(cfg, Rec(After(tr).work, id), Failed(tr, id));
        }
        MoveKeepsSafelyBacking(cfg, tr, id);
      }
    }
  }

  lemma NothingFailed(cfg: Config)
    ensures Backing(cfg, BLANK, Failures([], false)) && Spaced(cfg, [])
  {
  }

  lemma BackingIsSpaced(cfg: Config, r: Record, f: Failures)
    requires Backing(cfg, r, f)
    ensures Spaced(cfg, f.times)
  {
  }

  lemma MoveKeepsSafelyBacking(cfg: Config, tr: seq<Action>, id: Id)
    requires tr != [] && Lawful(CleanRestarts, cfg, tr) && Touches(tr[|tr| - 1], id) &&
        SafelyBacking(cfg, tr[..|tr| - 1], id)
    ensures SafelyBacking(cfg, tr, id)
  {
    hide Backing;
    var init, m := tr[..|tr| - 1], tr[|tr| - 1].move;
    assert Passing(tr, id) == Passing(init, id) && After(tr).disk == After(init).disk;
    assert Failed(tr, id) == Fail(Failed(init, id), m);
  }

  lemma Distributes(b: int, x: int, y: int)
    ensures b * (x + y) == b * x + b * y
  {
  }

  lemma {:induction false} SpacingTelescopes(cfg: Config, times: seq<Seconds>, i: nat, j: nat)
    requires Spaced(cfg, times) && i <= j < |times|
    ensures times[j] >= times[i] + cfg.backoff * (Pow2(j) - Pow2(i))
    decreases j
  {
    if i < j {
      SpacingTelescopes(cfg, times, i, j - 1);
      assert times[j - 1 + 1] >= times[j - 1] + cfg.backoff * Pow2(j - 1);
      DoubledGap(cfg.backoff, i, j);
    }
  }

  lemma DoubledGap(b: int, i: nat, j: nat)
    requires i < j
    ensures b * (Pow2(j) - Pow2(i)) == b * (Pow2(j - 1) - Pow2(i)) + b * Pow2(j - 1)
  {
    Distributes(b, Pow2(j - 1) - Pow2(i), Pow2(j - 1));
  }

  // With a clean client, and whenever the process dies without cutting an enqueue or a hand-over
  // short, the failed attempts of one enqueue are exponentially spaced, to the whole second,
  // although every stored retry time is rounded down.
  lemma FailuresAreSpaced(cfg: Config, lives: seq<Life>, ops: seq<Op>, id: Id, i: nat, j: nat)
    requires FitsLives(CleanRestarts, lives) && FitsAll(CleanRestarts, ops) && SafeDeaths(Boot(cfg), lives)
    requires i <= j < |Failed(History(cfg, lives, ops).trace, id).times|
    ensures var times := Failed(History(cfg, lives, ops).trace, id).times;
            times[j] >= times[i] + cfg.backoff * (Pow2(j) - Pow2(i))
  {
    HistoriesAreLawful(CleanRestarts, cfg, lives, ops);
    BackingAlongTrace(cfg, History(cfg, lives, ops).trace, id);
    SpacingTelescopes(cfg, Failed(History(cfg, lives, ops).trace, id).times, i, j);
  }

  // ----- dead letters

  // A call of process_queue with a client that refuses, made when the row says or later.
  datatype Try = Try(worker: Option<Worker>, late: nat, wall: Seconds)

  function TryTime(w: World, id: Id, t: Try): Micros {
    RowOf(At(w, id)).nextAttemptAt * SECOND + t.late
  }

  function Drive(w: World, id: Id, t: Try): World {
    Process(w, id, t.worker, TryTime(w, id, t), t.wall, REFUSAL).w
  }

  function DriveAll(w: World, id: Id, tries: seq<Try>): World {
    if tries == [] then w else Drive(DriveAll(w, id, tries[..|tries| - 1]), id, tries[|tries| - 1])
  }

  // The call comes from a worker while another one holds the lease.
  predicate TurnedAway(w: World, id: Id, t: Try) {
    t.worker.Some? && At(w, id).row.Some? && HeldByOther(At(w, id).row.value, t.worker.value, TryTime(w, id, t))
  }

  // How many of the calls are not turned away.
  function Heard(w: World, id: Id, tries: seq<Try>): nat {
    if tries == [] then 0
    else
      var init := tries[..|tries| - 1];
      Heard(w, id, init) + if TurnedAway(DriveAll(w, id, init), id, tries[|tries| - 1]) then 0 else 1
  }

  // A queued task with `attempts` failures behind it.
  predicate Waiting(w: World, id: Id, attempts: int, maxAttempts: int) {
    && InState(At(w, id), Queued) && RowIs(At(w, id), RowQueued)
    && At(w, id).row.value.attempts == attempts && At(w, id).row.value.maxAttempts == maxAttempts
  }

  predicate Buried(w: World, id: Id, attempts: int) {
    InState(At(w, id), State.Failed) && RowIs(At(w, id), RowDeadLetter) && At(w, id).row.value.attempts == attempts
  }

  lemma RefusedDispatch(w: World, id: Id, worker: Option<Worker>, now: Micros, wall: Seconds)
    requires InState(At(w, id), Queued) && RowIs(At(w, id), RowQueued)
    requires worker.Some? ==> At(w, id).row.value.worker == worker
    ensures Dispatch(w, id, worker, now, wall, REFUSAL) ==
        Reply(Handed(w, id, worker, now, wall, false), Raised(ClientError))
  {
    hide Perform, Process, TransitionTask;
    var h := Handed(w, id, worker, now, wall, false);
    assert RunAll(h, []) == h;
    assert DispatchQueued(w, id, worker, now, wall, REFUSAL) == Reply(h, Raised(ClientError));
  }

  lemma HandedKeeps(w: World, id: Id, worker: Option<Worker>, now: Micros, wall: Seconds)
    requires InState(At(w, id), Queued) && RowIs(At(w, id), RowQueued)
    ensures var r := At(Handed(w, id, worker, now, wall, false), id);
            && InState(r, Running) && RowIs(r, RowDispatched)
            && r.row.value.attempts == At(w, id).row.value.attempts &&
                r.row.value.maxAttempts == At(w, id).row.value.maxAttempts
            && r.row.value.worker == At(w, id).row.value.worker
  {
  }

  lemma RetryOnce(w: World, id: Id, item: Row, now: Micros, wall: Seconds)
    requires InState(At(w, id), Running) && At(w, id).row.Some? && At(w, id).row.value.maxAttempts == item.maxAttempts
    requires item.attempts + 1 < item.maxAttempts
    ensures Waiting(FailAttempt(w, id, item, now, wall).w, id, item.attempts + 1, item.maxAttempts)
  {
    hide TransitionTask;
  }

  lemma RetriedWorld(w: World, id: Id, item: Row, now: Micros, wall: Seconds)
    requires item.attempts + 1 < item.maxAttempts
    ensures FailAttempt(w, id, item, now, wall).w
            == Put(w, id, Retry(item.attempts + 1, Floor(now) + BackoffSeconds(w.cfg, item.attempts + 1), Floor(now),
                wall))
  {
    hide BackoffSeconds;
    assert Floor(now + BackoffSeconds(w.cfg, item.attempts + 1) * SECOND) ==
        Floor(now) + BackoffSeconds(w.cfg, item.attempts + 1);
  }

  lemma BuryOnce(w: World, id: Id, item: Row, now: Micros, wall: Seconds)
    requires InState(At(w, id), Running) && At(w, id).row.Some?
    requires item.attempts + 1 >= item.maxAttempts
    ensures Buried(FailAttempt(w, id, item, now, wall).w, id, item.attempts + 1)
  {
    var buried := Put(w, id, Bury(item.attempts + 1, Floor(now)));
    assert InState(At(buried, id), Running) && RowIs(At(buried, id), RowDeadLetter);
    var failed := TransitionTask(buried, id, State.Failed, wall);
    assert failed.out.Returned? && At(failed.w, id) == Apply(At(buried, id), Shift(State.Failed, wall));
  }

  lemma DriveOnce(w: World, id: Id, t: Try, attempts: int, maxAttempts: int)
    requires Waiting(w, id, attempts, maxAttempts)
    ensures var w' := Drive(w, id, t);
            if TurnedAway(w, id, t) then w' == w
            else if attempts + 1 < maxAttempts then Waiting(w', id, attempts + 1, maxAttempts)
            else Buried(w', id, attempts + 1)
  {
    hide Perform, RunAll, Dispatch, FailAttempt, Handed;
    var now := TryTime(w, id, t);
    var claimed := if t.worker.Some? then ClaimQueueItem(w, id, t.worker.value, now) else Answer(w, id);
    if !TurnedAway(w, id, t) {
      RefusedDispatch(claimed.w, id, t.worker, now, t.wall);
      HandedKeeps(claimed.w, id, t.worker, now, t.wall);
      var h, item := Handed(claimed.w, id, t.worker, now, t.wall, false), At(claimed.w, id).row.value;
      if item.attempts + 1 < item.maxAttempts {
        RetryOnce(h, id, item, now, t.wall);
      } else {
        BuryOnce(h, id, item, now, t.wall);
      }
    }
  }

  lemma BuriedStays(w: World, id: Id, t: Try, attempts: int)
    requires Buried(w, id, attempts)
    ensures Drive(w, id, t) == w
  {
  }

  // From a fresh row it takes exactly max(1, max_attempts) refusals to bury the task, whoever calls
  // and however late; until then it stays queued, counting one attempt for each call that no other
  // worker's lease turned away, and after that no call changes anything.
  lemma {:induction false} RefusalsBuryTheTask(w: World, id: Id, maxAttempts: int, tries: seq<Try>)
    requires Waiting(w, id, 0, maxAttempts)
    ensures var n, w' := Heard(w, id, tries), DriveAll(w, id, tries);
            if n < Max(1, maxAttempts) then Waiting(w', id, n, maxAttempts)
            else Buried(w', id, Max(1, maxAttempts)) && forall t :: Drive(w', id, t) == w'
  {
    hide Drive, Waiting, Buried, TurnedAway;
    if tries != [] {
      var init, t := tries[..|tries| - 1], tries[|tries| - 1];
      RefusalsBuryTheTask(w, id, maxAttempts, init);
      if Heard(w, id, init) < Max(1, maxAttempts) {
        DriveOnce(DriveAll(w, id, init), id, t, Heard(w, id, init), maxAttempts);
      }
    }
    if Heard(w, id, tries) >= Max(1, maxAttempts) {
      forall t ensures Drive(DriveAll(w, id, tries), id, t) == DriveAll(w, id, tries) {
        BuriedStays(DriveAll(w, id, tries), id, t, Max(1, maxAttempts));
      }
    }
  }

  // What enqueue_task leaves behind is such a row.
  lemma EnqueuedTasksWait(w: World, id: Id, wall: Seconds)
    requires EnqueueTask(w, id, wall).out.Returned?
    ensures Waiting(EnqueueTask(w, id, wall).w, id, 0, w.cfg.maxAttempts) &&
        At(EnqueueTask(w, id, wall).w, id).row.value.worker.None?
  {
  }
}
