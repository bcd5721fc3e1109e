// Whole histories: any number of processes that each serve some calls and die at an arbitrary
// moment, between any two actions, followed by one that is still alive.

module Histories {
  import opened Basics
  import opened StateMachine
  import opened Records
  import opened Worlds
  import opened Engine
  import opened Coupling
  import opened Runs

  // One process: the calls it was to serve, and how many actions it got to do before it died.
  datatype Life = Life(ops: seq<Op>, cut: nat)

  predicate FitsLives(p: Profile, lives: seq<Life>) {
    lives == [] || (FitsAll(p, lives[0].ops) && FitsLives(p, lives[1..]))
  }

  // The process that was to take `w` to `w'` dies after `cut` actions; the next one finds what is on disk.
  function Interrupted(w: World, w': World, cut: nat): World {
    var n := if |w.trace| + cut < |w'.trace| then |w.trace| + cut else |w'.trace|;
    var tr := w'.trace[..n] + [Crash];
    World(w.cfg, After(tr), tr)
  }

  function Survive(w: World, lives: seq<Life>): World
    decreases |lives|
  {
    if lives == [] then w else Survive(Interrupted(w, RunAll(w, lives[0].ops), lives[0].cut), lives[1..])
  }

  function History(cfg: Config, lives: seq<Life>, ops: seq<Op>): World {
    RunAll(Survive(Boot(cfg), lives), ops)
  }

  lemma {:induction false} FitsAny(ops: seq<Op>)
    ensures FitsAll(AnyClient, ops)
    decreases ops, 0
  {
    if ops != [] {
      FitsAnyOp(ops[0]);
      FitsAny(ops[1..]);
    }
  }

  lemma {:induction false} FitsAnyOp(op: Op)
    ensures Fits(AnyClient, op)
    decreases op, 0
  {
    match op
    case SubmitTask(_, _, _, _, _, turn) => FitsAny(turn.calls);
    case Approve(_, _, turn) => FitsAny(turn.calls);
    case ProcessQueue(_, _, _, _, turn) => FitsAny(turn.calls);
    case _ =>
  }

  lemma {:induction false} FitsAnyLives(lives: seq<Life>)
    ensures FitsLives(AnyClient, lives)
  {
    if lives != [] {
      FitsAny(lives[0].ops);
      FitsAnyLives(lives[1..]);
    }
  }

  // No process dies right after the commit of a transition that its caller had not finished with.
  predicate SafeDeaths(w: World, lives: seq<Life>)
    decreases |lives|
  {
    lives == [] ||
    (var w' := Interrupted(w, RunAll(w, lives[0].ops), lives[0].cut); !CutShort(w'.trace) && SafeDeaths(w', lives[1..]))
  }

  // With a clean client the committed store is coupled, except for a task that is halfway to
  // queued or to running because the call that took it there was cut short.
  lemma {:induction false} CommittedIsCoupledBut(p: Profile, cfg: Config, tr: seq<Action>, id: Id)
    requires Lawful(p, cfg, tr) && Clean(p)
    ensures if Passing(tr, id) then Halfway(Rec(After(tr).disk, id), LastSaved(tr).value.move.to)
            else CoupledRecord(Rec(After(tr).disk, id))
  {
    hide Enabled, Apply;
    if tr != [] {
      CommittedIsCoupledBut(p, cfg, tr[..|tr| - 1], id);
    }
  }

  // A lawful trace may end with a crash wherever its profile lets the process die.
  lemma CrashedWorld(p: Profile, cfg: Config, tr: seq<Action>)
    requires Lawful(p, cfg, tr) && !p.CleanClient? && !p.CleanOperators? && (p.CleanRestarts? ==> !CutShort(tr))
    ensures AtRest(p, World(cfg, After(tr + [Crash]), tr + [Crash]))
  {
    hide Lawful, Coupled;
    Step(p, World(cfg, After(tr), tr), Crash);
    CrashKeepsSaved(tr);
    if Clean(p) {
      CommittedIsCoupled(p, cfg, tr);
    }
  }

  lemma CommittedIsCoupled(p: Profile, cfg: Config, tr: seq<Action>)
    requires Lawful(p, cfg, tr) && Clean(p) && !CutShort(tr)
    ensures Coupled(After(tr).disk)
  {
    hide Lawful;
    forall id ensures CoupledRecord(Rec(After(tr).disk, id)) {
      CommittedIsCoupledBut(p, cfg, tr, id);
    }
  }

  lemma EndsLawful(p: Profile, w: World, w': World)
    requires Ends(p, w, w')
    ensures Lawful(p, w.cfg, w'.trace)
  {
  }

  lemma InterruptedAtRest(p: Profile, w: World, w': World, cut: nat)
    requires AtRest(p, w) && Ends(p, w, w') && !p.CleanClient? && !p.CleanOperators?
    requires p.CleanRestarts? ==> !CutShort(Interrupted(w, w', cut).trace)
    ensures AtRest(p, Interrupted(w, w', cut))
  {
    hide AtRest, Ends, Lawful, CutShort;
    var n := if |w.trace| + cut < |w'.trace| then |w.trace| + cut else |w'.trace|;
    EndsLawful(p, w, w');
    LawfulPrefix(p, w.cfg, w'.trace, n);
    SavedBeforeCrash(w'.trace[..n]);
    CrashedWorld(p, w.cfg, w'.trace[..n]);
  }

  lemma SavedBeforeCrash(tr: seq<Action>)
    ensures CutShort(tr + [Crash]) == CutShort(tr)
  {
    CrashKeepsSaved(tr);
  }

  lemma {:induction false} SurviveAtRest(p: Profile, w: World, lives: seq<Life>)
    requires AtRest(p, w) && FitsLives(p, lives) && !p.CleanClient? && !p.CleanOperators? &&
        (p.CleanRestarts? ==> SafeDeaths(w, lives))
    ensures AtRest(p, Survive(w, lives)) && Survive(w, lives).cfg == w.cfg
    decreases |lives|
  {
    hide AtRest, Ends, RunAll, CutShort;
    if lives != [] {
      var w' := RunAll(w, lives[0].ops);
      AllRun(p, w, lives[0].ops);
      InterruptedAtRest(p, w, w', lives[0].cut);
      SurviveAtRest(p, Interrupted(w, w', lives[0].cut), lives[1..]);
    }
  }

  lemma HistoriesAreLawful(p: Profile, cfg: Config, lives: seq<Life>, ops: seq<Op>)
    requires FitsLives(p, lives) && FitsAll(p, ops) && (p.CleanClient? || p.CleanOperators? ==> lives == [])
    requires p.CleanRestarts? ==> SafeDeaths(Boot(cfg), lives)
    ensures AtRest(p, History(cfg, lives, ops)) && History(cfg, lives, ops).cfg == cfg
  {
    RunsAreLawful(p, cfg, []);
    if !p.CleanClient? && !p.CleanOperators? {
      SurviveAtRest(p, Boot(cfg), lives);
    }
    AllRun(p, Survive(Boot(cfg), lives), ops);
  }

  // The same for a client of which nothing is known.
  lemma AnyHistory(cfg: Config, lives: seq<Life>, ops: seq<Op>)
    ensures AtRest(AnyClient, History(cfg, lives, ops)) && History(cfg, lives, ops).cfg == cfg
  {
    FitsAnyLives(lives);
    FitsAny(ops);
    HistoriesAreLawful(AnyClient, cfg, lives, ops);
  }

  // ----- tasks and rows across deaths of the process

  lemma CoupledMeans(r: Record)
    requires CoupledRecord(r)
    ensures (RowIs(r, RowQueued) <==> InState(r, Queued)) && (InState(r, Running) ==> RowIs(r, RowDispatched))
    ensures RowIs(r, RowDispatched) ==> InState(r, Running) || InState(r, Succeeded) || InState(r, Failed)
    ensures RowIs(r, RowDeadLetter) ==> InState(r, Failed) && r.row.value.attempts >= r.row.value.maxAttempts
    ensures RowIs(r, RowCancelled) ==> InState(r, Cancelled)
    ensures !RowIs(r, RowRunning) && !RowIs(r, RowTimedOut)
  {
  }

  // With a clean client, after any calls and any deaths that cut no enqueue and no hand-over short,
  // a row's status and its task's state go together.
  lemma RowsFollowStates(cfg: Config, lives: seq<Life>, ops: seq<Op>, id: Id)
    requires FitsLives(CleanRestarts, lives) && FitsAll(CleanRestarts, ops) && SafeDeaths(Boot(cfg), lives)
    ensures var r := At(History(cfg, lives, ops), id);
            && (RowIs(r, RowQueued) <==> InState(r, Queued))
            && (InState(r, Running) ==> RowIs(r, RowDispatched))
            && (RowIs(r, RowDispatched) ==> InState(r, Running) || InState(r, Succeeded) || InState(r, Failed))
            && (RowIs(r, RowDeadLetter) ==> InState(r, Failed) && r.row.value.attempts >= r.row.value.maxAttempts)
            && (RowIs(r, RowCancelled) ==> InState(r, Cancelled))
            && !RowIs(r, RowRunning) && !RowIs(r, RowTimedOut)
  {
    hide RunAll, Survive, Lawful;
    HistoriesAreLawful(CleanRestarts, cfg, lives, ops);
    CoupledMeans(Rec(History(cfg, lives, ops).db.work, id));
  }

  // The next death, after any number of actions, leaves exactly one task uncoupled if the last
  // commit before it was that of a transition to queued or to running, namely the task of that
  // transition, and none otherwise.
  lemma CrashUncouplesIff(cfg: Config, lives: seq<Life>, ops: seq<Op>, cut: nat, id: Id)
    requires FitsLives(CleanRestarts, lives) && FitsAll(CleanRestarts, ops) && SafeDeaths(Boot(cfg), lives)
    ensures var w := Survive(Boot(cfg), lives);
            var w' := Interrupted(w, RunAll(w, ops), cut);
            && (!CoupledRecord(At(w', id)) <==> Passing(w'.trace, id))
            && (!CoupledRecord(At(w', id)) ==> Halfway(At(w', id), LastSaved(w'.trace).value.move.to))
  {
    hide AtRest, Ends, RunAll, Survive, CoupledRecord, Halfway, CutShort, Lawful;
    var w := Survive(Boot(cfg), lives);
    HistoriesAreLawful(CleanRestarts, cfg, lives, []);
    assert History(cfg, lives, []) == w by {
      RunNothing(w);
    }
    AllRun(CleanRestarts, w, ops);
    DeathUncouplesIff(w, RunAll(w, ops), cut, id);
  }

  lemma RunNothing(w: World)
    ensures RunAll(w, []) == w
  {
  }

  lemma DeathUncouplesIff(w: World, w': World, cut: nat, id: Id)
    requires Ends(CleanRestarts, w, w')
    ensures var x := Interrupted(w, w', cut);
            && (!CoupledRecord(At(x, id)) <==> Passing(x.trace, id))
            && (!CoupledRecord(At(x, id)) ==> Halfway(At(x, id), LastSaved(x.trace).value.move.to))
  {
    hide Lawful, LastSaved, Halfway, CoupledRecord;
    var n := if |w.trace| + cut < |w'.trace| then |w.trace| + cut else |w'.trace|;
    LawfulPrefix(CleanRestarts, w'.cfg, w'.trace, n);
    var tr := w'.trace[..n];
    CrashKeepsSaved(tr);
    CommittedIsCoupledBut(CleanRestarts, w'.cfg, tr, id);
    HalfwayIsUncoupled(Rec(After(tr).disk, id));
  }

  lemma CrashKeepsSaved(tr: seq<Action>)
    ensures After(tr + [Crash]).work == After(tr).disk && LastSaved(tr + [Crash]) == LastSaved(tr)
  {
    assert (tr + [Crash])[..|tr|] == tr;
  }

  lemma HalfwayIsUncoupled(r: Record)
    ensures Halfway(r, Queued) || Halfway(r, Running) ==> !CoupledRecord(r)
  {
  }
}
