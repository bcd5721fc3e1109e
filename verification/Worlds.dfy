// The store, its committed copy, and the trace of everything that happened to them.

module Worlds {
  import opened Basics
  import opened StateMachine
  import opened Records
  import opened Logs
  import opened Coupling

  datatype Config = Config(maxAttempts: int, backoff: Seconds, timeout: Seconds, lease: Seconds, approvalTtl: Seconds)

  // The tables, grouped by task, and the idempotency keys.
  datatype Store = Store(records: map<Id, Record>, keys: map<Key, Id>)

  const EMPTY_STORE := Store(map[], map[])

  function Rec(s: Store, id: Id): Record {
    if id in s.records then s.records[id] else BLANK
  }

  // The connection's view of the tables, and what a new process would find on disk.
  datatype Db = Db(work: Store, disk: Store)

  datatype Action =
    | Touch(id: Id, move: Move)
    | Commit
    | Crash

  predicate Touches(a: Action, id: Id) {
    a.Touch? && a.id == id
  }

  function KeysAfter(keys: map<Key, Id>, id: Id, m: Move): map<Key, Id> {
    match m
    case NoteKey(key) => keys[key := id]
    case Erase => map k | k in keys && keys[k] != id :: keys[k]
    case _ => keys
  }

  function Update(s: Store, id: Id, m: Move): Store {
    Store(s.records[id := Apply(Rec(s, id), m)], KeysAfter(s.keys, id, m))
  }

  function Act(db: Db, a: Action): Db {
    match a
    case Touch(id, m) => db.(work := Update(db.work, id, m))
    case Commit => db.(disk := db.work)
    case Crash => db.(work := db.disk)
  }

  // Where a fresh database ends up after the trace.
  function After(tr: seq<Action>): Db {
    if tr == [] then Db(EMPTY_STORE, EMPTY_STORE) else Act(After(tr[..|tr| - 1]), tr[|tr| - 1])
  }

  datatype World = World(cfg: Config, db: Db, trace: seq<Action>)

  function Do(w: World, a: Action): World {
    World(w.cfg, Act(w.db, a), w.trace + [a])
  }

  function Put(w: World, id: Id, m: Move): World {
    Do(w, Touch(id, m))
  }

  function At(w: World, id: Id): Record {
    Rec(w.db.work, id)
  }

  function Boot(cfg: Config): World {
    World(cfg, Db(EMPTY_STORE, EMPTY_STORE), [])
  }

  // ----- when the engine makes a move

  predicate Neutral(e: Event) {
    e == ApprovalExpired || e == ResultIgnored || e == MemoryProvenanceRecorded || e == TaskTimedOut ||
        e.TaskDeadLettered?
  }

  // Which transitions transition_task is called for: only a queued row is dispatched, a result is
  // announced only once, and cancelling is another operation.
  predicate ShiftGuard(r: Record, to: State) {
    && (to == Running ==> RowIs(r, RowQueued))
    && (to == Succeeded ==> r.result.None?)
    && (to == Failed ==> r.result.None? || RowIs(r, RowDeadLetter))
    && to != Cancelled
  }

  // What holds of a task's record whenever the engine makes the move, whatever the client does.
  predicate Enabled(cfg: Config, r: Record, m: Move) {
    match m
    case Create(task, webhook) => r.task.None? && task.state == Received
    case NoteKey(key) => InState(r, Received)
    case Ask => InState(r, Received)
    case Note(event) => Neutral(event)
    case Shift(to, at) => r.task.Some? && CanTransition(r.task.value.state, to) && ShiftGuard(r, to)
    case Insert(maxAttempts, at) =>
      InState(r, Queued) && EndsWith(r.log, StateChanged(Approved, Queued)) && maxAttempts == cfg.maxAttempts
    case Claim(worker, now, expiry) =>
      r.row.Some? && !HeldByOther(r.row.value, worker, now) && expiry == Floor(now) + cfg.lease
    case Hand(at, timeoutAt, accepted, holder, now) =>
      && InState(r, Running) && EndsWith(r.log, StateChanged(Queued, Running)) && RowIs(r, RowQueued)
      && (holder.Some? ==> r.row.value.worker == holder)
    case Retry(attempts, nextAttemptAt, failedAt, wall) => true
    case Bury(attempts, failedAt) => true
    case Keep(result) => r.task.Some? && r.result.None?
    case Cancel(at) => r.task.Some? && CanTransition(r.task.value.state, Cancelled)
    case Requeue(now) => r.task.Some? && r.row.Some? && LeaseLapsed(r.row.value, now)
    case Reset(at) => r.task.Some?
    case Expire => RowIs(r, RowRunning)
    case Erase => r.task.Some?
  }

  predicate Permitted(cfg: Config, s: Store, a: Action) {
    a.Touch? ==> Enabled(cfg, Rec(s, a.id), a.move) && (a.move.NoteKey? ==> a.move.key !in s.keys && a.id != "")
  }

  // ----- how the environment behaves

  datatype Profile =
    | AnyClient        // nothing is assumed
    | ListedResets     // approvals are reset only for listed tasks, which have no queue row
    | CleanClient      // moreover a client that raises has not re-entered the service, and the process does not crash
    | CleanRestarts    // the same, except that the process may crash unless it cuts an enqueue or a hand-over short
    | CleanDeaths      // the same, and the process may crash at any moment
    | CleanOperators   // a clean client and no crash, but approvals are reset at will

  // Tasks and rows are coupled at rest.
  predicate Clean(p: Profile) {
    p.CleanClient? || p.CleanRestarts?
  }

  // A client that raises has not re-entered the service.
  predicate Tame(p: Profile) {
    Clean(p) || p.CleanDeaths? || p.CleanOperators?
  }

  // Approvals may be reset behind queue rows.
  predicate FreeResets(p: Profile) {
    p.AnyClient? || p.CleanOperators?
  }

  function BackoffSeconds(cfg: Config, attempts: int): Seconds {
    cfg.backoff * Pow2(Max(0, attempts - 1))
  }

  // The action is a transition that the calling operation has not finished with: to queued, before
  // the row is inserted, or to running, before the row is marked.
  predicate InPassing(a: Action) {
    a.Touch? && a.move.Shift? && (a.move.to == Queued || a.move.to == Running)
  }

  // What was done last before the tables were last committed.
  function LastSaved(tr: seq<Action>): Option<Action> {
    if tr == [] then None
    else if tr[|tr| - 1] == Commit then (if |tr| == 1 then None else Some(tr[|tr| - 2]))
    else LastSaved(tr[..|tr| - 1])
  }

  // The last thing committed is such a transition.
  predicate CutShort(tr: seq<Action>) {
    LastSaved(tr).Some? && InPassing(LastSaved(tr).value)
  }

  // ... and it is the task's.
  predicate Passing(tr: seq<Action>, id: Id) {
    CutShort(tr) && LastSaved(tr).value.id == id
  }

  // What the record of a task in passing to `to` looks like.
  predicate Halfway(r: Record, to: State) {
    if to == Queued then InState(r, Queued) && r.row.None? else InState(r, Running) && RowIs(r, RowQueued)
  }

  // The client has just refused the task.
  predicate Refused(tr: seq<Action>, id: Id) {
    tr != [] && tr[|tr| - 1].Touch? && tr[|tr| - 1].id == id && tr[|tr| - 1].move.Hand? && !tr[|tr| - 1].move.accepted
  }

  // A dispatch attempt that ended in the client raising, seen right after it did.
  predicate JustRefused(tr: seq<Action>, r: Record, id: Id, attempts: int, failedAt: Seconds) {
    && InState(r, Running) && RowIs(r, RowDispatched)
    && Passing(tr, id)
    && Refused(tr, id)
    && attempts == r.row.value.attempts + 1 && r.row.value.nextAttemptAt <= failedAt
  }

  // An attempt that ended in the client raising, or that found the row queued but the task not.
  predicate FailedAttempt(tr: seq<Action>, r: Record, id: Id, attempts: int) {
    && r.row.Some? && attempts >= r.row.value.attempts + 1
    && (RowIs(r, RowQueued) || (InState(r, Running) && RowIs(r, RowDispatched) && Refused(tr, id)))
  }

  ghost predicate Coupled(s: Store) {
    forall id :: CoupledRecord(Rec(s, id))
  }

  // In the middle of a call on one task, every other task is coupled.
  ghost predicate CoupledBut(s: Store, id: Id) {
    forall i :: i != id ==> CoupledRecord(Rec(s, i))
  }

  // A commit right after an action on one task: every other task is coupled, and so is that one
  // unless it is in passing.
  ghost predicate TidyCommit(tr: seq<Action>, s: Store) {
    tr != [] && tr[|tr| - 1].Touch? && CoupledBut(s, tr[|tr| - 1].id) &&
        SavedWell(Rec(s, tr[|tr| - 1].id), tr[|tr| - 1])
  }

  predicate SavedWell(r: Record, a: Action) {
    if InPassing(a) then Halfway(r, a.move.to) else CoupledRecord(r)
  }

  // The last action deletes a task; the commit of the deletion is still to come.
  predicate Erasing(tr: seq<Action>) {
    tr != [] && tr[|tr| - 1].Touch? && tr[|tr| - 1].move.Erase?
  }

  // The last action takes a task to running; its commit is still to come.
  predicate Starting(tr: seq<Action>) {
    tr != [] && tr[|tr| - 1].Touch? && tr[|tr| - 1].move.Shift? && tr[|tr| - 1].move.to == Running
  }

  // ... and now it has been committed; the hand-over is still to come.
  predicate Started(tr: seq<Action>, id: Id) {
    && |tr| >= 2 && tr[|tr| - 1] == Commit
    && Touches(tr[|tr| - 2], id) && tr[|tr| - 2].move.Shift? && tr[|tr| - 2].move.to == Running
  }

  // No deletion and no hand-over is under way.
  predicate Free(tr: seq<Action>) {
    !Erasing(tr) && !Starting(tr) && (|tr| >= 2 && tr[|tr| - 2].Touch? ==> !Started(tr, tr[|tr| - 2].id))
  }

  // Nothing comes between a deletion or a transition to running and its commit, nor between that
  // commit and the hand-over, unless the process dies.
  predicate Follows(tr: seq<Action>, a: Action) {
    a.Touch? ==> Free(tr) || (a.move.Hand? && Started(tr, a.id))
  }

  // The trace ends with the commit of the task's deletion.
  predicate Deleted(tr: seq<Action>, id: Id) {
    |tr| >= 2 && tr[|tr| - 1] == Commit && tr[|tr| - 2] == Touch(id, Erase)
  }

  // What more is known of an action, made after the trace `tr`, under each profile.
  ghost predicate Expected(p: Profile, cfg: Config, tr: seq<Action>, s: Store, a: Action) {
    match a
    case Commit => tr != [] && tr[|tr| - 1].Touch? && (Clean(p) ==> TidyCommit(tr, s))
    case Crash => !p.CleanClient? && !p.CleanOperators? && (p.CleanRestarts? ==> !CutShort(tr))
    case Touch(id, m) =>
      match m
      case Insert(_, _) => Passing(tr, id)
      case Hand(_, _, _, holder, now) =>
        && Passing(tr, id) && Started(tr, id)
        && (holder.Some? ==>
          && |tr| >= 3 && tr[|tr| - 3] == Touch(id, Claim(holder.value, now, Floor(now) + cfg.lease))
          && tr[|tr| - 2].Touch? && tr[|tr| - 2].move.Shift? && tr[|tr| - 1] == Commit)
      case Reset(at) => FreeResets(p) ||
          (if p.ListedResets? then Rec(s, id).row.None? else InState(Rec(s, id), PendingApproval))
      case Retry(attempts, nextAttemptAt, failedAt, wall) =>
        Tame(p) ==>
          && FailedAttempt(tr, Rec(s, id), id, attempts) && attempts < Rec(s, id).row.value.maxAttempts
          && (Clean(p) ==> JustRefused(tr, Rec(s, id), id, attempts, failedAt))
          && nextAttemptAt == failedAt + BackoffSeconds(cfg, attempts)
      case Bury(attempts, failedAt) =>
        Tame(p) ==>
          && FailedAttempt(tr, Rec(s, id), id, attempts) && attempts >= Rec(s, id).row.value.maxAttempts
          && (Clean(p) ==> JustRefused(tr, Rec(s, id), id, attempts, failedAt))
      case _ => true
  }

  ghost predicate Lawful(p: Profile, cfg: Config, tr: seq<Action>) {
    tr == [] ||
    var init, a := tr[..|tr| - 1], tr[|tr| - 1];
    && Lawful(p, cfg, init) && Permitted(cfg, After(init).work, a) && Expected(p, cfg, init, After(init).work, a)
    && Follows(init, a)
  }

  // The world is what its trace made of a fresh database.
  predicate Replays(w: World) {
    w.db == After(w.trace)
  }

  // Moreover the trace obeys the profile.
  ghost predicate Linked(p: Profile, w: World) {
    Replays(w) && Lawful(p, w.cfg, w.trace)
  }

  lemma DoReplays(w: World, a: Action)
    requires Replays(w)
    ensures Replays(Do(w, a))
  {
    assert Do(w, a).trace[..|w.trace|] == w.trace;
  }

  lemma Step(p: Profile, w: World, a: Action)
    requires Linked(p, w) && Permitted(w.cfg, w.db.work, a) && Expected(p, w.cfg, w.trace, w.db.work, a)
    requires Follows(w.trace, a)
    ensures Linked(p, Do(w, a))
  {
    assert Do(w, a).trace[..|w.trace|] == w.trace;
  }

  lemma {:induction false} LawfulPrefix(p: Profile, cfg: Config, tr: seq<Action>, k: nat)
    requires Lawful(p, cfg, tr) && k <= |tr|
    ensures Lawful(p, cfg, tr[..k])
  {
    if k < |tr| {
      LawfulPrefix(p, cfg, tr[..|tr| - 1], k);
      assert tr[..|tr| - 1][..k] == tr[..k];
    } else {
      assert tr[..k] == tr;
    }
  }

  lemma LawfulLast(p: Profile, cfg: Config, tr: seq<Action>)
    requires tr != [] && Lawful(p, cfg, tr)
    ensures Permitted(cfg, After(tr[..|tr| - 1]).work, tr[|tr| - 1])
  {
  }
}
