// The approval gate of the queue, as an invariant of every record that moves alone can change.

module Gates {
  import opened Basics
  import opened StateMachine
  import opened Records
  import opened Logs
  import opened Worlds

  predicate Cleared(r: Record) {
    r.task.Some? && r.task.value.approval == StatusApproved && Granted(r.log)
  }

  // transition_task has just taken the task from approved to queued.
  predicate JustQueued(r: Record) {
    InState(r, Queued) && EndsWith(r.log, StateChanged(Approved, Queued))
  }

  // Before the queue there is no row; from there on the task has been cleared.
  predicate Gated(r: Record) {
    && (r.task.None? ==> r.row.None?)
    && (InState(r, Received) || InState(r, Validating) || InState(r, PendingApproval) ==> r.row.None?)
    && (InState(r, Approved) || JustQueued(r) ==> r.row.None? && Cleared(r))
    && (r.row.Some? ==> Cleared(r))
  }

  lemma ShiftKeepsGated(r: Record, to: State, at: Seconds)
    requires Gated(r) && r.task.Some? && CanTransition(r.task.value.state, to)
    ensures Gated(Apply(r, Shift(to, at)))
  {
    var e := StateChanged(r.task.value.state, to);
    SnocGranted(r.log, e);
    Snoc(r.log, e);
    SnocGranted(r.log + [e], ApprovalGranted);
    SnocGranted(r.log + [e], ApprovalRejected);
  }

  // An event that is silent about approvals, on a record whose state stays or is in the queue or cancelled.
  lemma SayKeepsGated(r: Record, r': Record, e: Event)
    requires Gated(r) && r'.log == r.log + [e]
    requires e != ApprovalGranted && e != ApprovalRequested && e != ApprovalReset && !e.StateChanged?
    requires r'.task.Some? == r.task.Some? && (r.task.Some? ==> r'.task.value.approval == r.task.value.approval)
    requires StateOf(r') == StateOf(r) || InState(r', Queued) || InState(r', Cancelled)
    requires r'.row.Some? ==> r.row.Some? || JustQueued(r)
    ensures r'.row.Some? == r.row.Some? || InState(r', Queued) ==> Gated(r')
  {
    SnocGranted(r.log, e);
    Snoc(r.log, e);
  }

  lemma ResetKeepsGated(r: Record, at: Seconds)
    requires Gated(r) && r.row.None?
    ensures Gated(Apply(r, Reset(at)))
  {
    Snoc(r.log, ApprovalReset);
  }

  // Moves that say nothing, or create or delete the task.
  lemma QuietMoveKeepsGated(cfg: Config, r: Record, m: Move)
    requires Gated(r) && Enabled(cfg, r, m) &&
        (m.Create? || m.NoteKey? || m.Ask? || m.Hand? || m.Bury? || m.Expire? || m.Erase?)
    ensures Gated(Apply(r, m))
  {
    hide Granted;
  }

  lemma MoveKeepsGated(cfg: Config, r: Record, m: Move)
    requires Gated(r) && Enabled(cfg, r, m) && (m.Reset? ==> r.row.None?)
    ensures Gated(Apply(r, m))
  {
    hide Gated;
    var r' := Apply(r, m);
    match m
    case Shift(to, at) => ShiftKeepsGated(r, to, at);
    case Note(event) => SayKeepsGated(r, r', event);
    case Insert(_, _) => SayKeepsGated(r, r', TaskEnqueued);
    case Claim(worker, _, expiry) => SayKeepsGated(r, r', TaskClaimed(worker, expiry));
    case Retry(attempts, nextAttemptAt, _, _) => SayKeepsGated(r, r', TaskRetryScheduled(attempts, nextAttemptAt));
    case Keep(_) => SayKeepsGated(r, r', ResultRecorded);
    case Cancel(_) => SayKeepsGated(r, r', TaskCancelled(r.task.value.state));
    case Requeue(_) => SayKeepsGated(r, r', TaskRecovered(r.row.value.worker.value));
    case Reset(at) => ResetKeepsGated(r, at);
    case _ => QuietMoveKeepsGated(cfg, r, m);
  }

  // The approval of the task has only ever been reset while the task had no queue row.
  predicate ResetsSpareRows(tr: seq<Action>, id: Id) {
    tr == [] ||
    var init, a := tr[..|tr| - 1], tr[|tr| - 1];
    ResetsSpareRows(init, id) && (a.Touch? && a.id == id && a.move.Reset? ==> Rec(After(init).work, id).row.None?)
  }

  // Every row has the configured attempts, and none has used a negative number of them.
  predicate QuotaKept(cfg: Config, r: Record) {
    r.row.Some? ==> r.row.value.maxAttempts == cfg.maxAttempts && 0 <= r.row.value.attempts
  }

  lemma {:induction false} QuotaAlongTrace(p: Profile, cfg: Config, tr: seq<Action>, id: Id)
    requires Lawful(p, cfg, tr) && Tame(p)
    ensures QuotaKept(cfg, Rec(After(tr).work, id)) && QuotaKept(cfg, Rec(After(tr).disk, id))
  {
    if tr != [] {
      var init, a := tr[..|tr| - 1], tr[|tr| - 1];
      QuotaAlongTrace(p, cfg, init, id);
      if Touches(a, id) {
        MoveKeepsQuota(p, cfg, init, After(init).work, id, a.move);
      }
    }
  }

  lemma MoveKeepsQuota(p: Profile, cfg: Config, tr: seq<Action>, s: Store, id: Id, m: Move)
    requires Tame(p) && QuotaKept(cfg, Rec(s, id)) && Enabled(cfg, Rec(s, id), m) &&
        Expected(p, cfg, tr, s, Touch(id, m))
    ensures QuotaKept(cfg, Apply(Rec(s, id), m))
  {
  }

  // Whatever else happens, such a task stays gated, in memory and on disk.
  lemma {:induction false} GatedAlongTrace(p: Profile, cfg: Config, tr: seq<Action>, id: Id)
    requires Lawful(p, cfg, tr) && ResetsSpareRows(tr, id)
    ensures Gated(Rec(After(tr).work, id)) && Gated(Rec(After(tr).disk, id))
  {
    hide Gated, Enabled, Apply;
    if tr == [] {
      BlankIsGated();
    } else {
      var init, a := tr[..|tr| - 1], tr[|tr| - 1];
      GatedAlongTrace(p, cfg, init, id);
      if a.Touch? && a.id == id {
        MoveKeepsGated(cfg, Rec(After(init).work, id), a.move);
      }
    }
  }

  lemma BlankIsGated()
    ensures Gated(BLANK)
  {
  }

  // Resets of listed tasks alone spare every row.
  lemma {:induction false} LawfulResetsSpareRows(p: Profile, cfg: Config, tr: seq<Action>, id: Id)
    requires Lawful(p, cfg, tr) && !FreeResets(p)
    ensures ResetsSpareRows(tr, id) && Gated(Rec(After(tr).work, id))
  {
    if tr != [] {
      var init := tr[..|tr| - 1];
      LawfulResetsSpareRows(p, cfg, init, id);
    }
    GatedAlongTrace(p, cfg, tr, id);
  }
}
