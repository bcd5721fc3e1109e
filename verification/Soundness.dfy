// What holds of every store that any run can leave behind, whatever the client does: after every
// single move, on disk as well as in memory, and across crashes.

module Soundness {
  import opened Basics
  import opened StateMachine
  import opened Records
  import opened Logs
  import opened Worlds

  // The log replays to the stored state, every announced transition is legal, and it announces
  // exactly one result when one is stored.
  ghost predicate Chronicled(r: Record) {
    && Replay(r.log) == StateOf(r)
    && LegalLog(r.log)
    && ResultCount(r.log) == (if r.result.Some? then 1 else 0)
  }

  // No row is left running or timed out, and the approval status matches the state.
  ghost predicate Tidy(r: Record) {
    && (r.task.None? ==> r.row.None? && r.result.None?) && (InState(r, Running) ==> r.row.Some?)
    && (r.task.Some? ==> ApprovalAligned(r.task.value))
    && !RowIs(r, RowRunning) && !RowIs(r, RowTimedOut)
  }

  ghost predicate SoundRecord(r: Record) {
    Chronicled(r) && Tidy(r)
  }

  ghost predicate SoundStore(s: Store) {
    && (forall id :: SoundRecord(Rec(s, id)))
    && (forall k :: k in s.keys ==> s.keys[k] != "" && Rec(s, s.keys[k]).task.Some?)
  }

  lemma MoveKeepsTidy(cfg: Config, r: Record, m: Move)
    requires Tidy(r) && Enabled(cfg, r, m)
    ensures Tidy(Apply(r, m))
  {
  }

  lemma SayKeepsChronicle(r: Record, r': Record, e: Event)
    requires Chronicled(r) && r'.log == r.log + [e]
    requires LegalNext(StateOf(r), e) && StateOf(r') == ReplayNext(StateOf(r), e)
    requires if e == ResultRecorded then r.result.None? && r'.result.Some? else r'.result.Some? == r.result.Some?
    ensures Chronicled(r')
  {
    Snoc(r.log, e);
  }

  lemma ShiftKeepsChronicle(r: Record, to: State, at: Seconds)
    requires Chronicled(r) && r.task.Some? && CanTransition(r.task.value.state, to)
    ensures Chronicled(Apply(r, Shift(to, at)))
  {
    var e := StateChanged(r.task.value.state, to);
    var r1 := Say(SetState(r, to, at, ApprovalFor(to)), e);
    SayKeepsChronicle(r, r1, e);
    if to == Approved {
      SayKeepsChronicle(r1, Say(r1, ApprovalGranted), ApprovalGranted);
    } else if to == Rejected {
      SayKeepsChronicle(r1, Say(r1, ApprovalRejected), ApprovalRejected);
    }
  }

  lemma CreateKeepsChronicle(r: Record, task: Task, webhook: bool)
    requires Chronicled(r) && r.task.None? && task.state == Received
    ensures Chronicled(Apply(r, Create(task, webhook)))
  {
    var r1 := Say(r.(task := Some(task)), TaskReceived);
    SayKeepsChronicle(r, r1, TaskReceived);
    if webhook {
      SayKeepsChronicle(r1, Say(r1, WebhookRegistered), WebhookRegistered);
    }
  }

  lemma BlankIsChronicled()
    ensures Chronicled(BLANK)
  {
  }

  // Moves that announce one event and leave the task's state alone.
  lemma RemarkKeepsChronicle(cfg: Config, r: Record, m: Move)
    requires Chronicled(r) && Enabled(cfg, r, m)
    requires m.NoteKey? || m.Ask? || m.Note? || m.Insert? || m.Claim? || m.Keep?
    ensures Chronicled(Apply(r, m))
  {
    hide Chronicled, Replay, LegalLog, ResultCount;
    var r' := Apply(r, m);
    match m
    case NoteKey(key) => SayKeepsChronicle(r, r', IdempotencyKeyRecorded(key));
    case Ask => SayKeepsChronicle(r, r', ApprovalRequested);
    case Note(event) => SayKeepsChronicle(r, r', event);
    case Insert(_, _) => SayKeepsChronicle(r, r', TaskEnqueued);
    case Claim(worker, _, expiry) => SayKeepsChronicle(r, r', TaskClaimed(worker, expiry));
    case Keep(_) => SayKeepsChronicle(r, r', ResultRecorded);
  }

  lemma MoveKeepsChronicle(cfg: Config, r: Record, m: Move)
    requires Chronicled(r) && Enabled(cfg, r, m)
    ensures Chronicled(Apply(r, m))
  {
    hide Chronicled, Replay, LegalLog, ResultCount;
    var r' := Apply(r, m);
    match m
    case Create(task, webhook) => CreateKeepsChronicle(r, task, webhook);
    case Shift(to, at) => ShiftKeepsChronicle(r, to, at);
    case Retry(attempts, nextAttemptAt, _, _) => SayKeepsChronicle(r, r', TaskRetryScheduled(attempts, nextAttemptAt));
    case Cancel(_) => SayKeepsChronicle(r, r', TaskCancelled(r.task.value.state));
    case Requeue(_) => SayKeepsChronicle(r, r', TaskRecovered(r.row.value.worker.value));
    case Reset(_) => SayKeepsChronicle(r, r', ApprovalReset);
    case Hand(_, _, _, _, _) => SilenceKeepsChronicle(r, r');
    case Bury(_, _) => SilenceKeepsChronicle(r, r');
    case Expire => SilenceKeepsChronicle(r, r');
    case Erase => BlankIsChronicled();
    case _ => RemarkKeepsChronicle(cfg, r, m);
  }

  lemma SilenceKeepsChronicle(r: Record, r': Record)
    requires Chronicled(r) && r'.log == r.log && StateOf(r') == StateOf(r) && r'.result == r.result
    ensures Chronicled(r')
  {
  }

  lemma MoveKeepsStoreSound(cfg: Config, s: Store, id: Id, m: Move)
    requires SoundStore(s) && Permitted(cfg, s, Touch(id, m))
    ensures SoundStore(Update(s, id, m))
  {
    MoveKeepsTidy(cfg, Rec(s, id), m);
    MoveKeepsChronicle(cfg, Rec(s, id), m);
    var s' := Update(s, id, m);
    forall i ensures SoundRecord(Rec(s', i)) {
      assert i != id ==> Rec(s', i) == Rec(s, i);
    }
    forall k | k in s'.keys ensures s'.keys[k] != "" && Rec(s', s'.keys[k]).task.Some? {
      assert s'.keys[k] != id ==> Rec(s', s'.keys[k]) == Rec(s, s'.keys[k]);
      assert m.Erase? || Apply(Rec(s, id), m).task.Some? || Rec(s, id).task.None?;
    }
  }

  // Every store along a lawful trace is sound, and so is the committed one.
  lemma {:induction false} LawfulTracesAreSound(p: Profile, cfg: Config, tr: seq<Action>)
    requires Lawful(p, cfg, tr)
    ensures SoundStore(After(tr).work) && SoundStore(After(tr).disk)
  {
    if tr != [] {
      var init, a := tr[..|tr| - 1], tr[|tr| - 1];
      LawfulTracesAreSound(p, cfg, init);
      if a.Touch? {
        MoveKeepsStoreSound(cfg, After(init).work, a.id, a.move);
      }
    }
  }
}
