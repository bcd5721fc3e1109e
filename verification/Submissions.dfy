// Submitting the same idempotency key again changes nothing until its task is deleted.

module Submissions {
  import opened Basics
  import opened StateMachine
  import opened Records
  import opened Worlds
  import opened Engine
  import opened Soundness
  import opened Runs
  import opened Histories
  import opened AuditTrail

  // The key is recorded for the task, in memory and on disk.
  predicate Recorded(db: Db, key: Key, id: Id) {
    && key in db.work.keys && db.work.keys[key] == id
    && key in db.disk.keys && db.disk.keys[key] == id
  }

  lemma {:induction false} RecordedAlongTrace(p: Profile, cfg: Config, tr: seq<Action>, key: Key, id: Id, k: nat)
    requires Lawful(p, cfg, tr) && k <= |tr| && NotErased(tr[k..], id) && Recorded(After(tr[..k]), key, id)
    ensures Recorded(After(tr), key, id)
    decreases |tr|
  {
    if k == |tr| {
      assert tr[..k] == tr;
    } else {
      var init, a := tr[..|tr| - 1], tr[|tr| - 1];
      assert init[..k] == tr[..k];
      assert forall b :: b in init[k..] ==> b in tr[k..];
      assert a == tr[k..][|tr| - 1 - k];
      RecordedAlongTrace(p, cfg, init, key, id, k);
    }
  }

  // The first transition of a submission commits its key.
  lemma RegistrationIsCommitted(w: World, p: Payload, key: Key, webhook: bool, wall: Seconds)
    requires key != "" && At(w, p.id).task.None?
    ensures Recorded(TransitionTask(Register(w, p, key, webhook, wall), p.id, Validating, wall).w.db, key, p.id)
  {
    var w1 := Put(w, p.id, Create(InitialTask(p, wall), webhook));
    var w2 := Put(w1, p.id, NoteKey(key));
    assert InState(At(w1, p.id), Received) && InState(At(w2, p.id), Received);
    assert InState(At(Register(w, p, key, webhook, wall), p.id), Received);
  }

  // In every reachable store, a recorded key names an existing task, and submitting it again, with
  // any payload, returns that task and leaves the tables, the audit log and the client alone.
  lemma RecordedKeysNameTasks(cfg: Config, lives: seq<Life>, ops: seq<Op>, key: Key,
                              p: Payload, webhook: bool, now: Micros, wall: Seconds, turn: Turn)
    requires key != "" && key in History(cfg, lives, ops).db.work.keys
    ensures var w := History(cfg, lives, ops);
            && At(w, w.db.work.keys[key]).task.Some?
            && Submit(w, p, key, webhook, now, wall, turn) ==
                Reply(w, Returned(GetTask(w.db.work, w.db.work.keys[key])))
  {
    AnyHistory(cfg, lives, ops);
    LawfulTracesAreSound(AnyClient, cfg, History(cfg, lives, ops).trace);
  }

  // From the moment a key is recorded until its task is deleted, through any calls and crashes,
  // submitting it again does nothing but return that task.
  lemma ResubmissionIsIdempotent(cfg: Config, lives: seq<Life>, ops: seq<Op>, key: Key, id: Id, k: nat,
                                 p: Payload, webhook: bool, now: Micros, wall: Seconds, turn: Turn)
    requires key != "" && k <= |History(cfg, lives, ops).trace|
    requires Recorded(After(History(cfg, lives, ops).trace[..k]), key, id)
    requires NotErased(History(cfg, lives, ops).trace[k..], id)
    ensures var w := History(cfg, lives, ops);
            Submit(w, p, key, webhook, now, wall, turn) == Reply(w, Returned(GetTask(w.db.work, id)))
            && GetTask(w.db.work, id).Some?
  {
    var w := History(cfg, lives, ops);
    AnyHistory(cfg, lives, ops);
    RecordedAlongTrace(AnyClient, cfg, w.trace, key, id, k);
    RecordedKeysNameTasks(cfg, lives, ops, key, p, webhook, now, wall, turn);
  }

  // Submitting a new key and then submitting it again, with any payload, is as good as submitting
  // it once, unless the client deleted the task meanwhile.
  lemma SubmittingTwice(cfg: Config, lives: seq<Life>, ops: seq<Op>, p: Payload, key: Key, webhook: bool, now: Micros,
          wall: Seconds, turn: Turn,
                        p': Payload, webhook': bool, now': Micros, wall': Seconds, turn': Turn)
    requires key != "" && key !in History(cfg, lives, ops).db.work.keys
    requires ValidPayload(p) && At(History(cfg, lives, ops), p.id).task.None?
    requires var w := History(cfg, lives, ops);
             NotErased(Since(Submit(w, p, key, webhook, now, wall, turn).w.trace, |w.trace|), p.id)
    ensures var w' := Submit(History(cfg, lives, ops), p, key, webhook, now, wall, turn).w;
            && At(w', p.id).task.Some?
            && Submit(w', p', key, webhook', now', wall', turn') == Reply(w', Returned(GetTask(w'.db.work, p.id)))
  {
    hide Submit, TransitionTask, Register;
    var w := History(cfg, lives, ops);
    var w1 := TransitionTask(Register(w, p, key, webhook, wall), p.id, Validating, wall).w;
    var w' := Submit(w, p, key, webhook, now, wall, turn).w;
    AnyHistory(cfg, lives, ops);
    FitsAny(turn.calls);
    SubmitContinues(AnyClient, w, p, key, webhook, now, wall, turn);
    RegistrationIsCommitted(w, p, key, webhook, wall);
    assert w'.trace[..|w1.trace|] == w1.trace;
    var tail := w'.trace[|w1.trace|..];
    assert tail == Since(w'.trace, |w.trace|)[|w1.trace| - |w.trace|..];
    assert NotErased(tail, p.id);
    RecordedAlongTrace(AnyClient, cfg, w'.trace, key, p.id, |w1.trace|);
    LawfulTracesAreSound(AnyClient, cfg, w'.trace);
    RepeatedSubmit(w', p', key, webhook', now', wall', turn');
  }

  lemma RepeatedSubmit(w: World, p: Payload, key: Key, webhook: bool, now: Micros, wall: Seconds, turn: Turn)
    requires key != "" && SoundStore(w.db.work) && key in w.db.work.keys
    ensures At(w, w.db.work.keys[key]).task.Some?
    ensures Submit(w, p, key, webhook, now, wall, turn) == Answer(w, w.db.work.keys[key])
  {
  }
}
