// The service on its tables, run from an empty database through any number of processes: what is
// proved of histories holds of it.

module Assembly {
  import opened Records
  import opened Logs
  import opened Worlds
  import opened Engine
  import opened Soundness
  import opened Runs
  import opened Histories
  import opened Crashes
  import opened Database
  import opened Service

  // The processes that serve the calls one after the other, each of which dies when it is done.
  function WholeLives(w: World, served: seq<seq<Op>>): seq<Life>
    decreases |served|
  {
    if served == [] then []
    else
      var w' := RunAll(w, served[0]);
      [Life(served[0], |w'.trace|)] + WholeLives(Do(w', Crash), served[1..])
  }

  lemma DoneLife(w: World, ops: seq<Op>)
    requires AtRest(AnyClient, w)
    ensures var w' := RunAll(w, ops);
            Interrupted(w, w', |w'.trace|) == Do(w', Crash) && AtRest(AnyClient, Do(w', Crash))
  {
    FitsAny(ops);
    AllRun(AnyClient, w, ops);
    InterruptedAfter(w, RunAll(w, ops), |RunAll(w, ops).trace|);
    InterruptedAtRest(AnyClient, w, RunAll(w, ops), |RunAll(w, ops).trace|);
  }

  lemma BootsAtRest(cfg: Config)
    ensures AtRest(AnyClient, Boot(cfg))
  {
    RunsAreLawful(AnyClient, cfg, []);
  }

  lemma RestIsSound(w: World)
    requires AtRest(AnyClient, w)
    ensures SoundStore(w.db.work) && SoundStore(w.db.disk)
  {
    LawfulTracesAreSound(AnyClient, w.cfg, w.trace);
  }

  // What the tables hold is sound in memory and on disk.
  ghost predicate SoundTables(t: Tables) {
    && (forall id :: Replay(EventsOf(t.audit, id)) == StateOf(RecordIn(t, id)) && LegalLog(EventsOf(t.audit, id)))
    && (forall id :: id in t.queue ==> id in t.tasks)
    && (forall id :: id in t.queue ==> t.queue[id].status != RowRunning && t.queue[id].status != RowTimedOut)
    && (forall id :: ResultCount(EventsOf(t.audit, id)) == if id in t.results then 1 else 0)
    && (forall key :: key in t.keys ==> t.keys[key] in t.tasks)
  }

  lemma SoundStoresGiveSoundTables(t: Tables, s: Store)
    requires Represents(t, s) && SoundStore(s)
    ensures SoundTables(t)
  {
    forall id ensures SoundRecord(RecordIn(t, id)) {
      assert RecordIn(t, id) == Rec(s, id);
    }
    forall key | key in t.keys ensures t.keys[key] in t.tasks {
      assert RecordIn(t, t.keys[key]) == Rec(s, t.keys[key]);
    }
    forall id | id in t.queue
      ensures id in t.tasks && t.queue[id].status != RowRunning && t.queue[id].status != RowTimedOut
    {
      assert SoundRecord(RecordIn(t, id));
    }
    forall id ensures Replay(EventsOf(t.audit, id)) == StateOf(RecordIn(t, id)) && LegalLog(EventsOf(t.audit, id)) {
      assert SoundRecord(RecordIn(t, id));
    }
    forall id ensures ResultCount(EventsOf(t.audit, id)) == if id in t.results then 1 else 0 {
      assert SoundRecord(RecordIn(t, id));
    }
  }

  // Serving any calls of any client, in any number of processes, leaves tables, and committed
  // tables, in which every task's audit rows replay to its stored state, no row is running, and
  // results and result events match.
  method ServeFromEmpty(cfg: Config, served: seq<seq<Op>>, ops: seq<Op>) returns (service: PaperclipService)
    requires Listings(ops) && forall i :: 0 <= i < |served| ==> Listings(served[i])
    ensures service.Valid() && service.cfg == cfg
    ensures service.world == History(cfg, WholeLives(Boot(cfg), served), ops)
    ensures SoundTables(service.db.Rows()) && SoundTables(service.db.disk)
  {
    hide RunAll, AtRest, SoundTables, Interrupted;
    service := new PaperclipService(cfg);
    ghost var lives := WholeLives(Boot(cfg), served);
    BootsAtRest(cfg);
    for n := 0 to |served|
      invariant fresh(service) && fresh(service.db) && service.Valid() && service.cfg == cfg &&
          AtRest(AnyClient, service.world)
      invariant Survive(Boot(cfg), lives) == Survive(service.world, WholeLives(service.world, served[n..]))
    {
      assert served[n..][0] == served[n] && served[n..][1..] == served[n + 1..];
      DoneLife(service.world, served[n]);
      ghost var w := service.world;
      service.Serve(served[n]);
      service.Restart();
      ghost var rest := WholeLives(service.world, served[n + 1..]);
      assert WholeLives(w, served[n..]) == [Life(served[n], |RunAll(w, served[n]).trace|)] + rest;
      assert ([Life(served[n], |RunAll(w, served[n]).trace|)] + rest)[1..] == rest;
    }
    service.Serve(ops);
    AnyHistory(cfg, lives, ops);
    RestIsSound(service.world);
    SoundStoresGiveSoundTables(service.db.Rows(), service.world.db.work);
    SoundStoresGiveSoundTables(service.db.disk, service.world.db.disk);
  }
}
