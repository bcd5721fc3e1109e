// The approval gate, and the agreement between states and approval statuses.

module Approvals {
  import opened Basics
  import opened StateMachine
  import opened Records
  import opened Logs
  import opened Worlds
  import opened Engine
  import opened Gates
  import opened Runs
  import opened Histories

  // ----- the gate

  // In the part of the trace from `n` on, the client is given the task only when it is cleared.
  ghost predicate HandedOverCleared(tr: seq<Action>, id: Id, n: nat) {
    forall k :: n <= k < |tr| && tr[k].Touch? && tr[k].id == id && tr[k].move.Hand? ==>
        Cleared(Rec(After(tr[..k]).work, id))
  }

  lemma SparedRowsKeepGate(p: Profile, cfg: Config, tr: seq<Action>, id: Id)
    requires Lawful(p, cfg, tr) && ResetsSpareRows(tr, id)
    ensures HandedOverCleared(tr, id, 0)
  {
    hide Cleared, Gated;
    forall k | 0 <= k < |tr| && tr[k].Touch? && tr[k].id == id && tr[k].move.Hand?
      ensures Cleared(Rec(After(tr[..k]).work, id))
    {
      LawfulPrefix(p, cfg, tr, k + 1);
      assert tr[..k + 1][..k] == tr[..k];
      ResetsSpareRowsBefore(tr, id, k);
      GatedAlongTrace(p, cfg, tr[..k], id);
      GatedRowsAreCleared(Rec(After(tr[..k]).work, id));
    }
  }

  lemma GatedRowsAreCleared(r: Record)
    requires Gated(r) && r.row.Some?
    ensures Cleared(r)
  {
  }

  lemma {:induction false} ResetsSpareRowsBefore(tr: seq<Action>, id: Id, k: nat)
    requires ResetsSpareRows(tr, id) && k <= |tr|
    ensures ResetsSpareRows(tr[..k], id)
    decreases |tr|
  {
    if k < |tr| {
      ResetsSpareRowsBefore(tr[..|tr| - 1], id, k);
      assert tr[..|tr| - 1][..k] == tr[..k];
    } else {
      assert tr[..k] == tr;
    }
  }

  // Whatever the client does, and across crashes: as long as the approval of a task is reset only
  // while the task has no queue row, the client is only ever handed the task when its approval
  // status is approved and its last approval request or reset has been granted since.
  lemma OnlyClearedTasksReachTheClient(cfg: Config, lives: seq<Life>, ops: seq<Op>, id: Id)
    requires ResetsSpareRows(History(cfg, lives, ops).trace, id)
    ensures HandedOverCleared(History(cfg, lives, ops).trace, id, 0)
  {
    AnyHistory(cfg, lives, ops);
    SparedRowsKeepGate(AnyClient, cfg, History(cfg, lives, ops).trace, id);
  }

  // Resetting only the approvals that list_stuck_approval_tasks names is enough for that.
  lemma ListedResetsSpareRows(cfg: Config, lives: seq<Life>, ops: seq<Op>, id: Id)
    requires FitsLives(ListedResets, lives) && FitsAll(ListedResets, ops)
    ensures ResetsSpareRows(History(cfg, lives, ops).trace, id)
  {
    HistoriesAreLawful(ListedResets, cfg, lives, ops);
    LawfulResetsSpareRows(ListedResets, cfg, History(cfg, lives, ops).trace, id);
  }

  // The i-th event grants an approval that nothing after it asks for again or takes back.
  ghost predicate StandingGrant(log: seq<Event>, i: int) {
    && 0 <= i < |log| && log[i] == ApprovalGranted
    && forall j :: i < j < |log| ==> log[j] != ApprovalRequested && log[j] != ApprovalReset
  }

  lemma {:induction false} GrantedMeans(log: seq<Event>)
    ensures Granted(log) <==> exists i :: StandingGrant(log, i)
  {
    if log != [] {
      var init, e := log[..|log| - 1], log[|log| - 1];
      GrantedMeans(init);
      if e == ApprovalGranted {
        assert StandingGrant(log, |log| - 1);
      } else if e == ApprovalRequested || e == ApprovalReset {
        assert forall i :: 0 <= i < |init| ==> !StandingGrant(log, i);
      } else {
        assert forall i :: StandingGrant(log, i) <==> StandingGrant(init, i);
      }
    }
  }

  // ----- reconciliation

  // `order` lists every task of the store.
  ghost predicate ListsTasks(s: Store, order: seq<Id>) {
    forall id :: Rec(s, id).task.Some? ==> id in order
  }

  // In every reachable store, whatever the client and the operators did, reconciliation finds
  // nothing, and the stuck approvals are exactly the pending tasks whose last update lies at least the
  // TTL back.
  lemma ApprovalStatusNeverDrifts(cfg: Config, lives: seq<Life>, ops: seq<Op>, now: Micros, order: seq<Id>)
    requires ListsTasks(History(cfg, lives, ops).db.work, order)
    ensures ReconcileApprovals(History(cfg, lives, ops).db.work, order) == []
    ensures var w := History(cfg, lives, ops);
            forall id :: id in StuckApprovals(w, now, order).reasons <==>
                         && InState(At(w, id), PendingApproval)
                         && (At(w, id).task.value.updatedAt + cfg.approvalTtl) * SECOND <= now
    ensures var w := History(cfg, lives, ops);
            forall id :: id in StuckApprovals(w, now, order).reasons ==>
                           StuckApprovals(w, now, order).reasons[id] == ExpiredPendingApproval
  {
    var w := History(cfg, lives, ops);
    AnyHistory(cfg, lives, ops);
    ReconcileRun(AnyClient, w, order);
    StuckRun(AnyClient, w, now, order);
    forall id | ApprovalLapsed(cfg, At(w, id), now) ensures id in order {
      assert Rec(w.db.work, id).task.Some?;
    }
  }
}
