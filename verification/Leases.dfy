// Leases granted to different workers for one task: exactly when they never overlap, and that every
// dispatch by a worker falls inside a lease of its own.

module Leases {
  import opened Basics
  import opened Records
  import opened Worlds
  import opened Engine
  import opened Gates
  import opened Histories

  // Granted at `from`, running out at the stored second `until`.
  datatype Lease = Lease(worker: Worker, from: Micros, until: Seconds)

  // What a queue row shows of a lease.
  datatype Hold = Hold(worker: Worker, until: Seconds)

  predicate Claims(a: Action, id: Id) {
    a.Touch? && a.id == id && a.move.Claim?
  }

  // The leases granted for the task since it was last deleted, through renewals, retries,
  // stuck-job resets and crashes.
  function Grants(tr: seq<Action>, id: Id): seq<Lease> {
    if tr == [] || Deleted(tr, id) then [] else
      var earlier, a := Grants(tr[..|tr| - 1], id), tr[|tr| - 1];
      if Claims(a, id) then earlier + [Lease(a.move.worker, a.move.now, a.move.expiry)] else earlier
  }

  function HoldOn(row: Option<Row>): seq<Hold> {
    if row.Some? && row.value.worker.Some? && row.value.leaseExpiresAt.Some?
    then [Hold(row.value.worker.value, row.value.leaseExpiresAt.value)] else []
  }

  function RowAfter(tr: seq<Action>, id: Id): Option<Row> {
    Rec(After(tr).work, id).row
  }

  // The action takes the lease off the row without asking whether it has run out: enqueue_task
  // replaces the row, the deletion removes it, a crash forgets what was not committed, and a claim
  // does not see a holder whose name is empty.
  predicate Drops(row: Option<Row>, a: Action, id: Id) {
    || a == Crash
    || (a.Touch? && a.id == id &&
        (a.move.Insert? || a.move.Erase? || (a.move.Claim? && row.Some? && row.value.worker == Some(""))))
  }

  // The leases that were dropped since the task was last deleted.
  function Dropped(tr: seq<Action>, id: Id): seq<Hold> {
    if tr == [] || Deleted(tr, id) then [] else
      var init := tr[..|tr| - 1];
      Dropped(init, id) + if Drops(RowAfter(init, id), tr[|tr| - 1], id) then HoldOn(RowAfter(init, id)) else []
  }

  // Each claim came after the dropped leases of other workers had run out.
  predicate Patient(tr: seq<Action>, id: Id) {
    tr == [] || Deleted(tr, id) ||
    (var a := tr[|tr| - 1];
     Patient(tr[..|tr| - 1], id) &&
     (Claims(a, id) ==> forall d :: d in Dropped(tr, id) && d.worker != a.move.worker ==>
         d.until * SECOND <= a.move.now))
  }

  // The clock readings of the claims and stuck-job recoveries of the task.
  function Readings(tr: seq<Action>, id: Id): seq<Micros> {
    if tr == [] then [] else
      var earlier, a := Readings(tr[..|tr| - 1], id), tr[|tr| - 1];
      if Reads(a, id) then earlier + [a.move.now] else earlier
  }

  predicate Reads(a: Action, id: Id) {
    a.Touch? && a.id == id && (a.move.Claim? || a.move.Requeue?)
  }

  // The clock never goes back.
  predicate Steady(tr: seq<Action>, id: Id) {
    tr == [] ||
    (Steady(tr[..|tr| - 1], id) &&
     (Reads(tr[|tr| - 1], id) ==> Latest(Readings(tr[..|tr| - 1], id), tr[|tr| - 1].move.now)))
  }

  // No reading is later than `c`.
  predicate Latest(readings: seq<Micros>, c: Micros) {
    forall t :: t in readings ==> t <= c
  }

  predicate Disjoint(a: Lease, b: Lease) {
    a.until * SECOND <= b.from || b.until * SECOND <= a.from
  }

  ghost predicate Exclusive(leases: seq<Lease>) {
    forall a, b :: a in leases && b in leases && a.worker != b.worker ==> Disjoint(a, b)
  }

  // ----- where every lease is

  predicate Covers(h: Hold, l: Lease) {
    h.worker == l.worker && l.until <= h.until
  }

  // The lease has run out by `c`, or the row or a dropped lease of the same worker lasts as long.
  ghost predicate Accounted(row: Option<Row>, dropped: seq<Hold>, l: Lease, c: Micros) {
    l.until * SECOND <= c || exists h :: h in HoldOn(row) + dropped && Covers(h, l)
  }

  ghost predicate Shown(grants: seq<Lease>, h: Hold) {
    exists l :: l in grants && l.worker == h.worker && l.until == h.until
  }

  // The row shows no lease, or one that was granted.
  ghost predicate Backed(row: Option<Row>, grants: seq<Lease>) {
    && (row.Some? && row.value.worker.Some? ==> row.value.leaseExpiresAt.Some?)
    && forall h :: h in HoldOn(row) ==> Shown(grants, h)
  }

  ghost predicate Booked(cfg: Config, row: Option<Row>, disk: Option<Row>, grants: seq<Lease>, dropped: seq<Hold>,
          c: Micros) {
    && (forall l :: l in grants ==> l.from <= c && l.until == Floor(l.from) + cfg.lease)
    && (forall l :: l in grants ==> Accounted(row, dropped, l, c))
    && Backed(row, grants) && Backed(disk, grants)
    && (forall d :: d in dropped ==> Shown(grants, d))
  }

  ghost predicate BookedAfter(cfg: Config, tr: seq<Action>, id: Id, c: Micros) {
    Booked(cfg, RowAfter(tr, id), Rec(After(tr).disk, id).row, Grants(tr, id), Dropped(tr, id), c)
  }

  lemma NothingBooked(cfg: Config, c: Micros)
    ensures Booked(cfg, None, None, [], [], c)
  {
  }

  // A row whose lease columns stay, or that loses them to the dropped leases.
  lemma RowKeepsBooked(cfg: Config, row: Option<Row>, disk: Option<Row>, grants: seq<Lease>, dropped: seq<Hold>,
          c: Micros, row': Option<Row>, disk': Option<Row>, lost: seq<Hold>)
    requires Booked(cfg, row, disk, grants, dropped, c)
    requires Backed(row', grants) && Backed(disk', grants)
    requires (HoldOn(row') == HoldOn(row) && lost == []) || lost == HoldOn(row)
    ensures Booked(cfg, row', disk', grants, dropped + lost, c)
  {
    forall l | l in grants ensures Accounted(row', dropped + lost, l, c) {
      if l.until * SECOND > c {
        var h :| h in HoldOn(row) + dropped && Covers(h, l);
        assert h in HoldOn(row') + (dropped + lost);
      }
    }
  }

  lemma RequeueKeepsBooked(cfg: Config, r: Record, disk: Option<Row>, grants: seq<Lease>, dropped: seq<Hold>,
          now: Micros)
    requires Booked(cfg, r.row, disk, grants, dropped, now) && r.row.Some? && LeaseLapsed(r.row.value, now)
    ensures Booked(cfg, Apply(r, Requeue(now)).row, disk, grants, dropped, now)
  {
    var row' := Apply(r, Requeue(now)).row;
    forall l | l in grants ensures Accounted(row', dropped, l, now) {
      if l.until * SECOND > now {
        var h :| h in HoldOn(r.row) + dropped && Covers(h, l);
        assert h in HoldOn(row') + dropped;
      }
    }
  }

  lemma Later(cfg: Config, row: Option<Row>, disk: Option<Row>, grants: seq<Lease>, dropped: seq<Hold>, c: Micros,
          c': Micros)
    requires Booked(cfg, row, disk, grants, dropped, c) && c <= c'
    ensures Booked(cfg, row, disk, grants, dropped, c')
  {
    forall l | l in grants ensures Accounted(row, dropped, l, c') {
      assert Accounted(row, dropped, l, c);
    }
  }

  // What a claim does to the row, and what it drops.
  function ClaimDrops(row: Option<Row>): seq<Hold> {
    if row.Some? && row.value.worker == Some("") then HoldOn(row) else []
  }

  lemma ClaimedRow(r: Record, worker: Worker, now: Micros, expiry: Seconds)
    requires r.row.Some?
    ensures var row' := Apply(r, Claim(worker, now, expiry)).row;
            HoldOn(row') == [Hold(worker, expiry)] && row'.Some? && row'.value.leaseExpiresAt.Some?
  {
  }

  // The worker's own leases are renewed; those of others have run out, or are dropped now or before.
  lemma OldLeaseAccounted(cfg: Config, row: Option<Row>, disk: Option<Row>, grants: seq<Lease>, dropped: seq<Hold>,
          worker: Worker, now: Micros, l: Lease)
    requires Booked(cfg, row, disk, grants, dropped, now) && row.Some? && !HeldByOther(row.value, worker, now) &&
        l in grants
    requires l.until * SECOND > now
    ensures exists h :: h in [Hold(worker, Floor(now) + cfg.lease)] + (dropped + ClaimDrops(row)) && Covers(h, l)
  {
    var holds := [Hold(worker, Floor(now) + cfg.lease)] + (dropped + ClaimDrops(row));
    var h :| h in HoldOn(row) + dropped && Covers(h, l);
    if h in dropped + ClaimDrops(row) {
      assert h in holds;
    } else {
      assert h.worker == worker;
      assert Hold(worker, Floor(now) + cfg.lease) in holds && Covers(Hold(worker, Floor(now) + cfg.lease), l);
    }
  }

  lemma ClaimKeepsBooked(cfg: Config, r: Record, disk: Option<Row>, grants: seq<Lease>, dropped: seq<Hold>,
          worker: Worker, now: Micros)
    requires Booked(cfg, r.row, disk, grants, dropped, now) && r.row.Some? && !HeldByOther(r.row.value, worker, now)
    ensures Booked(cfg, Apply(r, Claim(worker, now, Floor(now) + cfg.lease)).row, disk,
                   grants + [Lease(worker, now, Floor(now) + cfg.lease)], dropped + ClaimDrops(r.row), now)
  {
    hide Apply, HeldByOther, HoldOn, Shown;
    var l' := Lease(worker, now, Floor(now) + cfg.lease);
    var row' := Apply(r, Claim(worker, now, l'.until)).row;
    ClaimedRow(r, worker, now, l'.until);
    forall l | l in grants + [l'] ensures l.from <= now && Accounted(row', dropped + ClaimDrops(r.row), l, now) {
      if l in grants {
        if l.until * SECOND > now {
          OldLeaseAccounted(cfg, r.row, disk, grants, dropped, worker, now, l);
        }
      } else {
        assert Hold(worker, l'.until) in [Hold(worker, l'.until)] + (dropped + ClaimDrops(r.row));
        assert Covers(Hold(worker, l'.until), l);
      }
    }
    NewHoldShown(grants, l');
    forall h | h in HoldOn(disk) + (dropped + ClaimDrops(r.row)) ensures Shown(grants + [l'], h) {
      assert h in HoldOn(disk) || h in dropped || h in HoldOn(r.row);
      ShownLater(grants, l', h);
    }
  }

  lemma NewHoldShown(grants: seq<Lease>, l: Lease)
    ensures Shown(grants + [l], Hold(l.worker, l.until))
  {
    assert l in grants + [l];
  }

  lemma ShownLater(grants: seq<Lease>, l': Lease, h: Hold)
    requires Shown(grants, h)
    ensures Shown(grants + [l'], h)
  {
    var l :| l in grants && l.worker == h.worker && l.until == h.until;
    assert l in grants + [l'];
  }

  // ----- along whole histories

  lemma SomeLatest(readings: seq<Micros>) returns (c: Micros)
    ensures Latest(readings, c)
  {
    if readings == [] {
      c := 0;
    } else {
      var c0 := SomeLatest(readings[1..]);
      c := Max(c0, readings[0]);
      assert readings == [readings[0]] + readings[1..];
    }
  }

  lemma {:induction false} BookedAlongTrace(p: Profile, cfg: Config, tr: seq<Action>, id: Id, c: Micros)
    requires Lawful(p, cfg, tr) && Steady(tr, id) && Latest(Readings(tr, id), c)
    ensures BookedAfter(cfg, tr, id, c)
  {
    hide Booked, Enabled, Apply, Drops, HoldOn;
    if tr == [] {
      NothingBooked(cfg, c);
    } else {
      var init, a := tr[..|tr| - 1], tr[|tr| - 1];
      var now := if Reads(a, id) then a.move.now else c;
      if Reads(a, id) {
        assert Readings(tr, id)[|Readings(init, id)|] == now && now in Readings(tr, id);
        BookedAlongTrace(p, cfg, init, id, now);
      } else {
        BookedAlongTrace(p, cfg, init, id, c);
      }
      ActionKeepsBooked(p, cfg, tr, id, now);
      Later(cfg, RowAfter(tr, id), Rec(After(tr).disk, id).row, Grants(tr, id), Dropped(tr, id), now, c);
    }
  }

  lemma ActionKeepsBooked(p: Profile, cfg: Config, tr: seq<Action>, id: Id, c: Micros)
    requires tr != [] && Lawful(p, cfg, tr) && BookedAfter(cfg, tr[..|tr| - 1], id, c)
    requires Reads(tr[|tr| - 1], id) ==> tr[|tr| - 1].move.now == c
    ensures BookedAfter(cfg, tr, id, c)
  {
    hide BookedAfter, Lawful;
    LawfulLast(p, cfg, tr);
    if Deleted(tr, id) {
      DeletionKeepsBooked(cfg, tr, id, c);
    } else if Claims(tr[|tr| - 1], id) {
      ClaimActionKeepsBooked(cfg, tr, id, c);
    } else if Reads(tr[|tr| - 1], id) {
      RequeueActionKeepsBooked(cfg, tr, id, c);
    } else {
      OtherKeepsBooked(cfg, tr, id, c);
    }
  }

  lemma DeletionKeepsBooked(cfg: Config, tr: seq<Action>, id: Id, c: Micros)
    requires Deleted(tr, id)
    ensures BookedAfter(cfg, tr, id, c)
  {
    hide Booked;
    assert After(tr).work == After(tr[..|tr| - 1]).work && Rec(After(tr[..|tr| - 1]).work, id) == BLANK;
    NothingBooked(cfg, c);
  }

  lemma ClaimActionKeepsBooked(cfg: Config, tr: seq<Action>, id: Id, c: Micros)
    requires tr != [] && Permitted(cfg, After(tr[..|tr| - 1]).work, tr[|tr| - 1]) &&
        BookedAfter(cfg, tr[..|tr| - 1], id, c)
    requires Claims(tr[|tr| - 1], id) && tr[|tr| - 1].move.now == c
    ensures BookedAfter(cfg, tr, id, c)
  {
    hide Booked, Apply, HeldByOther, HoldOn;
    var init, m := tr[..|tr| - 1], tr[|tr| - 1].move;
    var r := Rec(After(init).work, id);
    ClaimKeepsBooked(cfg, r, Rec(After(init).disk, id).row, Grants(init, id), Dropped(init, id), m.worker, c);
    assert Dropped(tr, id) == Dropped(init, id) + ClaimDrops(r.row);
    assert Grants(tr, id) == Grants(init, id) + [Lease(m.worker, c, m.expiry)];
  }

  lemma RequeueActionKeepsBooked(cfg: Config, tr: seq<Action>, id: Id, c: Micros)
    requires tr != [] && Permitted(cfg, After(tr[..|tr| - 1]).work, tr[|tr| - 1]) &&
        BookedAfter(cfg, tr[..|tr| - 1], id, c)
    requires Reads(tr[|tr| - 1], id) && !Claims(tr[|tr| - 1], id) && tr[|tr| - 1].move.now == c
    ensures BookedAfter(cfg, tr, id, c)
  {
    hide Booked, Apply, LeaseLapsed, HoldOn;
    var init := tr[..|tr| - 1];
    RequeueKeepsBooked(cfg, Rec(After(init).work, id), Rec(After(init).disk, id).row, Grants(init, id),
        Dropped(init, id), c);
    assert Dropped(tr, id) == Dropped(init, id);
  }

  lemma OtherKeepsBooked(cfg: Config, tr: seq<Action>, id: Id, c: Micros)
    requires tr != [] && Permitted(cfg, After(tr[..|tr| - 1]).work, tr[|tr| - 1])
    requires BookedAfter(cfg, tr[..|tr| - 1], id, c) && !Deleted(tr, id) && !Reads(tr[|tr| - 1], id)
    ensures BookedAfter(cfg, tr, id, c)
  {
    hide HoldOn, Shown, Accounted, Enabled, Apply;
    var init, a := tr[..|tr| - 1], tr[|tr| - 1];
    var row, disk := RowAfter(init, id), Rec(After(init).disk, id).row;
    if Touches(a, id) {
      MoveKeepsHold(cfg, Rec(After(init).work, id), a.move, Grants(init, id));
    }
    RowKeepsBooked(cfg, row, disk, Grants(init, id), Dropped(init, id), c, RowAfter(tr, id),
        Rec(After(tr).disk, id).row,
                   if Drops(row, a, id) then HoldOn(row) else []);
  }

  // Moves other than claims and recoveries keep the lease columns, or drop them with the row.
  lemma MoveKeepsHold(cfg: Config, r: Record, m: Move, grants: seq<Lease>)
    requires Enabled(cfg, r, m) && !m.Claim? && !m.Requeue? && Backed(r.row, grants)
    ensures Backed(Apply(r, m).row, grants)
    ensures m.Insert? || m.Erase? || HoldOn(Apply(r, m).row) == HoldOn(r.row)
  {
    hide Shown;
  }

  // Over any history of any client, with resets, recoveries, deletions and crashes, and a clock that
  // does not go back: leases of different workers are disjoint exactly when every claim came after
  // the dropped leases of other workers had run out.
  lemma LeasesAreExclusiveIff(cfg: Config, lives: seq<Life>, ops: seq<Op>, id: Id)
    requires cfg.lease >= 1 && Steady(History(cfg, lives, ops).trace, id)
    ensures Exclusive(Grants(History(cfg, lives, ops).trace, id)) <==> Patient(History(cfg, lives, ops).trace, id)
  {
    AnyHistory(cfg, lives, ops);
    if Patient(History(cfg, lives, ops).trace, id) {
      PatientIsExclusive(AnyClient, cfg, History(cfg, lives, ops).trace, id);
    }
    if Exclusive(Grants(History(cfg, lives, ops).trace, id)) {
      ExclusiveIsPatient(AnyClient, cfg, History(cfg, lives, ops).trace, id);
    }
  }

  lemma {:induction false} PatientIsExclusive(p: Profile, cfg: Config, tr: seq<Action>, id: Id)
    requires Lawful(p, cfg, tr) && Steady(tr, id) && Patient(tr, id)
    ensures Exclusive(Grants(tr, id))
  {
    hide Booked, Dropped, Drops;
    if tr != [] && !Deleted(tr, id) {
      var init, a := tr[..|tr| - 1], tr[|tr| - 1];
      PatientIsExclusive(p, cfg, init, id);
      if Claims(a, id) {
        BookedAlongTrace(p, cfg, init, id, a.move.now);
        PatientClaimIsLate(p, cfg, tr, id);
      }
    }
  }

  // A patient claim is made after the leases of all other workers have run out.
  lemma PatientClaimIsLate(p: Profile, cfg: Config, tr: seq<Action>, id: Id)
    requires tr != [] && Lawful(p, cfg, tr) && Patient(tr, id) && !Deleted(tr, id) && Claims(tr[|tr| - 1], id)
    requires BookedAfter(cfg, tr[..|tr| - 1], id, tr[|tr| - 1].move.now)
    ensures forall l :: l in Grants(tr[..|tr| - 1], id) && l.worker != tr[|tr| - 1].move.worker ==>
        l.until * SECOND <= tr[|tr| - 1].move.now
  {
    hide Lawful, Expected, Patient, Apply, After, Shown, HoldOn, HeldByOther, Accounted;
    var init, m := tr[..|tr| - 1], tr[|tr| - 1].move;
    LawfulLast(p, cfg, tr);
    PatientLast(tr, id);
    assert Dropped(tr, id) == Dropped(init, id) + ClaimDrops(RowAfter(init, id));
    PatientWaits(RowAfter(init, id), Grants(init, id), Dropped(init, id), m.worker, m.now);
  }

  lemma PatientWaits(row: Option<Row>, grants: seq<Lease>, dropped: seq<Hold>, worker: Worker, now: Micros)
    requires row.Some? && !HeldByOther(row.value, worker, now)
    requires forall l :: l in grants ==> Accounted(row, dropped, l, now)
    requires forall d :: d in dropped + ClaimDrops(row) && d.worker != worker ==> d.until * SECOND <= now
    ensures forall l :: l in grants && l.worker != worker ==> l.until * SECOND <= now
  {
    hide HeldByOther, HoldOn;
    forall h | h in HoldOn(row) && h.worker != worker ensures h.until * SECOND <= now {
      HeldRunsOut(row, worker, now, h);
    }
    forall l | l in grants && l.worker != worker ensures l.until * SECOND <= now {
      assert Accounted(row, dropped, l, now);
    }
  }

  lemma HeldRunsOut(row: Option<Row>, worker: Worker, now: Micros, h: Hold)
    requires row.Some? && !HeldByOther(row.value, worker, now) && h in HoldOn(row) && h.worker != worker
    ensures h in ClaimDrops(row) || h.until * SECOND <= now
  {
  }

  lemma PatientLast(tr: seq<Action>, id: Id)
    requires tr != [] && Patient(tr, id) && !Deleted(tr, id) && Claims(tr[|tr| - 1], id)
    ensures forall d :: d in Dropped(tr, id) && d.worker != tr[|tr| - 1].move.worker ==>
        d.until * SECOND <= tr[|tr| - 1].move.now
  {
  }

  lemma {:induction false} ExclusiveIsPatient(p: Profile, cfg: Config, tr: seq<Action>, id: Id)
    requires Lawful(p, cfg, tr) && Steady(tr, id) && Exclusive(Grants(tr, id)) && cfg.lease >= 1
    ensures Patient(tr, id)
  {
    hide Booked, Dropped, Drops;
    if tr != [] && !Deleted(tr, id) {
      var init, a := tr[..|tr| - 1], tr[|tr| - 1];
      assert forall l :: l in Grants(init, id) ==> l in Grants(tr, id);
      ExclusiveIsPatient(p, cfg, init, id);
      if Claims(a, id) {
        BookedAlongTrace(p, cfg, init, id, a.move.now);
        ExclusiveClaimIsLate(p, cfg, tr, id);
      }
    }
  }

  lemma ExclusiveClaimIsLate(p: Profile, cfg: Config, tr: seq<Action>, id: Id)
    requires tr != [] && Lawful(p, cfg, tr) && Exclusive(Grants(tr, id)) && !Deleted(tr, id) &&
        Claims(tr[|tr| - 1], id) && cfg.lease >= 1
    requires BookedAfter(cfg, tr[..|tr| - 1], id, tr[|tr| - 1].move.now)
    ensures forall d :: d in Dropped(tr, id) && d.worker != tr[|tr| - 1].move.worker ==>
        d.until * SECOND <= tr[|tr| - 1].move.now
  {
    hide Lawful, Expected, Exclusive, Apply, After, HoldOn, Shown, Accounted;
    var init, m := tr[..|tr| - 1], tr[|tr| - 1].move;
    LawfulLast(p, cfg, tr);
    assert Grants(tr, id) == Grants(init, id) + [Lease(m.worker, m.now, Floor(m.now) + cfg.lease)];
    forall d | d in Dropped(tr, id) ensures Shown(Grants(init, id), d) {
      assert d in Dropped(init, id) || d in HoldOn(RowAfter(init, id));
    }
    ExclusiveWaits(cfg, Grants(init, id), Dropped(tr, id), m.worker, m.now);
  }

  lemma ExclusiveWaits(cfg: Config, grants: seq<Lease>, dropped: seq<Hold>, worker: Worker, now: Micros)
    requires cfg.lease >= 1 && Exclusive(grants + [Lease(worker, now, Floor(now) + cfg.lease)])
    requires forall l :: l in grants ==> l.from <= now
    requires forall d :: d in dropped ==> Shown(grants, d)
    ensures forall d :: d in dropped && d.worker != worker ==> d.until * SECOND <= now
  {
    var l' := Lease(worker, now, Floor(now) + cfg.lease);
    forall d | d in dropped && d.worker != worker ensures d.until * SECOND <= now {
      assert Shown(grants, d);
      var l :| l in grants && l.worker == d.worker && l.until == d.until;
      assert l in grants + [l'] && l' in grants + [l'] && Disjoint(l, l');
    }
  }

  // ----- as the lease guard promises it

  // The process does not crash, and workers have names.
  predicate Undisturbed(tr: seq<Action>, id: Id) {
    forall a :: a in tr ==> a != Crash && (Claims(a, id) ==> a.move.worker != "")
  }

  // Then nothing but the deletion itself takes a lease off the row.
  lemma {:induction false} NothingDropped(p: Profile, cfg: Config, tr: seq<Action>, id: Id)
    requires Lawful(p, cfg, tr) && Undisturbed(tr, id) && ResetsSpareRows(tr, id)
    ensures tr == [] || tr[|tr| - 1] != Touch(id, Erase) ==> Dropped(tr, id) == []
    ensures Patient(tr, id)
    ensures RowAfter(tr, id).Some? ==> RowAfter(tr, id).value.worker != Some("")
  {
    hide Gated, Expected, Apply, Enabled;
    if tr != [] {
      var init, a := tr[..|tr| - 1], tr[|tr| - 1];
      assert a in tr && forall b :: b in init ==> b in tr;
      NothingDropped(p, cfg, init, id);
      GatedAlongTrace(p, cfg, init, id);
      if a.Touch? && a.id == id {
        if a.move.Insert? {
          InsertedFirst(cfg, Rec(After(init).work, id), a.move);
        }
        MoveKeepsNames(cfg, Rec(After(init).work, id), a.move);
      }
    }
  }

  lemma InsertedFirst(cfg: Config, r: Record, m: Move)
    requires Gated(r) && Enabled(cfg, r, m) && m.Insert?
    ensures r.row.None?
  {
  }

  lemma MoveKeepsNames(cfg: Config, r: Record, m: Move)
    requires r.row.Some? ==> r.row.value.worker != Some("")
    requires m.Claim? ==> m.worker != ""
    ensures Apply(r, m).row.Some? ==> Apply(r, m).row.value.worker != Some("")
  {
  }

  // Any client, stuck-job recoveries and deletions included: leases of different workers are
  // disjoint, provided that approvals are reset only while there is no queue row.
  lemma LeasesAreExclusive(cfg: Config, ops: seq<Op>, id: Id)
    requires var tr := Run(cfg, ops).trace; Steady(tr, id) && Undisturbed(tr, id) && ResetsSpareRows(tr, id)
    ensures Exclusive(Grants(Run(cfg, ops).trace, id))
  {
    AnyHistory(cfg, [], ops);
    NothingDropped(AnyClient, cfg, Run(cfg, ops).trace, id);
    PatientIsExclusive(AnyClient, cfg, Run(cfg, ops).trace, id);
  }

  // When leases last at least a second, whoever process_queue dispatches for holds a lease then.
  lemma DispatchesFallInsideLeases(cfg: Config, lives: seq<Life>, ops: seq<Op>, id: Id, k: nat)
    requires cfg.lease >= 1 && k < |History(cfg, lives, ops).trace|
    requires var a := History(cfg, lives, ops).trace[k]; a.Touch? && a.id == id && a.move.Hand? && a.move.holder.Some?
    ensures var tr, m := History(cfg, lives, ops).trace, History(cfg, lives, ops).trace[k].move;
            exists l :: l in Grants(tr[..k], id) && l.worker == m.holder.value && l.from <= m.now < l.until * SECOND
  {
    hide Lawful, Grants, RunAll, Survive;
    var tr := History(cfg, lives, ops).trace;
    AnyHistory(cfg, lives, ops);
    LawfulPrefix(AnyClient, cfg, tr, k + 1);
    assert tr[..k + 1][..k] == tr[..k];
    ClaimedThenHanded(cfg, tr[..k + 1], id);
  }

  lemma ClaimedThenHanded(cfg: Config, tr: seq<Action>, id: Id)
    requires tr != [] && Lawful(AnyClient, cfg, tr) && cfg.lease >= 1
    requires var a := tr[|tr| - 1]; a.Touch? && a.id == id && a.move.Hand? && a.move.holder.Some?
    ensures var m := tr[|tr| - 1].move;
            exists l :: l in Grants(tr[..|tr| - 1], id) && l.worker == m.holder.value &&
                l.from <= m.now < l.until * SECOND
  {
    hide Grants;
    var m := tr[|tr| - 1].move;
    assert Expected(AnyClient, cfg, tr[..|tr| - 1], After(tr[..|tr| - 1]).work, tr[|tr| - 1]);
    GrantedBefore(tr[..|tr| - 1], id, Lease(m.holder.value, m.now, Floor(m.now) + cfg.lease));
  }

  // A claim followed by a transition and its commit.
  lemma GrantedBefore(tr: seq<Action>, id: Id, l: Lease)
    requires |tr| >= 3 && tr[|tr| - 3] == Touch(id, Claim(l.worker, l.from, l.until))
    requires tr[|tr| - 2].Touch? && tr[|tr| - 2].move.Shift? && tr[|tr| - 1] == Commit
    ensures l in Grants(tr, id)
  {
    var t1, t2 := tr[..|tr| - 1], tr[..|tr| - 2];
    assert t1[..|t1| - 1] == t2;
    assert l in Grants(t2, id);
    assert l in Grants(t1, id);
  }
}
