/** A worker is never in two places at once, as long as a move sees the worker the booking has. */
module WorkerSafety {
  import opened Options
  import opened Records
  import opened Transactions
  import opened Schedule
  import opened Protocol
  import opened Evolution
  import opened Requests

  ghost predicate WorkerExclusive(db: Tables) {
    forall i: BookingId, j: BookingId ::
      i < |db.bookings| && j < |db.bookings| && i != j
      && db.bookings[i].worker.Some? && db.bookings[i].worker == db.bookings[j].worker
      && SlotBlocking(db.bookings[i].status) && SlotBlocking(db.bookings[j].status) ==>
        db.bookings[i].endsAt <= db.bookings[j].startsAt || db.bookings[j].endsAt <= db.bookings[i].startsAt
  }

  // Staff never work outside the one salon they belong to.
  predicate StaffAtHome(site: Site, db: Tables) {
    forall id: BookingId :: id < |db.bookings| && db.bookings[id].worker.Some? ==>
      db.bookings[id].worker.value in site.home && site.home[db.bookings[id].worker.value] == db.bookings[id].salon
  }

  // A worker found free under the salon lock stays free until it is given up, and the row an
  // assignment read under the lock does not move.
  ghost predicate StaffKept(site: Site, w: World) {
    forall rid :: IsPlacing(w, rid) ==>
      var r := w.requests[rid];
      && (r.workerOk ==> WorkerOpen(site, w.db, r.intent))
      && (r.intent.ToAssign? && r.intent.read.Some? ==>
            && r.locked && Exists(w.db, r.intent.id) && SameTime(r.intent.read.value, w.db.bookings[r.intent.id]))
  }

  // The hypothesis on moves: the worker read before the lock is still the booking's worker.
  predicate SeesStaff(w: World, step: Step) {
    step.Commit? && IsPlacing(w, step.rid) && w.requests[step.rid].intent.ToMove? ==>
      var i := w.requests[step.rid].intent;
      Is(w.db, i.id, i.seen.status) ==> w.db.bookings[i.id].worker == i.seen.worker
  }

  predicate MovesSeeStaff(site: Site, w: World, steps: seq<Step>)
    requires Possible(site, w, steps)
    decreases |steps|
  {
    steps == [] || (SeesStaff(w, steps[0]) && MovesSeeStaff(site, Apply(site, w, steps[0]), steps[1..]))
  }

  // ----- one transaction

  // Whatever blocks afterwards blocked before with the same worker, or is at the given salon.
  predicate StaffsOnlyAt(db: Tables, db': Tables, salon: Salon) {
    forall id: BookingId :: id < |db'.bookings| && SlotBlocking(db'.bookings[id].status) ==>
      || (id < |db.bookings| && SlotBlocking(db.bookings[id].status)
          && SamePlace(db.bookings[id], db'.bookings[id]) && db'.bookings[id].worker == db.bookings[id].worker)
      || db'.bookings[id].salon == salon
  }

  lemma ElsewhereKeepsStaff(site: Site, db: Tables, db': Tables, salon: Salon, i: Intent)
    requires Frees(db, db') || (StaffsOnlyAt(db, db', salon) && ClaimOf(i).salon != salon && StaffAtHome(site, db'))
    requires WorkerOpen(site, db, i)
    ensures WorkerOpen(site, db', i)
  {
    var c := ClaimOf(i);
    if c.worker.Some? {
      assert WorkerBusy(db', c.worker.value, c.startsAt, c.endsAt, c.except)
          <= WorkerBusy(db, c.worker.value, c.startsAt, c.endsAt, c.except);
    }
  }

  // One booking is put down, or given staff, at the claimed place; the rest only free.
  predicate PutsDownStaffed(db: Tables, db': Tables, id: BookingId, c: Claim, worker: Option<Worker>) {
    && (c.except.Some? ==> c.except.value == id)
    && (c.except.None? ==> id >= |db.bookings|)
    && forall k: BookingId :: k < |db'.bookings| && SlotBlocking(db'.bookings[k].status) ==>
         if k == id then
           && db'.bookings[k].salon == c.salon && db'.bookings[k].startsAt == c.startsAt && db'.bookings[k].endsAt == c.endsAt
           && db'.bookings[k].worker == worker
         else
           && k < |db.bookings| && SlotBlocking(db.bookings[k].status)
           && SamePlace(db.bookings[k], db'.bookings[k]) && db'.bookings[k].worker == db.bookings[k].worker
  }

  // The claimed worker being free is what keeps him in one place.
  lemma PuttingDownKeepsExclusive(db: Tables, db': Tables, id: BookingId, c: Claim)
    requires PutsDownStaffed(db, db', id, c, c.worker) && WorkerExclusive(db)
    requires c.worker.Some? ==> WorkerBusy(db, c.worker.value, c.startsAt, c.endsAt, c.except) == {}
    ensures WorkerExclusive(db')
  {
    forall k: BookingId | k < |db'.bookings| && k != id && SlotBlocking(db'.bookings[k].status)
                          && c.worker.Some? && db'.bookings[k].worker == c.worker
      ensures db'.bookings[k].endsAt <= c.startsAt || c.endsAt <= db'.bookings[k].startsAt
    {
      assert k !in WorkerBusy(db, c.worker.value, c.startsAt, c.endsAt, c.except);
    }
  }

  function PlacedId(db: Tables, i: Intent): BookingId {
    match i
    case ToMove(id, _, _, _, _) => id
    case ToAssign(id, _, _, _) => id
    case _ => |db.bookings|
  }

  predicate PutsDownOrFrees(site: Site, w: World, rid: RequestId, late: Late)
    requires IsPlacing(w, rid) && CanCommit(site, w, w.requests[rid], late)
  {
    var i := w.requests[rid].intent;
    var db' := CommitDb(site, w, rid, late);
    || Frees(w.db, db')
    || (!i.ToApprove? && PutsDownStaffed(w.db, db', PlacedId(w.db, i), ClaimOf(i), ClaimOf(i).worker))
  }

  lemma NewPlacementPutsDownStaffed(site: Site, w: World, rid: RequestId, late: Late)
    requires IsPlacing(w, rid) && CanCommit(site, w, w.requests[rid], late)
    requires w.requests[rid].intent.ToHold? || w.requests[rid].intent.ToEnter?
    ensures PutsDownOrFrees(site, w, rid, late)
  {
    if w.requests[rid].intent.ToHold? {
      HoldPlacedRow(w.db, w.now, w.requests[rid].intent.slot, late.terms);
    }
  }

  lemma AssignmentPutsDownStaffed(site: Site, w: World, rid: RequestId, late: Late)
    requires Sound(w) && StaffKept(site, w) && IsPlacing(w, rid) && CanCommit(site, w, w.requests[rid], late)
    requires w.requests[rid].intent.ToAssign?
    ensures PutsDownOrFrees(site, w, rid, late)
  {
    assert SoundRequest(w.db, w.requests[rid]) && IsPlacing(w, rid);
  }

  lemma PlacementPutsDownStaffed(site: Site, w: World, rid: RequestId, late: Late)
    requires Sound(w) && StaffKept(site, w) && IsPlacing(w, rid) && CanCommit(site, w, w.requests[rid], late)
    requires SeesStaff(w, Commit(rid, late))
    ensures PutsDownOrFrees(site, w, rid, late)
  {
    var r := w.requests[rid];
    assert SoundRequest(w.db, r);
    match r.intent
    case ToHold(_) => NewPlacementPutsDownStaffed(site, w, rid, late);
    case ToEnter(_, _) => NewPlacementPutsDownStaffed(site, w, rid, late);
    case ToMove(_, _, _, _, _) =>
    case ToApprove(_, _, _) => RunFrees(w.db, TxnOf(site, w, r, late));
    case ToAssign(_, _, _, _) => AssignmentPutsDownStaffed(site, w, rid, late);
  }

  lemma PlacementStaysHome(site: Site, w: World, rid: RequestId, late: Late)
    requires Sound(w) && StaffKept(site, w) && StaffAtHome(site, w.db)
    requires IsPlacing(w, rid) && CanCommit(site, w, w.requests[rid], late)
    ensures StaffAtHome(site, CommitDb(site, w, rid, late))
  {
    var r := w.requests[rid];
    assert SoundRequest(w.db, r);
    match r.intent
    case ToHold(slot) => HoldPlacedRow(w.db, w.now, slot, late.terms);
    case ToEnter(_, _) =>
    case ToMove(_, _, _, _, _) =>
    case ToApprove(_, _, _) => RestKeepsFootprints(w.db, TxnOf(site, w, r, late));
    case ToAssign(_, _, _, _) =>
  }

  lemma PlacementStaffsItsSalon(site: Site, w: World, rid: RequestId, late: Late)
    requires Sound(w) && IsPlacing(w, rid) && CanCommit(site, w, w.requests[rid], late)
    ensures StaffsOnlyAt(w.db, CommitDb(site, w, rid, late), ClaimOf(w.requests[rid].intent).salon)
  {
    var r := w.requests[rid];
    assert SoundRequest(w.db, r);
    match r.intent
    case ToHold(slot) => HoldPlacedRow(w.db, w.now, slot, late.terms);
    case ToEnter(_, _) =>
    case ToMove(_, _, _, _, _) =>
    case ToApprove(_, _, _) => RunFrees(w.db, TxnOf(site, w, r, late));
    case ToAssign(_, _, _, _) =>
  }

  // Away from the four placing transactions no booking changes staff or time.
  lemma RestKeepsFootprints(db: Tables, t: Txn)
    requires Legal(t) && !Places(t)
    ensures |Run(db, t).bookings| == |db.bookings|
    ensures forall id: BookingId :: id < |db.bookings| ==>
              && SamePlace(db.bookings[id], Run(db, t).bookings[id])
              && Run(db, t).bookings[id].worker == db.bookings[id].worker
  {
    match t
    case ExpirePayments(ids, at, cutoff) => BatchRows(db, ids, UnpaidBy(at, cutoff));
    case ExpireApprovals(ids, at) => BatchRows(db, ids, UndecidedBy(at));
    case _ =>
      RunWritesRow(db, t);
      RowKeepsFootprints(db, Run(db, t), t);
  }

  lemma RowKeepsFootprints(db: Tables, db': Tables, t: Txn)
    requires TouchesOneRow(t) && !Places(t) && WritesRow(db, db', t.id, t)
    ensures |db'.bookings| == |db.bookings|
    ensures forall id: BookingId :: id < |db.bookings| ==>
              SamePlace(db.bookings[id], db'.bookings[id]) && db'.bookings[id].worker == db.bookings[id].worker
  {
  }

  // ----- one step

  lemma FootprintsStayHome(site: Site, db: Tables, t: Txn)
    requires Legal(t) && !Places(t) && StaffAtHome(site, db)
    ensures StaffAtHome(site, Run(db, t))
  {
    RestKeepsFootprints(db, t);
  }

  lemma StepStaysHome(site: Site, w: World, step: Step)
    requires Sound(w) && StaffKept(site, w) && StaffAtHome(site, w.db) && Enabled(site, w, step)
    ensures StaffAtHome(site, Apply(site, w, step).db)
  {
    DbChangesByTxn(site, w, step);
    if step.Commit? && w.requests[step.rid].Placing? {
      PlacementStaysHome(site, w, step.rid, step.late);
    } else if Commits(site, w, step).Some? {
      CommitIsLegal(site, w, step);
      FootprintsStayHome(site, w.db, Commits(site, w, step).value);
    }
  }

  // What a checked placement, or an assignment that has read its row, relies on.
  predicate StaffFact(site: Site, db: Tables, r: Request)
    requires r.Placing?
  {
    && (r.workerOk ==> WorkerOpen(site, db, r.intent))
    && (r.intent.ToAssign? && r.intent.read.Some? ==>
          Exists(db, r.intent.id) && SameTime(r.intent.read.value, db.bookings[r.intent.id]))
  }

  lemma PlacementKeepsStaff(site: Site, w: World, step: Step, rid: RequestId)
    requires Sound(w) && StaffKept(site, w) && StaffAtHome(site, w.db) && Enabled(site, w, step)
    requires IsPlacing(w, rid) && w.requests[rid].locked && Actor(step) != Some(rid)
    requires step.Commit? && w.requests[step.rid].Placing?
    ensures StaffFact(site, CommitDb(site, w, step.rid, step.late), w.requests[rid])
  {
    var i := w.requests[rid].intent;
    assert HoldsLocks(w, rid, w.requests[rid]) && SoundRequest(w.db, w.requests[rid]);
    assert HoldsLocks(w, step.rid, w.requests[step.rid]) && SoundRequest(w.db, w.requests[step.rid]);
    PlacementStaysHome(site, w, step.rid, step.late);
    PlacementStaffsItsSalon(site, w, step.rid, step.late);
    if w.requests[rid].workerOk {
      ElsewhereKeepsStaff(site, w.db, CommitDb(site, w, step.rid, step.late), ClaimOf(w.requests[step.rid].intent).salon, i);
    }
    if i.ToAssign? && i.read.Some? {
      MovesStayAtTheirSalon(site, w, step.rid, step.late, i.id);
    }
  }

  lemma RestKeepsStaff(site: Site, db: Tables, t: Txn, r: Request)
    requires r.Placing? && StaffFact(site, db, r) && Legal(t) && !Places(t)
    ensures StaffFact(site, Run(db, t), r)
  {
    RunFrees(db, t);
    RestKeepsFootprints(db, t);
    if r.workerOk {
      ElsewhereKeepsStaff(site, db, Run(db, t), 0, r.intent);
    }
  }

  lemma CommitKeepsStaff(site: Site, w: World, step: Step, rid: RequestId)
    requires Sound(w) && StaffKept(site, w) && StaffAtHome(site, w.db) && Enabled(site, w, step)
    requires IsPlacing(w, rid) && w.requests[rid].locked && Actor(step) != Some(rid)
    ensures StaffFact(site, Apply(site, w, step).db, w.requests[rid])
  {
    DbChangesByTxn(site, w, step);
    CommitIsLegal(site, w, step);
    if step.Commit? && w.requests[step.rid].Placing? {
      PlacementKeepsStaff(site, w, step, rid);
    } else if Commits(site, w, step).Some? {
      RestKeepsStaff(site, w.db, Commits(site, w, step).value, w.requests[rid]);
    }
  }

  // A committed placement changes the time of no booking at another salon.
  lemma MovesStayAtTheirSalon(site: Site, w: World, rid: RequestId, late: Late, id: BookingId)
    requires Sound(w) && IsPlacing(w, rid) && CanCommit(site, w, w.requests[rid], late)
    requires Exists(w.db, id) && w.db.bookings[id].salon != ClaimOf(w.requests[rid].intent).salon
    ensures Exists(CommitDb(site, w, rid, late), id)
    ensures SameTime(w.db.bookings[id], CommitDb(site, w, rid, late).bookings[id])
  {
    var r := w.requests[rid];
    assert SoundRequest(w.db, r);
    match r.intent
    case ToHold(slot) => HoldPlacedRow(w.db, w.now, slot, late.terms);
    case ToEnter(_, _) =>
    case ToMove(_, _, _, _, _) =>
    case ToApprove(_, _, _) => RestKeepsFootprints(w.db, TxnOf(site, w, r, late));
    case ToAssign(_, _, _, _) =>
  }

  predicate StaffAt(site: Site, w: World, rid: RequestId) {
    IsPlacing(w, rid) ==>
      var r := w.requests[rid];
      StaffFact(site, w.db, r) && (r.intent.ToAssign? && r.intent.read.Some? ==> r.locked)
  }

  lemma AdvancedKeepsStaff(site: Site, w: World, step: Step)
    requires Advances(step) && Enabled(site, w, step) && IsPlacing(w, step.rid) && StaffAt(site, w, step.rid)
    requires SoundRequest(w.db, w.requests[step.rid])
    ensures var r := Advanced(site, w, step);
            && r.Placing? && StaffFact(site, w.db, r) && (r.intent.ToAssign? && r.intent.read.Some? ==> r.locked)
  {
  }

  lemma ActorKeepsStaff(site: Site, w: World, step: Step)
    requires Sound(w) && Enabled(site, w, step) && Actor(step).Some? && StaffAt(site, w, step.rid)
    ensures StaffAt(site, Apply(site, w, step), step.rid)
  {
    if step.Commit? || step.CommitInvalid? || step.Abort? || step.Unlock? {
      LeaverIsNotPlacing(site, w, step);
    } else if step.Begin? {
      BeginnerHasNoStaff(site, w, step);
    } else if IsPlacing(w, step.rid) {
      assert SoundRequest(w.db, w.requests[step.rid]);
      AdvancedKeepsStaff(site, w, step);
    }
  }

  lemma BeginnerHasNoStaff(site: Site, w: World, step: Step)
    requires step.Begin? && Enabled(site, w, step)
    ensures StaffAt(site, Apply(site, w, step), step.rid)
  {
  }

  lemma OthersKeepStaff(site: Site, w: World, step: Step, rid: RequestId)
    requires Sound(w) && StaffKept(site, w) && StaffAtHome(site, w.db) && Enabled(site, w, step) && Actor(step) != Some(rid)
    ensures StaffAt(site, Apply(site, w, step), rid)
  {
    OthersWait(site, w, step, rid);
    if IsPlacing(w, rid) {
      assert SoundRequest(w.db, w.requests[rid]);
      if w.requests[rid].locked {
        CommitKeepsStaff(site, w, step, rid);
      }
    }
  }

  lemma StepKeepsStaff(site: Site, w: World, step: Step)
    requires Sound(w) && StaffKept(site, w) && StaffAtHome(site, w.db) && Enabled(site, w, step)
    ensures StaffKept(site, Apply(site, w, step))
  {
    forall rid: RequestId
      ensures StaffAt(site, Apply(site, w, step), rid)
    {
      if Actor(step) == Some(rid) {
        assert IsPlacing(w, rid) ==> StaffAt(site, w, rid);
        ActorKeepsStaff(site, w, step);
      } else {
        OthersKeepStaff(site, w, step, rid);
      }
    }
    var w' := Apply(site, w, step);
    forall rid | IsPlacing(w', rid)
      ensures var r := w'.requests[rid];
              && (r.workerOk ==> WorkerOpen(site, w'.db, r.intent))
              && (r.intent.ToAssign? && r.intent.read.Some? ==>
                    r.locked && Exists(w'.db, r.intent.id) && SameTime(r.intent.read.value, w'.db.bookings[r.intent.id]))
    {
      assert StaffAt(site, w', rid);
    }
  }

  lemma PlacementKeepsExclusive(site: Site, w: World, rid: RequestId, late: Late)
    requires Sound(w) && StaffKept(site, w) && WorkerExclusive(w.db) && IsPlacing(w, rid)
    requires CanCommit(site, w, w.requests[rid], late) && SeesStaff(w, Commit(rid, late))
    ensures WorkerExclusive(CommitDb(site, w, rid, late))
  {
    var i := w.requests[rid].intent;
    var db' := CommitDb(site, w, rid, late);
    assert SoundRequest(w.db, w.requests[rid]);
    PlacementPutsDownStaffed(site, w, rid, late);
    if !Frees(w.db, db') {
      PuttingDownKeepsExclusive(w.db, db', PlacedId(w.db, i), ClaimOf(i));
    }
  }

  lemma StepKeepsExclusive(site: Site, w: World, step: Step)
    requires Sound(w) && StaffKept(site, w) && WorkerExclusive(w.db) && Enabled(site, w, step) && SeesStaff(w, step)
    ensures WorkerExclusive(Apply(site, w, step).db)
  {
    CommitIsLegal(site, w, step);
    if step.Commit? && w.requests[step.rid].Placing? {
      PlacementKeepsExclusive(site, w, step.rid, step.late);
      DbChangesByTxn(site, w, step);
    } else if Commits(site, w, step).Some? {
      DbChangesByTxn(site, w, step);
      RunKeepsExclusive(w.db, Commits(site, w, step).value);
    }
  }

  lemma RunKeepsExclusive(db: Tables, t: Txn)
    requires Legal(t) && !Places(t) && WorkerExclusive(db)
    ensures WorkerExclusive(Run(db, t))
  {
    RunFrees(db, t);
  }

  // ----- every run

  lemma {:induction false} ExclusiveKept(site: Site, w: World, steps: seq<Step>)
    requires Sound(w) && StaffKept(site, w) && StaffAtHome(site, w.db) && WorkerExclusive(w.db)
    requires Possible(site, w, steps) && MovesSeeStaff(site, w, steps)
    ensures WorkerExclusive(After(site, w, steps).db)
    decreases |steps|
  {
    if steps == [] {
    } else {
      StepStaysSound(site, w, steps[0]);
      StepStaysHome(site, w, steps[0]);
      StepKeepsStaff(site, w, steps[0]);
      StepKeepsExclusive(site, w, steps[0]);
      ExclusiveKept(site, Apply(site, w, steps[0]), steps[1..]);
    }
  }

  lemma WorkersAreNeverDoubleBooked(site: Site, w: World, steps: seq<Step>)
    requires Init(w) && Possible(site, w, steps) && MovesSeeStaff(site, w, steps)
    ensures WorkerExclusive(After(site, w, steps).db)
  {
    ExclusiveKept(site, w, steps);
  }

  // Exactly when a committed move keeps staff apart: the booking's own worker, as he is now,
  // must be free at the new time. Checking the worker read before the lock settles that only
  // if he is the same.
  lemma MoveKeepsExclusiveIff(db: Tables, id: BookingId, seen: Status, startsAt: int, endsAt: int)
    requires WorkerExclusive(db) && Is(db, id, seen) && SlotBlocking(seen)
    ensures var current := db.bookings[id].worker;
            WorkerExclusive(Run(db, Move(id, seen, startsAt, endsAt))) <==>
              (current.Some? ==> WorkerBusy(db, current.value, startsAt, endsAt, Some(id)) == {})
  {
    var db' := Run(db, Move(id, seen, startsAt, endsAt));
    var b := db.bookings[id];
    if b.worker.Some? && WorkerBusy(db, b.worker.value, startsAt, endsAt, Some(id)) != {} {
      var k :| k in WorkerBusy(db, b.worker.value, startsAt, endsAt, Some(id));
      assert db'.bookings[id].worker == db'.bookings[k].worker;
    }
    if b.worker.Some? ==> WorkerBusy(db, b.worker.value, startsAt, endsAt, Some(id)) == {} {
      PuttingDownKeepsExclusive(db, db', id, Claim(b.salon, startsAt, endsAt, b.worker, Some(id)));
    }
  }
}
