/** No instant is ever booked beyond the salon's capacity, whatever the interleaving. */
module CapacitySafety {
  import opened Options
  import opened Records
  import opened Schedule
  import opened Protocol
  import opened Evolution
  import opened Requests

  lemma SubsetSize<T>(a: set<T>, b: set<T>)
    requires a <= b
    ensures |a| <= |b|
  {
    assert b == a + (b - a);
  }

  function Occupying(db: Tables, salon: Salon, at: int): set<BookingId> {
    set id: BookingId | id < |db.bookings| && db.bookings[id].salon == salon
                        && SlotBlocking(db.bookings[id].status) && db.bookings[id].startsAt <= at < db.bookings[id].endsAt
  }

  ghost predicate WithinCapacity(site: Site, db: Tables) {
    forall salon, at: int {:trigger Occupying(db, salon, at)} :: salon in site.capacity ==>
      |Occupying(db, salon, at)| <= site.capacity[salon]
  }

  // A count made under the salon lock stays true until the lock is given up.
  ghost predicate RoomKept(site: Site, w: World) {
    forall rid :: IsPlacing(w, rid) && w.requests[rid].roomOk ==> RoomOpen(site, w.db, w.requests[rid].intent)
  }

  // ----- one transaction

  lemma FreeingKeepsCapacity(site: Site, db: Tables, db': Tables)
    requires FreesPlaces(db, db') && WithinCapacity(site, db)
    ensures WithinCapacity(site, db')
  {
    forall salon, at: int | salon in site.capacity
      ensures |Occupying(db', salon, at)| <= site.capacity[salon]
    {
      SubsetSize(Occupying(db', salon, at), Occupying(db, salon, at));
    }
  }

  // Whatever blocks afterwards blocked before in the same place, or is at the given salon.
  predicate BlocksOnlyAt(db: Tables, db': Tables, salon: Salon) {
    forall id: BookingId :: id < |db'.bookings| && SlotBlocking(db'.bookings[id].status) ==>
      || (id < |db.bookings| && SlotBlocking(db.bookings[id].status) && SamePlace(db.bookings[id], db'.bookings[id]))
      || db'.bookings[id].salon == salon
  }

  lemma ElsewhereKeepsRoom(site: Site, db: Tables, db': Tables, salon: Salon, i: Intent)
    requires FreesPlaces(db, db') || (BlocksOnlyAt(db, db', salon) && ClaimOf(i).salon != salon)
    requires RoomOpen(site, db, i)
    ensures RoomOpen(site, db', i)
  {
    var c := ClaimOf(i);
    SubsetSize(SalonBusy(db', c.salon, c.startsAt, c.endsAt, c.except), SalonBusy(db, c.salon, c.startsAt, c.endsAt, c.except));
  }

  // One interval is put down at the claimed place; everything else only frees.
  predicate PutsDown(db: Tables, db': Tables, id: BookingId, c: Claim) {
    && (c.except.Some? ==> c.except.value == id)
    && (c.except.None? ==> id >= |db.bookings|)
    && forall k: BookingId :: k < |db'.bookings| && SlotBlocking(db'.bookings[k].status) ==>
         if k == id then db'.bookings[k].salon == c.salon && db'.bookings[k].startsAt == c.startsAt && db'.bookings[k].endsAt == c.endsAt
         else k < |db.bookings| && SlotBlocking(db.bookings[k].status) && SamePlace(db.bookings[k], db'.bookings[k])
  }

  // The counting argument: fewer than capacity bookings touch the claimed interval, so no
  // instant inside it is covered by more than capacity once it is taken.
  lemma PuttingDownKeepsCapacity(site: Site, db: Tables, db': Tables, id: BookingId, c: Claim)
    requires PutsDown(db, db', id, c) && WithinCapacity(site, db)
    requires RoomFor(site, db, c.salon, c.startsAt, c.endsAt, c.except)
    ensures WithinCapacity(site, db')
  {
    forall salon, at: int | salon in site.capacity
      ensures |Occupying(db', salon, at)| <= site.capacity[salon]
    {
      if salon == c.salon && c.startsAt <= at < c.endsAt {
        SubsetSize(Occupying(db', salon, at) - {id}, SalonBusy(db, salon, c.startsAt, c.endsAt, c.except));
      } else {
        SubsetSize(Occupying(db', salon, at), Occupying(db, salon, at));
      }
    }
  }

  // The three transactions that put an interval down, and where.
  lemma PlacementPutsDown(site: Site, w: World, rid: RequestId, late: Late)
    requires Sound(w) && IsPlacing(w, rid) && CanCommit(site, w, w.requests[rid], late)
    ensures var i := w.requests[rid].intent;
            var db' := CommitDb(site, w, rid, late);
            || FreesPlaces(w.db, db')
            || (!i.ToAssign? && !i.ToApprove? && w.requests[rid].roomOk
                && PutsDown(w.db, db', if i.ToMove? then i.id else |w.db.bookings|, ClaimOf(i)))
  {
    var r := w.requests[rid];
    assert SoundRequest(w.db, r);
    var t := TxnOf(site, w, r, late);
    match r.intent
    case ToHold(slot) => HoldPlacedRow(w.db, w.now, slot, late.terms);
    case ToEnter(_, _) =>
    case ToMove(_, _, _, _, _) =>
    case ToApprove(_, _, _) => RunFreesPlaces(w.db, t);
    case ToAssign(_, _, _, _) => RunFreesPlaces(w.db, t);
  }

  // ----- one step

  lemma CommitKeepsRoom(site: Site, w: World, step: Step, rid: RequestId)
    requires Sound(w) && RoomKept(site, w) && Enabled(site, w, step)
    requires IsPlacing(w, rid) && w.requests[rid].roomOk && Actor(step) != Some(rid)
    ensures RoomOpen(site, Apply(site, w, step).db, w.requests[rid].intent)
  {
    var w' := Apply(site, w, step);
    var i := w.requests[rid].intent;
    assert HoldsLocks(w, rid, w.requests[rid]) && SoundRequest(w.db, w.requests[rid]);
    CommitIsLegal(site, w, step);
    if step.Commit? && w.requests[step.rid].Placing? {
      assert HoldsLocks(w, step.rid, w.requests[step.rid]);
      PlacementPutsDown(site, w, step.rid, step.late);
      DbChangesByTxn(site, w, step);
      ElsewhereKeepsRoom(site, w.db, w'.db, ClaimOf(w.requests[step.rid].intent).salon, i);
    } else if Commits(site, w, step).Some? {
      DbChangesByTxn(site, w, step);
      RunFreesPlaces(w.db, Commits(site, w, step).value);
      ElsewhereKeepsRoom(site, w.db, w'.db, 0, i);
    }
  }

  lemma StepKeepsRoom(site: Site, w: World, step: Step)
    requires Sound(w) && RoomKept(site, w) && Enabled(site, w, step)
    ensures RoomKept(site, Apply(site, w, step))
  {
    var w' := Apply(site, w, step);
    forall rid | IsPlacing(w', rid) && w'.requests[rid].roomOk
      ensures RoomOpen(site, w'.db, w'.requests[rid].intent)
    {
      if Actor(step) != Some(rid) {
        OthersWait(site, w, step, rid);
        CommitKeepsRoom(site, w, step, rid);
      } else {
        assert rid in w.requests ==> SoundRequest(w.db, w.requests[rid]);
      }
    }
  }

  lemma StepKeepsCapacity(site: Site, w: World, step: Step)
    requires Sound(w) && RoomKept(site, w) && WithinCapacity(site, w.db) && Enabled(site, w, step)
    ensures WithinCapacity(site, Apply(site, w, step).db)
  {
    var w' := Apply(site, w, step);
    CommitIsLegal(site, w, step);
    if step.Commit? && w.requests[step.rid].Placing? {
      var i := w.requests[step.rid].intent;
      PlacementPutsDown(site, w, step.rid, step.late);
      DbChangesByTxn(site, w, step);
      if FreesPlaces(w.db, w'.db) {
        FreeingKeepsCapacity(site, w.db, w'.db);
      } else {
        PuttingDownKeepsCapacity(site, w.db, w'.db, if i.ToMove? then i.id else |w.db.bookings|, ClaimOf(i));
      }
    } else if Commits(site, w, step).Some? {
      DbChangesByTxn(site, w, step);
      RunFreesPlaces(w.db, Commits(site, w, step).value);
      FreeingKeepsCapacity(site, w.db, w'.db);
    }
  }

  // ----- every run

  lemma {:induction false} CapacityKept(site: Site, w: World, steps: seq<Step>)
    requires Sound(w) && RoomKept(site, w) && WithinCapacity(site, w.db) && Possible(site, w, steps)
    ensures WithinCapacity(site, After(site, w, steps).db)
    decreases |steps|
  {
    if steps == [] {
    } else {
      StepStaysSound(site, w, steps[0]);
      StepKeepsRoom(site, w, steps[0]);
      StepKeepsCapacity(site, w, steps[0]);
      CapacityKept(site, Apply(site, w, steps[0]), steps[1..]);
    }
  }

  // After any interleaving of holds, manual entries, approvals, moves, assignments,
  // cancellations, expiries, payments and completions, at every instant at most capacity
  // slot-blocking bookings of a salon are on.
  lemma CapacityIsNeverExceeded(site: Site, w: World, steps: seq<Step>, salon: Salon, at: int)
    requires Init(w) && Possible(site, w, steps) && salon in site.capacity
    ensures |Occupying(After(site, w, steps).db, salon, at)| <= site.capacity[salon]
  {
    assert WithinCapacity(site, w.db) by {
      forall s, t: int | s in site.capacity
        ensures |Occupying(w.db, s, t)| <= site.capacity[s]
      {
        assert Occupying(w.db, s, t) == {};
      }
    }
    CapacityKept(site, w, steps);
  }
}
