/** What stays true of every request in flight, whoever else commits meanwhile. */
module Requests {
  import opened Options
  import opened Records
  import opened Schedule
  import opened Protocol
  import opened Evolution

  // A row read earlier still is that booking: its terms last, though its status and time may move.
  predicate StillIs(db: Tables, id: BookingId, seen: Booking) {
    Exists(db, id) && Lasting(seen, db.bookings[id])
  }

  predicate SoundIntent(db: Tables, i: Intent) {
    match i
    case ToHold(_) => true
    case ToEnter(_, _) => true
    case ToMove(id, seen, _, _, _) => StillIs(db, id, seen)
    case ToApprove(id, seen, _) => StillIs(db, id, seen)
    case ToAssign(id, salon, _, read) => read.Some? ==> StillIs(db, id, read.value) && read.value.salon == salon
  }

  predicate SoundRequest(db: Tables, r: Request) {
    match r
    case Placing(i, locked, roomOk, workerOk, customerLocked, customerOk, code) =>
      && SoundIntent(db, i)
      && (roomOk ==> locked && !i.ToAssign?)
      && (workerOk ==> locked && (i.ToAssign? ==> i.read.Some?) && (!i.ToAssign? ==> roomOk))
      && (customerLocked ==> workerOk && i.ToHold?)
      && (customerOk ==> customerLocked)
      && (!code.NotAsked? ==> customerOk)
    case Cancelling(_, seen, byOwner, refund) => SlotBlocking(seen) && (byOwner ==> refund)
    case AdminCancelling(_, seen) => SlotBlocking(seen)
    case Settling(_, outcome, _) => outcome == Completed || outcome == NoShow
    case _ => true
  }

  // Whoever thinks he holds a lock does.
  predicate HoldsLocks(w: World, rid: RequestId, r: Request) {
    match r
    case Placing(i, locked, _, _, customerLocked, _, code) =>
      && (locked ==> ClaimOf(i).salon in w.salonLock && w.salonLock[ClaimOf(i).salon] == rid)
      && (customerLocked && i.ToHold? ==> i.slot.customer in w.customerLock && w.customerLock[i.slot.customer] == rid)
      && (LocksRow(code) ==> code.offer.coupon in w.couponLock && w.couponLock[code.offer.coupon] == rid)
    case Unlocking(salon) => salon in w.salonLock && w.salonLock[salon] == rid
    case _ => true
  }

  predicate Sound(w: World) {
    forall rid :: rid in w.requests ==> SoundRequest(w.db, w.requests[rid]) && HoldsLocks(w, rid, w.requests[rid])
  }

  lemma SoundRequestLasts(db: Tables, db': Tables, r: Request)
    requires RowsEvolve(db, db') && SoundRequest(db, r)
    ensures SoundRequest(db', r)
  {
  }

  lemma CommitIsLegal(site: Site, w: World, step: Step)
    requires Sound(w) && Enabled(site, w, step)
    ensures Commits(site, w, step).Some? ==> Legal(Commits(site, w, step).value)
  {
    if step.Commit? {
      assert SoundRequest(w.db, w.requests[step.rid]);
    }
  }

  lemma StepEvolves(site: Site, w: World, step: Step)
    requires Sound(w) && Enabled(site, w, step)
    ensures RowsEvolve(w.db, Apply(site, w, step).db)
  {
    CommitIsLegal(site, w, step);
    DbChangesByTxn(site, w, step);
    var t := Commits(site, w, step);
    if t.Some? {
      RunEvolves(w.db, t.value);
    }
  }

  // The request a step acts on; the others only watch the rows and the locks change.
  function Actor(step: Step): Option<RequestId> {
    match step
    case Tick(_) => None
    case RefundDone(_) => None
    case _ => Some(step.rid)
  }

  lemma OthersWait(site: Site, w: World, step: Step, rid: RequestId)
    requires Enabled(site, w, step) && Actor(step) != Some(rid)
    ensures rid in Apply(site, w, step).requests <==> rid in w.requests
    ensures rid in w.requests ==> Apply(site, w, step).requests[rid] == w.requests[rid]
  {
    if step.Commit? {
      CommitLeavesOthers(site, w, step.rid, step.late, rid);
    } else if Advances(step) {
      AdvanceLeavesOthers(site, w, step, rid);
    }
  }

  lemma CommitLeavesOthers(site: Site, w: World, rid: RequestId, late: Late, other: RequestId)
    requires Enabled(site, w, Commit(rid, late)) && rid != other
    ensures other in Apply(site, w, Commit(rid, late)).requests <==> other in w.requests
    ensures other in w.requests ==> Apply(site, w, Commit(rid, late)).requests[other] == w.requests[other]
  {
  }

  lemma AdvanceLeavesOthers(site: Site, w: World, step: Step, other: RequestId)
    requires Advances(step) && Enabled(site, w, step) && step.rid != other
    ensures other in Apply(site, w, step).requests <==> other in w.requests
    ensures other in w.requests ==> Apply(site, w, step).requests[other] == w.requests[other]
  {
  }

  predicate SameLocks(w: World, w': World) {
    w'.salonLock == w.salonLock && w'.customerLock == w.customerLock && w'.couponLock == w.couponLock
  }

  // A lock changes hands only through the request that takes or frees it.
  lemma OthersKeepLocks(site: Site, w: World, step: Step, rid: RequestId)
    requires Enabled(site, w, step) && Sound(w) && Actor(step) != Some(rid) && rid in w.requests
    ensures HoldsLocks(Apply(site, w, step), rid, w.requests[rid])
  {
    assert HoldsLocks(w, rid, w.requests[rid]);
    if step.Lock? || step.LockCustomer? || step.LockCode? {
    } else if step.Commit? || step.CommitInvalid? || step.Abort? || step.Unlock? {
      LeaverFreesItsOwn(site, w, step, rid);
    } else {
      assert SameLocks(w, Apply(site, w, step));
    }
  }

  lemma LeaverFreesItsOwn(site: Site, w: World, step: Step, rid: RequestId)
    requires Enabled(site, w, step) && Sound(w) && (step.Commit? || step.CommitInvalid? || step.Abort? || step.Unlock?)
    requires step.rid != rid && rid in w.requests
    ensures HoldsLocks(Apply(site, w, step), rid, w.requests[rid])
  {
    assert HoldsLocks(w, rid, w.requests[rid]);
    assert HoldsLocks(w, step.rid, w.requests[step.rid]);
    assert SoundRequest(w.db, w.requests[step.rid]);
  }

  predicate SoundAt(w: World, rid: RequestId) {
    rid in w.requests ==> SoundRequest(w.db, w.requests[rid]) && HoldsLocks(w, rid, w.requests[rid])
  }

  // What a request turns into as it commits or gives up.
  lemma CommitterStaysSound(site: Site, w: World, rid: RequestId, late: Late)
    requires Enabled(site, w, Commit(rid, late)) && Sound(w)
    ensures SoundAt(Apply(site, w, Commit(rid, late)), rid)
  {
    assert HoldsLocks(w, rid, w.requests[rid]);
    assert SoundRequest(w.db, w.requests[rid]);
  }

  lemma LeaverStaysSound(site: Site, w: World, step: Step)
    requires Enabled(site, w, step) && Sound(w) && (step.Commit? || step.CommitInvalid? || step.Abort? || step.Unlock?)
    ensures SoundAt(Apply(site, w, step), step.rid)
  {
    if step.Commit? {
      CommitterStaysSound(site, w, step.rid, step.late);
    } else {
      assert HoldsLocks(w, step.rid, w.requests[step.rid]);
      assert SoundRequest(w.db, w.requests[step.rid]);
    }
  }

  // Whoever leaves is no longer placing.
  lemma LeaverIsNotPlacing(site: Site, w: World, step: Step)
    requires Enabled(site, w, step) && (step.Commit? || step.CommitInvalid? || step.Abort? || step.Unlock?)
    ensures !IsPlacing(Apply(site, w, step), step.rid)
  {
  }

  lemma AdvancedStaysSound(site: Site, w: World, step: Step)
    requires Advances(step) && Enabled(site, w, step) && SoundAt(w, step.rid)
    ensures SoundRequest(w.db, Advanced(site, w, step))
  {
  }

  lemma AdvancedHoldsLocks(site: Site, w: World, step: Step)
    requires Advances(step) && Enabled(site, w, step) && SoundAt(w, step.rid)
    ensures HoldsLocks(WithLockTaken(w, step), step.rid, Advanced(site, w, step))
  {
  }

  lemma AdvancerStaysSound(site: Site, w: World, step: Step)
    requires Advances(step) && Enabled(site, w, step) && SoundAt(w, step.rid)
    ensures SoundAt(Apply(site, w, step), step.rid)
  {
    AdvancedStaysSound(site, w, step);
    AdvancedHoldsLocks(site, w, step);
    assert Apply(site, w, step) == WithRequest(WithLockTaken(w, step), step.rid, Some(Advanced(site, w, step)));
  }

  lemma StarterIsSound(site: Site, w: World, rid: RequestId, r: Request)
    requires Enabled(site, w, Begin(rid, r))
    ensures SoundAt(Apply(site, w, Begin(rid, r)), rid)
  {
  }

  lemma ActorStaysSound(site: Site, w: World, step: Step)
    requires Enabled(site, w, step) && Sound(w)
    ensures Actor(step).Some? ==> SoundAt(Apply(site, w, step), Actor(step).value)
  {
    if step.Commit? || step.CommitInvalid? || step.Abort? || step.Unlock? {
      LeaverStaysSound(site, w, step);
    } else if Advances(step) {
      assert SoundAt(w, step.rid);
      AdvancerStaysSound(site, w, step);
    } else if step.Begin? {
      StarterIsSound(site, w, step.rid, step.request);
    }
  }

  lemma StepStaysSound(site: Site, w: World, step: Step)
    requires Enabled(site, w, step) && Sound(w)
    ensures Sound(Apply(site, w, step))
  {
    var w' := Apply(site, w, step);
    StepEvolves(site, w, step);
    forall rid | rid in w'.requests
      ensures SoundRequest(w'.db, w'.requests[rid]) && HoldsLocks(w', rid, w'.requests[rid])
    {
      if Actor(step) == Some(rid) {
        ActorStaysSound(site, w, step);
      } else {
        OthersWait(site, w, step, rid);
        OthersKeepLocks(site, w, step, rid);
        SoundRequestLasts(w.db, w'.db, w.requests[rid]);
      }
    }
  }
}
