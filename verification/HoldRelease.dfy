/** A booking that died without its deposit being kept holds neither wallet stake nor coupon. */
module HoldRelease {
  import opened Records
  import opened Transactions
  import opened Schedule
  import opened Protocol
  import opened Evolution
  import opened Requests

  // The booking still has wallet money or a coupon redemption tied up in it.
  predicate Holds(db: Tables, id: BookingId) {
    (Exists(db, id) && db.bookings[id].stake > 0) || id in db.redemptions
  }

  // Only a late cancellation of a confirmed appointment dies with its stake and coupon spent.
  predicate SpentOnlyIfLate(db: Tables, late: set<BookingId>, id: BookingId) {
    Exists(db, id) && Dead(db.bookings[id].status) && Holds(db, id) ==> id in late && db.bookings[id].status == CancelledByUser
  }

  // ----- one transaction

  predicate CancelsLate(db: Tables, t: Txn, id: BookingId) {
    t.Cancel? && t.id == id && t.seen == Confirmed && !t.refund && Is(db, id, Confirmed)
  }

  // Redemptions appear only with a new booking.
  predicate OnlyDrops(db: Tables, db': Tables) {
    forall id :: id in db'.redemptions ==> id in db.redemptions && db'.redemptions[id] == db.redemptions[id]
  }

  lemma {:induction false} BatchDrops(db: Tables, ids: seq<BookingId>, due: Due)
    ensures var db' := BatchExpired(db, ids, due);
            && OnlyDrops(db, db') && |db'.bookings| == |db.bookings|
            && forall id: BookingId :: id < |db.bookings| && db'.bookings[id].status != db.bookings[id].status ==> !Holds(db', id)
  {
    if ids == [] {
    } else {
      var last := ids[|ids| - 1];
      var rest := BatchExpired(db, ids[..|ids| - 1], due);
      BatchDrops(db, ids[..|ids| - 1], due);
      if Is(rest, last, ExpiresFrom(due)) {
        EndedRow(rest, last, ExpiresFrom(due), Expired);
      }
    }
  }

  lemma CancelDrops(db: Tables, t: Txn)
    requires t.Cancel? || t.AdminCancel?
    ensures Run(db, t).redemptions == db.redemptions || Run(db, t).redemptions == db.redemptions - {t.id}
  {
    if Is(db, t.id, t.seen) {
      if t.Cancel? {
        CancelledRow(db, t.id, t.seen, t.byOwner, t.refund);
      } else {
        AdminCancelledRow(db, t.id, t.seen);
      }
    }
  }

  lemma RunDrops(db: Tables, t: Txn)
    requires TouchesOneRow(t)
    ensures Run(db, t).redemptions == db.redemptions || Run(db, t).redemptions == db.redemptions - {t.id}
  {
    match t
    case Approve(id, now, deposit, stake, online, deadline) =>
      if Is(db, id, PendingApproval) { ApprovedRow(db, id, now, deposit, stake, online, deadline); }
    case Invalidate(id) =>
      if Is(db, id, PendingApproval) { EndedRow(db, id, PendingApproval, Expired); }
    case Reject(id) =>
      if Is(db, id, PendingApproval) { EndedRow(db, id, PendingApproval, RejectedBySalon); }
    case Cancel(_, _, _, _) => CancelDrops(db, t);
    case AdminCancel(_, _) => CancelDrops(db, t);
    case Decline(id, seenStake) => DeclinedRow(db, id, seenStake);
    case _ =>
  }

  lemma CancelReleases(db: Tables, t: Txn)
    requires (t.Cancel? || t.AdminCancel?) && Legal(t) && Exists(db, t.id) && Exists(Run(db, t), t.id)
    ensures Run(db, t).bookings[t.id].status != db.bookings[t.id].status && Dead(Run(db, t).bookings[t.id].status) ==>
              if CancelsLate(db, t, t.id) then Is(Run(db, t), t.id, CancelledByUser) else !Holds(Run(db, t), t.id)
  {
    if Is(db, t.id, t.seen) {
      if t.Cancel? {
        CancelledRow(db, t.id, t.seen, t.byOwner, t.refund);
      } else {
        AdminCancelledRow(db, t.id, t.seen);
      }
    }
  }

  // The booking a transaction kills gives everything back, unless it was cancelled late.
  lemma TargetReleases(db: Tables, t: Txn)
    requires TouchesOneRow(t) && Legal(t) && Exists(db, t.id) && Exists(Run(db, t), t.id)
    ensures Run(db, t).bookings[t.id].status != db.bookings[t.id].status && Dead(Run(db, t).bookings[t.id].status) ==>
              if CancelsLate(db, t, t.id) then Is(Run(db, t), t.id, CancelledByUser) else !Holds(Run(db, t), t.id)
  {
    match t
    case Approve(id, now, deposit, stake, online, deadline) =>
      if Is(db, id, PendingApproval) { ApprovedRow(db, id, now, deposit, stake, online, deadline); }
    case Invalidate(id) =>
      if Is(db, id, PendingApproval) { EndedRow(db, id, PendingApproval, Expired); }
    case Reject(id) =>
      if Is(db, id, PendingApproval) { EndedRow(db, id, PendingApproval, RejectedBySalon); }
    case Cancel(_, _, _, _) => CancelReleases(db, t);
    case AdminCancel(_, _) => CancelReleases(db, t);
    case Decline(id, seenStake) => DeclinedRow(db, id, seenStake);
    case _ =>
  }

  lemma RunReleases(db: Tables, t: Txn, id: BookingId)
    requires Legal(t) && Exists(db, id)
    ensures var db' := Run(db, t);
            && Exists(db', id)
            && (Dead(db'.bookings[id].status) && Holds(db', id) ==>
                  || (db.bookings[id].status == db'.bookings[id].status && Holds(db, id))
                  || (CancelsLate(db, t, id) && db'.bookings[id].status == CancelledByUser))
  {
    RunEvolves(db, t);
    assert Evolves(db.bookings[id], Run(db, t).bookings[id]);
    match t
    case PlaceHold(now, slot, terms) => HoldPlacedRow(db, now, slot, terms);
    case EnterManual(_, _, _, _) =>
    case ExpirePayments(ids, at, cutoff) => BatchDrops(db, ids, UnpaidBy(at, cutoff));
    case ExpireApprovals(ids, at) => BatchDrops(db, ids, UndecidedBy(at));
    case _ =>
      RunDrops(db, t);
      RunWritesRow(db, t);
      if id == t.id {
        TargetReleases(db, t);
      }
  }

  // New bookings are alive.
  lemma NewRowAlive(db: Tables, t: Txn)
    requires Legal(t)
    ensures |Run(db, t).bookings| > |db.bookings| ==> SlotBlocking(Run(db, t).bookings[|db.bookings|].status)
  {
    RunRowCount(db, t);
    if t.PlaceHold? {
      HoldPlacedRow(db, t.now, t.slot, t.terms);
    }
  }

  // ----- one step

  predicate AllReleased(w: World) {
    forall id: BookingId :: id < |w.db.bookings| ==> SpentOnlyIfLate(w.db, w.late, id)
  }

  lemma StepReleases(site: Site, w: World, step: Step)
    requires Sound(w) && AllReleased(w) && Enabled(site, w, step)
    ensures AllReleased(Apply(site, w, step))
  {
    var w' := Apply(site, w, step);
    DbChangesByTxn(site, w, step);
    CommitIsLegal(site, w, step);
    var t := Commits(site, w, step);
    assert w.late <= w'.late;
    if t.Some? {
      if t.value.Cancel? && CancelsLate(w.db, t.value, t.value.id) {
        LateIsRecorded(site, w, step);
      }
      RunReleasesAll(w.db, t.value, w.late, w'.late);
    }
  }

  lemma RunReleasesAll(db: Tables, t: Txn, late: set<BookingId>, late': set<BookingId>)
    requires Legal(t) && late <= late' && forall id: BookingId :: id < |db.bookings| ==> SpentOnlyIfLate(db, late, id)
    requires t.Cancel? && CancelsLate(db, t, t.id) ==> t.id in late'
    ensures forall id: BookingId :: id < |Run(db, t).bookings| ==> SpentOnlyIfLate(Run(db, t), late', id)
  {
    RunRowCount(db, t);
    NewRowAlive(db, t);
    forall id: BookingId | id < |db.bookings|
      ensures SpentOnlyIfLate(Run(db, t), late', id)
    {
      StaysReleased(db, t, late, late', id);
    }
  }

  lemma StaysReleased(db: Tables, t: Txn, late: set<BookingId>, late': set<BookingId>, id: BookingId)
    requires Legal(t) && Exists(db, id) && SpentOnlyIfLate(db, late, id) && late <= late'
    requires CancelsLate(db, t, id) ==> id in late'
    ensures SpentOnlyIfLate(Run(db, t), late', id)
  {
    RunReleases(db, t, id);
  }

  lemma LateIsRecorded(site: Site, w: World, step: Step)
    requires Enabled(site, w, step) && Commits(site, w, step).Some?
    requires Commits(site, w, step).value.Cancel? && CancelsLate(w.db, Commits(site, w, step).value, Commits(site, w, step).value.id)
    ensures Commits(site, w, step).value.id in Apply(site, w, step).late
  {
  }

  // ----- every run

  lemma {:induction false} ReleasedThroughout(site: Site, w: World, steps: seq<Step>)
    requires Sound(w) && AllReleased(w) && Possible(site, w, steps)
    ensures AllReleased(After(site, w, steps))
    decreases |steps|
  {
    if steps == [] {
    } else {
      StepStaysSound(site, w, steps[0]);
      StepReleases(site, w, steps[0]);
      ReleasedThroughout(site, Apply(site, w, steps[0]), steps[1..]);
    }
  }

  // Whichever path killed it: expired, rejected, cancelled by salon or admin, a booking has
  // nothing of the customer's left; cancelled by the customer it has only if that was a late
  // cancellation of a confirmed appointment.
  lemma DeadBookingsHoldNothing(site: Site, w: World, steps: seq<Step>, id: BookingId)
    requires Init(w) && Possible(site, w, steps)
    ensures var w' := After(site, w, steps);
            Exists(w'.db, id) && Dead(w'.db.bookings[id].status) && Holds(w'.db, id) ==>
              w'.db.bookings[id].status == CancelledByUser && id in w'.late
  {
    ReleasedThroughout(site, w, steps);
    var w' := After(site, w, steps);
    assert Exists(w'.db, id) ==> SpentOnlyIfLate(w'.db, w'.late, id);
  }

  // ----- one redemption per customer and code

  ghost predicate RedeemedOnce(db: Tables) {
    && (forall id :: id in db.redemptions ==> Exists(db, id))
    && (forall i, j :: i in db.redemptions && j in db.redemptions && i != j ==> db.redemptions[i] != db.redemptions[j])
  }

  lemma RunRedeemsOnce(db: Tables, t: Txn)
    requires Legal(t) && RedeemedOnce(db)
    ensures RedeemedOnce(Run(db, t))
  {
    RunRowCount(db, t);
    match t
    case PlaceHold(now, slot, terms) =>
      HoldPlacedRow(db, now, slot, terms);
      if CouponApplied(terms) && !AlreadyRedeemed(db, terms.offer.value.coupon, slot.customer) {
        NewRedemptionIsNew(db, terms.offer.value.coupon, slot.customer);
      }
    case EnterManual(_, _, _, _) =>
    case ExpirePayments(ids, at, cutoff) => BatchDrops(db, ids, UnpaidBy(at, cutoff));
    case ExpireApprovals(ids, at) => BatchDrops(db, ids, UndecidedBy(at));
    case _ => RunDrops(db, t);
  }

  lemma NewRedemptionIsNew(db: Tables, coupon: Coupon, c: Customer)
    requires !AlreadyRedeemed(db, coupon, c)
    ensures forall id :: id in db.redemptions ==> db.redemptions[id] != Redemption(coupon, c)
  {
    forall id | id in db.redemptions
      ensures db.redemptions[id] != Redemption(coupon, c)
    {
      assert db.redemptions[id] in db.redemptions.Values;
    }
  }

  // The unique index holds through every interleaving, and gives a code back only with its booking.
  lemma {:induction false} CouponsAreRedeemedOnce(site: Site, w: World, steps: seq<Step>)
    requires Sound(w) && RedeemedOnce(w.db) && Possible(site, w, steps)
    ensures RedeemedOnce(After(site, w, steps).db)
    decreases |steps|
  {
    if steps == [] {
    } else {
      StepStaysSound(site, w, steps[0]);
      DbChangesByTxn(site, w, steps[0]);
      CommitIsLegal(site, w, steps[0]);
      if Commits(site, w, steps[0]).Some? {
        RunRedeemsOnce(w.db, Commits(site, w, steps[0]).value);
      }
      CouponsAreRedeemedOnce(site, Apply(site, w, steps[0]), steps[1..]);
    }
  }
}
