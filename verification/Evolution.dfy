/** What a transaction may do to a booking row, whatever the request read beforehand. */
module Evolution {
  import opened Options
  import opened Records
  import opened Transactions

  // The booking lifecycle: pending_approval, pending_payment, confirmed, then an end.
  predicate Edge(s: Status, s': Status) {
    match s
    case PendingApproval =>
      s' == PendingPayment || s' == Confirmed || Dead(s')
    case PendingPayment =>
      s' == Confirmed || (Dead(s') && s' != RejectedBySalon)
    case Confirmed =>
      s' == Completed || s' == NoShow || s' == CancelledByUser || s' == CancelledBySalon || s' == CancelledByAdmin
    case _ => false
  }

  // Who, where and on what terms never change once a booking exists.
  predicate Lasting(b: Booking, b': Booking) {
    && b.customer == b'.customer && b.salon == b'.salon
    && b.price == b'.price && b.deposit == b'.deposit
    && b.manualApproval == b'.manualApproval && b.approvalDeadline == b'.approvalDeadline
    && b.windowHours == b'.windowHours && b.createdAt == b'.createdAt
  }

  predicate SameTime(b: Booking, b': Booking) {
    b.startsAt == b'.startsAt && b.endsAt == b'.endsAt
  }

  // A stamped payment deadline stays; a stake is only ever given back whole.
  predicate Evolves(b: Booking, b': Booking) {
    && Lasting(b, b')
    && (b.status == b'.status || Edge(b.status, b'.status))
    && (b'.stake == b.stake || b'.stake == 0)
    && (b.status != PendingApproval ==> b'.paymentDeadline == b.paymentDeadline)
    && (b'.status == PendingApproval ==> b'.paymentDeadline == b.paymentDeadline)
  }

  predicate RowsEvolve(db: Tables, db': Tables) {
    && |db.bookings| <= |db'.bookings|
    && forall id: BookingId :: id < |db.bookings| ==> Evolves(db.bookings[id], db'.bookings[id])
  }

  predicate SamePlace(b: Booking, b': Booking) {
    b.customer == b'.customer && b.salon == b'.salon && SameTime(b, b')
  }

  predicate Places(t: Txn) {
    t.PlaceHold? || t.EnterManual? || t.Move? || t.Assign?
  }

  // What requests check before they ask for a transaction.
  predicate Legal(t: Txn) {
    match t
    case Cancel(_, seen, byOwner, refund) => SlotBlocking(seen) && (byOwner ==> refund)
    case AdminCancel(_, seen) => SlotBlocking(seen)
    case Settle(_, outcome) => outcome == Completed || outcome == NoShow
    case _ => true
  }

  // A batch expires exactly the rows of its list that its outer WHERE still finds.
  predicate BatchRow(from: Status, b: Booking, b': Booking) {
    b' == b || (b.status == from && b' == b.(status := Expired, stake := 0))
  }

  lemma {:induction false} BatchRows(db: Tables, ids: seq<BookingId>, due: Due)
    ensures var db' := BatchExpired(db, ids, due);
            && |db'.bookings| == |db.bookings|
            && db'.payments == db.payments && db'.commissions == db.commissions
            && forall id: BookingId :: id < |db.bookings| ==>
                 && BatchRow(ExpiresFrom(due), db.bookings[id], db'.bookings[id])
                 && (db'.bookings[id] != db.bookings[id] ==> IsDue(db.bookings[id], due))
  {
    if ids == [] {
    } else {
      BatchRows(db, ids[..|ids| - 1], due);
    }
  }

  // Outside the batches and the creations a transaction writes at most one booking row.
  predicate OneRow(db: Tables, db': Tables, id: BookingId, b': Booking) {
    Exists(db, id) && db'.bookings == db.bookings[id := b']
  }

  // Giving a hold back touches the stake, the wallet and the redemption, nothing else.
  lemma ReleasedRow(db: Tables, id: BookingId)
    requires Exists(db, id)
    ensures var db' := ReleasedNow(db, id);
            && OneRow(db, db', id, db.bookings[id].(stake := 0))
            && db'.payments == db.payments && db'.commissions == db.commissions
            && db'.redemptions == db.redemptions - {id}
  {
    if db.bookings[id].stake == 0 {
      assert db.bookings[id := db.bookings[id].(stake := 0)] == db.bookings;
    }
  }

  // A cancellation that gives everything back, and one that forfeits it.
  lemma RefundedRow(db: Tables, id: BookingId, off: Tables)
    requires Exists(db, id) && Exists(off, id) && OneRow(db, off, id, off.bookings[id])
    requires off.commissions == db.commissions && off.redemptions == db.redemptions
    ensures var db' := ReleasedNow(off, id);
            && OneRow(db, db', id, off.bookings[id].(stake := 0))
            && db'.payments == off.payments && db'.commissions == db.commissions && db'.redemptions == db.redemptions - {id}
  {
    ReleasedRow(off, id);
  }

  lemma CancelledRow(db: Tables, id: BookingId, seen: Status, byOwner: bool, refund: bool)
    requires Is(db, id, seen)
    ensures var off := db.bookings[id].(status := if byOwner then CancelledBySalon else CancelledByUser);
            var db' := Cancelled(db, id, seen, byOwner, refund);
            && OneRow(db, db', id, if seen == Confirmed && !refund then off else off.(stake := 0))
            && db'.payments == (if seen == Confirmed then PaymentSet(db, id, if refund then RefundPending else Paid).payments
                                else PaymentMoved(db, id, Initiated, Failed).payments)
            && db'.commissions == (if seen == Confirmed && !refund then Accrued(PaymentSet(db, id, Paid), id).commissions
                                   else db.commissions)
            && db'.redemptions == (if seen == Confirmed && !refund then db.redemptions else db.redemptions - {id})
  {
    var off := WithStatus(db, id, if byOwner then CancelledBySalon else CancelledByUser);
    if seen != Confirmed {
      RefundedRow(db, id, PaymentMoved(off, id, Initiated, Failed));
    } else if refund {
      RefundedRow(db, id, PaymentSet(off, id, RefundPending));
    }
  }

  lemma AdminCancelledRow(db: Tables, id: BookingId, seen: Status)
    requires Is(db, id, seen)
    ensures var db' := AdminCancelled(db, id, seen);
            && OneRow(db, db', id, db.bookings[id].(status := CancelledByAdmin, stake := 0))
            && db'.payments == (if seen == Confirmed then PaymentMoved(db, id, Paid, RefundPending).payments
                                else PaymentMoved(db, id, Initiated, Failed).payments)
            && db'.commissions == db.commissions && db'.redemptions == db.redemptions - {id}
  {
    var off := WithStatus(db, id, CancelledByAdmin);
    ReleasedRow(PaymentMoved(off, id, Paid, RefundPending), id);
    ReleasedRow(PaymentMoved(off, id, Initiated, Failed), id);
  }

  lemma EndedRow(db: Tables, id: BookingId, from: Status, to: Status)
    requires Is(db, id, from)
    ensures var db' := Ended(db, id, from, to);
            && OneRow(db, db', id, db.bookings[id].(status := to, stake := 0))
            && db'.payments == db.payments && db'.commissions == db.commissions && db'.redemptions == db.redemptions - {id}
  {
    ReleasedRow(WithStatus(db, id, to), id);
  }

  // A decline that loses its booking guard can still return a stake, but never moves the row on.
  lemma DeclinedRow(db: Tables, id: BookingId, seenStake: nat)
    ensures var db' := Declined(db, id, seenStake);
            && (if Is(db, id, PendingPayment) then OneRow(db, db', id, db.bookings[id].(status := CancelledByUser, stake := 0))
                else db'.bookings == db.bookings || OneRow(db, db', id, db.bookings[id].(stake := 0)))
            && db'.payments == PaymentMoved(db, id, Initiated, Failed).payments
            && db'.commissions == db.commissions && db'.redemptions == db.redemptions - {id}
  {
    if Is(db, id, PendingPayment) {
      ReleasedRow(PaymentMoved(WithStatus(db, id, CancelledByUser), id, Initiated, Failed), id);
    }
  }

  lemma ApprovedRow(db: Tables, id: BookingId, now: int, seenDeposit: int, seenStake: nat, online: bool, deadline: int)
    requires Is(db, id, PendingApproval)
    ensures var db' := Approved(db, id, now, seenDeposit, seenStake, online, deadline);
            var b := db.bookings[id];
            && db'.commissions == db.commissions && db'.redemptions == db.redemptions
            && (|| (db' == db && seenDeposit > 0 && online && id in db.payments)
                || (seenDeposit > 0 && online && id !in db.payments
                    && OneRow(db, db', id, b.(status := PendingPayment, paymentDeadline := Some(deadline)))
                    && db'.payments == db.payments[id := NewPayment(seenDeposit, now)])
                || (!(seenDeposit > 0 && online) && db'.payments == db.payments
                    && (OneRow(db, db', id, b.(status := Confirmed, paymentDeadline := None))
                        || OneRow(db, db', id, b.(status := Confirmed, paymentDeadline := None, stake := 0)))))
  {
  }

  lemma CapturedRow(db: Tables, id: BookingId, session: Session)
    requires Is(db, id, PendingPayment)
    ensures var db' := Captured(db, id, session);
            && OneRow(db, db', id, db.bookings[id].(status := Confirmed))
            && db'.payments == (if PaymentIs(db, id, Initiated)
                                then db.payments[id := db.payments[id].(status := Paid, authority := Some(session))] else db.payments)
            && db'.commissions == db.commissions && db'.redemptions == db.redemptions
  {
  }

  lemma HoldPlacedRow(db: Tables, now: int, slot: Slot, terms: HoldTerms)
    ensures var db' := HoldPlaced(db, now, slot, terms);
            var b := HeldBooking(db, now, slot, terms);
            || db' == db
            || (&& db'.bookings == db.bookings + [b]
                && db'.payments == (if b.status == PendingPayment
                                    then db.payments[|db.bookings| := NewPayment(b.deposit, now)] else db.payments)
                && db'.commissions == db.commissions
                && db'.redemptions == (if CouponApplied(terms)
                                       then db.redemptions[|db.bookings| := Redemption(terms.offer.value.coupon, slot.customer)]
                                       else db.redemptions))
  {
  }

  // The row a transaction may write, and what it may make of it: guard it, evolve it, and
  // leave its place alone unless placing is what the transaction is for.
  predicate WritesRow(db: Tables, db': Tables, id: BookingId, t: Txn) {
    || db'.bookings == db.bookings
    || (&& Exists(db, id) && Exists(db', id) && OneRow(db, db', id, db'.bookings[id])
        && Evolves(db.bookings[id], db'.bookings[id])
        && (!Places(t) ==> SamePlace(db.bookings[id], db'.bookings[id]) && db'.bookings[id].worker == db.bookings[id].worker))
  }

  predicate TouchesOneRow(t: Txn) {
    !t.PlaceHold? && !t.EnterManual? && !t.ExpirePayments? && !t.ExpireApprovals?
  }

  lemma EndingWritesRow(db: Tables, t: Txn)
    requires t.Invalidate? || t.Reject?
    ensures WritesRow(db, Run(db, t), t.id, t)
  {
    if Is(db, t.id, PendingApproval) {
      EndedRow(db, t.id, PendingApproval, if t.Reject? then RejectedBySalon else Expired);
    }
  }

  lemma CancelWritesRow(db: Tables, t: Txn)
    requires Legal(t) && (t.Cancel? || t.AdminCancel?)
    ensures WritesRow(db, Run(db, t), t.id, t)
  {
    if Is(db, t.id, t.seen) {
      if t.Cancel? {
        CancelledRow(db, t.id, t.seen, t.byOwner, t.refund);
      } else {
        AdminCancelledRow(db, t.id, t.seen);
      }
    }
  }

  lemma ApproveWritesRow(db: Tables, t: Txn)
    requires t.Approve?
    ensures WritesRow(db, Run(db, t), t.id, t)
  {
    if Is(db, t.id, PendingApproval) {
      ApprovedRow(db, t.id, t.now, t.seenDeposit, t.seenStake, t.online, t.deadline);
    }
  }

  lemma EditWritesRow(db: Tables, t: Txn)
    requires Legal(t) && (t.Assign? || t.Move? || t.Settle?)
    ensures WritesRow(db, Run(db, t), t.id, t)
  {
  }

  lemma DeclineWritesRow(db: Tables, t: Txn)
    requires t.Decline?
    ensures WritesRow(db, Run(db, t), t.id, t)
  {
    DeclinedRow(db, t.id, t.seenStake);
  }

  lemma PaymentWritesRow(db: Tables, t: Txn)
    requires t.Capture? || t.ReconcileCapture? || t.Recover? || t.Retire? || t.Mint? || t.Refund?
    ensures WritesRow(db, Run(db, t), t.id, t)
  {
  }

  lemma RunWritesRow(db: Tables, t: Txn)
    requires Legal(t) && TouchesOneRow(t)
    ensures WritesRow(db, Run(db, t), t.id, t)
  {
    match t
    case Approve(_, _, _, _, _, _) => ApproveWritesRow(db, t);
    case Invalidate(_) => EndingWritesRow(db, t);
    case Reject(_) => EndingWritesRow(db, t);
    case Cancel(_, _, _, _) => CancelWritesRow(db, t);
    case AdminCancel(_, _) => CancelWritesRow(db, t);
    case Assign(_, _, _) => EditWritesRow(db, t);
    case Move(_, _, _, _) => EditWritesRow(db, t);
    case Settle(_, _) => EditWritesRow(db, t);
    case Decline(_, _) => DeclineWritesRow(db, t);
    case _ => PaymentWritesRow(db, t);
  }

  // The payment a transaction may write.
  predicate WritesPayment(db: Tables, db': Tables, id: BookingId) {
    || db'.payments == db.payments
    || (id in db'.payments && db'.payments == db.payments[id := db'.payments[id]])
  }

  lemma DecisionWritesPayment(db: Tables, t: Txn)
    requires t.Approve? || t.Invalidate? || t.Reject? || t.Cancel? || t.AdminCancel?
    ensures WritesPayment(db, Run(db, t), t.id)
  {
    match t
    case Approve(id, now, deposit, stake, online, deadline) =>
      if Is(db, id, PendingApproval) { ApprovedRow(db, id, now, deposit, stake, online, deadline); }
    case Invalidate(id) =>
      if Is(db, id, PendingApproval) { EndedRow(db, id, PendingApproval, Expired); }
    case Reject(id) =>
      if Is(db, id, PendingApproval) { EndedRow(db, id, PendingApproval, RejectedBySalon); }
    case Cancel(id, seen, byOwner, refund) =>
      if Is(db, id, seen) { CancelledRow(db, id, seen, byOwner, refund); }
    case AdminCancel(id, seen) =>
      if Is(db, id, seen) { AdminCancelledRow(db, id, seen); }
  }

  lemma RunWritesPayment(db: Tables, t: Txn)
    requires TouchesOneRow(t)
    ensures WritesPayment(db, Run(db, t), t.id)
  {
    if t.Approve? || t.Invalidate? || t.Reject? || t.Cancel? || t.AdminCancel? {
      DecisionWritesPayment(db, t);
    } else if t.Decline? {
      DeclinedRow(db, t.id, t.seenStake);
    }
  }

  lemma OneRowEvolves(db: Tables, db': Tables, id: BookingId, t: Txn)
    requires WritesRow(db, db', id, t)
    ensures RowsEvolve(db, db')
  {
  }

  // Every status follows the lifecycle, and nothing a transaction was told can rewrite a
  // booking's terms, move a stamped deadline or leave part of a stake behind.
  lemma RunEvolves(db: Tables, t: Txn)
    requires Legal(t)
    ensures RowsEvolve(db, Run(db, t))
  {
    match t
    case ExpirePayments(ids, at, cutoff) => BatchRows(db, ids, UnpaidBy(at, cutoff));
    case ExpireApprovals(ids, at) => BatchRows(db, ids, UndecidedBy(at));
    case PlaceHold(now, slot, terms) => HoldPlacedRow(db, now, slot, terms);
    case EnterManual(_, _, _, _) =>
    case _ =>
      RunWritesRow(db, t);
      OneRowEvolves(db, Run(db, t), t.id, t);
  }

  // Only a new booking adds a row.
  lemma RunRowCount(db: Tables, t: Txn)
    requires Legal(t)
    ensures |db.bookings| <= |Run(db, t).bookings| <= |db.bookings| + 1
    ensures !t.PlaceHold? && !t.EnterManual? ==> |Run(db, t).bookings| == |db.bookings|
  {
    match t
    case ExpirePayments(ids, at, cutoff) => BatchRows(db, ids, UnpaidBy(at, cutoff));
    case ExpireApprovals(ids, at) => BatchRows(db, ids, UndecidedBy(at));
    case PlaceHold(now, slot, terms) => HoldPlacedRow(db, now, slot, terms);
    case EnterManual(_, _, _, _) =>
    case _ => RunWritesRow(db, t);
  }

  // Every interval that blocks afterwards blocked before, in the same place.
  predicate Frees(db: Tables, db': Tables) {
    forall id: BookingId :: id < |db'.bookings| && SlotBlocking(db'.bookings[id].status) ==>
      && id < |db.bookings| && SlotBlocking(db.bookings[id].status)
      && SamePlace(db.bookings[id], db'.bookings[id]) && db'.bookings[id].worker == db.bookings[id].worker
  }

  // The same for time and place alone: staff may change.
  predicate FreesPlaces(db: Tables, db': Tables) {
    forall id: BookingId :: id < |db'.bookings| && SlotBlocking(db'.bookings[id].status) ==>
      && id < |db.bookings| && SlotBlocking(db.bookings[id].status) && SamePlace(db.bookings[id], db'.bookings[id])
  }

  lemma RunFreesPlaces(db: Tables, t: Txn)
    requires Legal(t) && (!Places(t) || t.Assign?)
    ensures FreesPlaces(db, Run(db, t))
  {
    if !t.Assign? {
      RunFrees(db, t);
    }
  }

  // The transactions that need no salon lock only ever take slot-blocking intervals away.
  lemma RunFrees(db: Tables, t: Txn)
    requires Legal(t) && !Places(t)
    ensures Frees(db, Run(db, t))
  {
    match t
    case PlaceHold(_, _, _) =>
    case EnterManual(_, _, _, _) =>
    case ExpirePayments(ids, at, cutoff) => BatchRows(db, ids, UnpaidBy(at, cutoff));
    case ExpireApprovals(ids, at) => BatchRows(db, ids, UndecidedBy(at));
    case _ =>
      RunWritesRow(db, t);
      OneRowFrees(db, Run(db, t), t.id, t);
  }

  lemma OneRowFrees(db: Tables, db': Tables, id: BookingId, t: Txn)
    requires WritesRow(db, db', id, t) && !Places(t)
    ensures Frees(db, db')
  {
  }
}
