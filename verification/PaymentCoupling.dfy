/** Which payment may stand beside which booking, and when commission is owed: one transaction at a time. */
module PaymentCoupling {
  import opened Options
  import opened Records
  import opened Transactions
  import opened Evolution

  function PaymentStatusOf(db: Tables, id: BookingId): Option<PaymentStatus> {
    if id in db.payments then Some(db.payments[id].status) else None
  }

  // A request has no payment; a confirmed appointment has none or a paid one; only a late
  // cancellation keeps a paid one.
  predicate Fits(s: Status, p: Option<PaymentStatus>) {
    match s
    case PendingApproval => p == None
    case RejectedBySalon => p == None
    case PendingPayment => p != None && p != Some(Paid)
    case Confirmed => p == None || p == Some(Paid)
    case Completed => p == None || p == Some(Paid)
    case NoShow => p == None || p == Some(Paid)
    case CancelledByUser => p != Some(Initiated)
    case CancelledBySalon => p != Some(Initiated) && p != Some(Paid)
    case CancelledByAdmin => p != Some(Initiated) && p != Some(Paid)
    case Expired => p != Some(Paid)
  }

  predicate Coupling(db: Tables) {
    && (forall id :: id in db.payments ==> Exists(db, id))
    && (forall id: BookingId :: id < |db.bookings| ==> Fits(db.bookings[id].status, PaymentStatusOf(db, id)))
  }

  // The states in which a deposit has been kept: it went to the salon, less commission.
  predicate Forfeits(s: Status) {
    s == Completed || s == NoShow || s == CancelledByUser
  }

  predicate CommissionBacked(db: Tables, row: Commission) {
    && Exists(db, row.booking) && Forfeits(db.bookings[row.booking].status)
    && row.salon == db.bookings[row.booking].salon
    && PaymentIs(db, row.booking, Paid) && row.gross == db.payments[row.booking].amount
  }

  // One commission per booking at most, and only while its deposit stays paid.
  predicate CommissionSound(db: Tables) {
    && (forall k :: 0 <= k < |db.commissions| ==> CommissionBacked(db, db.commissions[k]))
    && (forall j, k :: 0 <= j < k < |db.commissions| ==> db.commissions[j].booking != db.commissions[k].booking)
  }

  // What a capture or a refund recovery may rely on: the payment of an open booking is the one
  // it verified. Protocol-level facts supply this.
  predicate Backed(db: Tables, t: Txn) {
    match t
    case Capture(id, _) => Is(db, id, PendingPayment) ==> PaymentIs(db, id, Initiated)
    case ReconcileCapture(id, _) => Is(db, id, PendingPayment) ==> PaymentIs(db, id, Initiated)
    case Recover(id, _, _) => id in db.payments && (Is(db, id, PendingPayment) ==> !PaymentIs(db, id, Initiated))
    case _ => true
  }

  // ----- the booking a transaction is about

  predicate TargetFits(db: Tables, id: BookingId) {
    && (id in db.payments ==> Exists(db, id))
    && (Exists(db, id) ==> Fits(db.bookings[id].status, PaymentStatusOf(db, id)))
  }

  lemma CancelFits(db: Tables, t: Txn)
    requires (t.Cancel? || t.AdminCancel?) && Legal(t) && TargetFits(db, t.id)
    ensures TargetFits(Run(db, t), t.id)
  {
    if Is(db, t.id, t.seen) {
      if t.Cancel? {
        CancelledRow(db, t.id, t.seen, t.byOwner, t.refund);
      } else {
        AdminCancelledRow(db, t.id, t.seen);
      }
    }
  }

  lemma DecideFits(db: Tables, t: Txn)
    requires t.Approve? || t.Invalidate? || t.Reject?
    requires TargetFits(db, t.id)
    ensures TargetFits(Run(db, t), t.id)
  {
    match t
    case Approve(id, now, deposit, stake, online, deadline) =>
      if Is(db, id, PendingApproval) { ApprovedRow(db, id, now, deposit, stake, online, deadline); }
    case Invalidate(id) =>
      if Is(db, id, PendingApproval) { EndedRow(db, id, PendingApproval, Expired); }
    case Reject(id) =>
      if Is(db, id, PendingApproval) { EndedRow(db, id, PendingApproval, RejectedBySalon); }
  }

  lemma PayFits(db: Tables, t: Txn)
    requires t.Capture? || t.ReconcileCapture? || t.Recover? || t.Decline? || t.Retire? || t.Mint? || t.Refund?
    requires Legal(t) && Backed(db, t) && TargetFits(db, t.id)
    ensures TargetFits(Run(db, t), t.id)
  {
    match t
    case Capture(id, session) =>
      if Is(db, id, PendingPayment) { CapturedRow(db, id, session); }
    case ReconcileCapture(id, session) =>
      if Is(db, id, PendingPayment) { CapturedRow(db, id, session); }
    case Decline(id, seenStake) => DeclinedRow(db, id, seenStake);
    case _ =>
  }

  lemma RunFits(db: Tables, t: Txn)
    requires Legal(t) && Backed(db, t) && TouchesOneRow(t) && TargetFits(db, t.id)
    ensures TargetFits(Run(db, t), t.id)
  {
    if t.Approve? || t.Invalidate? || t.Reject? {
      DecideFits(db, t);
    } else if t.Cancel? || t.AdminCancel? {
      CancelFits(db, t);
    } else if !t.Assign? && !t.Move? && !t.Settle? {
      PayFits(db, t);
    }
  }

  // The other bookings keep their rows, so one fit settles them all.
  lemma OneFitSettles(db: Tables, db': Tables, id: BookingId)
    requires Coupling(db) && TargetFits(db', id) && WritesPayment(db, db', id)
    requires db'.bookings == db.bookings || (Exists(db', id) && OneRow(db, db', id, db'.bookings[id]))
    ensures Coupling(db')
  {
    forall k: BookingId | k < |db'.bookings|
      ensures Fits(db'.bookings[k].status, PaymentStatusOf(db', k))
    {
      if k != id {
        assert Fits(db.bookings[k].status, PaymentStatusOf(db, k));
      }
    }
  }

  lemma CreationKeepsCoupling(db: Tables, t: Txn)
    requires Coupling(db) && (t.PlaceHold? || t.EnterManual?)
    ensures Coupling(Run(db, t))
  {
    if t.PlaceHold? {
      HoldPlacedRow(db, t.now, t.slot, t.terms);
    }
    var db' := Run(db, t);
    forall k: BookingId | k < |db.bookings|
      ensures Fits(db'.bookings[k].status, PaymentStatusOf(db', k))
    {
      assert Fits(db.bookings[k].status, PaymentStatusOf(db, k));
    }
  }

  lemma BatchKeepsCoupling(db: Tables, t: Txn)
    requires Coupling(db) && (t.ExpirePayments? || t.ExpireApprovals?)
    ensures Coupling(Run(db, t))
  {
    if t.ExpirePayments? {
      BatchRows(db, t.ids, UnpaidBy(t.at, t.cutoff));
    } else {
      BatchRows(db, t.ids, UndecidedBy(t.at));
    }
    var db' := Run(db, t);
    forall k: BookingId | k < |db.bookings|
      ensures Fits(db'.bookings[k].status, PaymentStatusOf(db', k))
    {
      assert Fits(db.bookings[k].status, PaymentStatusOf(db, k));
    }
  }

  lemma RunKeepsCoupling(db: Tables, t: Txn)
    requires Legal(t) && Backed(db, t) && Coupling(db)
    ensures Coupling(Run(db, t))
  {
    if t.PlaceHold? || t.EnterManual? {
      CreationKeepsCoupling(db, t);
    } else if t.ExpirePayments? || t.ExpireApprovals? {
      BatchKeepsCoupling(db, t);
    } else {
      assert TargetFits(db, t.id);
      RunFits(db, t);
      RunWritesRow(db, t);
      RunWritesPayment(db, t);
      OneFitSettles(db, Run(db, t), t.id);
    }
  }

  // ----- commission

  // Nothing takes a kept deposit away from a booking that has ended.
  lemma KeptDepositStays(db: Tables, t: Txn, id: BookingId)
    requires Legal(t) && Backed(db, t) && Coupling(db)
    requires Exists(db, id) && Forfeits(db.bookings[id].status) && PaymentIs(db, id, Paid)
    ensures var db' := Run(db, t);
            && Exists(db', id) && db'.bookings[id].status == db.bookings[id].status
            && db'.bookings[id].salon == db.bookings[id].salon
            && PaymentIs(db', id, Paid) && db'.payments[id].amount == db.payments[id].amount
  {
    assert Fits(db.bookings[id].status, PaymentStatusOf(db, id));
    RunMovesPayments(db, t, id);
    RunEvolves(db, t);
    assert Evolves(db.bookings[id], Run(db, t).bookings[id]);
  }

  lemma RunAccrues(db: Tables, t: Txn)
    requires Legal(t)
    ensures var db' := Run(db, t);
            || db'.commissions == db.commissions
            || (&& (t.Cancel? || t.Settle?) && Is(db, t.id, Confirmed)
                && Exists(db', t.id) && PaymentIs(db', t.id, Paid)
                && db'.commissions == db.commissions + [Commission(t.id, db'.bookings[t.id].salon, db'.payments[t.id].amount)]
                && Forfeits(db'.bookings[t.id].status))
  {
    match t
    case ExpirePayments(ids, at, cutoff) => BatchRows(db, ids, UnpaidBy(at, cutoff));
    case ExpireApprovals(ids, at) => BatchRows(db, ids, UndecidedBy(at));
    case PlaceHold(now, slot, terms) => HoldPlacedRow(db, now, slot, terms);
    case Cancel(id, seen, byOwner, refund) =>
      if Is(db, id, seen) { CancelledRow(db, id, seen, byOwner, refund); }
    case AdminCancel(id, seen) =>
      if Is(db, id, seen) { AdminCancelledRow(db, id, seen); }
    case EnterManual(_, _, _, _) =>
    case Settle(_, _) =>
    case _ => RestAccrueNothing(db, t);
  }

  lemma RestAccrueNothing(db: Tables, t: Txn)
    requires TouchesOneRow(t) && !t.Cancel? && !t.AdminCancel? && !t.Settle?
    ensures Run(db, t).commissions == db.commissions
  {
    match t
    case Approve(id, now, deposit, stake, online, deadline) =>
      if Is(db, id, PendingApproval) { ApprovedRow(db, id, now, deposit, stake, online, deadline); }
    case Decline(id, seenStake) => DeclinedRow(db, id, seenStake);
    case _ =>
  }

  lemma RunKeepsCommission(db: Tables, t: Txn)
    requires Legal(t) && Backed(db, t) && Coupling(db) && CommissionSound(db)
    ensures CommissionSound(Run(db, t))
  {
    var db' := Run(db, t);
    RunAccrues(db, t);
    forall k | 0 <= k < |db.commissions|
      ensures CommissionBacked(db', db.commissions[k])
    {
      assert CommissionBacked(db, db.commissions[k]);
      KeptDepositStays(db, t, db.commissions[k].booking);
    }
  }

  // ----- one payment's life

  predicate PaymentEdge(p: PaymentStatus, p': PaymentStatus) {
    match p
    case Initiated => p' == Paid || p' == Failed || p' == RefundPending
    case Failed => p' == RefundPending
    case Paid => p' == RefundPending
    case RefundPending => p' == Refunded
    case Refunded => false
  }

  // A cancellation that owes the customer his deposit back.
  predicate TakesBack(db: Tables, t: Txn, id: BookingId) {
    ((t.Cancel? && t.refund) || t.AdminCancel?) && t.id == id && t.seen == Confirmed && Is(db, id, Confirmed)
  }

  // A payment row is never removed, its amount never changes, its sessions only grow, and its
  // status only moves forward: a refunded one stays refunded, and only cancelling a confirmed
  // booking takes a paid one back.
  predicate PaymentMovesOn(db: Tables, db': Tables, t: Txn, id: BookingId) {
    && id in db.payments && id in db'.payments
    && var p, p' := db.payments[id], db'.payments[id];
    && p'.amount == p.amount && p.sessions <= p'.sessions
    && (p'.status == p.status || PaymentEdge(p.status, p'.status))
    && (p.status == Paid && p'.status != Paid ==> TakesBack(db, t, id))
  }

  lemma RunMovesPayments(db: Tables, t: Txn, id: BookingId)
    requires Legal(t) && Coupling(db) && id in db.payments
    ensures PaymentMovesOn(db, Run(db, t), t, id)
  {
    assert Fits(db.bookings[id].status, PaymentStatusOf(db, id));
    match t
    case PlaceHold(now, slot, terms) => HoldPlacedRow(db, now, slot, terms);
    case EnterManual(_, _, _, _) =>
    case ExpirePayments(ids, at, cutoff) => BatchRows(db, ids, UnpaidBy(at, cutoff));
    case ExpireApprovals(ids, at) => BatchRows(db, ids, UndecidedBy(at));
    case _ =>
      RunWritesPayment(db, t);
      if id == t.id {
        TargetPaymentMoves(db, t);
      }
  }

  lemma CancelMovesPayment(db: Tables, t: Txn)
    requires (t.Cancel? || t.AdminCancel?) && Legal(t) && TargetFits(db, t.id) && t.id in db.payments
    ensures PaymentMovesOn(db, Run(db, t), t, t.id)
  {
    if Is(db, t.id, t.seen) {
      if t.Cancel? {
        CancelledRow(db, t.id, t.seen, t.byOwner, t.refund);
      } else {
        AdminCancelledRow(db, t.id, t.seen);
      }
    }
  }

  lemma DecisionMovesPayment(db: Tables, t: Txn)
    requires (t.Approve? || t.Decline?) && t.id in db.payments
    ensures PaymentMovesOn(db, Run(db, t), t, t.id)
  {
    if t.Decline? {
      DeclinedRow(db, t.id, t.seenStake);
    } else if Is(db, t.id, PendingApproval) {
      ApprovedRow(db, t.id, t.now, t.seenDeposit, t.seenStake, t.online, t.deadline);
    }
  }

  lemma TargetPaymentMoves(db: Tables, t: Txn)
    requires Legal(t) && TouchesOneRow(t) && TargetFits(db, t.id) && t.id in db.payments
    ensures PaymentMovesOn(db, Run(db, t), t, t.id)
  {
    match t
    case Approve(_, _, _, _, _, _) => DecisionMovesPayment(db, t);
    case Decline(_, _) => DecisionMovesPayment(db, t);
    case Cancel(_, _, _, _) => CancelMovesPayment(db, t);
    case AdminCancel(_, _) => CancelMovesPayment(db, t);
    case _ =>
  }
}
