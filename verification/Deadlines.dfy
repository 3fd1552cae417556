/** No job takes an unpaid booking away before the deadline it was given. */
module Deadlines {
  import opened Options
  import opened Records
  import opened Transactions
  import opened Schedule
  import opened Protocol
  import opened Evolution
  import opened Requests
  import opened PaymentCoupling
  import opened PaymentFlow

  // The steps of BookingExpiryJob, BookingApprovalExpiryJob and PaymentReconciliationJob.
  predicate IsJobStep(w: World, step: Step) {
    && step.Commit? && step.rid in w.requests
    && (w.requests[step.rid].ExpiringPayments? || w.requests[step.rid].ExpiringApprovals? || w.requests[step.rid].Reconciling?)
  }

  // What a job may have done to a booking that was waiting: nothing, unless its deadline is past.
  predicate WaitedFor(b: Booking, b': Booking, now: int) {
    && (b.status == PendingPayment && b'.status != PendingPayment ==> b.paymentDeadline.Some? && b.paymentDeadline.value <= now)
    && (b.status == PendingApproval && b'.status != PendingApproval ==> b.approvalDeadline.Some? && b.approvalDeadline.value <= now)
  }

  lemma ExpiryWaits(db: Tables, ids: seq<BookingId>, due: Due, now: int, id: BookingId)
    requires Exists(db, id) && Stamped(db.bookings[id]) && due.at <= now
    ensures Exists(BatchExpired(db, ids, due), id) && WaitedFor(db.bookings[id], BatchExpired(db, ids, due).bookings[id], now)
  {
    BatchRows(db, ids, due);
  }

  lemma ReconciliationWaits(db: Tables, t: Txn, now: int, id: BookingId)
    requires (t.Retire? || t.Decline? || t.ReconcileCapture?) && PastDeadline(db, now, t.id) && Exists(db, id)
    ensures Exists(Run(db, t), id) && WaitedFor(db.bookings[id], Run(db, t).bookings[id], now)
  {
    RunWritesRow(db, t);
    if t.Decline? {
      DeclinedRow(db, t.id, t.seenStake);
    }
  }

  lemma JobsWaitForDeadlines(site: Site, w: World, step: Step, id: BookingId)
    requires Sound(w) && MoneySound(w) && Enabled(site, w, step) && IsJobStep(w, step) && Exists(w.db, id)
    ensures Exists(Apply(site, w, step).db, id)
    ensures WaitedFor(w.db.bookings[id], Apply(site, w, step).db.bookings[id], w.now)
  {
    var r := w.requests[step.rid];
    assert PaymentFact(w.db, w.now, r) && Stamped(w.db.bookings[id]);
    DbChangesByTxn(site, w, step);
    match r
    case ExpiringPayments(ids, at, cutoff) => ExpiryWaits(w.db, ids, UnpaidBy(at, cutoff), w.now, id);
    case ExpiringApprovals(ids, at) => ExpiryWaits(w.db, ids, UndecidedBy(at), w.now, id);
    case Reconciling(queue, _) => ReconciliationWaits(w.db, TxnOf(site, w, r, step.late), w.now, id);
  }

  // Over a whole run: while the clock has not passed a booking's stamped payment deadline, a
  // job's step leaves it waiting for payment, and nothing has moved the deadline meanwhile.
  lemma UnpaidBookingsKeepTheirTime(site: Site, w: World, before: seq<Step>, step: Step, id: BookingId, deadline: int)
    requires Init(w) && Possible(site, w, before)
    requires var w' := After(site, w, before);
             && Enabled(site, w', step) && IsJobStep(w', step)
             && Is(w'.db, id, PendingPayment) && w'.db.bookings[id].paymentDeadline == Some(deadline) && w'.now < deadline
    ensures var w' := After(site, w, before);
            && Is(Apply(site, w', step).db, id, PendingPayment)
            && Apply(site, w', step).db.bookings[id].paymentDeadline == Some(deadline)
  {
    var w' := After(site, w, before);
    MoneyKept(site, w, before);
    JobsWaitForDeadlines(site, w', step, id);
    StepEvolves(site, w', step);
    assert Evolves(w'.db.bookings[id], Apply(site, w', step).db.bookings[id]);
  }

  // A deadline once stamped survives every later step, a move included.
  lemma DeadlinesNeverMove(site: Site, w: World, before: seq<Step>, later: seq<Step>, id: BookingId)
    requires Init(w) && Possible(site, w, before) && Possible(site, After(site, w, before), later)
    requires Exists(After(site, w, before).db, id) && After(site, w, before).db.bookings[id].paymentDeadline.Some?
    ensures var w' := After(site, w, before);
            var w'' := After(site, w', later);
            Exists(w''.db, id) && w''.db.bookings[id].paymentDeadline == w'.db.bookings[id].paymentDeadline
  {
    MoneyKept(site, w, before);
    HistoryIsFinal(site, After(site, w, before), later, id);
  }
}
