/** Once inside the cancellation window a customer cannot get the deposit back by his own doing. */
module Forfeiture {
  import opened Options
  import opened Records
  import opened Transactions
  import opened Schedule
  import opened Protocol
  import opened Evolution
  import opened Requests
  import opened PaymentCoupling
  import opened PaymentFlow
  import opened Runs
  import opened UnlockedRequests

  predicate Refunding(db: Tables, id: BookingId) {
    PaymentIs(db, id, RefundPending) || PaymentIs(db, id, Refunded)
  }

  // A confirmed booking inside its window, or one that has ended with its deposit kept; either
  // way whatever was captured is still captured.
  predicate AtStake(db: Tables, now: int, id: BookingId) {
    && Exists(db, id) && (id in db.payments ==> PaymentIs(db, id, Paid))
    && var b := db.bookings[id];
    && (b.status == Confirmed || Forfeits(b.status))
    && (b.status == Confirmed ==> !OutsideWindow(b, now))
  }

  // A request decided before the window closed, or by someone else: it could still return the deposit.
  predicate CancelsForRefund(r: Request, id: BookingId) {
    || (r.Cancelling? && r.id == id && r.refund && r.seen == Confirmed)
    || (r.AdminCancelling? && r.id == id && r.seen == Confirmed)
  }

  predicate MovesIt(r: Request, id: BookingId) {
    r.Placing? && r.intent.ToMove? && r.intent.id == id && r.intent.seen.status == Confirmed
  }

  predicate WayOut(r: Request, id: BookingId) {
    CancelsForRefund(r, id) || MovesIt(r, id)
  }

  predicate Caught(w: World, id: BookingId) {
    && AtStake(w.db, w.now, id)
    && forall rid :: rid in w.requests ==> !WayOut(w.requests[rid], id)
  }

  // The salon and the admin leave this booking alone.
  predicate LeftToCustomer(step: Step, id: BookingId) {
    step.Begin? ==>
      match step.request
      case Cancelling(k, _, byOwner, _) => !(k == id && byOwner)
      case AdminCancelling(k, _) => k != id
      case Placing(ToMove(k, _, _, _, byCustomer), _, _, _, _, _, _) => k == id ==> byCustomer
      case _ => true
  }

  predicate AllLeftToCustomer(steps: seq<Step>, id: BookingId) {
    forall i :: 0 <= i < |steps| ==> LeftToCustomer(steps[i], id)
  }

  // ----- one transaction

  predicate LetsGo(t: Txn, id: BookingId) {
    || (t.Cancel? && t.id == id && t.refund && t.seen == Confirmed)
    || (t.AdminCancel? && t.id == id && t.seen == Confirmed)
    || (t.Move? && t.id == id && t.seen == Confirmed)
  }

  lemma TargetOnlyCancelled(db: Tables, t: Txn)
    requires TouchesOneRow(t) && Legal(t) && Is(db, t.id, Confirmed) && !LetsGo(t, t.id)
    ensures Exists(Run(db, t), t.id)
    ensures var b' := Run(db, t).bookings[t.id];
            && (b'.status == Confirmed || Forfeits(b'.status))
            && SameTime(db.bookings[t.id], b')
  {
    match t
    case Cancel(id, seen, byOwner, refund) =>
      if Is(db, id, seen) { CancelledRow(db, id, seen, byOwner, refund); }
    case AdminCancel(id, seen) =>
      if Is(db, id, seen) { AdminCancelledRow(db, id, seen); }
    case Decline(id, seenStake) => DeclinedRow(db, id, seenStake);
    case _ =>
  }

  // Only a cancellation ends a confirmed booking otherwise than by its taking place.
  lemma OnlyCancelsConfirmed(db: Tables, t: Txn, id: BookingId)
    requires Legal(t) && Is(db, id, Confirmed) && !LetsGo(t, id)
    ensures var db' := Run(db, t);
            && Exists(db', id) && (db'.bookings[id].status == Confirmed || Forfeits(db'.bookings[id].status))
            && SameTime(db.bookings[id], db'.bookings[id])
  {
    match t
    case PlaceHold(now, slot, terms) => HoldPlacedRow(db, now, slot, terms);
    case EnterManual(_, _, _, _) =>
    case ExpirePayments(ids, at, cutoff) => BatchRows(db, ids, UnpaidBy(at, cutoff));
    case ExpireApprovals(ids, at) => BatchRows(db, ids, UndecidedBy(at));
    case _ =>
      RunWritesRow(db, t);
      if t.id == id {
        TargetOnlyCancelled(db, t);
      }
  }

  // Payments are created with a hold or by an approval, never for a decided booking.
  lemma NoLatePayment(db: Tables, t: Txn, id: BookingId)
    requires Legal(t) && Exists(db, id) && id !in db.payments && !Is(db, id, PendingApproval)
    ensures id !in Run(db, t).payments
  {
    match t
    case PlaceHold(now, slot, terms) => HoldPlacedRow(db, now, slot, terms);
    case EnterManual(_, _, _, _) =>
    case ExpirePayments(ids, at, cutoff) => BatchRows(db, ids, UnpaidBy(at, cutoff));
    case ExpireApprovals(ids, at) => BatchRows(db, ids, UndecidedBy(at));
    case _ =>
      RunWritesPayment(db, t);
      if t.id == id {
        TargetGetsNoPayment(db, t);
      }
  }

  lemma TargetGetsNoPayment(db: Tables, t: Txn)
    requires TouchesOneRow(t) && t.id !in db.payments && !Is(db, t.id, PendingApproval)
    ensures t.id !in Run(db, t).payments
  {
    match t
    case Cancel(id, seen, byOwner, refund) =>
      if Is(db, id, seen) { CancelledRow(db, id, seen, byOwner, refund); }
    case AdminCancel(id, seen) =>
      if Is(db, id, seen) { AdminCancelledRow(db, id, seen); }
    case Decline(id, seenStake) => DeclinedRow(db, id, seenStake);
    case _ =>
  }

  lemma RunKeepsAtStake(db: Tables, t: Txn, now: int, id: BookingId)
    requires Legal(t) && Backed(db, t) && Coupling(db) && AtStake(db, now, id) && !LetsGo(t, id)
    ensures AtStake(Run(db, t), now, id)
  {
    var db' := Run(db, t);
    RunEvolves(db, t);
    assert Evolves(db.bookings[id], db'.bookings[id]);
    if Is(db, id, Confirmed) {
      OnlyCancelsConfirmed(db, t, id);
    }
    if id in db.payments {
      RunMovesPayments(db, t, id);
    } else {
      NoLatePayment(db, t, id);
    }
  }

  // ----- one step

  // Inside the window neither the customer's cancellation nor his move is a way out.
  lemma NoNewWayOut(site: Site, w: World, step: Step, id: BookingId)
    requires Caught(w, id) && Enabled(site, w, step) && LeftToCustomer(step, id)
    ensures forall rid :: rid in Apply(site, w, step).requests ==> !WayOut(Apply(site, w, step).requests[rid], id)
  {
    var w' := Apply(site, w, step);
    forall rid | rid in w'.requests
      ensures !WayOut(w'.requests[rid], id)
    {
      if Actor(step) != Some(rid) {
        OthersWait(site, w, step, rid);
      } else if rid in w.requests {
        assert !WayOut(w.requests[rid], id);
      }
    }
  }

  lemma CommitLetsNobodyGo(site: Site, w: World, step: Step, id: BookingId)
    requires Caught(w, id) && Enabled(site, w, step)
    ensures Commits(site, w, step).Some? ==> !LetsGo(Commits(site, w, step).value, id)
  {
    if step.Commit? {
      assert !WayOut(w.requests[step.rid], id);
    }
  }

  lemma AtStakeLater(db: Tables, now: int, now': int, id: BookingId)
    requires AtStake(db, now, id) && now <= now'
    ensures AtStake(db, now', id)
  {
  }

  lemma StepKeepsAtStake(site: Site, w: World, step: Step, id: BookingId)
    requires Sound(w) && MoneySound(w) && Caught(w, id) && Enabled(site, w, step)
    ensures AtStake(Apply(site, w, step).db, Apply(site, w, step).now, id)
  {
    DbChangesByTxn(site, w, step);
    CommitIsLegal(site, w, step);
    CommitIsBacked(site, w, step);
    CommitLetsNobodyGo(site, w, step, id);
    var t := Commits(site, w, step);
    if t.Some? {
      RunKeepsAtStake(w.db, t.value, w.now, id);
    }
    AtStakeLater(Apply(site, w, step).db, w.now, Apply(site, w, step).now, id);
  }

  lemma StepKeepsCaught(site: Site, w: World, step: Step, id: BookingId)
    requires Sound(w) && MoneySound(w) && Caught(w, id) && Enabled(site, w, step) && LeftToCustomer(step, id)
    ensures Caught(Apply(site, w, step), id)
  {
    NoNewWayOut(site, w, step, id);
    StepKeepsAtStake(site, w, step, id);
  }

  // ----- every run

  lemma {:induction false} CaughtThroughout(site: Site, w: World, steps: seq<Step>, id: BookingId)
    requires Sound(w) && MoneySound(w) && Caught(w, id) && Possible(site, w, steps) && AllLeftToCustomer(steps, id)
    ensures Caught(After(site, w, steps), id)
    decreases |steps|
  {
    if steps == [] {
    } else {
      assert LeftToCustomer(steps[0], id);
      StepStaysSound(site, w, steps[0]);
      StepKeepsMoney(site, w, steps[0]);
      StepKeepsCaught(site, w, steps[0], id);
      CaughtThroughout(site, Apply(site, w, steps[0]), steps[1..], id);
    }
  }

  // From any reachable state in which a confirmed booking is inside its window and no earlier
  // decision about it is still in flight, nothing but the salon or an admin can bring its
  // deposit back: not the customer's moves and cancellations in any order, nor the jobs.
  lemma NoEscapeFromForfeiture(site: Site, w: World, before: seq<Step>, later: seq<Step>, id: BookingId)
    requires Init(w) && Possible(site, w, before) && Possible(site, After(site, w, before), later)
    requires var w' := After(site, w, before);
             && Is(w'.db, id, Confirmed) && !OutsideWindow(w'.db.bookings[id], w'.now)
             && forall rid :: rid in w'.requests ==> !WayOut(w'.requests[rid], id)
    requires AllLeftToCustomer(later, id)
    ensures var w' := After(site, w, before);
            !Refunding(After(site, w', later).db, id)
  {
    var w' := After(site, w, before);
    MoneyKept(site, w, before);
    assert Fits(w'.db.bookings[id].status, PaymentStatusOf(w'.db, id));
    CaughtThroughout(site, w', later, id);
  }

  // ----- and when there is an escape

  ghost predicate Escapable(site: Site, w: World, id: BookingId) {
    exists later :: Possible(site, w, later) && AllLeftToCustomer(later, id) && Refunding(After(site, w, later).db, id)
  }

  lemma UnpaidStepStaysUnpaid(site: Site, w: World, step: Step, id: BookingId)
    requires Sound(w) && Enabled(site, w, step) && Exists(w.db, id) && id !in w.db.payments && !Is(w.db, id, PendingApproval)
    ensures var db := Apply(site, w, step).db; Exists(db, id) && id !in db.payments && !Is(db, id, PendingApproval)
  {
    StepEvolves(site, w, step);
    assert Evolves(w.db.bookings[id], Apply(site, w, step).db.bookings[id]);
    DbChangesByTxn(site, w, step);
    CommitIsLegal(site, w, step);
    if Commits(site, w, step).Some? {
      NoLatePayment(w.db, Commits(site, w, step).value, id);
    }
  }

  lemma {:induction false} UnpaidNeverRefunds(site: Site, w: World, steps: seq<Step>, id: BookingId)
    requires Sound(w) && Possible(site, w, steps) && Exists(w.db, id) && id !in w.db.payments && !Is(w.db, id, PendingApproval)
    ensures id !in After(site, w, steps).db.payments
    decreases |steps|
  {
    if steps == [] {
    } else {
      StepStaysSound(site, w, steps[0]);
      UnpaidStepStaysUnpaid(site, w, steps[0], id);
      UnpaidNeverRefunds(site, Apply(site, w, steps[0]), steps[1..], id);
    }
  }

  lemma CancellationRefunds(site: Site, w: World, rid: RequestId, id: BookingId)
    requires Is(w.db, id, Confirmed) && PaymentIs(w.db, id, Paid) && rid in w.requests && CancelsForRefund(w.requests[rid], id)
    ensures Escapable(site, w, id)
  {
    var step := Commit(rid, NoInput);
    DbChangesByTxn(site, w, step);
    if w.requests[rid].Cancelling? {
      CancelledRow(w.db, id, Confirmed, w.requests[rid].byOwner, true);
    } else {
      AdminCancelledRow(w.db, id, Confirmed);
    }
    StepThen(site, w, step, []);
    var later := [step] + [];
    assert Possible(site, w, later) && AllLeftToCustomer(later, id) && Refunding(After(site, w, later).db, id);
  }

  lemma RefundNeedsCancellation(site: Site, w: World, later: seq<Step>, id: BookingId)
    requires Sound(w) && MoneySound(w) && Is(w.db, id, Confirmed) && !OutsideWindow(w.db.bookings[id], w.now)
    requires forall rid :: rid in w.requests ==> !MovesIt(w.requests[rid], id)
    requires Possible(site, w, later) && AllLeftToCustomer(later, id)
    ensures Refunding(After(site, w, later).db, id) ==>
              PaymentIs(w.db, id, Paid) && exists rid :: rid in w.requests && CancelsForRefund(w.requests[rid], id)
  {
    assert Fits(w.db.bookings[id].status, PaymentStatusOf(w.db, id));
    if id !in w.db.payments {
      UnpaidNeverRefunds(site, w, later, id);
    } else if forall rid :: rid in w.requests ==> !CancelsForRefund(w.requests[rid], id) {
      CaughtThroughout(site, w, later, id);
    }
  }

  // In any reachable state in which a confirmed booking is inside its window and no move of it is in
  // flight, some run without a further decision of the salon or an admin returns its deposit if and
  // only if the deposit was paid and a cancellation that owes it back is already in flight.
  lemma EscapeIff(site: Site, w: World, before: seq<Step>, id: BookingId)
    requires Init(w) && Possible(site, w, before)
    requires var w' := After(site, w, before);
             && Is(w'.db, id, Confirmed) && !OutsideWindow(w'.db.bookings[id], w'.now)
             && forall rid :: rid in w'.requests ==> !MovesIt(w'.requests[rid], id)
    ensures var w' := After(site, w, before);
            Escapable(site, w', id) <==>
              PaymentIs(w'.db, id, Paid) && exists rid :: rid in w'.requests && CancelsForRefund(w'.requests[rid], id)
  {
    var w' := After(site, w, before);
    MoneyKept(site, w, before);
    assert Fits(w'.db.bookings[id].status, PaymentStatusOf(w'.db, id));
    forall later | Possible(site, w', later) && AllLeftToCustomer(later, id) && Refunding(After(site, w', later).db, id)
      ensures PaymentIs(w'.db, id, Paid) && exists rid :: rid in w'.requests && CancelsForRefund(w'.requests[rid], id)
    {
      RefundNeedsCancellation(site, w', later, id);
    }
    if PaymentIs(w'.db, id, Paid) && exists rid :: rid in w'.requests && CancelsForRefund(w'.requests[rid], id) {
      var rid :| rid in w'.requests && CancelsForRefund(w'.requests[rid], id);
      CancellationRefunds(site, w', rid, id);
    }
  }

  // A move that does take the booking out of its window opens the way for the customer's own cancellation.
  lemma OutsideWindowRefunds(site: Site, w: World, rid: RequestId, id: BookingId) returns (later: seq<Step>)
    requires Is(w.db, id, Confirmed) && PaymentIs(w.db, id, Paid) && OutsideWindow(w.db.bookings[id], w.now)
    requires rid !in w.requests && rid !in w.salonLock.Values
    ensures Possible(site, w, later) && AllLeftToCustomer(later, id) && Refunding(After(site, w, later).db, id)
  {
    later := BeginsAndCommits(site, w, rid, Cancelling(id, Confirmed, false, true), NoInput);
    CancelledRow(w.db, id, Confirmed, false, true);
  }
}
