/**
 * "Money being refunded means the booking is dead" is not quite what the code keeps. The
 * reconciliation job writes off a payment that has no session without touching its booking, and
 * a session still being minted then attaches to the written-off payment: paying through it
 * queues a refund while the booking waits for payment. Exactly that step breaks the claim.
 */
module LateSessions {
  import opened Records
  import opened Transactions
  import opened Schedule
  import opened Protocol
  import opened Evolution
  import opened Requests
  import opened PaymentCoupling
  import opened PaymentFlow
  import opened Forfeiture
  import opened Runs
  import opened SessionLedger

  // A session is minted for a written-off payment whose booking is still open.
  predicate MintsLate(w: World, step: Step) {
    && step.Commit? && step.rid in w.requests && w.requests[step.rid].Minting?
    && Is(w.db, w.requests[step.rid].id, PendingPayment) && PaymentIs(w.db, w.requests[step.rid].id, Failed)
  }

  predicate NeverMintsLate(site: Site, w: World, steps: seq<Step>)
    requires Possible(site, w, steps)
    decreases |steps|
  {
    steps == [] || (!MintsLate(w, steps[0]) && NeverMintsLate(site, Apply(site, w, steps[0]), steps[1..]))
  }

  // An open booking's payment is unsettled, or written off with no way left to pay it.
  predicate Payable(db: Tables, id: BookingId) {
    Is(db, id, PendingPayment) ==>
      id in db.payments && (PaymentIs(db, id, Initiated) || (PaymentIs(db, id, Failed) && db.payments[id].sessions == []))
  }

  predicate AllPayable(db: Tables) {
    forall id: BookingId :: id < |db.bookings| ==> Payable(db, id)
  }

  // ----- one transaction

  predicate MintOrRecoverOk(db: Tables, t: Txn) {
    && (t.Mint? ==> !(Is(db, t.id, PendingPayment) && PaymentIs(db, t.id, Failed)))
    && (t.Recover? ==> t.id in db.payments && (!Is(db, t.id, PendingPayment) || db.payments[t.id].sessions != []))
  }

  lemma DecisionStaysPayable(db: Tables, t: Txn)
    requires t.Approve? || t.Invalidate? || t.Reject? || t.Cancel? || t.AdminCancel?
    requires Legal(t) && TargetFits(db, t.id) && Payable(db, t.id)
    ensures Payable(Run(db, t), t.id)
  {
    match t
    case Approve(id, now, deposit, stake, online, deadline) =>
      if Is(db, id, PendingApproval) { ApprovedRow(db, id, now, deposit, stake, online, deadline); }
    case Invalidate(id) =>
      if Is(db, id, PendingApproval) { EndedRow(db, id, PendingApproval, Expired); }
    case Reject(id) =>
      if Is(db, id, PendingApproval) { EndedRow(db, id, PendingApproval, RejectedBySalon); }
    case Cancel(id, seen, byOwner, refund) =>
      if Is(db, id, seen) { CancelledRow(db, id, seen, byOwner, refund); }
    case AdminCancel(id, seen) =>
      if Is(db, id, seen) { AdminCancelledRow(db, id, seen); }
  }

  lemma TargetStaysPayable(db: Tables, t: Txn)
    requires TouchesOneRow(t) && Legal(t) && Backed(db, t) && MintOrRecoverOk(db, t) && SessionsNamed(db)
    requires TargetFits(db, t.id) && Payable(db, t.id)
    ensures Payable(Run(db, t), t.id)
  {
    if t.Approve? || t.Invalidate? || t.Reject? || t.Cancel? || t.AdminCancel? {
      DecisionStaysPayable(db, t);
    } else if t.Decline? {
      DeclinedRow(db, t.id, t.seenStake);
    }
  }

  lemma HoldIsPayable(db: Tables, now: int, slot: Slot, terms: HoldTerms, id: BookingId)
    requires Coupling(db) && Exists(HoldPlaced(db, now, slot, terms), id) && (Exists(db, id) ==> Payable(db, id))
    ensures Payable(HoldPlaced(db, now, slot, terms), id)
  {
    HoldPlacedRow(db, now, slot, terms);
  }

  lemma OthersStayPayable(db: Tables, t: Txn, id: BookingId)
    requires Legal(t) && AllPayable(db) && Coupling(db) && Exists(Run(db, t), id) && !(TouchesOneRow(t) && t.id == id)
    ensures Payable(Run(db, t), id)
  {
    assert Exists(db, id) ==> Payable(db, id);
    match t
    case PlaceHold(now, slot, terms) => HoldIsPayable(db, now, slot, terms, id);
    case EnterManual(_, _, _, _) =>
    case ExpirePayments(ids, at, cutoff) => BatchRows(db, ids, UnpaidBy(at, cutoff));
    case ExpireApprovals(ids, at) => BatchRows(db, ids, UndecidedBy(at));
    case _ =>
      RunWritesRow(db, t);
      RunWritesPayment(db, t);
      ElsewhereStaysPayable(db, Run(db, t), t, id);
  }

  lemma ElsewhereStaysPayable(db: Tables, db': Tables, t: Txn, id: BookingId)
    requires TouchesOneRow(t) && t.id != id && WritesRow(db, db', t.id, t) && WritesPayment(db, db', t.id)
    requires Exists(db', id) && Payable(db, id)
    ensures Payable(db', id)
  {
  }

  // ----- one step

  lemma CommitIsOk(site: Site, w: World, step: Step)
    requires Sound(w) && MoneySound(w) && AllPayable(w.db) && Enabled(site, w, step) && !MintsLate(w, step)
    ensures Commits(site, w, step).Some? ==> MintOrRecoverOk(w.db, Commits(site, w, step).value)
  {
    if step.Commit? {
      assert PaymentFact(w.db, w.now, w.requests[step.rid]);
    }
  }

  lemma StepStaysPayable(site: Site, w: World, step: Step)
    requires Sound(w) && MoneySound(w) && AllPayable(w.db) && Enabled(site, w, step) && !MintsLate(w, step)
    ensures AllPayable(Apply(site, w, step).db)
  {
    var w' := Apply(site, w, step);
    DbChangesByTxn(site, w, step);
    CommitIsLegal(site, w, step);
    CommitIsBacked(site, w, step);
    CommitIsOk(site, w, step);
    var t := Commits(site, w, step);
    if t.Some? {
      forall id: BookingId | id < |w'.db.bookings|
        ensures Payable(w'.db, id)
      {
        if TouchesOneRow(t.value) && t.value.id == id {
          RunRowCount(w.db, t.value);
          assert TargetFits(w.db, id) && Payable(w.db, id);
          TargetStaysPayable(w.db, t.value);
        } else {
          OthersStayPayable(w.db, t.value, id);
        }
      }
    }
  }

  // ----- every run

  lemma {:induction false} PayableThroughout(site: Site, w: World, steps: seq<Step>)
    requires Sound(w) && MoneySound(w) && AllPayable(w.db) && Possible(site, w, steps) && NeverMintsLate(site, w, steps)
    ensures AllPayable(After(site, w, steps).db)
    decreases |steps|
  {
    if steps == [] {
    } else {
      StepStaysSound(site, w, steps[0]);
      StepKeepsMoney(site, w, steps[0]);
      StepStaysPayable(site, w, steps[0]);
      PayableThroughout(site, Apply(site, w, steps[0]), steps[1..]);
    }
  }

  // Without a late session, money is refunded only for dead bookings.
  lemma OnlyDeadBookingsRefund(site: Site, w: World, steps: seq<Step>, id: BookingId)
    requires Init(w) && Possible(site, w, steps) && NeverMintsLate(site, w, steps)
    ensures var db := After(site, w, steps).db; Refunding(db, id) ==> Exists(db, id) && Dead(db.bookings[id].status)
  {
    MoneyKept(site, w, steps);
    PayableThroughout(site, w, steps);
    var db := After(site, w, steps).db;
    if id in db.payments {
      assert Fits(db.bookings[id].status, PaymentStatusOf(db, id)) && Payable(db, id);
    }
  }

  // With one, a few steps later money is being refunded for a booking that still waits for it.
  lemma LateSessionBreaksIt(site: Site, w: World, rid: RequestId, session: Session, caller: RequestId) returns (steps: seq<Step>)
    requires rid in w.requests && w.requests[rid].Minting? && FreshSession(w.db, session)
    requires MintsLate(w, Commit(rid, SessionInput(session)))
    requires caller !in w.requests && caller !in w.salonLock.Values
    ensures Possible(site, w, steps)
    ensures var db := After(site, w, steps).db; var id := w.requests[rid].id;
            Is(db, id, PendingPayment) && Refunding(db, id)
  {
    var mint := Commit(rid, SessionInput(session));
    var minted := Apply(site, w, mint);
    DbChangesByTxn(site, w, mint);
    var rest := LateCaptureIsRefunded(site, minted, w.requests[rid].id, session, caller);
    StepThen(site, w, mint, rest);
    steps := [mint] + rest;
  }
}
