/**
 * What every transaction leaves, column by column: the rows it writes in terms of the rows it found,
 * and everything else as it was. Exactly one set of tables answers each description, and Run gives it.
 */
module Effects {
  import opened Options
  import opened Pricing
  import opened Records
  import opened Transactions
  import opened Evolution

  // ----- the parts of an effect

  // The whole stake is credited to the customer, and the row no longer carries it.
  predicate StakeReturned(db: Tables, db': Tables, id: BookingId)
    requires Exists(db, id)
  {
    var b := db.bookings[id];
    if b.stake == 0 then db'.balances == db.balances && db'.ledger == db.ledger
    else
      && db'.balances == db.balances[b.customer := Balance(db, b.customer) + b.stake]
      && db'.ledger == db.ledger + [WalletEntry(b.customer, b.stake, SpendReversal, id)]
  }

  predicate HoldReturned(db: Tables, db': Tables, id: BookingId)
    requires Exists(db, id)
  {
    StakeReturned(db, db', id) && db'.redemptions == db.redemptions - {id}
  }

  predicate HoldStays(db: Tables, db': Tables) {
    db'.balances == db.balances && db'.ledger == db.ledger && db'.redemptions == db.redemptions
  }

  // The payment, if there is one in such a state, is in the new state.
  predicate PaymentTurns(db: Tables, db': Tables, id: BookingId, from: set<PaymentStatus>, to: PaymentStatus) {
    db'.payments == if id in db.payments && db.payments[id].status in from
                    then db.payments[id := db.payments[id].(status := to)] else db.payments
  }

  const ANY_STATUS := {Initiated, Paid, Failed, RefundPending, Refunded}

  lemma AnyStatusIsOne(s: PaymentStatus)
    ensures s in ANY_STATUS
  {
    match s { case Initiated => case Paid => case Failed => case RefundPending => case Refunded => }
  }

  // One commission row of the captured deposit, if there is one in such a state.
  predicate CommissionAccrues(db: Tables, db': Tables, id: BookingId, from: set<PaymentStatus>)
    requires Exists(db, id)
  {
    db'.commissions == if id in db.payments && db.payments[id].status in from && db.payments[id].amount > 0
                       then db.commissions + [Commission(id, db.bookings[id].salon, db.payments[id].amount)] else db.commissions
  }

  predicate OnlyBookings(db: Tables, db': Tables) {
    HoldStays(db, db') && db'.payments == db.payments && db'.commissions == db.commissions
  }

  predicate OnlyPayments(db: Tables, db': Tables) {
    HoldStays(db, db') && db'.bookings == db.bookings && db'.commissions == db.commissions
  }

  // ----- creating

  // The price is the best on offer, the wallet pays what it can of the deposit on it, and a code is
  // redeemed if it made the price. A customer who has redeemed it before changes nothing.
  ghost predicate HoldPriced(db: Tables, db': Tables, now: int, slot: Slot, t: HoldTerms, price: Resolved) {
    var id, c := |db.bookings|, slot.customer;
    var deposit := Deposit(price.finalPrice, t.depositPercent, t.depositMinimum);
    var stake := if t.applyWallet && t.online then Min(deposit, Balance(db, c)) else 0;
    var pays := t.online && stake < deposit;
    var redeems := t.offer.Some? && price.winner == Some(1);
    if redeems && Redemption(t.offer.value.coupon, c) in db.redemptions.Values then db' == db
    else
      && db'.bookings == db.bookings + [Booking(
           c, slot.salon, slot.startsAt, slot.endsAt, price.finalPrice, deposit - stake, stake, slot.worker,
           if t.manualApproval then PendingApproval else if pays then PendingPayment else Confirmed,
           t.manualApproval,
           if t.manualApproval then Some(now + t.approvalTimeout) else None,
           if pays && !t.manualApproval then Some(now + t.paymentTimeout) else None,
           t.windowHours, now)]
      && db'.payments == (if pays && !t.manualApproval
                          then db.payments[id := Payment(deposit - stake, Initiated, None, [], now)] else db.payments)
      && db'.balances == (if stake > 0 then db.balances[c := Balance(db, c) - stake] else db.balances)
      && db'.ledger == (if stake > 0 then db.ledger + [WalletEntry(c, 0 - stake, BookingSpend, id)] else db.ledger)
      && db'.redemptions == (if redeems then db.redemptions[id := Redemption(t.offer.value.coupon, c)] else db.redemptions)
      && db'.commissions == db.commissions
  }

  function Candidates(t: HoldTerms): seq<Option<Discount>> {
    [t.serviceDiscount, if t.offer.Some? then Some(t.offer.value.discount) else None]
  }

  ghost predicate HoldEffect(db: Tables, db': Tables, now: int, slot: Slot, t: HoldTerms) {
    exists price :: IsBest(t.listPrice, Candidates(t), price) && HoldPriced(db, db', now, slot, t, price)
  }

  predicate EntryEffect(db: Tables, db': Tables, now: int, slot: Slot, price: int, windowHours: int) {
    && OnlyBookings(db, db')
    && db'.bookings == db.bookings + [Booking(
         slot.customer, slot.salon, slot.startsAt, slot.endsAt, price, 0, 0, slot.worker, Confirmed, false, None, None,
         windowHours, now)]
  }

  // ----- deciding

  // With something to collect online the payment window opens; else the booking is confirmed, and a
  // stake goes back if collection has been switched off since it was taken.
  predicate ApproveEffect(db: Tables, db': Tables, id: BookingId, now: int, deposit: int, stake: nat, online: bool, deadline: int)
    requires Exists(db, id)
  {
    var b := db.bookings[id];
    if deposit > 0 && online then
      if id in db.payments then db' == db
      else
        && db'.bookings == db.bookings[id := b.(status := PendingPayment, paymentDeadline := Some(deadline))]
        && db'.payments == db.payments[id := Payment(deposit, Initiated, None, [], now)]
        && HoldStays(db, db') && db'.commissions == db.commissions
    else
      && db'.payments == db.payments && db'.commissions == db.commissions && db'.redemptions == db.redemptions
      && if online || stake == 0 then
           HoldStays(db, db') && db'.bookings == db.bookings[id := b.(status := Confirmed, paymentDeadline := None)]
         else
           && StakeReturned(db, db', id)
           && db'.bookings == db.bookings[id := b.(status := Confirmed, paymentDeadline := None, stake := 0)]
  }

  // It ends before any money moved.
  predicate EndEffect(db: Tables, db': Tables, id: BookingId, to: Status)
    requires Exists(db, id)
  {
    && db'.bookings == db.bookings[id := db.bookings[id].(status := to, stake := 0)]
    && HoldReturned(db, db', id) && db'.payments == db.payments && db'.commissions == db.commissions
  }

  // A confirmed booking is either refunded in full or forfeits its deposit, on which commission is
  // due; an unpaid one gives everything back and its payment fails.
  predicate CancelEffect(db: Tables, db': Tables, id: BookingId, byOwner: bool, refund: bool)
    requires Exists(db, id)
  {
    var b, to := db.bookings[id], if byOwner then CancelledBySalon else CancelledByUser;
    if b.status == Confirmed && !refund then
      && db'.bookings == db.bookings[id := b.(status := to)] && HoldStays(db, db')
      && PaymentTurns(db, db', id, ANY_STATUS, Paid) && CommissionAccrues(db, db', id, ANY_STATUS)
    else
      && db'.bookings == db.bookings[id := b.(status := to, stake := 0)] && HoldReturned(db, db', id)
      && db'.commissions == db.commissions
      && if b.status == Confirmed then PaymentTurns(db, db', id, ANY_STATUS, RefundPending)
         else PaymentTurns(db, db', id, {Initiated}, Failed)
  }

  predicate AdminCancelEffect(db: Tables, db': Tables, id: BookingId)
    requires Exists(db, id)
  {
    && db'.bookings == db.bookings[id := db.bookings[id].(status := CancelledByAdmin, stake := 0)]
    && HoldReturned(db, db', id) && db'.commissions == db.commissions
    && if db.bookings[id].status == Confirmed then PaymentTurns(db, db', id, {Paid}, RefundPending)
       else PaymentTurns(db, db', id, {Initiated}, Failed)
  }

  // The outcome recorded is the one given, and commission is due on a paid deposit.
  predicate SettleEffect(db: Tables, db': Tables, id: BookingId, outcome: Status)
    requires Exists(db, id)
  {
    && db'.bookings == db.bookings[id := db.bookings[id].(status := outcome)]
    && HoldStays(db, db') && db'.payments == db.payments && CommissionAccrues(db, db', id, {Paid})
  }

  // ----- paying

  predicate CaptureEffect(db: Tables, db': Tables, id: BookingId, session: Session)
    requires Exists(db, id)
  {
    && db'.bookings == db.bookings[id := db.bookings[id].(status := Confirmed)]
    && HoldStays(db, db') && db'.commissions == db.commissions
    && db'.payments == if id in db.payments && db.payments[id].status == Initiated
                       then db.payments[id := db.payments[id].(status := Paid, authority := Some(session))] else db.payments
  }

  predicate RefundQueuedEffect(db: Tables, db': Tables, id: BookingId, session: Session)
    requires id in db.payments
  {
    && OnlyPayments(db, db')
    && db'.payments == db.payments[id := db.payments[id].(status := RefundPending, authority := Some(session))]
  }

  // A waiting booking ends with everything returned; any other keeps its status, and its stake goes
  // back only if it is still the positive stake that was read.
  predicate DeclineEffect(db: Tables, db': Tables, id: BookingId, seenStake: nat) {
    && PaymentTurns(db, db', id, {Initiated}, Failed)
    && db'.redemptions == db.redemptions - {id} && db'.commissions == db.commissions
    && if Is(db, id, PendingPayment) then
         && StakeReturned(db, db', id)
         && db'.bookings == db.bookings[id := db.bookings[id].(status := CancelledByUser, stake := 0)]
       else if Exists(db, id) && db.bookings[id].stake == seenStake then
         StakeReturned(db, db', id) && db'.bookings == db.bookings[id := db.bookings[id].(stake := 0)]
       else db'.bookings == db.bookings && db'.balances == db.balances && db'.ledger == db.ledger
  }

  // ----- the expiry jobs

  predicate PaymentRanOut(b: Booking, at: int, cutoff: int) {
    b.status == PendingPayment && if b.paymentDeadline.Some? then b.paymentDeadline.value <= at else b.createdAt < cutoff
  }

  predicate ApprovalRanOut(b: Booking, at: int) {
    b.status == PendingApproval && b.approvalDeadline.Some? && b.approvalDeadline.value <= at
  }

  // Exactly the listed rows that ran out expire and give back what they hold; the wallets' share of
  // that is WalletConservation's.
  ghost predicate BatchEffect(db: Tables, db': Tables, ids: seq<BookingId>, ranOut: Booking -> bool) {
    && |db'.bookings| == |db.bookings| && db'.payments == db.payments && db'.commissions == db.commissions
    && (forall id: BookingId :: id < |db.bookings| ==>
          db'.bookings[id] == if id in ids && ranOut(db.bookings[id]) then db.bookings[id].(status := Expired, stake := 0)
                              else db.bookings[id])
    && (forall id :: id in db'.redemptions <==> id in db.redemptions && !(id in ids && Exists(db, id) && ranOut(db.bookings[id])))
    && (forall id :: id in db'.redemptions ==> db'.redemptions[id] == db.redemptions[id])
  }

  // ----- every transaction

  ghost predicate Leaves(db: Tables, db': Tables, t: Txn) {
    match t
    case PlaceHold(now, slot, terms) => HoldEffect(db, db', now, slot, terms)
    case EnterManual(now, slot, price, window) => EntryEffect(db, db', now, slot, price, window)
    case Approve(id, now, deposit, stake, online, deadline) =>
      if Is(db, id, PendingApproval) then ApproveEffect(db, db', id, now, deposit, stake, online, deadline) else db' == db
    case Invalidate(id) => if Is(db, id, PendingApproval) then EndEffect(db, db', id, Expired) else db' == db
    case Reject(id) => if Is(db, id, PendingApproval) then EndEffect(db, db', id, RejectedBySalon) else db' == db
    case Cancel(id, seen, byOwner, refund) => if Is(db, id, seen) then CancelEffect(db, db', id, byOwner, refund) else db' == db
    case AdminCancel(id, seen) => if Is(db, id, seen) then AdminCancelEffect(db, db', id) else db' == db
    case Assign(id, seen, worker) =>
      && OnlyBookings(db, db')
      && db'.bookings == if Is(db, id, seen) then db.bookings[id := db.bookings[id].(worker := Some(worker))] else db.bookings
    case Move(id, seen, startsAt, endsAt) =>
      && OnlyBookings(db, db')
      && db'.bookings == if Is(db, id, seen) then db.bookings[id := db.bookings[id].(startsAt := startsAt, endsAt := endsAt)]
                         else db.bookings
    case Settle(id, outcome) => if Is(db, id, Confirmed) then SettleEffect(db, db', id, outcome) else db' == db
    case ExpirePayments(ids, at, cutoff) => BatchEffect(db, db', ids, b => PaymentRanOut(b, at, cutoff))
    case ExpireApprovals(ids, at) => BatchEffect(db, db', ids, b => ApprovalRanOut(b, at))
    case Capture(id, session) => if Is(db, id, PendingPayment) then CaptureEffect(db, db', id, session) else db' == db
    case ReconcileCapture(id, session) =>
      if Is(db, id, PendingPayment) then CaptureEffect(db, db', id, session)
      else if PaymentIs(db, id, Initiated) then RefundQueuedEffect(db, db', id, session)
      else db' == db
    case Recover(id, session, read) =>
      if PaymentIs(db, id, read) && (read == Initiated || read == Failed) then RefundQueuedEffect(db, db', id, session) else db' == db
    case Decline(id, seenStake) => DeclineEffect(db, db', id, seenStake)
    case Retire(id) =>
      && OnlyPayments(db, db')
      && PaymentTurns(db, db', id, if id in db.payments && db.payments[id].authority.None? then {Initiated} else {}, Failed)
    case Mint(id, session) =>
      && OnlyPayments(db, db')
      && db'.payments == if id in db.payments
                         then db.payments[id := db.payments[id].(authority := Some(session),
                                                                 sessions := db.payments[id].sessions + [session])]
                         else db.payments
    case Refund(id) => OnlyPayments(db, db') && PaymentTurns(db, db', id, {RefundPending}, Refunded)
  }

  // ----- Run leaves just that

  lemma HoldLeaves(db: Tables, now: int, slot: Slot, t: HoldTerms)
    ensures HoldEffect(db, HoldPlaced(db, now, slot, t), now, slot, t)
  {
    BestMeetsIsBest(t.listPrice, Candidates(t));
    assert HoldPrice(t) == Best(t.listPrice, Candidates(t));
    assert HoldPriced(db, HoldPlaced(db, now, slot, t), now, slot, t, HoldPrice(t));
  }

  // The hold goes back from a row that this transaction has just moved on.
  lemma ReturnedAfter(db: Tables, off: Tables, id: BookingId, b: Booking)
    requires Exists(db, id) && off.bookings == db.bookings[id := b] && HoldStays(db, off)
    requires b.customer == db.bookings[id].customer && b.stake == db.bookings[id].stake
    ensures var db' := ReleasedNow(off, id);
            && db'.bookings == db.bookings[id := b.(stake := 0)]
            && HoldReturned(db, db', id) && db'.payments == off.payments && db'.commissions == off.commissions
  {
    ReleasedRow(off, id);
  }

  lemma EndLeaves(db: Tables, id: BookingId, from: Status, to: Status)
    requires Is(db, id, from)
    ensures EndEffect(db, Ended(db, id, from, to), id, to)
  {
    ReturnedAfter(db, WithStatus(db, id, to), id, db.bookings[id].(status := to));
  }

  lemma ApproveLeaves(db: Tables, id: BookingId, now: int, deposit: int, stake: nat, online: bool, deadline: int)
    requires Is(db, id, PendingApproval)
    ensures ApproveEffect(db, Approved(db, id, now, deposit, stake, online, deadline), id, now, deposit, stake, online, deadline)
  {
    var b := db.bookings[id].(status := Confirmed, paymentDeadline := None);
    if b.stake == 0 {
      assert b.(stake := 0) == b;
    }
  }

  lemma CancelLeaves(db: Tables, id: BookingId, seen: Status, byOwner: bool, refund: bool)
    requires Is(db, id, seen)
    ensures CancelEffect(db, Cancelled(db, id, seen, byOwner, refund), id, byOwner, refund)
  {
    var to := if byOwner then CancelledBySalon else CancelledByUser;
    var off := WithStatus(db, id, to);
    if id in db.payments { AnyStatusIsOne(db.payments[id].status); }
    if seen != Confirmed {
      ReturnedAfter(db, PaymentMoved(off, id, Initiated, Failed), id, db.bookings[id].(status := to));
    } else if refund {
      ReturnedAfter(db, PaymentSet(off, id, RefundPending), id, db.bookings[id].(status := to));
    }
  }

  lemma AdminCancelLeaves(db: Tables, id: BookingId, seen: Status)
    requires Is(db, id, seen)
    ensures AdminCancelEffect(db, AdminCancelled(db, id, seen), id)
  {
    var off := WithStatus(db, id, CancelledByAdmin);
    if seen == Confirmed {
      ReturnedAfter(db, PaymentMoved(off, id, Paid, RefundPending), id, off.bookings[id]);
    } else {
      ReturnedAfter(db, PaymentMoved(off, id, Initiated, Failed), id, off.bookings[id]);
    }
  }

  lemma DeclineLeaves(db: Tables, id: BookingId, seenStake: nat)
    ensures DeclineEffect(db, Declined(db, id, seenStake), id, seenStake)
  {
    if Is(db, id, PendingPayment) {
      var off := WithStatus(db, id, CancelledByUser);
      ReturnedAfter(db, PaymentMoved(off, id, Initiated, Failed), id, off.bookings[id]);
    } else if Exists(db, id) && db.bookings[id].stake == seenStake {
      assert db.bookings[id := db.bookings[id]] == db.bookings;
      ReturnedAfter(db, PaymentMoved(db, id, Initiated, Failed), id, db.bookings[id]);
    }
  }

  lemma PaymentLeaves(db: Tables, t: Txn)
    requires t.Capture? || t.ReconcileCapture? || t.Recover? || t.Retire? || t.Mint? || t.Refund?
    ensures Leaves(db, Run(db, t), t)
  {
  }

  lemma OneMoreExpires(db: Tables, rest: Tables, ids: seq<BookingId>, last: BookingId, due: Due, ranOut: Booking -> bool)
    requires BatchEffect(db, rest, ids, ranOut) && forall b :: ranOut(b) <==> IsDue(b, due)
    requires Exists(rest, last) && IsDue(rest.bookings[last], due)
    ensures BatchEffect(db, Ended(rest, last, ExpiresFrom(due), Expired), ids + [last], ranOut)
  {
    assert forall id :: id in ids + [last] <==> id in ids || id == last;
    assert !IsDue(db.bookings[last].(status := Expired, stake := 0), due);
    assert last !in ids && rest.bookings[last] == db.bookings[last];
    EndLeaves(rest, last, ExpiresFrom(due), Expired);
  }

  lemma OneMoreStays(db: Tables, rest: Tables, ids: seq<BookingId>, last: BookingId, due: Due, ranOut: Booking -> bool)
    requires BatchEffect(db, rest, ids, ranOut) && forall b :: ranOut(b) <==> IsDue(b, due)
    requires !(Exists(rest, last) && IsDue(rest.bookings[last], due))
    ensures BatchEffect(db, rest, ids + [last], ranOut)
  {
    assert forall id :: id in ids + [last] <==> id in ids || id == last;
    assert Exists(db, last) && ranOut(db.bookings[last]) ==> last in ids;
  }

  lemma {:induction false} BatchLeaves(db: Tables, ids: seq<BookingId>, due: Due, ranOut: Booking -> bool)
    requires forall b :: ranOut(b) <==> IsDue(b, due)
    ensures BatchEffect(db, BatchExpired(db, ids, due), ids, ranOut)
  {
    if ids == [] {
    } else {
      var init, last := ids[..|ids| - 1], ids[|ids| - 1];
      BatchLeaves(db, init, due, ranOut);
      assert ids == init + [last];
      var rest := BatchExpired(db, init, due);
      if Exists(rest, last) && IsDue(rest.bookings[last], due) {
        OneMoreExpires(db, rest, init, last, due, ranOut);
      } else {
        OneMoreStays(db, rest, init, last, due, ranOut);
      }
    }
  }

  // What Run makes of the tables answers the description.
  lemma RunLeaves(db: Tables, t: Txn)
    ensures Leaves(db, Run(db, t), t)
  {
    match t
    case PlaceHold(now, slot, terms) => HoldLeaves(db, now, slot, terms);
    case Approve(id, now, deposit, stake, online, deadline) =>
      if Is(db, id, PendingApproval) { ApproveLeaves(db, id, now, deposit, stake, online, deadline); }
    case Invalidate(id) =>
      if Is(db, id, PendingApproval) { EndLeaves(db, id, PendingApproval, Expired); }
    case Reject(id) =>
      if Is(db, id, PendingApproval) { EndLeaves(db, id, PendingApproval, RejectedBySalon); }
    case Cancel(id, seen, byOwner, refund) =>
      if Is(db, id, seen) { CancelLeaves(db, id, seen, byOwner, refund); }
    case AdminCancel(id, seen) =>
      if Is(db, id, seen) { AdminCancelLeaves(db, id, seen); }
    case Decline(id, seenStake) => DeclineLeaves(db, id, seenStake);
    case ExpirePayments(ids, at, cutoff) => BatchLeaves(db, ids, UnpaidBy(at, cutoff), b => PaymentRanOut(b, at, cutoff));
    case ExpireApprovals(ids, at) => BatchLeaves(db, ids, UndecidedBy(at), b => ApprovalRanOut(b, at));
    case EnterManual(_, _, _, _) =>
    case Assign(_, _, _) =>
    case Move(_, _, _, _) =>
    case Settle(_, _) =>
    case _ => PaymentLeaves(db, t);
  }

  // ----- and nothing else does

  lemma HoldPricedIsOne(db: Tables, db1: Tables, db2: Tables, now: int, slot: Slot, t: HoldTerms, price: Resolved)
    requires HoldPriced(db, db1, now, slot, t, price) && HoldPriced(db, db2, now, slot, t, price)
    ensures db1 == db2
  {
  }

  lemma HoldIsOne(db: Tables, db1: Tables, db2: Tables, t: Txn)
    requires t.PlaceHold? && Leaves(db, db1, t) && Leaves(db, db2, t)
    ensures db1 == db2
  {
    var terms := t.terms;
    var price1 :| IsBest(terms.listPrice, Candidates(terms), price1) && HoldPriced(db, db1, t.now, t.slot, terms, price1);
    var price2 :| IsBest(terms.listPrice, Candidates(terms), price2) && HoldPriced(db, db2, t.now, t.slot, terms, price2);
    BestIsBest(terms.listPrice, Candidates(terms), price1);
    BestIsBest(terms.listPrice, Candidates(terms), price2);
    HoldPricedIsOne(db, db1, db2, t.now, t.slot, terms, price1);
  }

  lemma EndingIsOne(db: Tables, db1: Tables, db2: Tables, t: Txn)
    requires t.Invalidate? || t.Reject? || t.Cancel? || t.AdminCancel? || t.Decline?
    requires Leaves(db, db1, t) && Leaves(db, db2, t)
    ensures db1 == db2
  {
  }

  lemma DecidingIsOne(db: Tables, db1: Tables, db2: Tables, t: Txn)
    requires t.EnterManual? || t.Approve? || t.Assign? || t.Move? || t.Settle?
    requires Leaves(db, db1, t) && Leaves(db, db2, t)
    ensures db1 == db2
  {
  }

  lemma PayingIsOne(db: Tables, db1: Tables, db2: Tables, t: Txn)
    requires t.Capture? || t.ReconcileCapture? || t.Recover? || t.Retire? || t.Mint? || t.Refund?
    requires Leaves(db, db1, t) && Leaves(db, db2, t)
    ensures db1 == db2
  {
  }

  lemma OneTableLeft(db: Tables, db1: Tables, db2: Tables, t: Txn)
    requires !t.ExpirePayments? && !t.ExpireApprovals? && Leaves(db, db1, t) && Leaves(db, db2, t)
    ensures db1 == db2
  {
    if t.PlaceHold? {
      HoldIsOne(db, db1, db2, t);
    } else if t.Invalidate? || t.Reject? || t.Cancel? || t.AdminCancel? || t.Decline? {
      EndingIsOne(db, db1, db2, t);
    } else if t.EnterManual? || t.Approve? || t.Assign? || t.Move? || t.Settle? {
      DecidingIsOne(db, db1, db2, t);
    } else {
      PayingIsOne(db, db1, db2, t);
    }
  }

  // Read either way: tables answer the description of a transaction if and only if they are the ones
  // it makes. A batch is described row by row only.
  lemma LeavesIff(db: Tables, db': Tables, t: Txn)
    requires !t.ExpirePayments? && !t.ExpireApprovals?
    ensures Leaves(db, db', t) <==> db' == Run(db, t)
  {
    RunLeaves(db, t);
    if Leaves(db, db', t) {
      OneTableLeft(db, db', Run(db, t), t);
    }
  }
}
