/**
 * Wallet money is conserved: a customer's balance and the stakes on his bookings always add up
 * to the same, and no stake is credited back twice, however often a hold is released.
 */
module WalletConservation {
  import opened Options
  import opened Records
  import opened Transactions
  import opened Schedule
  import opened Protocol

  function StakeSum(bs: seq<Booking>, c: Customer): nat {
    if bs == [] then 0
    else StakeSum(bs[..|bs| - 1], c) + StakeOf(bs[|bs| - 1], c)
  }

  function StakeOf(b: Booking, c: Customer): nat {
    if b.customer == c then b.stake else 0
  }

  function Wealth(db: Tables, c: Customer): nat {
    Balance(db, c) + StakeSum(db.bookings, c)
  }

  lemma {:induction false} StakeSumUpdate(bs: seq<Booking>, i: nat, b: Booking, c: Customer)
    requires i < |bs|
    ensures StakeSum(bs[i := b], c) == StakeSum(bs, c) - StakeOf(bs[i], c) + StakeOf(b, c)
  {
    var last := |bs| - 1;
    if i == last {
      assert bs[i := b][..last] == bs[..last];
    } else {
      assert bs[i := b][..last] == bs[..last][i := b];
      StakeSumUpdate(bs[..last], i, b, c);
    }
  }

  predicate SameStakes(bs: seq<Booking>, bs': seq<Booking>) {
    && |bs'| == |bs|
    && forall i :: 0 <= i < |bs| ==> bs'[i].customer == bs[i].customer && bs'[i].stake == bs[i].stake
  }

  lemma {:induction false} SameStakesSameSum(bs: seq<Booking>, bs': seq<Booking>, c: Customer)
    requires SameStakes(bs, bs')
    ensures StakeSum(bs', c) == StakeSum(bs, c)
  {
    if bs == [] {
    } else {
      SameStakesSameSum(bs[..|bs| - 1], bs'[..|bs| - 1], c);
    }
  }

  // ----- one transaction

  // A write that leaves wallets, ledger and stakes alone.
  predicate Neutral(db: Tables, db': Tables) {
    db'.balances == db.balances && db'.ledger == db.ledger && SameStakes(db.bookings, db'.bookings)
  }

  lemma NeutralConserves(db: Tables, db': Tables, c: Customer)
    requires Neutral(db, db')
    ensures Wealth(db', c) == Wealth(db, c)
  {
    SameStakesSameSum(db.bookings, db'.bookings, c);
  }

  // However stale the stake it was given.
  lemma ReversedConserves(db: Tables, row: StakeRow, c: Customer)
    ensures Wealth(Reversed(db, row), c) == Wealth(db, c)
  {
    if Reversed(db, row) != db {
      StakeSumUpdate(db.bookings, row.id, db.bookings[row.id].(stake := 0), c);
    }
  }

  lemma ReleasedConserves(db: Tables, row: StakeRow, c: Customer)
    ensures Wealth(Released(db, row), c) == Wealth(db, c)
  {
    ReversedConserves(db.(redemptions := db.redemptions - {row.id}), row, c);
  }

  lemma EndedConserves(db: Tables, id: BookingId, from: Status, to: Status, c: Customer)
    ensures Wealth(Ended(db, id, from, to), c) == Wealth(db, c)
  {
    if Is(db, id, from) {
      NeutralConserves(db, WithStatus(db, id, to), c);
      ReleasedConserves(WithStatus(db, id, to), StakeRow(id, db.bookings[id].stake), c);
    }
  }

  lemma HoldConserves(db: Tables, now: int, slot: Slot, terms: HoldTerms, c: Customer)
    ensures Wealth(HoldPlaced(db, now, slot, terms), c) == Wealth(db, c)
  {
    var db' := HoldPlaced(db, now, slot, terms);
    if db' != db {
      var b := HeldBooking(db, now, slot, terms);
      assert db'.bookings == db.bookings + [b];
      assert (db.bookings + [b])[..|db.bookings|] == db.bookings;
    }
  }

  lemma CancelConserves(db: Tables, id: BookingId, off: Tables, c: Customer)
    requires Exists(db, id) && Neutral(db, off)
    ensures Wealth(ReleasedNow(off, id), c) == Wealth(db, c)
  {
    NeutralConserves(db, off, c);
    ReleasedConserves(off, StakeRow(id, off.bookings[id].stake), c);
  }

  lemma CancelledConserves(db: Tables, id: BookingId, seen: Status, byOwner: bool, refund: bool, c: Customer)
    requires Is(db, id, seen)
    ensures Wealth(Cancelled(db, id, seen, byOwner, refund), c) == Wealth(db, c)
  {
    var off := WithStatus(db, id, if byOwner then CancelledBySalon else CancelledByUser);
    if seen != Confirmed {
      CancelConserves(db, id, PaymentMoved(off, id, Initiated, Failed), c);
    } else if refund {
      CancelConserves(db, id, PaymentSet(off, id, RefundPending), c);
    } else {
      NeutralConserves(db, Accrued(PaymentSet(off, id, Paid), id), c);
    }
  }

  lemma AdminCancelledConserves(db: Tables, id: BookingId, seen: Status, c: Customer)
    requires Is(db, id, seen)
    ensures Wealth(AdminCancelled(db, id, seen), c) == Wealth(db, c)
  {
    var off := WithStatus(db, id, CancelledByAdmin);
    if seen == Confirmed {
      CancelConserves(db, id, PaymentMoved(off, id, Paid, RefundPending), c);
    } else {
      CancelConserves(db, id, PaymentMoved(off, id, Initiated, Failed), c);
    }
  }

  lemma ApprovedConserves(db: Tables, id: BookingId, now: int, seenDeposit: int, seenStake: nat, online: bool,
                          deadline: int, c: Customer)
    requires Is(db, id, PendingApproval)
    ensures Wealth(Approved(db, id, now, seenDeposit, seenStake, online, deadline), c) == Wealth(db, c)
  {
    var b := db.bookings[id];
    if seenDeposit > 0 && online {
      NeutralConserves(db, Approved(db, id, now, seenDeposit, seenStake, online, deadline), c);
    } else {
      var confirmed := WithRow(db, id, b.(status := Confirmed, paymentDeadline := None));
      NeutralConserves(db, confirmed, c);
      ReversedConserves(confirmed, StakeRow(id, b.stake), c);
    }
  }

  lemma DeclinedConserves(db: Tables, id: BookingId, seenStake: nat, c: Customer)
    ensures Wealth(Declined(db, id, seenStake), c) == Wealth(db, c)
  {
    var off := if Is(db, id, PendingPayment) then WithStatus(db, id, CancelledByUser) else db;
    var failed := PaymentMoved(off, id, Initiated, Failed);
    NeutralConserves(db, failed, c);
    ReleasedConserves(failed, StakeRow(id, if Is(db, id, PendingPayment) then db.bookings[id].stake else seenStake), c);
  }

  lemma {:induction false} BatchConserves(db: Tables, ids: seq<BookingId>, due: Due, c: Customer)
    ensures Wealth(BatchExpired(db, ids, due), c) == Wealth(db, c)
  {
    if ids == [] {
    } else {
      BatchConserves(db, ids[..|ids| - 1], due, c);
      EndedConserves(BatchExpired(db, ids[..|ids| - 1], due), ids[|ids| - 1], ExpiresFrom(due), Expired, c);
    }
  }

  lemma BookingWritesAreNeutral(db: Tables, t: Txn)
    requires t.Assign? || t.Move? || t.Settle?
    ensures Neutral(db, Run(db, t))
  {
  }

  lemma PaymentWritesAreNeutral(db: Tables, t: Txn)
    requires t.Capture? || t.ReconcileCapture? || t.Recover? || t.Retire? || t.Mint? || t.Refund?
    ensures Neutral(db, Run(db, t))
  {
  }

  lemma RestIsNeutral(db: Tables, t: Txn)
    requires t.Assign? || t.Move? || t.Settle? || t.Capture? || t.ReconcileCapture? || t.Recover? || t.Retire? || t.Mint? || t.Refund?
    ensures Neutral(db, Run(db, t))
  {
    if t.Assign? || t.Move? || t.Settle? {
      BookingWritesAreNeutral(db, t);
    } else {
      PaymentWritesAreNeutral(db, t);
    }
  }

  lemma RunConserves(db: Tables, t: Txn, c: Customer)
    ensures Wealth(Run(db, t), c) == Wealth(db, c)
  {
    match t
    case PlaceHold(now, slot, terms) => HoldConserves(db, now, slot, terms, c);
    case EnterManual(now, slot, price, window) =>
      assert (db.bookings + [ManualBooking(now, slot, price, window)])[..|db.bookings|] == db.bookings;
    case Approve(id, now, deposit, stake, online, deadline) =>
      if Is(db, id, PendingApproval) { ApprovedConserves(db, id, now, deposit, stake, online, deadline, c); }
    case Invalidate(id) => EndedConserves(db, id, PendingApproval, Expired, c);
    case Reject(id) => EndedConserves(db, id, PendingApproval, RejectedBySalon, c);
    case Cancel(id, seen, byOwner, refund) =>
      if Is(db, id, seen) { CancelledConserves(db, id, seen, byOwner, refund, c); }
    case AdminCancel(id, seen) =>
      if Is(db, id, seen) { AdminCancelledConserves(db, id, seen, c); }
    case ExpirePayments(ids, at, cutoff) => BatchConserves(db, ids, UnpaidBy(at, cutoff), c);
    case ExpireApprovals(ids, at) => BatchConserves(db, ids, UndecidedBy(at), c);
    case Decline(id, seenStake) => DeclinedConserves(db, id, seenStake, c);
    case _ =>
      RestIsNeutral(db, t);
      NeutralConserves(db, Run(db, t), c);
  }

  // ----- the ledger behind it

  function Net(ledger: seq<WalletEntry>, id: BookingId): int {
    if ledger == [] then 0
    else
      var last := ledger[|ledger| - 1];
      Net(ledger[..|ledger| - 1], id) + (if last.booking == id then last.amount else 0)
  }

  function Credits(ledger: seq<WalletEntry>, id: BookingId): nat {
    if ledger == [] then 0
    else
      var last := ledger[|ledger| - 1];
      Credits(ledger[..|ledger| - 1], id) + (if last.booking == id && last.kind == SpendReversal then 1 else 0)
  }

  // What the ledger says was taken for a booking and not yet given back is its stake; once
  // something was given back, all of it was, and just once.
  predicate LedgerRow(db: Tables, id: BookingId) {
    && Net(db.ledger, id) + (if Exists(db, id) then db.bookings[id].stake else 0) == 0
    && (Credits(db.ledger, id) == 0
        || (Credits(db.ledger, id) == 1 && Exists(db, id) && db.bookings[id].stake == 0))
  }

  lemma LedgerGrows(ledger: seq<WalletEntry>, e: WalletEntry, id: BookingId)
    ensures Net(ledger + [e], id) == Net(ledger, id) + (if e.booking == id then e.amount else 0)
    ensures Credits(ledger + [e], id) == Credits(ledger, id) + (if e.booking == id && e.kind == SpendReversal then 1 else 0)
  {
    assert (ledger + [e])[..|ledger|] == ledger;
  }

  lemma ReversedKeepsLedger(db: Tables, row: StakeRow, id: BookingId)
    requires LedgerRow(db, id)
    ensures LedgerRow(Reversed(db, row), id)
  {
    if Reversed(db, row) != db {
      LedgerGrows(db.ledger, WalletEntry(db.bookings[row.id].customer, row.stake, SpendReversal, row.id), id);
    }
  }

  lemma NeutralKeepsLedger(db: Tables, db': Tables, id: BookingId)
    requires Neutral(db, db') && LedgerRow(db, id)
    ensures LedgerRow(db', id)
  {
  }

  lemma ReleasedKeepsLedger(db: Tables, off: Tables, row: StakeRow, id: BookingId)
    requires Neutral(db, off) && LedgerRow(db, id)
    ensures LedgerRow(Released(off, row), id)
  {
    ReversedKeepsLedger(off.(redemptions := off.redemptions - {row.id}), row, id);
  }

  lemma EndedKeepsLedger(db: Tables, target: BookingId, from: Status, to: Status, id: BookingId)
    requires LedgerRow(db, id)
    ensures LedgerRow(Ended(db, target, from, to), id)
  {
    if Is(db, target, from) {
      ReleasedKeepsLedger(db, WithStatus(db, target, to), StakeRow(target, db.bookings[target].stake), id);
    }
  }

  lemma {:induction false} BatchKeepsLedger(db: Tables, ids: seq<BookingId>, due: Due, id: BookingId)
    requires LedgerRow(db, id)
    ensures LedgerRow(BatchExpired(db, ids, due), id)
  {
    if ids == [] {
    } else {
      BatchKeepsLedger(db, ids[..|ids| - 1], due, id);
      EndedKeepsLedger(BatchExpired(db, ids[..|ids| - 1], due), ids[|ids| - 1], ExpiresFrom(due), Expired, id);
    }
  }

  lemma HoldKeepsLedger(db: Tables, now: int, slot: Slot, terms: HoldTerms, id: BookingId)
    requires LedgerRow(db, id)
    ensures LedgerRow(HoldPlaced(db, now, slot, terms), id)
  {
    var b := HeldBooking(db, now, slot, terms);
    LedgerGrows(db.ledger, WalletEntry(slot.customer, 0 - b.stake, BookingSpend, |db.bookings|), id);
  }

  lemma CancelledKeepsLedger(db: Tables, target: BookingId, seen: Status, byOwner: bool, refund: bool, id: BookingId)
    requires Is(db, target, seen) && LedgerRow(db, id)
    ensures LedgerRow(Cancelled(db, target, seen, byOwner, refund), id)
  {
    var off := WithStatus(db, target, if byOwner then CancelledBySalon else CancelledByUser);
    var row := StakeRow(target, db.bookings[target].stake);
    if seen != Confirmed {
      ReleasedKeepsLedger(db, PaymentMoved(off, target, Initiated, Failed), row, id);
    } else if refund {
      ReleasedKeepsLedger(db, PaymentSet(off, target, RefundPending), row, id);
    } else {
      NeutralKeepsLedger(db, Accrued(PaymentSet(off, target, Paid), target), id);
    }
  }

  lemma AdminCancelledKeepsLedger(db: Tables, target: BookingId, seen: Status, id: BookingId)
    requires Is(db, target, seen) && LedgerRow(db, id)
    ensures LedgerRow(AdminCancelled(db, target, seen), id)
  {
    var off := WithStatus(db, target, CancelledByAdmin);
    var row := StakeRow(target, db.bookings[target].stake);
    if seen == Confirmed {
      ReleasedKeepsLedger(db, PaymentMoved(off, target, Paid, RefundPending), row, id);
    } else {
      ReleasedKeepsLedger(db, PaymentMoved(off, target, Initiated, Failed), row, id);
    }
  }

  lemma ApprovedKeepsLedger(db: Tables, t: Txn, id: BookingId)
    requires t.Approve? && LedgerRow(db, id)
    ensures LedgerRow(Run(db, t), id)
  {
    if Is(db, t.id, PendingApproval) {
      var b := db.bookings[t.id];
      var confirmed := WithRow(db, t.id, b.(status := Confirmed, paymentDeadline := None));
      NeutralKeepsLedger(db, confirmed, id);
      ReversedKeepsLedger(confirmed, StakeRow(t.id, b.stake), id);
    }
  }

  lemma DeclinedKeepsLedger(db: Tables, target: BookingId, seenStake: nat, id: BookingId)
    requires LedgerRow(db, id)
    ensures LedgerRow(Declined(db, target, seenStake), id)
  {
    var off := if Is(db, target, PendingPayment) then WithStatus(db, target, CancelledByUser) else db;
    ReleasedKeepsLedger(db, PaymentMoved(off, target, Initiated, Failed),
                        StakeRow(target, if Is(db, target, PendingPayment) then db.bookings[target].stake else seenStake), id);
  }

  lemma RunKeepsLedger(db: Tables, t: Txn, id: BookingId)
    requires LedgerRow(db, id)
    ensures LedgerRow(Run(db, t), id)
  {
    match t
    case PlaceHold(now, slot, terms) => HoldKeepsLedger(db, now, slot, terms, id);
    case EnterManual(_, _, _, _) =>
    case Approve(_, _, _, _, _, _) => ApprovedKeepsLedger(db, t, id);
    case Invalidate(target) => EndedKeepsLedger(db, target, PendingApproval, Expired, id);
    case Reject(target) => EndedKeepsLedger(db, target, PendingApproval, RejectedBySalon, id);
    case Cancel(target, seen, byOwner, refund) =>
      if Is(db, target, seen) { CancelledKeepsLedger(db, target, seen, byOwner, refund, id); }
    case AdminCancel(target, seen) =>
      if Is(db, target, seen) { AdminCancelledKeepsLedger(db, target, seen, id); }
    case ExpirePayments(ids, at, cutoff) => BatchKeepsLedger(db, ids, UnpaidBy(at, cutoff), id);
    case ExpireApprovals(ids, at) => BatchKeepsLedger(db, ids, UndecidedBy(at), id);
    case Decline(target, seenStake) => DeclinedKeepsLedger(db, target, seenStake, id);
    case _ =>
      RestIsNeutral(db, t);
      NeutralKeepsLedger(db, Run(db, t), id);
  }

  // ----- every run

  lemma {:induction false} WealthKept(site: Site, w: World, steps: seq<Step>, c: Customer, id: BookingId)
    requires Possible(site, w, steps) && LedgerRow(w.db, id)
    ensures Wealth(After(site, w, steps).db, c) == Wealth(w.db, c)
    ensures LedgerRow(After(site, w, steps).db, id)
    decreases |steps|
  {
    if steps == [] {
    } else {
      DbChangesByTxn(site, w, steps[0]);
      var t := Commits(site, w, steps[0]);
      if t.Some? {
        RunConserves(w.db, t.value, c);
        RunKeepsLedger(w.db, t.value, id);
      }
      WealthKept(site, Apply(site, w, steps[0]), steps[1..], c, id);
    }
  }

  // No interleaving of holds, refunds, expiries, declines and duplicated or racing releases
  // makes or loses wallet money, or returns one stake twice.
  lemma WalletMoneyIsConserved(site: Site, w: World, steps: seq<Step>, c: Customer, id: BookingId)
    requires Init(w) && Possible(site, w, steps)
    ensures var db := After(site, w, steps).db;
            && Balance(db, c) + StakeSum(db.bookings, c) == Balance(w.db, c)
            && Credits(db.ledger, id) <= 1
            && (Credits(db.ledger, id) == 1 ==> Exists(db, id) && db.bookings[id].stake == 0 && Net(db.ledger, id) == 0)
  {
    WealthKept(site, w, steps, c, id);
  }
}
