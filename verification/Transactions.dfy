/**
 * What one committed transaction does to the rows, as a function of the rows it found. Every
 * row a transaction writes stays locked until it commits, so a guard on a written row reads
 * the same value at the update as at the commit. Values a request read earlier, without a
 * lock, are arguments: they may be stale. A transaction that throws leaves the rows alone.
 */
module Transactions {
  import opened Options
  import opened Pricing
  import opened Records

  datatype Offer = Offer(coupon: Coupon, discount: Discount)

  // What createHold reads inside its transaction: the service's price, the validated coupon,
  // the platform settings and the salon's confirmation mode. Timeouts are in milliseconds.
  datatype HoldTerms = HoldTerms(
    listPrice: int,
    serviceDiscount: Option<Discount>,
    offer: Option<Offer>,
    depositPercent: int,
    depositMinimum: int,
    applyWallet: bool,
    online: bool,
    manualApproval: bool,
    approvalTimeout: int,
    paymentTimeout: int,
    windowHours: int)

  // Timeouts are at least a minute: the settings reject anything less.
  predicate ValidTerms(t: HoldTerms) {
    && t.listPrice >= 0 && t.approvalTimeout > 0 && t.paymentTimeout > 0
    && (t.serviceDiscount.Some? ==> ValidDiscount(t.serviceDiscount.value))
    && (t.offer.Some? ==> ValidDiscount(t.offer.value.discount))
  }

  // Who takes which interval of which salon's day.
  datatype Slot = Slot(customer: Customer, salon: Salon, startsAt: int, endsAt: int, worker: Option<Worker>)

  // A booking and the wallet stake a read found on it.
  datatype StakeRow = StakeRow(id: BookingId, stake: nat)

  datatype Txn =
    | PlaceHold(now: int, slot: Slot, terms: HoldTerms)
    | EnterManual(now: int, slot: Slot, price: int, windowHours: int)
    | Approve(id: BookingId, now: int, seenDeposit: int, seenStake: nat, online: bool, deadline: int)
    | Invalidate(id: BookingId)
    | Reject(id: BookingId)
    | Cancel(id: BookingId, seen: Status, byOwner: bool, refund: bool)
    | AdminCancel(id: BookingId, seen: Status)
    | Assign(id: BookingId, seen: Status, worker: Worker)
    | Move(id: BookingId, seen: Status, startsAt: int, endsAt: int)
    | Settle(id: BookingId, outcome: Status)
    | ExpirePayments(ids: seq<BookingId>, at: int, cutoff: int)
    | ExpireApprovals(ids: seq<BookingId>, at: int)
    | Capture(id: BookingId, session: Session)
    | ReconcileCapture(id: BookingId, session: Session)
    | Recover(id: BookingId, session: Session, read: PaymentStatus)
    | Decline(id: BookingId, seenStake: nat)
    | Retire(id: BookingId)
    | Mint(id: BookingId, session: Session)
    | Refund(id: BookingId)

  function Run(db: Tables, t: Txn): Tables {
    match t
    case PlaceHold(now, slot, terms) => HoldPlaced(db, now, slot, terms)
    case EnterManual(now, slot, price, window) => Inserted(db, ManualBooking(now, slot, price, window))
    case Approve(id, now, deposit, stake, online, deadline) => Approved(db, id, now, deposit, stake, online, deadline)
    case Invalidate(id) => Ended(db, id, PendingApproval, Expired)
    case Reject(id) => Ended(db, id, PendingApproval, RejectedBySalon)
    case Cancel(id, seen, byOwner, refund) => Cancelled(db, id, seen, byOwner, refund)
    case AdminCancel(id, seen) => AdminCancelled(db, id, seen)
    case Assign(id, seen, worker) =>
      if Is(db, id, seen) then WithRow(db, id, db.bookings[id].(worker := Some(worker))) else db
    case Move(id, seen, startsAt, endsAt) =>
      if Is(db, id, seen) then WithRow(db, id, db.bookings[id].(startsAt := startsAt, endsAt := endsAt)) else db
    case Settle(id, outcome) =>
      if Is(db, id, Confirmed) then Accrued(WithStatus(db, id, outcome), id) else db
    case ExpirePayments(ids, at, cutoff) => PaymentsExpired(db, ids, at, cutoff)
    case ExpireApprovals(ids, at) => ApprovalsExpired(db, ids, at)
    case Capture(id, session) => Captured(db, id, session)
    case ReconcileCapture(id, session) =>
      if Is(db, id, PendingPayment) then Captured(db, id, session)
      else if PaymentIs(db, id, Initiated) then RefundQueued(db, id, session)
      else db
    case Recover(id, session, read) =>
      if (read == Initiated || read == Failed) && PaymentIs(db, id, read) then RefundQueued(db, id, session) else db
    case Decline(id, seenStake) => Declined(db, id, seenStake)
    case Retire(id) =>
      if PaymentIs(db, id, Initiated) && db.payments[id].authority.None? then PaymentMoved(db, id, Initiated, Failed) else db
    case Mint(id, session) => Minted(db, id, session)
    case Refund(id) => PaymentMoved(db, id, RefundPending, Refunded)
  }

  // ----- single-row writes

  function WithRow(db: Tables, id: BookingId, b: Booking): Tables
    requires Exists(db, id)
  {
    db.(bookings := db.bookings[id := b])
  }

  function WithStatus(db: Tables, id: BookingId, s: Status): Tables
    requires Exists(db, id)
  {
    WithRow(db, id, db.bookings[id].(status := s))
  }

  function Inserted(db: Tables, b: Booking): Tables {
    db.(bookings := db.bookings + [b])
  }

  // UPDATE payments SET status = to WHERE booking_id = id AND status = from
  function PaymentMoved(db: Tables, id: BookingId, from: PaymentStatus, to: PaymentStatus): Tables {
    if PaymentIs(db, id, from) then PaymentSet(db, id, to) else db
  }

  // UPDATE payments SET status = to WHERE booking_id = id
  function PaymentSet(db: Tables, id: BookingId, to: PaymentStatus): Tables {
    if id in db.payments then db.(payments := db.payments[id := db.payments[id].(status := to)]) else db
  }

  function RefundQueued(db: Tables, id: BookingId, session: Session): Tables
    requires id in db.payments
  {
    db.(payments := db.payments[id := db.payments[id].(status := RefundPending, authority := Some(session))])
  }

  // recordCommission: one ledger row, and only when a paid payment backs it.
  function Accrued(db: Tables, id: BookingId): Tables
    requires Exists(db, id)
  {
    if PaymentIs(db, id, Paid) && db.payments[id].amount > 0
    then db.(commissions := db.commissions + [Commission(id, db.bookings[id].salon, db.payments[id].amount)])
    else db
  }

  // ----- giving a hold back

  // reverseWalletSpend for one row read earlier: clear the stake only if it still is what was
  // read, and credit the customer only if this call cleared it.
  function Reversed(db: Tables, row: StakeRow): Tables {
    if row.stake > 0 && Exists(db, row.id) && db.bookings[row.id].stake == row.stake then
      var b := db.bookings[row.id];
      WithRow(db, row.id, b.(stake := 0)).(
        balances := db.balances[b.customer := Balance(db, b.customer) + row.stake],
        ledger := db.ledger + [WalletEntry(b.customer, row.stake, SpendReversal, row.id)])
    else db
  }

  function AllReversed(db: Tables, rows: seq<StakeRow>): Tables {
    if rows == [] then db
    else Reversed(AllReversed(db, rows[..|rows| - 1]), rows[|rows| - 1])
  }

  // releaseBookingHold for one booking, with the stake its read found.
  function Released(db: Tables, row: StakeRow): Tables {
    Reversed(db.(redemptions := db.redemptions - {row.id}), row)
  }

  // The same when this transaction already holds the row, so the read cannot be stale.
  function ReleasedNow(db: Tables, id: BookingId): Tables
    requires Exists(db, id)
  {
    Released(db, StakeRow(id, db.bookings[id].stake))
  }

  // A booking that dies before any money moved: status guard, then the hold is given back.
  function Ended(db: Tables, id: BookingId, from: Status, to: Status): Tables {
    if Is(db, id, from) then ReleasedNow(WithStatus(db, id, to), id) else db
  }

  // ----- creating

  function HoldPrice(t: HoldTerms): Resolved {
    Best(t.listPrice, [t.serviceDiscount, if t.offer.Some? then Some(t.offer.value.discount) else None])
  }

  predicate CouponApplied(t: HoldTerms) {
    t.offer.Some? && HoldPrice(t).winner == Some(1)
  }

  function HoldDeposit(t: HoldTerms): nat {
    Deposit(HoldPrice(t).finalPrice, t.depositPercent, t.depositMinimum)
  }

  // The wallet pays what it can of the deposit, and only when a deposit is collected at all.
  function HoldStake(db: Tables, c: Customer, t: HoldTerms): nat {
    if t.applyWallet && HoldDeposit(t) > 0 && t.online then Min(HoldDeposit(t), Balance(db, c)) else 0
  }

  function HeldBooking(db: Tables, now: int, slot: Slot, t: HoldTerms): Booking {
    var stake := HoldStake(db, slot.customer, t);
    var deposit := HoldDeposit(t) - stake;
    var requiresPayment := deposit > 0 && t.online;
    Booking(
      slot.customer, slot.salon, slot.startsAt, slot.endsAt,
      HoldPrice(t).finalPrice, deposit, stake, slot.worker,
      if t.manualApproval then PendingApproval else if requiresPayment then PendingPayment else Confirmed,
      t.manualApproval,
      if t.manualApproval then Some(now + t.approvalTimeout) else None,
      if !t.manualApproval && requiresPayment then Some(now + t.paymentTimeout) else None,
      t.windowHours,
      now)
  }

  // UNIQUE(coupon_id, user_id)
  predicate AlreadyRedeemed(db: Tables, coupon: Coupon, c: Customer) {
    Redemption(coupon, c) in db.redemptions.Values
  }

  function NewPayment(amount: int, now: int): Payment {
    Payment(amount, Initiated, None, [], now)
  }

  function Debited(db: Tables, c: Customer, amount: nat, id: BookingId): Tables {
    if 0 < amount <= Balance(db, c) then
      db.(balances := db.balances[c := Balance(db, c) - amount],
          ledger := db.ledger + [WalletEntry(c, 0 - amount, BookingSpend, id)])
    else db
  }

  function HoldPlaced(db: Tables, now: int, slot: Slot, t: HoldTerms): Tables {
    if CouponApplied(t) && AlreadyRedeemed(db, t.offer.value.coupon, slot.customer) then db
    else
      var id := |db.bookings|;
      var b := HeldBooking(db, now, slot, t);
      var placed := Inserted(Debited(db, slot.customer, b.stake, id), b);
      placed.(
        payments := if b.status == PendingPayment then placed.payments[id := NewPayment(b.deposit, now)] else placed.payments,
        redemptions :=
          if CouponApplied(t) then placed.redemptions[id := Redemption(t.offer.value.coupon, slot.customer)]
          else placed.redemptions)
  }

  function ManualBooking(now: int, slot: Slot, price: int, windowHours: int): Booking {
    Booking(slot.customer, slot.salon, slot.startsAt, slot.endsAt, price, 0, 0, slot.worker,
            Confirmed, false, None, None, windowHours, now)
  }

  // ----- deciding

  // The seen values and the deadline come from the read approve made before taking the salon lock. A second
  // payment row would break payments.booking_id's uniqueness and roll everything back.
  function Approved(db: Tables, id: BookingId, now: int, seenDeposit: int, seenStake: nat, online: bool, deadline: int): Tables {
    if !Is(db, id, PendingApproval) then db
    else
      var requiresPayment := seenDeposit > 0 && online;
      var b := db.bookings[id];
      if requiresPayment then
        if id in db.payments then db
        else
          WithRow(db, id, b.(status := PendingPayment, paymentDeadline := Some(deadline))).(
            payments := db.payments[id := NewPayment(seenDeposit, now)])
      else
        var confirmed := WithRow(db, id, b.(status := Confirmed, paymentDeadline := None));
        if !online && seenStake > 0 then Reversed(confirmed, StakeRow(id, b.stake)) else confirmed
  }

  function Cancelled(db: Tables, id: BookingId, seen: Status, byOwner: bool, refund: bool): Tables {
    if !Is(db, id, seen) then db
    else
      var off := WithStatus(db, id, if byOwner then CancelledBySalon else CancelledByUser);
      if seen == Confirmed then
        if refund then ReleasedNow(PaymentSet(off, id, RefundPending), id)
        else Accrued(PaymentSet(off, id, Paid), id)
      else ReleasedNow(PaymentMoved(off, id, Initiated, Failed), id)
  }

  function AdminCancelled(db: Tables, id: BookingId, seen: Status): Tables {
    if !Is(db, id, seen) then db
    else
      var off := WithStatus(db, id, CancelledByAdmin);
      if seen == Confirmed then ReleasedNow(PaymentMoved(off, id, Paid, RefundPending), id)
      else ReleasedNow(PaymentMoved(off, id, Initiated, Failed), id)
  }

  // ----- expiring: the outer WHERE repeats the status and deadline tests of the subquery

  // Rows with no snapshotted deadline fall back to their age.
  predicate PaymentDue(b: Booking, at: int, cutoff: int) {
    match b.paymentDeadline
    case Some(d) => d <= at
    case None => b.createdAt < cutoff
  }

  predicate ApprovalDue(b: Booking, at: int) {
    b.approvalDeadline.Some? && b.approvalDeadline.value <= at
  }

  // The WHERE clause of the two expiry jobs.
  datatype Due = UnpaidBy(at: int, cutoff: int) | UndecidedBy(at: int)

  function ExpiresFrom(due: Due): Status {
    if due.UnpaidBy? then PendingPayment else PendingApproval
  }

  predicate IsDue(b: Booking, due: Due) {
    && b.status == ExpiresFrom(due)
    && match due
       case UnpaidBy(at, cutoff) => PaymentDue(b, at, cutoff)
       case UndecidedBy(at) => ApprovalDue(b, at)
  }

  function BatchExpired(db: Tables, ids: seq<BookingId>, due: Due): Tables {
    if ids == [] then db
    else
      var last := ids[|ids| - 1];
      var rest := BatchExpired(db, ids[..|ids| - 1], due);
      if Exists(rest, last) && IsDue(rest.bookings[last], due) then Ended(rest, last, ExpiresFrom(due), Expired) else rest
  }

  function PaymentsExpired(db: Tables, ids: seq<BookingId>, at: int, cutoff: int): Tables {
    BatchExpired(db, ids, UnpaidBy(at, cutoff))
  }

  function ApprovalsExpired(db: Tables, ids: seq<BookingId>, at: int): Tables {
    BatchExpired(db, ids, UndecidedBy(at))
  }

  // ----- paying

  // A gateway capture: the booking guard comes first, so a dead booking is never revived.
  function Captured(db: Tables, id: BookingId, session: Session): Tables {
    if !Is(db, id, PendingPayment) then db
    else
      var confirmed := WithStatus(db, id, Confirmed);
      if PaymentIs(confirmed, id, Initiated)
      then confirmed.(payments := confirmed.payments[id := confirmed.payments[id].(status := Paid, authority := Some(session))])
      else confirmed
  }

  // A decline gives the hold back unconditionally, whichever way the two guards went. The
  // stake it read is current if this transaction just moved the booking, else maybe stale.
  function Declined(db: Tables, id: BookingId, seenStake: nat): Tables {
    var off := if Is(db, id, PendingPayment) then WithStatus(db, id, CancelledByUser) else db;
    var failed := PaymentMoved(off, id, Initiated, Failed);
    var stake := if Is(db, id, PendingPayment) then db.bookings[id].stake else seenStake;
    Released(failed, StakeRow(id, stake))
  }

  // createPaymentSession: the new session becomes current and joins the ledger.
  function Minted(db: Tables, id: BookingId, session: Session): Tables {
    if id in db.payments
    then db.(payments := db.payments[id := db.payments[id].(
               authority := Some(session), sessions := db.payments[id].sessions + [session])])
    else db
  }
}
