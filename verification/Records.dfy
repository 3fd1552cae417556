/**
 * The committed rows the booking transactions read and write: booking.entity.ts,
 * payment.entity.ts, the wallet tables, coupon redemptions and the commission ledger.
 * Rows of bookings are never deleted, so a booking's id is its position in the table.
 * Instants are epoch milliseconds, amounts whole toman.
 */
module Records {
  import opened Options

  type Customer = nat
  type Salon = nat
  type Worker = nat
  type Coupon = nat
  type BookingId = nat
  type Session = nat

  const HOUR_MS := 3_600_000

  datatype Status =
    | PendingApproval
    | PendingPayment
    | Confirmed
    | Completed
    | NoShow
    | CancelledByUser
    | CancelledBySalon
    | CancelledByAdmin
    | RejectedBySalon
    | Expired

  // SLOT_BLOCKING_STATUSES
  predicate SlotBlocking(s: Status) {
    s == PendingApproval || s == PendingPayment || s == Confirmed
  }

  // DEAD_BOOKING_STATUSES
  predicate Dead(s: Status) {
    s == CancelledByUser || s == CancelledBySalon || s == CancelledByAdmin || s == RejectedBySalon || s == Expired
  }

  datatype Booking = Booking(
    customer: Customer,
    salon: Salon,
    startsAt: int,
    endsAt: int,
    price: int,
    deposit: int,
    stake: nat, // walletAmountUsed; a NULL column reads as 0
    worker: Option<Worker>,
    status: Status,
    manualApproval: bool,
    approvalDeadline: Option<int>,
    paymentDeadline: Option<int>,
    windowHours: int,
    createdAt: int)

  datatype PaymentStatus = Initiated | Paid | Failed | RefundPending | Refunded

  // authority is the current gateway session; sessions is the append-only payment_authorities
  // ledger of every session ever issued, oldest first.
  datatype Payment = Payment(
    amount: int,
    status: PaymentStatus,
    authority: Option<Session>,
    sessions: seq<Session>,
    createdAt: int)

  datatype Redemption = Redemption(coupon: Coupon, customer: Customer)

  datatype EntryKind = BookingSpend | SpendReversal

  datatype WalletEntry = WalletEntry(customer: Customer, amount: int, kind: EntryKind, booking: BookingId)

  datatype Commission = Commission(booking: BookingId, salon: Salon, gross: int)

  // payments and redemptions each carry a unique booking_id, so the booking id is their key.
  datatype Tables = Tables(
    bookings: seq<Booking>,
    payments: map<BookingId, Payment>,
    balances: map<Customer, nat>,
    ledger: seq<WalletEntry>,
    redemptions: map<BookingId, Redemption>,
    commissions: seq<Commission>)

  predicate Exists(db: Tables, id: BookingId) {
    id < |db.bookings|
  }

  // The WHERE clause of every guarded booking update.
  predicate Is(db: Tables, id: BookingId, s: Status) {
    Exists(db, id) && db.bookings[id].status == s
  }

  predicate PaymentIs(db: Tables, id: BookingId, s: PaymentStatus) {
    id in db.payments && db.payments[id].status == s
  }

  // A wallet row that was never created reads as empty.
  function Balance(db: Tables, c: Customer): nat {
    if c in db.balances then db.balances[c] else 0
  }
}
