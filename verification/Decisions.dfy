/**
 * When a request is refused, and why: first on the row it read before opening a transaction,
 * then on what it finds inside. The first objection is the one reported.
 */
module Decisions {
  import opened Options
  import opened Pricing
  import opened Records
  import opened Transactions
  import opened Schedule
  import opened Protocol

  datatype BookingError =
    | NotFound
    | Forbidden
    | WrongState
    | MustReject
    | NotInFuture
    | InsideWindow
    | TooEarly
    | DeadlinePassed
    | PaymentsOff
    | SalonNotApproved
    | Unavailable
    | WorkerNotFound
    | WorkerInactive
    | WorkerIneligible
    | WorkerUnavailable
    | CustomerDoubleBooked
    | LimitReached
    | CouponsOff
    | CouponInvalid
    | CouponExpired
    | CouponAlreadyRedeemed
    | CouponLimitReached
    | StatusChanged
    | DuplicatePayment

  // What the staff tables say of a worker who exists: still active, and able to do the service.
  datatype Fitness = Fit | Inactive | Ineligible

  // ----- before the transaction, on the row as read

  datatype Cancellation = Cancellation(byOwner: bool, refund: bool)

  function DecideCancel(seen: Booking, isCustomer: bool, isOwner: bool, now: int): Result<Cancellation, BookingError> {
    if !SlotBlocking(seen.status) then Failure(WrongState)
    else if !isCustomer && !isOwner then Failure(Forbidden)
    else if seen.status == PendingApproval && isOwner && !isCustomer then Failure(MustReject)
    else if isOwner then Success(Cancellation(true, true))
    else Success(Cancellation(false, OutsideWindow(seen, now)))
  }

  function MoveRefusal(seen: Booking, byCustomer: bool, theirs: bool, newStartsAt: int, now: int, salonApproved: bool)
    : Option<BookingError>
  {
    if !theirs then Some(if byCustomer then Forbidden else NotFound)
    else if !SlotBlocking(seen.status) then Some(WrongState)
    else if newStartsAt <= now then Some(NotInFuture)
    else if byCustomer && !OutsideWindow(seen, now) then Some(InsideWindow)
    else if !salonApproved then Some(SalonNotApproved)
    else None
  }

  function ApproveRefusal(seen: Booking, now: int, salonApproved: bool): Option<BookingError> {
    if seen.status != PendingApproval then Some(WrongState)
    else if !salonApproved then Some(SalonNotApproved)
    else if seen.startsAt <= now then Some(NotInFuture)
    else None
  }

  function SettleRefusal(seen: Booking, outcome: Status, now: int, graceMs: int, salonApproved: bool): Option<BookingError> {
    if seen.status != Confirmed then Some(WrongState)
    else if !salonApproved then Some(SalonNotApproved)
    else if outcome == Completed && now < seen.startsAt then Some(TooEarly)
    else if outcome == NoShow && now < seen.startsAt + graceMs then Some(TooEarly)
    else None
  }

  function RetryRefusal(seen: Booking, now: int, online: bool): Option<BookingError> {
    if seen.status != PendingPayment then Some(WrongState)
    else if seen.paymentDeadline.Some? && seen.paymentDeadline.value <= now then Some(DeadlinePassed)
    else if !online then Some(PaymentsOff)
    else None
  }

  // ----- inside the transaction, on the rows

  // createHold and createManual
  function WorkerRefusal(site: Site, db: Tables, slot: Slot, fitness: Fitness): Option<BookingError> {
    if slot.worker.None? then None
    else if slot.worker.value !in site.home || site.home[slot.worker.value] != slot.salon then Some(WorkerNotFound)
    else if fitness == Inactive then Some(WorkerInactive)
    else if fitness == Ineligible then Some(WorkerIneligible)
    else if WorkerBusy(db, slot.worker.value, slot.startsAt, slot.endsAt, None) != {} then Some(WorkerUnavailable)
    else None
  }

  function PlaceRefusal(site: Site, db: Tables, slot: Slot, fitness: Fitness): Option<BookingError> {
    if !RoomFor(site, db, slot.salon, slot.startsAt, slot.endsAt, None) then Some(Unavailable)
    else WorkerRefusal(site, db, slot, fitness)
  }

  function LimitsRefusal(site: Site, db: Tables, slot: Slot, now: int): Option<BookingError> {
    if CustomerBusy(db, slot.customer, slot.startsAt, slot.endsAt) != {} then Some(CustomerDoubleBooked)
    else if |ActiveOf(db, slot.customer, now)| >= site.perUser then Some(LimitReached)
    else if |ActiveAtSalon(db, slot.customer, slot.salon, now)| >= site.perSalonPerUser then Some(LimitReached)
    else None
  }

  // A row of coupons, but for its cap: of one salon or of all, for one customer or for any.
  datatype CouponRow = CouponRow(
    id: Coupon,
    active: bool,
    salon: Option<Salon>,
    issuedTo: Option<Customer>,
    expiresAt: Option<int>,
    discount: Discount)

  // The code a customer gave, and the row it names, while coupons are on at all.
  datatype Code = NoCode | WhileOff | Unknown | Naming(row: CouponRow)

  predicate GoodFor(row: CouponRow, salon: Salon, c: Customer) {
    row.active && (row.salon.Some? ==> row.salon.value == salon) && (row.issuedTo.Some? ==> row.issuedTo.value == c)
  }

  // resolveAndValidate
  function CodeRefusal(site: Site, db: Tables, now: int, salon: Salon, c: Customer, code: Code): Option<BookingError> {
    match code
    case NoCode => None
    case WhileOff => Some(CouponsOff)
    case Unknown => Some(CouponInvalid)
    case Naming(row) =>
      if !GoodFor(row, salon, c) then Some(CouponInvalid)
      else if row.expiresAt.Some? && row.expiresAt.value < now then Some(CouponExpired)
      else if AlreadyRedeemed(db, row.id, c) then Some(CouponAlreadyRedeemed)
      else if !UnderCap(site, db, row.id) then Some(CouponLimitReached)
      else None
  }

  function WithCode(terms: HoldTerms, code: Code): HoldTerms {
    terms.(offer := if code.Naming? then Some(Offer(code.row.id, code.row.discount)) else None)
  }

  function HoldRefusal(site: Site, db: Tables, now: int, slot: Slot, code: Code, fitness: Fitness): Option<BookingError> {
    var place := PlaceRefusal(site, db, slot, fitness);
    var limits := LimitsRefusal(site, db, slot, now);
    if place.Some? then place
    else if limits.Some? then limits
    else CodeRefusal(site, db, now, slot.salon, slot.customer, code)
  }

  // approve and reschedule: the booking's own row never stands in its way, and any trouble
  // with its worker is reported as one.
  function RecheckRefusal(site: Site, db: Tables, claim: Claim, workerOk: bool): Option<BookingError> {
    if !RoomFor(site, db, claim.salon, claim.startsAt, claim.endsAt, claim.except) then Some(Unavailable)
    else if claim.worker.Some? && !workerOk then Some(WorkerUnavailable)
    else if !WorkerFree(site, db, claim.salon, claim.startsAt, claim.endsAt, claim.worker, claim.except) then Some(WorkerUnavailable)
    else None
  }

  // A query by booking and salon.
  function RowOf(db: Tables, salon: Salon, id: BookingId): Option<Booking> {
    if Exists(db, id) && db.bookings[id].salon == salon then Some(db.bookings[id]) else None
  }

  // assignWorker: read is what its transaction's query found, which another commit may since
  // have changed; the guarded update notices if its status did.
  function AssignRefusal(site: Site, db: Tables, salon: Salon, id: BookingId, worker: Worker, read: Option<Booking>,
                         fitness: Fitness): Option<BookingError>
  {
    if worker !in site.home || site.home[worker] != salon then Some(WorkerNotFound)
    else if fitness == Inactive then Some(WorkerInactive)
    else if read.None? then Some(NotFound)
    else if Dead(read.value.status) then Some(WrongState)
    else if fitness == Ineligible then Some(WorkerIneligible)
    else if WorkerBusy(db, worker, read.value.startsAt, read.value.endsAt, Some(id)) != {} then Some(WorkerUnavailable)
    else if !Is(db, id, read.value.status) then Some(StatusChanged)
    else None
  }
}
