/**
 * Every interleaving of the booking requests and jobs, as a step system. A request reads rows
 * before it locks anything, takes the salon lock, counts, and commits; a hold also locks its
 * customer and the row of a capped code before it counts for them. Other requests and the clock
 * move between any two of its steps. Inputs that arrive late (settings, prices, the gateway's
 * verdict, a stale stake) are chosen freely at the commit.
 *
 * Two assumptions: a salon lock's lease outlives the request that holds it, and the cron lock
 * keeps reconciliation runs from overlapping (LapsedLease drops the second).
 */
module Protocol {
  import opened Options
  import opened Records
  import opened Transactions
  import opened Schedule

  type RequestId = nat

  const EXPIRY_BATCH := 1000
  const RECONCILE_BATCH := 200
  const STALE_AFTER_MS := 1_200_000

  // The requests that need the salon lock, with what they read before asking for it.
  // assignWorker reads its row only under the lock.
  datatype Intent =
    | ToHold(slot: Slot)
    | ToEnter(slot: Slot, price: int)
    | ToMove(id: BookingId, seen: Booking, startsAt: int, endsAt: int, byCustomer: bool)
    | ToApprove(id: BookingId, seen: Booking, readAt: int)
    | ToAssign(id: BookingId, salon: Salon, worker: Worker, read: Option<Booking>)

  // How far resolveAndValidate is with a hold's code: the customer has not redeemed it yet; its
  // row is locked, if it has a cap; the redemptions under that lock leave room for one more.
  datatype CodeStage =
    | NotAsked
    | Unredeemed(offer: Offer)
    | RowLocked(offer: Offer)
    | UnderItsCap(offer: Offer)

  datatype Request =
    | Placing(intent: Intent, locked: bool, roomOk: bool, workerOk: bool, customerLocked: bool, customerOk: bool,
              code: CodeStage)
    | Unlocking(salon: Salon)
    | Rejecting(id: BookingId)
    | Cancelling(id: BookingId, seen: Status, byOwner: bool, refund: bool)
    | AdminCancelling(id: BookingId, seen: Status)
    | Settling(id: BookingId, outcome: Status, graceMs: int)
    | ExpiringPayments(ids: seq<BookingId>, at: int, cutoff: int)
    | ExpiringApprovals(ids: seq<BookingId>, at: int)
    | Minting(id: BookingId)
    | CallingBack(id: BookingId, session: Session, sawFailed: bool)
    | Recovering(id: BookingId, session: Session, read: Option<PaymentStatus>)
    | Reconciling(queue: seq<BookingId>, loaded: Option<seq<Session>>)

  // late records, for the properties only, which bookings were cancelled late.
  datatype World = World(
    db: Tables,
    now: int,
    requests: map<RequestId, Request>,
    salonLock: map<Salon, RequestId>,
    customerLock: map<Customer, RequestId>,
    couponLock: map<Coupon, RequestId>,
    late: set<BookingId>)

  datatype Late =
    | HoldInput(terms: HoldTerms)
    | ManualInput(windowHours: int)
    | ApproveInput(online: bool, paymentTimeout: int)
    | SessionInput(minted: Session)
    | Verified(session: Session)
    | NotVerified(seenStake: nat)
    | NoInput

  datatype Step =
    | Tick(ms: nat)
    | Begin(rid: RequestId, request: Request)
    | Lock(rid: RequestId)
    | ReadRow(rid: RequestId)
    | CountRoom(rid: RequestId)
    | CountWorker(rid: RequestId)
    | LockCustomer(rid: RequestId)
    | CountCustomer(rid: RequestId)
    | CheckCode(rid: RequestId, offer: Offer)
    | LockCode(rid: RequestId)
    | CountCode(rid: RequestId)
    | Commit(rid: RequestId, late: Late)
    | CommitInvalid(rid: RequestId)
    | Abort(rid: RequestId)
    | Unlock(rid: RequestId)
    | StartRecovery(rid: RequestId)
    | ReadPayment(rid: RequestId)
    | Load(rid: RequestId)
    | Skip(rid: RequestId)
    | RefundDone(id: BookingId)

  // ----- what a placement claims

  datatype Claim = Claim(salon: Salon, startsAt: int, endsAt: int, worker: Option<Worker>, except: Option<BookingId>)

  // An assignment that has not read its row yet claims nothing: the empty interval.
  function ClaimOf(i: Intent): Claim {
    match i
    case ToHold(slot) => Claim(slot.salon, slot.startsAt, slot.endsAt, slot.worker, None)
    case ToEnter(slot, _) => Claim(slot.salon, slot.startsAt, slot.endsAt, slot.worker, None)
    case ToMove(id, seen, startsAt, endsAt, _) => Claim(seen.salon, startsAt, endsAt, seen.worker, Some(id))
    case ToApprove(id, seen, _) => Claim(seen.salon, seen.startsAt, seen.endsAt, seen.worker, Some(id))
    case ToAssign(id, salon, worker, Some(row)) => Claim(salon, row.startsAt, row.endsAt, Some(worker), Some(id))
    case ToAssign(id, salon, worker, None) => Claim(salon, 0, 0, Some(worker), Some(id))
  }

  predicate RoomOpen(site: Site, db: Tables, i: Intent) {
    var c := ClaimOf(i);
    RoomFor(site, db, c.salon, c.startsAt, c.endsAt, c.except)
  }

  predicate WorkerOpen(site: Site, db: Tables, i: Intent) {
    var c := ClaimOf(i);
    WorkerFree(site, db, c.salon, c.startsAt, c.endsAt, c.worker, c.except)
  }

  // ----- starting a request: its unlocked reads and the checks made on them

  predicate Unstarted(r: Request)
    requires r.Placing?
  {
    !r.locked && !r.roomOk && !r.workerOk && !r.customerLocked && !r.customerOk && r.code.NotAsked?
  }

  predicate CanPlace(site: Site, w: World, i: Intent) {
    match i
    case ToHold(slot) => slot.salon in site.capacity && slot.startsAt > w.now
    case ToEnter(slot, _) => slot.salon in site.capacity && slot.startsAt > w.now
    case ToMove(id, seen, startsAt, _, byCustomer) =>
      && Exists(w.db, id) && seen == w.db.bookings[id] && SlotBlocking(seen.status)
      && startsAt > w.now && seen.salon in site.capacity
      && (byCustomer ==> OutsideWindow(seen, w.now))
    case ToApprove(id, seen, readAt) =>
      && Exists(w.db, id) && seen == w.db.bookings[id] && seen.status == PendingApproval
      && seen.startsAt > w.now && seen.salon in site.capacity && readAt == w.now
    case ToAssign(_, _, _, read) => read.None?
  }

  // hoursUntilStart >= cancellationWindowHours
  predicate OutsideWindow(b: Booking, now: int) {
    b.startsAt - now >= b.windowHours * HOUR_MS
  }

  predicate NoReconciliation(w: World) {
    forall rid :: rid in w.requests ==> !w.requests[rid].Reconciling?
  }

  predicate Distinct(ids: seq<BookingId>) {
    forall i, j :: 0 <= i < j < |ids| ==> ids[i] != ids[j]
  }

  // A payment is stale once it is old and its booking can no longer be paid for.
  predicate Stale(w: World, id: BookingId) {
    && PaymentIs(w.db, id, Initiated) && Exists(w.db, id)
    && w.db.payments[id].createdAt < w.now - STALE_AFTER_MS
    && (w.db.bookings[id].status != PendingPayment
        || (w.db.bookings[id].paymentDeadline.Some? ==> w.db.bookings[id].paymentDeadline.value <= w.now))
  }

  predicate CanBegin(site: Site, w: World, r: Request) {
    match r
    case Placing(i, _, _, _, _, _, _) => Unstarted(r) && CanPlace(site, w, i)
    case Unlocking(_) => false
    case Rejecting(id) => Is(w.db, id, PendingApproval)
    case Cancelling(id, seen, byOwner, refund) =>
      && Is(w.db, id, seen) && SlotBlocking(seen)
      && refund == (byOwner || OutsideWindow(w.db.bookings[id], w.now))
    case AdminCancelling(id, seen) => Is(w.db, id, seen) && SlotBlocking(seen)
    case Settling(id, outcome, graceMs) =>
      && Is(w.db, id, Confirmed) && graceMs >= 0 && (outcome == Completed || outcome == NoShow)
      && (outcome == Completed ==> w.db.bookings[id].startsAt <= w.now)
      && (outcome == NoShow ==> w.db.bookings[id].startsAt + graceMs <= w.now)
    case ExpiringPayments(ids, at, cutoff) =>
      && at == w.now && |ids| <= EXPIRY_BATCH && Distinct(ids)
      && forall i :: 0 <= i < |ids| ==> Is(w.db, ids[i], PendingPayment) && PaymentDue(w.db.bookings[ids[i]], at, cutoff)
    case ExpiringApprovals(ids, at) =>
      && at == w.now && |ids| <= EXPIRY_BATCH && Distinct(ids)
      && forall i :: 0 <= i < |ids| ==> Is(w.db, ids[i], PendingApproval) && ApprovalDue(w.db.bookings[ids[i]], at)
    // createHold mints its first session without rereading; retryPayment checks more than this.
    case Minting(id) => id in w.db.payments
    case CallingBack(id, session, sawFailed) =>
      && id in w.db.payments && session in w.db.payments[id].sessions
      && w.db.payments[id].status == (if sawFailed then Failed else Initiated)
    case Recovering(_, _, _) => false
    case Reconciling(queue, loaded) =>
      && NoReconciliation(w) && loaded.None? && |queue| <= RECONCILE_BATCH && Distinct(queue)
      && forall i :: 0 <= i < |queue| ==> Stale(w, queue[i])
  }

  // ----- committing a request

  predicate FreshSession(db: Tables, s: Session) {
    forall id :: id in db.payments ==> s !in db.payments[id].sessions
  }

  predicate LocksRow(code: CodeStage) {
    code.RowLocked? || code.UnderItsCap?
  }

  // The terms carry the code the transaction has settled, if the customer gave one.
  predicate Resolved(site: Site, code: CodeStage, terms: HoldTerms) {
    match code
    case NotAsked => terms.offer.None?
    case Unredeemed(offer) => terms.offer == Some(offer) && offer.coupon !in site.couponCap
    case RowLocked(_) => false
    case UnderItsCap(offer) => terms.offer == Some(offer)
  }

  predicate CanCommit(site: Site, w: World, r: Request, late: Late) {
    match r
    case Placing(i, locked, roomOk, workerOk, _, customerOk, code) =>
      && locked && workerOk
      && (match i
          case ToHold(_) =>
            roomOk && customerOk && late.HoldInput? && ValidTerms(late.terms) && Resolved(site, code, late.terms)
          case ToEnter(_, price) => roomOk && late.ManualInput? && price >= 0
          case ToMove(_, _, _, _, _) => roomOk && late.NoInput?
          case ToApprove(_, _, _) => roomOk && late.ApproveInput?
          case ToAssign(_, _, _, read) => late.NoInput? && read.Some? && !Dead(read.value.status))
    case Minting(_) => late.SessionInput? && FreshSession(w.db, late.minted)
    case CallingBack(_, session, sawFailed) => !sawFailed && (late == Verified(session) || late.NotVerified?)
    case Reconciling(queue, Some(sessions)) =>
      && queue != []
      && (if sessions == [] then late.NoInput? else late.NotVerified? || (late.Verified? && late.session in sessions))
    case Reconciling(_, None) => false
    case Unlocking(_) => false
    case Rejecting(_) => late.NoInput?
    case Cancelling(_, _, _, _) => late.NoInput?
    case AdminCancelling(_, _) => late.NoInput?
    case Settling(_, _, _) => late.NoInput?
    case ExpiringPayments(_, _, _) => late.NoInput?
    case ExpiringApprovals(_, _) => late.NoInput?
    case Recovering(_, _, read) => late.NoInput? && read.Some?
  }

  function TxnOf(site: Site, w: World, r: Request, late: Late): Txn
    requires CanCommit(site, w, r, late)
  {
    match r
    case Placing(i, _, _, _, _, _, _) => (
      match i
      case ToHold(slot) => PlaceHold(w.now, slot, late.terms)
      case ToEnter(slot, price) => EnterManual(w.now, slot, price, late.windowHours)
      case ToMove(id, seen, startsAt, endsAt, _) => Move(id, seen.status, startsAt, endsAt)
      case ToApprove(id, seen, readAt) =>
        Approve(id, w.now, seen.deposit, seen.stake, late.online, readAt + late.paymentTimeout)
      case ToAssign(id, _, worker, read) => Assign(id, read.value.status, worker))
    case Rejecting(id) => Reject(id)
    case Cancelling(id, seen, byOwner, refund) => Cancel(id, seen, byOwner, refund)
    case AdminCancelling(id, seen) => AdminCancel(id, seen)
    case Settling(id, outcome, _) => Settle(id, outcome)
    case ExpiringPayments(ids, at, cutoff) => ExpirePayments(ids, at, cutoff)
    case ExpiringApprovals(ids, at) => ExpireApprovals(ids, at)
    case Minting(id) => Mint(id, late.minted)
    case CallingBack(id, session, sawFailed) =>
      if late.NotVerified? then Decline(id, late.seenStake) else Capture(id, session)
    case Recovering(id, session, read) => Recover(id, session, read.value)
    case Reconciling(queue, loaded) =>
      if late.NoInput? then Retire(queue[0])
      else if late.NotVerified? then Decline(queue[0], late.seenStake)
      else ReconcileCapture(queue[0], late.session)
  }

  function CommitDb(site: Site, w: World, rid: RequestId, late: Late): Tables
    requires rid in w.requests && CanCommit(site, w, w.requests[rid], late)
  {
    Run(w.db, TxnOf(site, w, w.requests[rid], late))
  }

  // What is left of the request once it has committed.
  function Remainder(site: Site, w: World, r: Request, late: Late): Option<Request>
    requires CanCommit(site, w, r, late)
  {
    match r
    case Placing(i, _, _, _, _, _, _) => Some(Unlocking(ClaimOf(i).salon))
    case CallingBack(id, session, _) =>
      if late.Verified? && !Is(w.db, id, PendingPayment) then Some(Recovering(id, session, None)) else None
    case Reconciling(queue, _) => Some(Reconciling(queue[1..], None))
    case _ => None
  }

  function WithRequest(w: World, rid: RequestId, r: Option<Request>): World {
    w.(requests := if r.Some? then w.requests[rid := r.value] else w.requests - {rid})
  }

  // The customer's advisory lock and the code's row lock go with the transaction.
  function WithoutTxnLocks(w: World, r: Request): World {
    if r.Placing? && r.customerLocked && r.intent.ToHold? then
      w.(customerLock := w.customerLock - {r.intent.slot.customer},
         couponLock := if LocksRow(r.code) then w.couponLock - {r.code.offer.coupon} else w.couponLock)
    else w
  }

  predicate LateCancellation(db: Tables, r: Request) {
    r.Cancelling? && r.seen == Confirmed && !r.refund && Is(db, r.id, Confirmed)
  }

  function Committed(site: Site, w: World, rid: RequestId, late: Late): World
    requires rid in w.requests && CanCommit(site, w, w.requests[rid], late)
  {
    var r := w.requests[rid];
    WithoutTxnLocks(WithRequest(w, rid, Remainder(site, w, r, late)), r).(
      db := Run(w.db, TxnOf(site, w, r, late)),
      late := if LateCancellation(w.db, r) then w.late + {r.id} else w.late)
  }

  function Aborted(w: World, rid: RequestId): World
    requires rid in w.requests
  {
    var r := w.requests[rid];
    WithoutTxnLocks(
      WithRequest(w, rid, if r.Placing? && r.locked then Some(Unlocking(ClaimOf(r.intent).salon)) else None), r)
  }

  // ----- steps

  predicate IsPlacing(w: World, rid: RequestId) {
    rid in w.requests && w.requests[rid].Placing?
  }

  predicate Enabled(site: Site, w: World, step: Step) {
    match step
    case Tick(_) => true
    case Begin(rid, r) => rid !in w.requests && rid !in w.salonLock.Values && CanBegin(site, w, r)
    case Lock(rid) => IsPlacing(w, rid) && !w.requests[rid].locked && ClaimOf(w.requests[rid].intent).salon !in w.salonLock
    case ReadRow(rid) =>
      && IsPlacing(w, rid) && w.requests[rid].locked
      && var i := w.requests[rid].intent;
      && i.ToAssign? && i.read.None? && Exists(w.db, i.id) && w.db.bookings[i.id].salon == i.salon
    case CountRoom(rid) =>
      IsPlacing(w, rid) && w.requests[rid].locked && !w.requests[rid].intent.ToAssign? && RoomOpen(site, w.db, w.requests[rid].intent)
    case CountWorker(rid) =>
      && IsPlacing(w, rid) && w.requests[rid].locked
      && (if w.requests[rid].intent.ToAssign? then w.requests[rid].intent.read.Some? else w.requests[rid].roomOk)
      && WorkerOpen(site, w.db, w.requests[rid].intent)
    case LockCustomer(rid) =>
      && IsPlacing(w, rid) && w.requests[rid].workerOk && !w.requests[rid].customerLocked
      && w.requests[rid].intent.ToHold? && w.requests[rid].intent.slot.customer !in w.customerLock
    case CountCustomer(rid) =>
      && IsPlacing(w, rid) && w.requests[rid].customerLocked
      && w.requests[rid].intent.ToHold? && WithinLimits(site, w.db, w.requests[rid].intent.slot, w.now)
    // resolveAndValidate: not yet redeemed by this customer; then, for a code with a cap, its row
    // is locked until the transaction ends and its redemptions are counted.
    case CheckCode(rid, offer) =>
      && IsPlacing(w, rid) && w.requests[rid].customerOk && w.requests[rid].code.NotAsked?
      && w.requests[rid].intent.ToHold? && !AlreadyRedeemed(w.db, offer.coupon, w.requests[rid].intent.slot.customer)
    case LockCode(rid) =>
      && IsPlacing(w, rid) && w.requests[rid].code.Unredeemed?
      && w.requests[rid].code.offer.coupon in site.couponCap && w.requests[rid].code.offer.coupon !in w.couponLock
    case CountCode(rid) =>
      IsPlacing(w, rid) && w.requests[rid].code.RowLocked? && UnderCap(site, w.db, w.requests[rid].code.offer.coupon)
    case Commit(rid, late) => rid in w.requests && CanCommit(site, w, w.requests[rid], late)
    // approve retires the request when the salon or the worker is no longer free; the worker
    // may also have been deactivated, so his half needs no evidence from the rows.
    case CommitInvalid(rid) =>
      && IsPlacing(w, rid) && w.requests[rid].locked && w.requests[rid].intent.ToApprove?
      && (if w.requests[rid].roomOk then !w.requests[rid].workerOk && w.requests[rid].intent.seen.worker.Some?
          else !RoomOpen(site, w.db, w.requests[rid].intent))
    case Abort(rid) => rid in w.requests && !w.requests[rid].Unlocking?
    case Unlock(rid) => rid in w.requests && w.requests[rid].Unlocking?
    // recoverCapturedOnDeadBooking: a verified capture on a payment that had failed already, or
    // one whose booking was gone, reads the payment again and updates it as it read it.
    case StartRecovery(rid) => rid in w.requests && w.requests[rid].CallingBack? && w.requests[rid].sawFailed
    case ReadPayment(rid) =>
      && rid in w.requests && w.requests[rid].Recovering? && w.requests[rid].read.None?
      && (PaymentIs(w.db, w.requests[rid].id, Initiated) || PaymentIs(w.db, w.requests[rid].id, Failed))
    case Load(rid) =>
      && rid in w.requests && w.requests[rid].Reconciling?
      && w.requests[rid].loaded.None? && w.requests[rid].queue != [] && w.requests[rid].queue[0] in w.db.payments
    case Skip(rid) => rid in w.requests && w.requests[rid].Reconciling? && w.requests[rid].queue != []
    case RefundDone(_) => true
  }

  // A step that only takes one request further.
  predicate Advances(step: Step) {
    || step.Lock? || step.ReadRow? || step.CountRoom? || step.CountWorker? || step.LockCustomer? || step.CountCustomer?
    || step.CheckCode? || step.LockCode? || step.CountCode? || step.StartRecovery? || step.ReadPayment? || step.Load? || step.Skip?
  }

  function Advanced(site: Site, w: World, step: Step): Request
    requires Advances(step) && Enabled(site, w, step)
  {
    var r := w.requests[step.rid];
    match step
    case Lock(_) => r.(locked := true)
    case ReadRow(_) => r.(intent := r.intent.(read := Some(w.db.bookings[r.intent.id])))
    case CountRoom(_) => r.(roomOk := true)
    case CountWorker(_) => r.(workerOk := true)
    case LockCustomer(_) => r.(customerLocked := true)
    case CountCustomer(_) => r.(customerOk := true)
    case CheckCode(_, offer) => r.(code := Unredeemed(offer))
    case LockCode(_) => r.(code := RowLocked(r.code.offer))
    case CountCode(_) => r.(code := UnderItsCap(r.code.offer))
    case StartRecovery(_) => Recovering(r.id, r.session, None)
    case ReadPayment(_) => r.(read := Some(w.db.payments[r.id].status))
    case Load(_) => r.(loaded := Some(w.db.payments[r.queue[0]].sessions))
    case Skip(_) => Reconciling(r.queue[1..], None)
  }

  // The lock a step takes.
  function WithLockTaken(w: World, step: Step): World
    requires step.Lock? || step.LockCustomer? || step.LockCode? ==> IsPlacing(w, step.rid)
    requires step.LockCustomer? ==> w.requests[step.rid].intent.ToHold?
    requires step.LockCode? ==> !w.requests[step.rid].code.NotAsked?
  {
    match step
    case Lock(rid) => w.(salonLock := w.salonLock[ClaimOf(w.requests[rid].intent).salon := rid])
    case LockCustomer(rid) => w.(customerLock := w.customerLock[w.requests[rid].intent.slot.customer := rid])
    case LockCode(rid) => w.(couponLock := w.couponLock[w.requests[rid].code.offer.coupon := rid])
    case _ => w
  }

  function Apply(site: Site, w: World, step: Step): World
    requires Enabled(site, w, step)
  {
    match step
    case Tick(ms) => w.(now := w.now + ms)
    case Begin(rid, r) => w.(requests := w.requests[rid := r])
    case Commit(rid, late) => Committed(site, w, rid, late)
    case CommitInvalid(rid) =>
      WithRequest(w, rid, Some(Unlocking(ClaimOf(w.requests[rid].intent).salon))).(
        db := Run(w.db, Invalidate(w.requests[rid].intent.id)))
    case Abort(rid) => Aborted(w, rid)
    case Unlock(rid) =>
      var s := w.requests[rid].salon;
      WithRequest(w, rid, None).(
        salonLock := if s in w.salonLock && w.salonLock[s] == rid then w.salonLock - {s} else w.salonLock)
    case RefundDone(id) => w.(db := Run(w.db, Refund(id)))
    case _ => WithRequest(WithLockTaken(w, step), step.rid, Some(Advanced(site, w, step)))
  }

  // The transaction a step commits, if any.
  function Commits(site: Site, w: World, step: Step): Option<Txn>
    requires Enabled(site, w, step)
  {
    match step
    case Commit(rid, late) => Some(TxnOf(site, w, w.requests[rid], late))
    case CommitInvalid(rid) => Some(Invalidate(w.requests[rid].intent.id))
    case RefundDone(id) => Some(Refund(id))
    case _ => None
  }

  // ----- runs

  predicate Init(w: World) {
    && w.db.bookings == [] && w.db.payments == map[] && w.db.ledger == [] && w.db.redemptions == map[] && w.db.commissions == []
    && w.requests == map[] && w.salonLock == map[] && w.customerLock == map[] && w.couponLock == map[] && w.late == {}
  }

  predicate Possible(site: Site, w: World, steps: seq<Step>)
    decreases |steps|
  {
    steps == [] || (Enabled(site, w, steps[0]) && Possible(site, Apply(site, w, steps[0]), steps[1..]))
  }

  function After(site: Site, w: World, steps: seq<Step>): World
    requires Possible(site, w, steps)
    decreases |steps|
  {
    if steps == [] then w else After(site, Apply(site, w, steps[0]), steps[1..])
  }

  // Tables change only through a committed transaction.
  lemma DbChangesByTxn(site: Site, w: World, step: Step)
    requires Enabled(site, w, step)
    ensures var t := Commits(site, w, step);
            Apply(site, w, step).db == if t.Some? then Run(w.db, t.value) else w.db
  {
  }
}
