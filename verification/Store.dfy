/**
 * The booking tables as the services update them, statement by statement. Each method is one
 * transaction body of bookings.service.ts, booking-hold-release.util.ts or a job: a guarded
 * UPDATE decides who wins, and the rows it leaves are exactly what Transactions.Run says.
 * A row read before the transaction arrives as an argument and may be out of date.
 */
module Store {
  import opened Options
  import opened Pricing
  import opened Records
  import opened Transactions
  import opened Schedule
  import opened BulkRelease
  import opened Protocol
  import opened Decisions
  import opened Effects

  class BookingStore {
    var bookings: seq<Booking>
    var payments: map<BookingId, Payment>
    var balances: map<Customer, nat>
    var ledger: seq<WalletEntry>
    var redemptions: map<BookingId, Redemption>
    var commissions: seq<Commission>

    constructor ()
      ensures View() == Tables([], map[], map[], [], map[], [])
    {
      bookings, payments, balances, ledger, redemptions, commissions := [], map[], map[], [], map[], [];
    }

    function View(): Tables
      reads this
    {
      Tables(bookings, payments, balances, ledger, redemptions, commissions)
    }

    // A transaction that throws puts back what it found.
    method RollBack(db: Tables)
      modifies this
      ensures View() == db
    {
      bookings, payments, balances := db.bookings, db.payments, db.balances;
      ledger, redemptions, commissions := db.ledger, db.redemptions, db.commissions;
    }

    // ----- single statements

    // UPDATE bookings SET status = to WHERE id = id AND status = from
    method MoveStatus(id: BookingId, from: Status, to: Status) returns (affected: bool)
      modifies this`bookings
      ensures affected == Is(old(View()), id, from)
      ensures View() == if affected then WithStatus(old(View()), id, to) else old(View())
    {
      affected := id < |bookings| && bookings[id].status == from;
      if affected {
        bookings := bookings[id := bookings[id].(status := to)];
      }
    }

    method MovePayment(id: BookingId, from: PaymentStatus, to: PaymentStatus)
      modifies this`payments
      ensures View() == PaymentMoved(old(View()), id, from, to)
    {
      if id in payments && payments[id].status == from {
        payments := payments[id := payments[id].(status := to)];
      }
    }

    method SetPayment(id: BookingId, to: PaymentStatus)
      modifies this`payments
      ensures View() == PaymentSet(old(View()), id, to)
    {
      if id in payments {
        payments := payments[id := payments[id].(status := to)];
      }
    }

    // WalletService.debit: as much as the balance allows, and a ledger row for what it took.
    method Debit(c: Customer, requested: nat, id: BookingId) returns (taken: nat)
      modifies this`balances, this`ledger
      ensures taken == Min(requested, Balance(old(View()), c))
      ensures View() == Debited(old(View()), c, taken, id)
    {
      var balance := Balance(View(), c);
      taken := if requested < balance then requested else balance;
      if taken > 0 {
        balances := balances[c := balance - taken];
        ledger := ledger + [WalletEntry(c, 0 - taken, BookingSpend, id)];
      }
    }

    // InvoicingService.recordCommission
    method RecordCommission(id: BookingId)
      requires id < |bookings|
      modifies this`commissions
      ensures View() == Accrued(old(View()), id)
    {
      if id in payments && payments[id].status == Paid && payments[id].amount > 0 {
        commissions := commissions + [Commission(id, bookings[id].salon, payments[id].amount)];
      }
    }

    // ----- booking-hold-release.util.ts

    method ReadStakes(ids: seq<BookingId>) returns (rows: seq<StakeRow>)
      ensures rows == StakeRows(bookings, ids)
    {
      rows := [];
      var i := 0;
      while i < |ids|
        invariant 0 <= i <= |ids|
        invariant rows == StakeRows(bookings, ids[..i])
      {
        assert ids[..i + 1][..i] == ids[..i];
        if ids[i] < |bookings| {
          rows := rows + [StakeRow(ids[i], bookings[ids[i]].stake)];
        }
        i := i + 1;
      }
      assert ids[..i] == ids;
    }

    // The rows may have been read before someone else's commit: the conditional UPDATE decides.
    method ReverseWalletSpend(rows: seq<StakeRow>)
      modifies this
      ensures View() == AllReversed(old(View()), rows)
    {
      var i := 0;
      while i < |rows|
        invariant 0 <= i <= |rows|
        invariant View() == AllReversed(old(View()), rows[..i])
      {
        assert rows[..i + 1][..i] == rows[..i];
        var row := rows[i];
        if row.stake > 0 && row.id < |bookings| && bookings[row.id].stake == row.stake {
          var customer := bookings[row.id].customer;
          bookings := bookings[row.id := bookings[row.id].(stake := 0)];
          balances := balances[customer := (if customer in balances then balances[customer] else 0) + row.stake];
          ledger := ledger + [WalletEntry(customer, row.stake, SpendReversal, row.id)];
        }
        i := i + 1;
      }
      assert rows[..i] == rows;
    }

    // For bookings whose rows this transaction has just written, so the read is current.
    method ReleaseBookingHold(ids: seq<BookingId>)
      modifies this
      ensures View() == HoldsReleased(old(View()), ids)
    {
      redemptions := map id | id in redemptions && id !in ids :: redemptions[id];
      var rows := ReadStakes(ids);
      ReverseWalletSpend(rows);
    }

    // ----- placing, under the salon lock

    method CheckPlace(site: Site, slot: Slot, fitness: Fitness) returns (refusal: Option<BookingError>)
      requires slot.salon in site.capacity
      ensures refusal == PlaceRefusal(site, View(), slot, fitness)
    {
      if |SalonBusy(View(), slot.salon, slot.startsAt, slot.endsAt, None)| >= site.capacity[slot.salon] { return Some(Unavailable); }
      if slot.worker.None? { return None; }
      var worker := slot.worker.value;
      if worker !in site.home || site.home[worker] != slot.salon { return Some(WorkerNotFound); }
      if fitness == Inactive { return Some(WorkerInactive); }
      if fitness == Ineligible { return Some(WorkerIneligible); }
      if WorkerBusy(View(), worker, slot.startsAt, slot.endsAt, None) != {} { return Some(WorkerUnavailable); }
      return None;
    }

    // The price a hold is made at and the deposit on it.
    method PriceHold(terms: HoldTerms) returns (price: Resolved, depositTotal: nat)
      ensures price == HoldPrice(terms) && depositTotal == HoldDeposit(terms)
      ensures IsBest(terms.listPrice, [terms.serviceDiscount, if terms.offer.Some? then Some(terms.offer.value.discount) else None], price)
    {
      var coupon := if terms.offer.Some? then Some(terms.offer.value.discount) else None;
      price := ResolveBestPriceWithWinner(terms.listPrice, [terms.serviceDiscount, coupon]);
      depositTotal := Deposit(price.finalPrice, terms.depositPercent, terms.depositMinimum);
    }

    // The row of a hold whose wallet part has been taken.
    method ComposeBooking(ghost db: Tables, now: int, slot: Slot, terms: HoldTerms, finalPrice: int, depositTotal: nat, stake: nat)
      returns (b: Booking)
      requires finalPrice == HoldPrice(terms).finalPrice && depositTotal == HoldDeposit(terms)
      requires stake == HoldStake(db, slot.customer, terms)
      ensures b == HeldBooking(db, now, slot, terms)
    {
      var toPay := depositTotal - stake;
      var requiresPayment := toPay > 0 && terms.online;
      var status, approvalDeadline, paymentDeadline := Confirmed, None, None;
      if terms.manualApproval {
        status, approvalDeadline := PendingApproval, Some(now + terms.approvalTimeout);
      } else if requiresPayment {
        status, paymentDeadline := PendingPayment, Some(now + terms.paymentTimeout);
      }
      b := Booking(slot.customer, slot.salon, slot.startsAt, slot.endsAt, finalPrice, toPay, stake, slot.worker, status,
                   terms.manualApproval, approvalDeadline, paymentDeadline, terms.windowHours, now);
    }

    // The writes of createHold. The coupon's unique index has the last word: a clash undoes the
    // debit, the booking and the payment.
    method WriteHold(now: int, slot: Slot, terms: HoldTerms) returns (r: Result<BookingId, BookingError>)
      modifies this
      ensures View() == HoldPlaced(old(View()), now, slot, terms)
      ensures r == if CouponApplied(terms) && AlreadyRedeemed(old(View()), terms.offer.value.coupon, slot.customer)
                   then Failure(CouponAlreadyRedeemed) else Success(|old(bookings)|)
    {
      var before := View();
      var id := |bookings|;
      var price, depositTotal := PriceHold(terms);
      var stake := 0;
      if terms.applyWallet && depositTotal > 0 && terms.online {
        stake := Debit(slot.customer, depositTotal, id);
      }
      var b := ComposeBooking(before, now, slot, terms, price.finalPrice, depositTotal, stake);
      bookings := bookings + [b];
      if b.status == PendingPayment {
        payments := payments[id := NewPayment(b.deposit, now)];
      }
      if terms.offer.Some? && price.winner == Some(1) {
        var redemption := Redemption(terms.offer.value.coupon, slot.customer);
        if redemption in redemptions.Values {
          RollBack(before);
          return Failure(CouponAlreadyRedeemed);
        }
        redemptions := redemptions[id := redemption];
      }
      return Success(id);
    }

    // resolveAndValidate
    method CheckCode(site: Site, now: int, slot: Slot, code: Code) returns (refusal: Option<BookingError>)
      ensures refusal == CodeRefusal(site, View(), now, slot.salon, slot.customer, code)
    {
      match code
      case NoCode => return None;
      case WhileOff => return Some(CouponsOff);
      case Unknown => return Some(CouponInvalid);
      case Naming(row) =>
        if !row.active || (row.salon.Some? && row.salon.value != slot.salon) { return Some(CouponInvalid); }
        if row.issuedTo.Some? && row.issuedTo.value != slot.customer { return Some(CouponInvalid); }
        if row.expiresAt.Some? && row.expiresAt.value < now { return Some(CouponExpired); }
        if Redemption(row.id, slot.customer) in redemptions.Values { return Some(CouponAlreadyRedeemed); }
        if row.id in site.couponCap && |RedeemedOn(View(), row.id)| >= site.couponCap[row.id] { return Some(CouponLimitReached); }
        return None;
    }

    // Either everything is written or nothing is, and the refusal is the first the rows give.
    method CreateHold(site: Site, now: int, slot: Slot, terms: HoldTerms, code: Code, fitness: Fitness)
      returns (r: Result<BookingId, BookingError>)
      requires slot.salon in site.capacity
      modifies this
      ensures var refusal := HoldRefusal(site, old(View()), now, slot, code, fitness);
              && r == (if refusal.Some? then Failure(refusal.value) else Success(|old(bookings)|))
              && View() == if refusal.Some? then old(View()) else Run(old(View()), PlaceHold(now, slot, WithCode(terms, code)))
      ensures r.Success? ==>
                HoldEffect(old(View()), View(), now, slot,
                           terms.(offer := if code.Naming? then Some(Offer(code.row.id, code.row.discount)) else None))
    {
      var refusal := CheckPlace(site, slot, fitness);
      if refusal.Some? { return Failure(refusal.value); }
      if CustomerBusy(View(), slot.customer, slot.startsAt, slot.endsAt) != {} { return Failure(CustomerDoubleBooked); }
      if |ActiveOf(View(), slot.customer, now)| >= site.perUser { return Failure(LimitReached); }
      if |ActiveAtSalon(View(), slot.customer, slot.salon, now)| >= site.perSalonPerUser { return Failure(LimitReached); }
      refusal := CheckCode(site, now, slot, code);
      if refusal.Some? { return Failure(refusal.value); }
      HoldLeaves(View(), now, slot, WithCode(terms, code));
      r := WriteHold(now, slot, WithCode(terms, code));
    }

    method CreateManual(site: Site, now: int, slot: Slot, price: int, windowHours: int, fitness: Fitness)
      returns (r: Result<BookingId, BookingError>)
      requires slot.salon in site.capacity
      modifies this
      ensures var refusal := PlaceRefusal(site, old(View()), slot, fitness);
              && r == (if refusal.Some? then Failure(refusal.value) else Success(|old(bookings)|))
              && View() == if refusal.Some? then old(View()) else Run(old(View()), EnterManual(now, slot, price, windowHours))
    {
      var refusal := CheckPlace(site, slot, fitness);
      if refusal.Some? { return Failure(refusal.value); }
      bookings := bookings + [ManualBooking(now, slot, price, windowHours)];
      return Success(|bookings| - 1);
    }

    // The overlap counts of approve and reschedule.
    method Recheck(site: Site, claim: Claim, workerOk: bool) returns (refusal: Option<BookingError>)
      requires claim.salon in site.capacity
      ensures refusal == RecheckRefusal(site, View(), claim, workerOk)
    {
      if |SalonBusy(View(), claim.salon, claim.startsAt, claim.endsAt, claim.except)| >= site.capacity[claim.salon] {
        return Some(Unavailable);
      }
      if claim.worker.None? { return None; }
      var worker := claim.worker.value;
      if worker !in site.home || site.home[worker] != claim.salon || !workerOk { return Some(WorkerUnavailable); }
      if WorkerBusy(View(), worker, claim.startsAt, claim.endsAt, claim.except) != {} { return Some(WorkerUnavailable); }
      return None;
    }

    // Decides on the row read earlier, rechecks under the lock, and writes under the guard. A
    // request that no longer fits is expired, and that is committed; a lost guard is not.
    method Approve(site: Site, id: BookingId, seen: Booking, readAt: int, salonApproved: bool, now: int, online: bool,
                   deadline: int, workerOk: bool)
      returns (r: Result<Status, BookingError>)
      requires seen.salon in site.capacity
      modifies this
      ensures var first := ApproveRefusal(seen, readAt, salonApproved);
              first.Some? ==> r == Failure(first.value) && View() == old(View())
      ensures ApproveRefusal(seen, readAt, salonApproved).None? ==>
              var db := old(View());
              var refusal := RecheckRefusal(site, db, Claim(seen.salon, seen.startsAt, seen.endsAt, seen.worker, Some(id)), workerOk);
              var requiresPayment := seen.deposit > 0 && online;
              && View() == Run(db, if refusal.Some? then Transactions.Invalidate(id)
                                   else Transactions.Approve(id, now, seen.deposit, seen.stake, online, deadline))
              && r == if refusal.Some? then Failure(if Is(db, id, PendingApproval) then refusal.value else Unavailable)
                      else if !Is(db, id, PendingApproval) then Failure(StatusChanged)
                      else if requiresPayment && id in db.payments then Failure(DuplicatePayment)
                      else Success(if requiresPayment then PendingPayment else Confirmed)
      ensures r.Success? ==> Exists(old(View()), id) && ApproveEffect(old(View()), View(), id, now, seen.deposit, seen.stake, online, deadline)
      ensures r.Success? && old(bookings)[id].stake == seen.stake ==>
                && bookings[id].stake == (if online then seen.stake else 0)
                && forall c :: Balance(View(), c) == Balance(old(View()), c) +
                                 if c == bookings[id].customer then seen.stake - bookings[id].stake else 0
    {
      if seen.status != PendingApproval { return Failure(WrongState); }
      if !salonApproved { return Failure(SalonNotApproved); }
      if seen.startsAt <= readAt { return Failure(NotInFuture); }
      var refusal := Recheck(site, Claim(seen.salon, seen.startsAt, seen.endsAt, seen.worker, Some(id)), workerOk);
      if refusal.Some? {
        var expired := EndAndRelease(id, PendingApproval, Expired);
        return Failure(if expired then refusal.value else Unavailable);
      }
      r := OpenOrConfirm(id, now, seen, online, deadline);
    }

    method OpenOrConfirm(id: BookingId, now: int, seen: Booking, online: bool, deadline: int)
      returns (r: Result<Status, BookingError>)
      modifies this
      ensures View() == Approved(old(View()), id, now, seen.deposit, seen.stake, online, deadline)
      ensures r == if !Is(old(View()), id, PendingApproval) then Failure(StatusChanged)
                   else if seen.deposit > 0 && online && id in old(payments) then Failure(DuplicatePayment)
                   else Success(if seen.deposit > 0 && online then PendingPayment else Confirmed)
      ensures r.Success? ==> Exists(old(View()), id) && ApproveEffect(old(View()), View(), id, now, seen.deposit, seen.stake, online, deadline)
    {
      var before := View();
      if Is(before, id, PendingApproval) {
        ApproveLeaves(before, id, now, seen.deposit, seen.stake, online, deadline);
      }
      if id >= |bookings| || bookings[id].status != PendingApproval { return Failure(StatusChanged); }
      var requiresPayment := seen.deposit > 0 && online;
      var next := if requiresPayment then PendingPayment else Confirmed;
      bookings := bookings[id := bookings[id].(status := next, paymentDeadline := if requiresPayment then Some(deadline) else None)];
      if requiresPayment {
        if id in payments {
          RollBack(before);
          return Failure(DuplicatePayment);
        }
        payments := payments[id := NewPayment(seen.deposit, now)];
      } else if !online && seen.stake > 0 {
        var rows := ReadStakes([id]);
        assert [id][..0] == [];
        assert rows == [StakeRow(id, bookings[id].stake)];
        assert rows[..0] == [];
        ReverseWalletSpend(rows);
      }
      return Success(next);
    }

    // Decides on the row read earlier, then rechecks under the lock. Status is the only thing its
    // guard repeats.
    method Reschedule(site: Site, id: BookingId, seen: Booking, byCustomer: bool, theirs: bool, readAt: int, salonApproved: bool,
                      startsAt: int, endsAt: int, workerOk: bool)
      returns (refusal: Option<BookingError>)
      requires seen.salon in site.capacity
      modifies this`bookings
      ensures var first := MoveRefusal(seen, byCustomer, theirs, startsAt, readAt, salonApproved);
              var second := RecheckRefusal(site, old(View()), Claim(seen.salon, startsAt, endsAt, seen.worker, Some(id)), workerOk);
              && refusal == (if first.Some? then first else if second.Some? then second
                             else if !Is(old(View()), id, seen.status) then Some(StatusChanged) else None)
              && View() == if refusal.Some? then old(View()) else Run(old(View()), Move(id, seen.status, startsAt, endsAt))
    {
      if !theirs { return Some(if byCustomer then Forbidden else NotFound); }
      if !SlotBlocking(seen.status) { return Some(WrongState); }
      if startsAt <= readAt { return Some(NotInFuture); }
      if byCustomer && seen.startsAt - readAt < seen.windowHours * HOUR_MS { return Some(InsideWindow); }
      if !salonApproved { return Some(SalonNotApproved); }
      refusal := Recheck(site, Claim(seen.salon, startsAt, endsAt, seen.worker, Some(id)), workerOk);
      if refusal.Some? { return; }
      if id >= |bookings| || bookings[id].status != seen.status { return Some(StatusChanged); }
      bookings := bookings[id := bookings[id].(startsAt := startsAt, endsAt := endsAt)];
    }

    // assignWorker, from the overlap count on the rows it then finds. The salon lock keeps the
    // booking's time as read, but a cancellation or an expiry may have changed its status.
    method AssignWorker(site: Site, salon: Salon, id: BookingId, worker: Worker, read: Option<Booking>, fitness: Fitness)
      returns (refusal: Option<BookingError>)
      modifies this`bookings
      ensures refusal == AssignRefusal(site, old(View()), salon, id, worker, read, fitness)
      ensures View() == if refusal.Some? then old(View()) else Run(old(View()), Assign(id, read.value.status, worker))
    {
      if worker !in site.home || site.home[worker] != salon { return Some(WorkerNotFound); }
      if fitness == Inactive { return Some(WorkerInactive); }
      if read.None? { return Some(NotFound); }
      var booking := read.value;
      if Dead(booking.status) { return Some(WrongState); }
      if fitness == Ineligible { return Some(WorkerIneligible); }
      if WorkerBusy(View(), worker, booking.startsAt, booking.endsAt, Some(id)) != {} { return Some(WorkerUnavailable); }
      if id >= |bookings| || bookings[id].status != booking.status { return Some(StatusChanged); }
      bookings := bookings[id := bookings[id].(worker := Some(worker))];
      return None;
    }

    // ----- ending

    // A booking that dies before any money moved: guarded status, then its hold goes back.
    method EndAndRelease(id: BookingId, from: Status, to: Status) returns (affected: bool)
      modifies this
      ensures affected == Is(old(View()), id, from)
      ensures View() == Ended(old(View()), id, from, to)
    {
      affected := MoveStatus(id, from, to);
      if affected {
        ReleaseOne(id);
      }
    }

    method ReleaseOne(id: BookingId)
      requires id < |bookings|
      modifies this
      ensures View() == ReleasedNow(old(View()), id)
    {
      ghost var before := View();
      OneHoldReleased(before, id);
      ReleaseBookingHold([id]);
    }

    method Reject(id: BookingId, seen: Booking) returns (refusal: Option<BookingError>)
      modifies this
      ensures refusal == if seen.status != PendingApproval then Some(WrongState)
                         else if !Is(old(View()), id, PendingApproval) then Some(StatusChanged) else None
      ensures View() == if refusal.Some? then old(View()) else Run(old(View()), Transactions.Reject(id))
    {
      if seen.status != PendingApproval { return Some(WrongState); }
      var affected := EndAndRelease(id, PendingApproval, RejectedBySalon);
      return if affected then None else Some(StatusChanged);
    }

    // cancel's transaction, under its guard.
    method CommitCancel(id: BookingId, seen: Status, byOwner: bool, refund: bool) returns (affected: bool)
      modifies this
      ensures affected == Is(old(View()), id, seen)
      ensures View() == Cancelled(old(View()), id, seen, byOwner, refund)
    {
      affected := MoveStatus(id, seen, if byOwner then CancelledBySalon else CancelledByUser);
      if !affected { return; }
      if seen == Confirmed {
        SetPayment(id, if refund then RefundPending else Paid);
        if refund {
          ReleaseOne(id);
        } else {
          RecordCommission(id);
        }
      } else {
        MovePayment(id, Initiated, Failed);
        ReleaseOne(id);
      }
    }

    // Who may cancel, who pays for it and what goes back, then the transaction under the guard.
    method Cancel(id: BookingId, seen: Booking, isCustomer: bool, isOwner: bool, now: int)
      returns (r: Result<Cancellation, BookingError>)
      modifies this
      ensures match DecideCancel(seen, isCustomer, isOwner, now)
              case Failure(e) => r == Failure(e) && View() == old(View())
              case Success(c) =>
                && r == (if Is(old(View()), id, seen.status) then Success(c) else Failure(StatusChanged))
                && View() == Run(old(View()), Transactions.Cancel(id, seen.status, c.byOwner, c.refund))
      ensures r.Success? ==>
                && r.value.byOwner == isOwner
                && (r.value.refund <==> isOwner || seen.startsAt - now >= seen.windowHours * 3_600_000)
                && Is(old(View()), id, seen.status) && CancelEffect(old(View()), View(), id, r.value.byOwner, r.value.refund)
      ensures r.Failure? ==> View() == old(View())
    {
      if !SlotBlocking(seen.status) { return Failure(WrongState); }
      if !isCustomer && !isOwner { return Failure(Forbidden); }
      if seen.status == PendingApproval && isOwner && !isCustomer { return Failure(MustReject); }
      var refund := true;
      if !isOwner {
        refund := seen.startsAt - now >= seen.windowHours * HOUR_MS;
      }
      if Is(View(), id, seen.status) {
        CancelLeaves(View(), id, seen.status, isOwner, refund);
      }
      var affected := CommitCancel(id, seen.status, isOwner, refund);
      return if affected then Success(Cancellation(isOwner, refund)) else Failure(StatusChanged);
    }

    method AdminCancel(id: BookingId, seen: Booking) returns (refusal: Option<BookingError>)
      modifies this
      ensures refusal == if !SlotBlocking(seen.status) then Some(WrongState)
                         else if !Is(old(View()), id, seen.status) then Some(StatusChanged) else None
      ensures View() == if refusal.Some? then old(View()) else Run(old(View()), Transactions.AdminCancel(id, seen.status))
    {
      if !SlotBlocking(seen.status) { return Some(WrongState); }
      var affected := MoveStatus(id, seen.status, CancelledByAdmin);
      if !affected { return Some(StatusChanged); }
      if seen.status == Confirmed {
        MovePayment(id, Paid, RefundPending);
      } else {
        MovePayment(id, Initiated, Failed);
      }
      ReleaseOne(id);
      return None;
    }

    method UpdateStatus(id: BookingId, seen: Booking, outcome: Status, now: int, graceMs: int, salonApproved: bool)
      returns (refusal: Option<BookingError>)
      requires outcome == Completed || outcome == NoShow
      modifies this
      ensures var first := SettleRefusal(seen, outcome, now, graceMs, salonApproved);
              && refusal == (if first.Some? then first else if !Is(old(View()), id, Confirmed) then Some(StatusChanged) else None)
              && View() == if refusal.Some? then old(View()) else Run(old(View()), Settle(id, outcome))
      ensures refusal.None? ==> Exists(old(View()), id) && SettleEffect(old(View()), View(), id, outcome)
    {
      if seen.status != Confirmed { return Some(WrongState); }
      if !salonApproved { return Some(SalonNotApproved); }
      if outcome == Completed && now < seen.startsAt { return Some(TooEarly); }
      if outcome == NoShow && now < seen.startsAt + graceMs { return Some(TooEarly); }
      var affected := MoveStatus(id, Confirmed, outcome);
      if !affected { return Some(StatusChanged); }
      RecordCommission(id);
      return None;
    }

    // ----- payments

    method MintSession(id: BookingId, session: Session)
      modifies this`payments
      ensures View() == Minted(old(View()), id, session)
    {
      if id in payments {
        payments := payments[id := payments[id].(authority := Some(session), sessions := payments[id].sessions + [session])];
      }
    }

    method RetryPayment(id: BookingId, seen: Booking, now: int, online: bool, session: Session)
      returns (refusal: Option<BookingError>)
      modifies this`payments
      ensures refusal == RetryRefusal(seen, now, online)
      ensures View() == if refusal.Some? then old(View()) else Run(old(View()), Mint(id, session))
    {
      if seen.status != PendingPayment { return Some(WrongState); }
      if seen.paymentDeadline.Some? && seen.paymentDeadline.value <= now { return Some(DeadlinePassed); }
      if !online { return Some(PaymentsOff); }
      MintSession(id, session);
      return None;
    }

    // A verified capture confirms the booking, or is queued for refund if the booking moved on
    // and nobody else has settled the payment.
    method RecordCapture(id: BookingId, session: Session)
      modifies this`bookings, this`payments
      ensures View() == Run(old(View()), ReconcileCapture(id, session))
    {
      var affected := MoveStatus(id, PendingPayment, Confirmed);
      if id in payments && payments[id].status == Initiated {
        var settled := if affected then Paid else RefundPending;
        payments := payments[id := payments[id].(status := settled, authority := Some(session))];
      }
    }

    // A declined payment ends its booking if that still waits, and gives the hold back either way.
    method RecordDecline(id: BookingId)
      requires id < |bookings|
      modifies this
      ensures View() == Run(old(View()), Decline(id, old(bookings)[id].stake))
    {
      var affected := MoveStatus(id, PendingPayment, CancelledByUser);
      MovePayment(id, Initiated, Failed);
      ReleaseOne(id);
    }

    // No session was ever opened, and none has appeared since.
    method RetirePayment(id: BookingId) returns (affected: bool)
      modifies this`payments
      ensures affected == (PaymentIs(old(View()), id, Initiated) && old(payments)[id].authority.None?)
      ensures View() == Run(old(View()), Retire(id))
    {
      affected := id in payments && payments[id].status == Initiated && payments[id].authority.None?;
      if affected {
        payments := payments[id := payments[id].(status := Failed)];
      }
    }

    // ----- the expiry jobs

    // UPDATE bookings SET status = 'expired' WHERE due AND id IN (ids) RETURNING id
    // What the bulk update does to one row of the batch.
    method MarkOne(id: BookingId, due: Due) returns (affected: bool)
      modifies this`bookings
      ensures affected == (Exists(old(View()), id) && IsDue(old(View()).bookings[id], due))
      ensures View() == if affected then WithStatus(old(View()), id, Expired) else old(View())
    {
      affected := id < |bookings| && IsDue(bookings[id], due);
      if affected {
        bookings := bookings[id := bookings[id].(status := Expired)];
      }
    }

    method MarkDue(ids: seq<BookingId>, due: Due) returns (expired: seq<BookingId>)
      modifies this`bookings
      ensures expired == Returned(old(View()), ids, due)
      ensures forall k :: 0 <= k < |expired| ==> Exists(old(View()), expired[k])
      ensures View() == Marked(old(View()), expired)
    {
      ghost var before := View();
      expired := [];
      var i := 0;
      while i < |ids|
        invariant 0 <= i <= |ids|
        invariant expired == Returned(before, ids[..i], due)
        invariant forall k :: 0 <= k < |expired| ==> Exists(before, expired[k])
        invariant View() == Marked(before, expired)
      {
        assert ids[..i + 1] == ids[..i] + [ids[i]];
        MarkStep(before, ids[..i], ids[i], due);
        var affected := MarkOne(ids[i], due);
        if affected {
          expired := expired + [ids[i]];
        }
        i := i + 1;
      }
      assert ids[..i] == ids;
    }

    // Everything the bulk UPDATE returned is released at once: the same as expiring and
    // releasing the batch one booking at a time.
    method ExpireBatch(ids: seq<BookingId>, due: Due) returns (expired: seq<BookingId>)
      modifies this
      ensures View() == BatchExpired(old(View()), ids, due)
      ensures forall id :: id in expired <==> id in ids && Exists(old(View()), id) && IsDue(old(View()).bookings[id], due)
    {
      ghost var before := View();
      expired := MarkDue(ids, due);
      ReturnedExist(before, ids, due);
      BulkIsOneByOne(before, ids, due);
      ReleaseBookingHold(expired);
    }
  }
}
