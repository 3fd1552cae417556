/**
 * Every refusal as the first of a list of plain objections, each a condition on the rows and on what
 * the caller asked for: which requests are accepted, and what the others are told.
 */
module Objections {
  import opened Options
  import opened Records
  import opened Transactions
  import opened Schedule
  import opened Protocol
  import opened Decisions

  type Objection = (bool, BookingError)

  // The refusal reports the first objection that holds, and there is one if any holds.
  ghost predicate IsFirst(objections: seq<Objection>, refusal: Option<BookingError>) {
    match refusal
    case None => forall i :: 0 <= i < |objections| ==> !objections[i].0
    case Some(e) => exists i :: Reports(objections, i, e)
  }

  predicate Reports(objections: seq<Objection>, i: int, e: BookingError) {
    0 <= i < |objections| && objections[i] == (true, e) && forall j :: 0 <= j < i ==> !objections[j].0
  }

  // ----- the rows in the way

  predicate Live(s: Status) {
    s == PendingApproval || s == PendingPayment || s == Confirmed
  }

  // Live bookings other than except that are on at some time between from and to.
  function InTheWay(db: Tables, from: int, to: int, except: Option<BookingId>): set<BookingId> {
    set id: BookingId | id < |db.bookings| && except != Some(id) && Live(db.bookings[id].status)
                        && db.bookings[id].startsAt < to && from < db.bookings[id].endsAt
  }

  predicate OnAt(b: Booking, at: int) {
    b.startsAt <= at < b.endsAt
  }

  // That is, at some instant of both.
  lemma InTheWayShareAnInstant(db: Tables, from: int, to: int, id: BookingId)
    requires Exists(db, id) && from < to && db.bookings[id].startsAt < db.bookings[id].endsAt
    ensures id in InTheWay(db, from, to, None) <==>
              Live(db.bookings[id].status) && exists at :: OnAt(db.bookings[id], at) && from <= at < to
  {
    var b := db.bookings[id];
    var at := if b.startsAt < from then from else b.startsAt;
    assert b.startsAt < to && from < b.endsAt ==> OnAt(b, at) && from <= at < to;
  }

  function OfSalon(db: Tables, ids: set<BookingId>, salon: Salon): set<BookingId> {
    set id | id in ids && Exists(db, id) && db.bookings[id].salon == salon
  }

  function OfWorker(db: Tables, ids: set<BookingId>, worker: Worker): set<BookingId> {
    set id | id in ids && Exists(db, id) && db.bookings[id].worker == Some(worker)
  }

  function OfCustomer(db: Tables, ids: set<BookingId>, c: Customer): set<BookingId> {
    set id | id in ids && Exists(db, id) && db.bookings[id].customer == c
  }

  function StillToCome(db: Tables, now: int): set<BookingId> {
    set id: BookingId | id < |db.bookings| && Live(db.bookings[id].status) && db.bookings[id].startsAt > now
  }

  lemma CountsAre(db: Tables, salon: Salon, worker: Worker, c: Customer, from: int, to: int, now: int, except: Option<BookingId>)
    ensures SalonBusy(db, salon, from, to, except) == OfSalon(db, InTheWay(db, from, to, except), salon)
    ensures WorkerBusy(db, worker, from, to, except) == OfWorker(db, InTheWay(db, from, to, except), worker)
    ensures CustomerBusy(db, c, from, to) == OfCustomer(db, InTheWay(db, from, to, None), c)
    ensures ActiveOf(db, c, now) == OfCustomer(db, StillToCome(db, now), c)
    ensures ActiveAtSalon(db, c, salon, now) == OfSalon(db, OfCustomer(db, StillToCome(db, now), c), salon)
  {
  }

  // ----- placing

  ghost function PlaceObjections(site: Site, db: Tables, slot: Slot, fitness: Fitness): seq<Objection>
    requires slot.salon in site.capacity
  {
    var way := InTheWay(db, slot.startsAt, slot.endsAt, None);
    var asked := slot.worker.Some?;
    [(|OfSalon(db, way, slot.salon)| >= site.capacity[slot.salon], Unavailable),
     (asked && !(slot.worker.value in site.home && site.home[slot.worker.value] == slot.salon), WorkerNotFound),
     (asked && fitness == Inactive, WorkerInactive),
     (asked && fitness == Ineligible, WorkerIneligible),
     (asked && OfWorker(db, way, slot.worker.value) != {}, WorkerUnavailable)]
  }

  lemma PlaceObjects(site: Site, db: Tables, slot: Slot, fitness: Fitness)
    requires slot.salon in site.capacity
    ensures IsFirst(PlaceObjections(site, db, slot, fitness), PlaceRefusal(site, db, slot, fitness))
  {
    var worker := if slot.worker.Some? then slot.worker.value else 0;
    CountsAre(db, slot.salon, worker, slot.customer, slot.startsAt, slot.endsAt, 0, None);
    var objections, refusal := PlaceObjections(site, db, slot, fitness), PlaceRefusal(site, db, slot, fitness);
    if refusal.Some? {
      var i := if objections[0].0 then 0 else if objections[1].0 then 1 else if objections[2].0 then 2
               else if objections[3].0 then 3 else 4;
      assert Reports(objections, i, refusal.value);
    }
  }

  ghost function LimitObjections(site: Site, db: Tables, slot: Slot, now: int): seq<Objection> {
    var mine := OfCustomer(db, StillToCome(db, now), slot.customer);
    [(OfCustomer(db, InTheWay(db, slot.startsAt, slot.endsAt, None), slot.customer) != {}, CustomerDoubleBooked),
     (|mine| >= site.perUser, LimitReached),
     (|OfSalon(db, mine, slot.salon)| >= site.perSalonPerUser, LimitReached)]
  }

  lemma LimitsObject(site: Site, db: Tables, slot: Slot, now: int)
    ensures IsFirst(LimitObjections(site, db, slot, now), LimitsRefusal(site, db, slot, now))
  {
    CountsAre(db, slot.salon, 0, slot.customer, slot.startsAt, slot.endsAt, now, None);
    var objections, refusal := LimitObjections(site, db, slot, now), LimitsRefusal(site, db, slot, now);
    if refusal.Some? {
      var i := if objections[0].0 then 0 else if objections[1].0 then 1 else 2;
      assert Reports(objections, i, refusal.value);
    }
  }

  // An unknown code, one switched off, of another salon or for another customer is invalid.
  ghost function CodeObjections(site: Site, db: Tables, now: int, salon: Salon, c: Customer, code: Code): seq<Objection> {
    var named := code.Naming?;
    [(code == WhileOff, CouponsOff),
     (code == Unknown, CouponInvalid),
     (named && !code.row.active, CouponInvalid),
     (named && code.row.salon.Some? && code.row.salon.value != salon, CouponInvalid),
     (named && code.row.issuedTo.Some? && code.row.issuedTo.value != c, CouponInvalid),
     (named && code.row.expiresAt.Some? && code.row.expiresAt.value < now, CouponExpired),
     (named && (exists id :: id in db.redemptions && db.redemptions[id] == Redemption(code.row.id, c)), CouponAlreadyRedeemed),
     (named && code.row.id in site.couponCap
      && |set id | id in db.redemptions && db.redemptions[id].coupon == code.row.id| >= site.couponCap[code.row.id], CouponLimitReached)]
  }

  lemma CodeObjects(site: Site, db: Tables, now: int, salon: Salon, c: Customer, code: Code)
    ensures IsFirst(CodeObjections(site, db, now, salon, c, code), CodeRefusal(site, db, now, salon, c, code))
  {
    var objections, refusal := CodeObjections(site, db, now, salon, c, code), CodeRefusal(site, db, now, salon, c, code);
    if code.Naming? {
      assert RedeemedOn(db, code.row.id) == set id | id in db.redemptions && db.redemptions[id].coupon == code.row.id;
    }
    if refusal.Some? {
      var i := if objections[0].0 then 0 else if objections[1].0 then 1 else if objections[2].0 then 2 else if objections[3].0 then 3
               else if objections[4].0 then 4 else if objections[5].0 then 5 else if objections[6].0 then 6 else 7;
      assert Reports(objections, i, refusal.value);
    }
  }

  lemma FirstOfBoth(a: seq<Objection>, ra: Option<BookingError>, b: seq<Objection>, rb: Option<BookingError>)
    requires IsFirst(a, ra) && IsFirst(b, rb)
    ensures IsFirst(a + b, if ra.Some? then ra else rb)
  {
    if ra.Some? {
      var i :| Reports(a, i, ra.value);
      assert Reports(a + b, i, ra.value);
    } else if rb.Some? {
      var i :| Reports(b, i, rb.value);
      assert forall j :: 0 <= j < |a| ==> (a + b)[j] == a[j];
      assert Reports(a + b, |a| + i, rb.value);
    }
  }

  // createHold: the salon, the worker, the customer, the code, in this order.
  ghost function HoldObjections(site: Site, db: Tables, now: int, slot: Slot, code: Code, fitness: Fitness): seq<Objection>
    requires slot.salon in site.capacity
  {
    PlaceObjections(site, db, slot, fitness) + LimitObjections(site, db, slot, now)
    + CodeObjections(site, db, now, slot.salon, slot.customer, code)
  }

  lemma HoldObjects(site: Site, db: Tables, now: int, slot: Slot, code: Code, fitness: Fitness)
    requires slot.salon in site.capacity
    ensures IsFirst(HoldObjections(site, db, now, slot, code, fitness), HoldRefusal(site, db, now, slot, code, fitness))
  {
    PlaceObjects(site, db, slot, fitness);
    LimitsObject(site, db, slot, now);
    CodeObjects(site, db, now, slot.salon, slot.customer, code);
    var place, limits := PlaceRefusal(site, db, slot, fitness), LimitsRefusal(site, db, slot, now);
    FirstOfBoth(PlaceObjections(site, db, slot, fitness), place, LimitObjections(site, db, slot, now), limits);
    FirstOfBoth(PlaceObjections(site, db, slot, fitness) + LimitObjections(site, db, slot, now), if place.Some? then place else limits,
                CodeObjections(site, db, now, slot.salon, slot.customer, code),
                CodeRefusal(site, db, now, slot.salon, slot.customer, code));
  }

  // approve and reschedule count again, without the booking itself.
  ghost function RecheckObjections(site: Site, db: Tables, claim: Claim, workerOk: bool): seq<Objection>
    requires claim.salon in site.capacity
  {
    var way := InTheWay(db, claim.startsAt, claim.endsAt, claim.except);
    var staffed := claim.worker.Some?;
    [(|OfSalon(db, way, claim.salon)| >= site.capacity[claim.salon], Unavailable),
     (staffed && !workerOk, WorkerUnavailable),
     (staffed && !(claim.worker.value in site.home && site.home[claim.worker.value] == claim.salon), WorkerUnavailable),
     (staffed && OfWorker(db, way, claim.worker.value) != {}, WorkerUnavailable)]
  }

  lemma RecheckObjects(site: Site, db: Tables, claim: Claim, workerOk: bool)
    requires claim.salon in site.capacity
    ensures IsFirst(RecheckObjections(site, db, claim, workerOk), RecheckRefusal(site, db, claim, workerOk))
  {
    var worker := if claim.worker.Some? then claim.worker.value else 0;
    CountsAre(db, claim.salon, worker, 0, claim.startsAt, claim.endsAt, 0, claim.except);
    var objections, refusal := RecheckObjections(site, db, claim, workerOk), RecheckRefusal(site, db, claim, workerOk);
    if refusal.Some? {
      var i := if objections[0].0 then 0 else if objections[1].0 then 1 else if objections[2].0 then 2 else 3;
      assert Reports(objections, i, refusal.value);
    }
  }

  ghost function AssignObjections(site: Site, db: Tables, salon: Salon, id: BookingId, worker: Worker, read: Option<Booking>,
                                  fitness: Fitness): seq<Objection>
  {
    [(!(worker in site.home && site.home[worker] == salon), WorkerNotFound),
     (fitness == Inactive, WorkerInactive),
     (read.None?, NotFound),
     (read.Some? && !Live(read.value.status) && read.value.status != Completed && read.value.status != NoShow, WrongState),
     (fitness == Ineligible, WorkerIneligible),
     (read.Some? && OfWorker(db, InTheWay(db, read.value.startsAt, read.value.endsAt, Some(id)), worker) != {}, WorkerUnavailable),
     (read.Some? && !(Exists(db, id) && db.bookings[id].status == read.value.status), StatusChanged)]
  }

  lemma AssignObjects(site: Site, db: Tables, salon: Salon, id: BookingId, worker: Worker, read: Option<Booking>, fitness: Fitness)
    ensures IsFirst(AssignObjections(site, db, salon, id, worker, read, fitness),
                    AssignRefusal(site, db, salon, id, worker, read, fitness))
  {
    if read.Some? {
      CountsAre(db, salon, worker, 0, read.value.startsAt, read.value.endsAt, 0, Some(id));
    }
    var objections := AssignObjections(site, db, salon, id, worker, read, fitness);
    var refusal := AssignRefusal(site, db, salon, id, worker, read, fitness);
    if refusal.Some? {
      var i := if objections[0].0 then 0 else if objections[1].0 then 1 else if objections[2].0 then 2 else if objections[3].0 then 3
               else if objections[4].0 then 4 else if objections[5].0 then 5 else 6;
      assert Reports(objections, i, refusal.value);
    }
  }

  // ----- on the row as read

  ghost function CancelObjections(seen: Booking, isCustomer: bool, isOwner: bool): seq<Objection> {
    [(!Live(seen.status), WrongState),
     (!isCustomer && !isOwner, Forbidden),
     (seen.status == PendingApproval && isOwner && !isCustomer, MustReject)]
  }

  // Who may cancel, in whose name it counts, and when the deposit is owed back: always to a customer
  // whose salon cancels, and otherwise while the start is at least the window away.
  lemma CancelObjects(seen: Booking, isCustomer: bool, isOwner: bool, now: int)
    ensures var r := DecideCancel(seen, isCustomer, isOwner, now);
            && IsFirst(CancelObjections(seen, isCustomer, isOwner), if r.Failure? then Some(r.error) else None)
            && (r.Success? ==>
                  && r.value.byOwner == isOwner
                  && (r.value.refund <==> isOwner || seen.startsAt - now >= seen.windowHours * 3_600_000))
  {
    var objections, r := CancelObjections(seen, isCustomer, isOwner), DecideCancel(seen, isCustomer, isOwner, now);
    if r.Failure? {
      assert Reports(objections, if objections[0].0 then 0 else if objections[1].0 then 1 else 2, r.error);
    }
  }

  ghost function MoveObjections(seen: Booking, byCustomer: bool, theirs: bool, newStartsAt: int, now: int, salonApproved: bool)
    : seq<Objection>
  {
    [(!byCustomer && !theirs, NotFound),
     (byCustomer && !theirs, Forbidden),
     (!Live(seen.status), WrongState),
     (newStartsAt <= now, NotInFuture),
     (byCustomer && seen.startsAt - now < seen.windowHours * 3_600_000, InsideWindow),
     (!salonApproved, SalonNotApproved)]
  }

  lemma MoveObjects(seen: Booking, byCustomer: bool, theirs: bool, newStartsAt: int, now: int, salonApproved: bool)
    ensures IsFirst(MoveObjections(seen, byCustomer, theirs, newStartsAt, now, salonApproved),
                    MoveRefusal(seen, byCustomer, theirs, newStartsAt, now, salonApproved))
  {
    var objections := MoveObjections(seen, byCustomer, theirs, newStartsAt, now, salonApproved);
    var refusal := MoveRefusal(seen, byCustomer, theirs, newStartsAt, now, salonApproved);
    if refusal.Some? {
      var i := if objections[0].0 then 0 else if objections[1].0 then 1 else if objections[2].0 then 2 else if objections[3].0 then 3
               else if objections[4].0 then 4 else 5;
      assert Reports(objections, i, refusal.value);
    }
  }

  lemma ApproveObjects(seen: Booking, now: int, salonApproved: bool)
    ensures IsFirst([(seen.status != PendingApproval, WrongState), (!salonApproved, SalonNotApproved), (seen.startsAt <= now, NotInFuture)],
                    ApproveRefusal(seen, now, salonApproved))
  {
    var objections := [(seen.status != PendingApproval, WrongState), (!salonApproved, SalonNotApproved), (seen.startsAt <= now, NotInFuture)];
    var refusal := ApproveRefusal(seen, now, salonApproved);
    if refusal.Some? {
      assert Reports(objections, if objections[0].0 then 0 else if objections[1].0 then 1 else 2, refusal.value);
    }
  }

  ghost function OutcomeObjections(seen: Booking, outcome: Status, now: int, graceMs: int, salonApproved: bool): seq<Objection> {
    [(seen.status != Confirmed, WrongState),
     (!salonApproved, SalonNotApproved),
     (outcome == Completed && now < seen.startsAt, TooEarly),
     (outcome == NoShow && now < seen.startsAt + graceMs, TooEarly)]
  }

  lemma OutcomeObjects(seen: Booking, outcome: Status, now: int, graceMs: int, salonApproved: bool)
    ensures IsFirst(OutcomeObjections(seen, outcome, now, graceMs, salonApproved),
                    SettleRefusal(seen, outcome, now, graceMs, salonApproved))
  {
    var objections := OutcomeObjections(seen, outcome, now, graceMs, salonApproved);
    var refusal := SettleRefusal(seen, outcome, now, graceMs, salonApproved);
    if refusal.Some? {
      var i := if objections[0].0 then 0 else if objections[1].0 then 1 else if objections[2].0 then 2 else 3;
      assert Reports(objections, i, refusal.value);
    }
  }

  ghost function RetryObjections(seen: Booking, now: int, online: bool): seq<Objection> {
    [(seen.status != PendingPayment, WrongState),
     (seen.paymentDeadline.Some? && seen.paymentDeadline.value <= now, DeadlinePassed),
     (!online, PaymentsOff)]
  }

  lemma RetryObjects(seen: Booking, now: int, online: bool)
    ensures IsFirst(RetryObjections(seen, now, online), RetryRefusal(seen, now, online))
  {
    var objections, refusal := RetryObjections(seen, now, online), RetryRefusal(seen, now, online);
    if refusal.Some? {
      assert Reports(objections, if objections[0].0 then 0 else if objections[1].0 then 1 else 2, refusal.value);
    }
  }
}
