/** The overlap and cap queries that guard every placement, as sets of booking ids. */
module Schedule {
  import opened Options
  import opened Records
  import opened Transactions

  // Salon capacities, each worker's one salon, the two per-customer caps, and the codes that may
  // be redeemed only so many times.
  datatype Site = Site(
    capacity: map<Salon, nat>,
    home: map<Worker, Salon>,
    perUser: nat,
    perSalonPerUser: nat,
    couponCap: map<Coupon, nat>)

  predicate Overlaps(b: Booking, startsAt: int, endsAt: int) {
    SlotBlocking(b.status) && b.startsAt < endsAt && b.endsAt > startsAt
  }

  predicate Other(id: BookingId, except: Option<BookingId>) {
    except != Some(id)
  }

  function SalonBusy(db: Tables, salon: Salon, startsAt: int, endsAt: int, except: Option<BookingId>): set<BookingId> {
    set id: BookingId | id < |db.bookings| && Other(id, except)
                        && db.bookings[id].salon == salon && Overlaps(db.bookings[id], startsAt, endsAt)
  }

  function WorkerBusy(db: Tables, worker: Worker, startsAt: int, endsAt: int, except: Option<BookingId>): set<BookingId> {
    set id: BookingId | id < |db.bookings| && Other(id, except)
                        && db.bookings[id].worker == Some(worker) && Overlaps(db.bookings[id], startsAt, endsAt)
  }

  function CustomerBusy(db: Tables, c: Customer, startsAt: int, endsAt: int): set<BookingId> {
    set id: BookingId | id < |db.bookings| && db.bookings[id].customer == c && Overlaps(db.bookings[id], startsAt, endsAt)
  }

  // "Active" is slot-blocking with a start in the future.
  function ActiveOf(db: Tables, c: Customer, now: int): set<BookingId> {
    set id: BookingId | id < |db.bookings| && db.bookings[id].customer == c
                        && SlotBlocking(db.bookings[id].status) && db.bookings[id].startsAt > now
  }

  function ActiveAtSalon(db: Tables, c: Customer, salon: Salon, now: int): set<BookingId> {
    set id: BookingId | id < |db.bookings| && db.bookings[id].customer == c && db.bookings[id].salon == salon
                        && SlotBlocking(db.bookings[id].status) && db.bookings[id].startsAt > now
  }

  function RedeemedOn(db: Tables, coupon: Coupon): set<BookingId> {
    set id | id in db.redemptions && db.redemptions[id].coupon == coupon
  }

  // ----- the guards

  predicate RoomFor(site: Site, db: Tables, salon: Salon, startsAt: int, endsAt: int, except: Option<BookingId>) {
    salon in site.capacity && |SalonBusy(db, salon, startsAt, endsAt, except)| < site.capacity[salon]
  }

  // A requested worker belongs to the salon and is free; no request, nothing to check.
  predicate WorkerFree(site: Site, db: Tables, salon: Salon, startsAt: int, endsAt: int, worker: Option<Worker>,
                       except: Option<BookingId>)
  {
    worker.Some? ==>
      && worker.value in site.home && site.home[worker.value] == salon
      && WorkerBusy(db, worker.value, startsAt, endsAt, except) == {}
  }

  // assertWithinActiveBookingLimits
  predicate WithinLimits(site: Site, db: Tables, slot: Slot, now: int) {
    && CustomerBusy(db, slot.customer, slot.startsAt, slot.endsAt) == {}
    && |ActiveOf(db, slot.customer, now)| < site.perUser
    && |ActiveAtSalon(db, slot.customer, slot.salon, now)| < site.perSalonPerUser
  }

  predicate UnderCap(site: Site, db: Tables, coupon: Coupon) {
    coupon in site.couponCap ==> |RedeemedOn(db, coupon)| < site.couponCap[coupon]
  }

  // The customer may still redeem the code the terms carry.
  predicate CodeOpen(site: Site, db: Tables, c: Customer, terms: HoldTerms) {
    terms.offer.Some? ==>
      !AlreadyRedeemed(db, terms.offer.value.coupon, c) && UnderCap(site, db, terms.offer.value.coupon)
  }
}
