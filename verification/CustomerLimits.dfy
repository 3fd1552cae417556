/**
 * A customer who only books online never holds overlapping bookings, nor more active ones than
 * the caps, at any mix of salons and however many requests run at once.
 */
module CustomerLimits {
  import opened Options
  import opened Records
  import opened Transactions
  import opened Schedule
  import opened Protocol
  import opened Evolution
  import opened Requests
  import opened CapacitySafety

  ghost predicate LimitsHold(site: Site, db: Tables, now: int, c: Customer) {
    && |ActiveOf(db, c, now)| <= site.perUser
    && (forall salon :: |ActiveAtSalon(db, c, salon, now)| <= site.perSalonPerUser)
    && forall i: BookingId, j: BookingId ::
         i < |db.bookings| && j < |db.bookings| && i != j
         && db.bookings[i].customer == c && db.bookings[j].customer == c
         && SlotBlocking(db.bookings[i].status) && SlotBlocking(db.bookings[j].status) ==>
           db.bookings[i].endsAt <= db.bookings[j].startsAt || db.bookings[j].endsAt <= db.bookings[i].startsAt
  }

  predicate Counted(w: World, rid: RequestId, c: Customer) {
    IsPlacing(w, rid) && w.requests[rid].customerOk && w.requests[rid].intent.ToHold? && w.requests[rid].intent.slot.customer == c
  }

  // Counts made under the customer's advisory lock stay true until its transaction commits.
  ghost predicate LimitsKept(site: Site, w: World, c: Customer) {
    forall rid :: Counted(w, rid, c) ==>
      WithinLimits(site, w.db, w.requests[rid].intent.slot, w.now)
  }

  // createManual and reschedule apply no caps, so the claim is for customers they spare.
  predicate Spares(w: World, step: Step, c: Customer) {
    step.Commit? && IsPlacing(w, step.rid) ==>
      match w.requests[step.rid].intent
      case ToEnter(slot, _) => slot.customer != c
      case ToMove(_, seen, _, _, _) => seen.customer != c
      case _ => true
  }

  predicate OnlineOnly(site: Site, w: World, steps: seq<Step>, c: Customer)
    requires Possible(site, w, steps)
    decreases |steps|
  {
    steps == [] || (Spares(w, steps[0], c) && OnlineOnly(site, Apply(site, w, steps[0]), steps[1..], c))
  }

  // ----- one transaction

  // Whatever the customer blocks afterwards he blocked before, in the same place.
  predicate FreesCustomer(db: Tables, db': Tables, c: Customer) {
    forall id: BookingId :: id < |db'.bookings| && db'.bookings[id].customer == c && SlotBlocking(db'.bookings[id].status) ==>
      id < |db.bookings| && SlotBlocking(db.bookings[id].status) && SamePlace(db.bookings[id], db'.bookings[id])
  }

  lemma FreeingKeepsLimits(site: Site, db: Tables, db': Tables, now: int, now': int, c: Customer)
    requires FreesCustomer(db, db', c) && now <= now' && LimitsHold(site, db, now, c)
    ensures LimitsHold(site, db', now', c)
  {
    SubsetSize(ActiveOf(db', c, now'), ActiveOf(db, c, now));
    forall salon
      ensures |ActiveAtSalon(db', c, salon, now')| <= site.perSalonPerUser
    {
      SubsetSize(ActiveAtSalon(db', c, salon, now'), ActiveAtSalon(db, c, salon, now));
    }
  }

  lemma FreeingKeepsCounts(site: Site, db: Tables, db': Tables, now: int, now': int, slot: Slot)
    requires FreesCustomer(db, db', slot.customer) && now <= now' && WithinLimits(site, db, slot, now)
    ensures WithinLimits(site, db', slot, now')
  {
    var c := slot.customer;
    SubsetSize(CustomerBusy(db', c, slot.startsAt, slot.endsAt), CustomerBusy(db, c, slot.startsAt, slot.endsAt));
    SubsetSize(ActiveOf(db', c, now'), ActiveOf(db, c, now));
    SubsetSize(ActiveAtSalon(db', c, slot.salon, now'), ActiveAtSalon(db, c, slot.salon, now));
  }

  lemma AtMostOneMore<T>(after: set<T>, before: set<T>, x: T)
    requires after <= before + {x}
    ensures |after| <= |before| + 1
  {
    SubsetSize(after, before + {x});
  }

  // Counting under the lock pays for exactly one more booking.
  lemma OneMoreActive(db: Tables, db': Tables, now: int, c: Customer, b: Booking)
    requires db'.bookings == db.bookings + [b]
    ensures |ActiveOf(db', c, now)| <= |ActiveOf(db, c, now)| + 1
  {
    AtMostOneMore(ActiveOf(db', c, now), ActiveOf(db, c, now), |db.bookings|);
  }

  lemma OneMoreActiveAtSalon(db: Tables, db': Tables, now: int, c: Customer, b: Booking, salon: Salon)
    requires db'.bookings == db.bookings + [b]
    ensures |ActiveAtSalon(db', c, salon, now)| <= |ActiveAtSalon(db, c, salon, now)| + if b.salon == salon then 1 else 0
  {
    if b.salon == salon {
      AtMostOneMore(ActiveAtSalon(db', c, salon, now), ActiveAtSalon(db, c, salon, now), |db.bookings|);
    } else {
      SubsetSize(ActiveAtSalon(db', c, salon, now), ActiveAtSalon(db, c, salon, now));
    }
  }

  lemma OneMoreKeepsLimits(site: Site, db: Tables, db': Tables, now: int, slot: Slot, b: Booking)
    requires WithinLimits(site, db, slot, now) && LimitsHold(site, db, now, slot.customer)
    requires b.customer == slot.customer && b.salon == slot.salon && b.startsAt == slot.startsAt && b.endsAt == slot.endsAt
    requires db'.bookings == db.bookings + [b]
    ensures LimitsHold(site, db', now, slot.customer)
  {
    var c, id := slot.customer, |db.bookings|;
    OneMoreActive(db, db', now, c, b);
    forall salon
      ensures |ActiveAtSalon(db', c, salon, now)| <= site.perSalonPerUser
    {
      OneMoreActiveAtSalon(db, db', now, c, b, salon);
    }
    forall k: BookingId | k < id && db.bookings[k].customer == c && SlotBlocking(db.bookings[k].status)
      ensures db.bookings[k].endsAt <= slot.startsAt || slot.endsAt <= db.bookings[k].startsAt
    {
      assert k !in CustomerBusy(db, c, slot.startsAt, slot.endsAt);
    }
  }

  lemma HoldKeepsLimits(site: Site, db: Tables, now: int, slot: Slot, terms: HoldTerms)
    requires WithinLimits(site, db, slot, now) && LimitsHold(site, db, now, slot.customer)
    ensures LimitsHold(site, HoldPlaced(db, now, slot, terms), now, slot.customer)
  {
    var db' := HoldPlaced(db, now, slot, terms);
    HoldPlacedRow(db, now, slot, terms);
    if db' != db {
      OneMoreKeepsLimits(site, db, db', now, slot, HeldBooking(db, now, slot, terms));
    }
  }

  lemma PlacementFreesOthers(site: Site, w: World, rid: RequestId, late: Late, c: Customer)
    requires Sound(w) && IsPlacing(w, rid) && CanCommit(site, w, w.requests[rid], late)
    requires Spares(w, Commit(rid, late), c)
    requires w.requests[rid].intent.ToHold? ==> w.requests[rid].intent.slot.customer != c
    ensures FreesCustomer(w.db, CommitDb(site, w, rid, late), c)
  {
    var r := w.requests[rid];
    assert SoundRequest(w.db, r);
    match r.intent
    case ToHold(slot) => HoldPlacedRow(w.db, w.now, slot, late.terms);
    case ToEnter(_, _) =>
    case ToMove(_, _, _, _, _) =>
    case ToApprove(_, _, _) => RunFreesPlaces(w.db, TxnOf(site, w, r, late));
    case ToAssign(_, _, _, _) => RunFreesPlaces(w.db, TxnOf(site, w, r, late));
  }

  // ----- one step

  predicate HoldsFor(w: World, step: Step, c: Customer) {
    step.Commit? && IsPlacing(w, step.rid) && w.requests[step.rid].intent.ToHold? && w.requests[step.rid].intent.slot.customer == c
  }

  lemma StepFreesOthers(site: Site, w: World, step: Step, c: Customer)
    requires Sound(w) && Enabled(site, w, step) && Spares(w, step, c) && !HoldsFor(w, step, c)
    ensures FreesCustomer(w.db, Apply(site, w, step).db, c)
    ensures w.now <= Apply(site, w, step).now
  {
    DbChangesByTxn(site, w, step);
    CommitIsLegal(site, w, step);
    if step.Commit? && IsPlacing(w, step.rid) {
      PlacementFreesOthers(site, w, step.rid, step.late, c);
    } else if Commits(site, w, step).Some? {
      RunFreesPlaces(w.db, Commits(site, w, step).value);
    }
  }

  lemma StepKeepsLimits(site: Site, w: World, step: Step, c: Customer)
    requires Sound(w) && Enabled(site, w, step) && Spares(w, step, c)
    requires LimitsKept(site, w, c) && LimitsHold(site, w.db, w.now, c)
    ensures LimitsHold(site, Apply(site, w, step).db, Apply(site, w, step).now, c)
  {
    if HoldsFor(w, step, c) {
      assert SoundRequest(w.db, w.requests[step.rid]);
      HoldKeepsLimits(site, w.db, w.now, w.requests[step.rid].intent.slot, step.late.terms);
    } else {
      StepFreesOthers(site, w, step, c);
      FreeingKeepsLimits(site, w.db, Apply(site, w, step).db, w.now, Apply(site, w, step).now, c);
    }
  }

  // Two counted holds of one customer cannot be in flight: they would share his lock.
  lemma CountedAlone(w: World, rid: RequestId, rid': RequestId, c: Customer)
    requires Sound(w) && rid != rid' && Counted(w, rid, c)
    ensures !Counted(w, rid', c)
  {
    assert SoundRequest(w.db, w.requests[rid]) && HoldsLocks(w, rid, w.requests[rid]);
    assert rid' in w.requests ==> SoundRequest(w.db, w.requests[rid']) && HoldsLocks(w, rid', w.requests[rid']);
  }

  lemma OthersStayCounted(site: Site, w: World, step: Step, c: Customer, rid: RequestId)
    requires Sound(w) && Enabled(site, w, step) && Spares(w, step, c) && Actor(step) != Some(rid)
    requires Counted(w, rid, c) && WithinLimits(site, w.db, w.requests[rid].intent.slot, w.now)
    ensures WithinLimits(site, Apply(site, w, step).db, w.requests[rid].intent.slot, Apply(site, w, step).now)
  {
    if Actor(step).Some? {
      CountedAlone(w, rid, Actor(step).value, c);
    }
    StepFreesOthers(site, w, step, c);
    FreeingKeepsCounts(site, w.db, Apply(site, w, step).db, w.now, Apply(site, w, step).now, w.requests[rid].intent.slot);
  }

  lemma StepKeepsCounts(site: Site, w: World, step: Step, c: Customer)
    requires Sound(w) && Enabled(site, w, step) && Spares(w, step, c) && LimitsKept(site, w, c)
    ensures LimitsKept(site, Apply(site, w, step), c)
  {
    var w' := Apply(site, w, step);
    forall rid | Counted(w', rid, c)
      ensures WithinLimits(site, w'.db, w'.requests[rid].intent.slot, w'.now)
    {
      if Actor(step) != Some(rid) {
        OthersWait(site, w, step, rid);
        OthersStayCounted(site, w, step, c, rid);
      } else {
        assert rid in w.requests ==> SoundRequest(w.db, w.requests[rid]);
      }
    }
  }

  // ----- every run

  lemma {:induction false} LimitsKeptThroughout(site: Site, w: World, steps: seq<Step>, c: Customer)
    requires Sound(w) && LimitsKept(site, w, c) && LimitsHold(site, w.db, w.now, c)
    requires Possible(site, w, steps) && OnlineOnly(site, w, steps, c)
    ensures var w' := After(site, w, steps); LimitsHold(site, w'.db, w'.now, c)
    decreases |steps|
  {
    if steps == [] {
    } else {
      StepStaysSound(site, w, steps[0]);
      StepKeepsLimits(site, w, steps[0], c);
      StepKeepsCounts(site, w, steps[0], c);
      LimitsKeptThroughout(site, Apply(site, w, steps[0]), steps[1..], c);
    }
  }

  // The salon lock cannot give this, since one customer's parallel requests may go to
  // different salons; the customer lock held to commit does.
  lemma CustomersStayWithinLimits(site: Site, w: World, steps: seq<Step>, c: Customer)
    requires Init(w) && Possible(site, w, steps) && OnlineOnly(site, w, steps, c)
    ensures var w' := After(site, w, steps); LimitsHold(site, w'.db, w'.now, c)
  {
    assert ActiveOf(w.db, c, w.now) == {};
    forall salon
      ensures |ActiveAtSalon(w.db, c, salon, w.now)| <= site.perSalonPerUser
    {
      assert ActiveAtSalon(w.db, c, salon, w.now) == {};
    }
    LimitsKeptThroughout(site, w, steps, c);
  }
}
