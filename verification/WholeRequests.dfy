/**
 * A request that nobody disturbs: every check of the source passes in turn, so its steps are
 * possible one after the other and end in exactly the rows its transaction leaves.
 */
module WholeRequests {
  import opened Options
  import opened Records
  import opened Transactions
  import opened Schedule
  import opened Protocol
  import opened Runs
  import opened Decisions

  // ----- whole requests, undisturbed

  function Started(i: Intent): Request {
    Placing(i, false, false, false, false, false, NotAsked)
  }

  function Checked(i: Intent): Request {
    Placing(i, true, true, true, false, false, NotAsked)
  }

  function WithLocked(w: World, rid: RequestId, r: Request, salon: Salon): World {
    w.(requests := w.requests[rid := r], salonLock := w.salonLock[salon := rid])
  }

  lemma ChecksPass(site: Site, w: World, rid: RequestId, i: Intent) returns (steps: seq<Step>)
    requires rid in w.requests && w.requests[rid] == Started(i) && !i.ToAssign?
    requires ClaimOf(i).salon !in w.salonLock && RoomOpen(site, w.db, i) && WorkerOpen(site, w.db, i)
    ensures Possible(site, w, steps)
    ensures After(site, w, steps) == WithLocked(w, rid, Checked(i), ClaimOf(i).salon)
  {
    assert Apply(site, w, Lock(rid)) == WithLocked(w, rid, Placing(i, true, false, false, false, false, NotAsked), ClaimOf(i).salon);
    var rest := CountsPass(site, w, rid, i);
    StepThen(site, w, Lock(rid), rest);
    steps := [Lock(rid)] + rest;
  }

  lemma RoomCountPasses(site: Site, w: World, rid: RequestId, i: Intent)
    requires !i.ToAssign? && RoomOpen(site, w.db, i)
    ensures var v := WithLocked(w, rid, Placing(i, true, false, false, false, false, NotAsked), ClaimOf(i).salon);
            && Enabled(site, v, CountRoom(rid))
            && Apply(site, v, CountRoom(rid))
               == WithLocked(w, rid, Placing(i, true, true, false, false, false, NotAsked), ClaimOf(i).salon)
  {
  }

  lemma CountsPass(site: Site, w: World, rid: RequestId, i: Intent) returns (steps: seq<Step>)
    requires !i.ToAssign? && RoomOpen(site, w.db, i) && WorkerOpen(site, w.db, i)
    ensures var v := WithLocked(w, rid, Placing(i, true, false, false, false, false, NotAsked), ClaimOf(i).salon);
            Possible(site, v, steps) && After(site, v, steps) == WithLocked(w, rid, Checked(i), ClaimOf(i).salon)
  {
    var salon := ClaimOf(i).salon;
    var v := WithLocked(w, rid, Placing(i, true, false, false, false, false, NotAsked), salon);
    var v' := WithLocked(w, rid, Placing(i, true, true, false, false, false, NotAsked), salon);
    RoomCountPasses(site, w, rid, i);
    WorkerCountPasses(site, w, rid, i);
    TwoSteps(site, v, CountRoom(rid), v', CountWorker(rid));
    steps := [CountRoom(rid), CountWorker(rid)];
  }

  lemma WorkerCountPasses(site: Site, w: World, rid: RequestId, i: Intent)
    requires !i.ToAssign? && WorkerOpen(site, w.db, i)
    ensures var v := WithLocked(w, rid, Placing(i, true, true, false, false, false, NotAsked), ClaimOf(i).salon);
            Enabled(site, v, CountWorker(rid)) && Apply(site, v, CountWorker(rid)) == WithLocked(w, rid, Checked(i), ClaimOf(i).salon)
  {
  }

  lemma Unlocks(site: Site, w: World, rid: RequestId, salon: Salon)
    requires rid !in w.requests && salon !in w.salonLock
    ensures var v := WithLocked(w, rid, Unlocking(salon), salon);
            Possible(site, v, [Unlock(rid)]) && After(site, v, [Unlock(rid)]) == w
  {
    var v := WithLocked(w, rid, Unlocking(salon), salon);
    ThenStep(site, v, [], Unlock(rid));
    assert [] + [Unlock(rid)] == [Unlock(rid)];
    assert w.requests[rid := Unlocking(salon)] - {rid} == w.requests;
    assert w.salonLock[salon := rid] - {salon} == w.salonLock;
  }

  lemma LocksLeaveRequestsAlone(v: World, rid: RequestId, r: Request, r': Request)
    ensures WithoutTxnLocks(WithRequest(v, rid, Some(r')), r) == WithRequest(WithoutTxnLocks(v, r), rid, Some(r'))
  {
  }

  lemma CommitLeavesUnlocking(site: Site, w: World, v: World, rid: RequestId, late: Late, r: Request, salon: Salon, db': Tables)
    requires r.Placing? && ClaimOf(r.intent).salon == salon
    requires rid in v.requests && v.requests[rid] == r && WithoutTxnLocks(v, r) == WithLocked(w, rid, r, salon)
    requires CanCommit(site, v, r, late) && CommitDb(site, v, rid, late) == db' && !LateCancellation(v.db, r)
    ensures Apply(site, v, Commit(rid, late)) == WithLocked(w.(db := db'), rid, Unlocking(salon), salon)
  {
    var v' := WithLocked(w, rid, r, salon);
    LocksLeaveRequestsAlone(v, rid, r, Unlocking(salon));
    assert WithRequest(v', rid, Some(Unlocking(salon))).requests == w.requests[rid := Unlocking(salon)];
  }

  lemma UnlocksAfter(site: Site, v: World, w: World, rid: RequestId, late: Late, salon: Salon)
    requires rid !in w.requests && salon !in w.salonLock && Enabled(site, v, Commit(rid, late))
    requires Apply(site, v, Commit(rid, late)) == WithLocked(w, rid, Unlocking(salon), salon)
    ensures Possible(site, v, [Commit(rid, late)] + [Unlock(rid)])
    ensures After(site, v, [Commit(rid, late)] + [Unlock(rid)]) == w
  {
    Unlocks(site, w, rid, salon);
    StepThen(site, v, Commit(rid, late), [Unlock(rid)]);
  }

  // A checked request commits and lets go of its locks.
  lemma CommitsAndUnlocks(site: Site, w: World, v: World, rid: RequestId, late: Late, r: Request, salon: Salon,
                          db': Tables)
    returns (steps: seq<Step>)
    requires r.Placing? && ClaimOf(r.intent).salon == salon
    requires rid !in w.requests && salon !in w.salonLock
    requires rid in v.requests && v.requests[rid] == r && WithoutTxnLocks(v, r) == WithLocked(w, rid, r, salon)
    requires CanCommit(site, v, r, late) && CommitDb(site, v, rid, late) == db'
    ensures Possible(site, v, steps)
    ensures After(site, v, steps) == w.(db := db')
  {
    CommitLeavesUnlocking(site, w, v, rid, late, r, salon, db');
    UnlocksAfter(site, v, w.(db := db'), rid, late, salon);
    steps := [Commit(rid, late)] + [Unlock(rid)];
  }

  // A request that only counts room and worker goes through and leaves what its transaction leaves.
  lemma StartedCommits(site: Site, w: World, rid: RequestId, i: Intent, late: Late, db': Tables) returns (steps: seq<Step>)
    requires rid !in w.requests && !i.ToAssign? && ClaimOf(i).salon !in w.salonLock
    requires RoomOpen(site, w.db, i) && WorkerOpen(site, w.db, i)
    requires var v := WithLocked(w, rid, Checked(i), ClaimOf(i).salon);
             CanCommit(site, v, Checked(i), late) && CommitDb(site, v, rid, late) == db'
    ensures var v := w.(requests := w.requests[rid := Started(i)]);
            Possible(site, v, steps) && After(site, v, steps) == w.(db := db')
  {
    var v := w.(requests := w.requests[rid := Started(i)]);
    var salon := ClaimOf(i).salon;
    steps := ChecksPass(site, v, rid, i);
    assert WithLocked(v, rid, Checked(i), salon) == WithLocked(w, rid, Checked(i), salon);
    var rest := CommitsAndUnlocks(site, w, WithLocked(w, rid, Checked(i), salon), rid, late, Checked(i), salon, db');
    RunThen(site, v, steps, rest);
    steps := steps + rest;
  }

  // A salon enters an appointment of its own.
  lemma Enters(site: Site, w: World, rid: RequestId, slot: Slot, price: int, windowHours: int) returns (steps: seq<Step>)
    requires rid !in w.requests && rid !in w.salonLock.Values && slot.salon !in w.salonLock
    requires slot.startsAt > w.now && price >= 0
    requires RoomOpen(site, w.db, ToEnter(slot, price)) && WorkerOpen(site, w.db, ToEnter(slot, price))
    ensures Possible(site, w, steps)
    ensures After(site, w, steps) == w.(db := Inserted(w.db, ManualBooking(w.now, slot, price, windowHours)))
  {
    var i := ToEnter(slot, price);
    var rest := StartedCommits(site, w, rid, i, ManualInput(windowHours), Inserted(w.db, ManualBooking(w.now, slot, price, windowHours)));
    StepThen(site, w, Begin(rid, Started(i)), rest);
    steps := [Begin(rid, Started(i))] + rest;
  }

  lemma AssignmentChecksPass(site: Site, w: World, rid: RequestId, id: BookingId, worker: Worker) returns (steps: seq<Step>)
    requires rid !in w.requests && rid !in w.salonLock.Values && Exists(w.db, id) && w.db.bookings[id].salon !in w.salonLock
    requires var b := w.db.bookings[id];
             WorkerFree(site, w.db, b.salon, b.startsAt, b.endsAt, Some(worker), Some(id))
    ensures Possible(site, w, steps)
    ensures var b := w.db.bookings[id];
            After(site, w, steps) ==
              WithLocked(w, rid, Placing(ToAssign(id, b.salon, worker, Some(b)), true, false, true, false, false, NotAsked), b.salon)
  {
    var b := w.db.bookings[id];
    var unread, i := ToAssign(id, b.salon, worker, None), ToAssign(id, b.salon, worker, Some(b));
    ThenStep(site, w, [], Begin(rid, Started(unread)));
    assert [] + [Begin(rid, Started(unread))] == [Begin(rid, Started(unread))];
    ThenStep(site, w, [Begin(rid, Started(unread))], Lock(rid));
    steps := [Begin(rid, Started(unread))] + [Lock(rid)];
    assert After(site, w, steps) == WithLocked(w, rid, Placing(unread, true, false, false, false, false, NotAsked), b.salon);
    var rest := AssignmentReadsAndCounts(site, w, rid, id, worker);
    RunThen(site, w, steps, rest);
    steps := steps + rest;
  }

  lemma AssignmentReadsAndCounts(site: Site, w: World, rid: RequestId, id: BookingId, worker: Worker) returns (steps: seq<Step>)
    requires Exists(w.db, id)
    requires var b := w.db.bookings[id];
             WorkerFree(site, w.db, b.salon, b.startsAt, b.endsAt, Some(worker), Some(id))
    ensures var b := w.db.bookings[id];
            var v := WithLocked(w, rid, Placing(ToAssign(id, b.salon, worker, None), true, false, false, false, false, NotAsked), b.salon);
            && Possible(site, v, steps)
            && After(site, v, steps) ==
                 WithLocked(w, rid, Placing(ToAssign(id, b.salon, worker, Some(b)), true, false, true, false, false, NotAsked), b.salon)
  {
    var b := w.db.bookings[id];
    var unread, i := ToAssign(id, b.salon, worker, None), ToAssign(id, b.salon, worker, Some(b));
    var v := WithLocked(w, rid, Placing(unread, true, false, false, false, false, NotAsked), b.salon);
    var v' := WithLocked(w, rid, Placing(i, true, false, false, false, false, NotAsked), b.salon);
    assert Apply(site, v, ReadRow(rid)) == v';
    AssignmentCounts(site, w, rid, i);
    TwoSteps(site, v, ReadRow(rid), v', CountWorker(rid));
    steps := [ReadRow(rid), CountWorker(rid)];
  }

  lemma AssignmentCounts(site: Site, w: World, rid: RequestId, i: Intent)
    requires i.ToAssign? && i.read.Some? && WorkerOpen(site, w.db, i)
    ensures var v := WithLocked(w, rid, Placing(i, true, false, false, false, false, NotAsked), i.salon);
            && Enabled(site, v, CountWorker(rid))
            && Apply(site, v, CountWorker(rid)) == WithLocked(w, rid, Placing(i, true, false, true, false, false, NotAsked), i.salon)
  {
  }

  // An owner gives a booking to a worker.
  lemma Assigns(site: Site, w: World, rid: RequestId, id: BookingId, worker: Worker) returns (steps: seq<Step>)
    requires rid !in w.requests && rid !in w.salonLock.Values && Exists(w.db, id) && !Dead(w.db.bookings[id].status)
    requires w.db.bookings[id].salon !in w.salonLock
    requires var b := w.db.bookings[id];
             WorkerFree(site, w.db, b.salon, b.startsAt, b.endsAt, Some(worker), Some(id))
    ensures Possible(site, w, steps)
    ensures After(site, w, steps) == w.(db := WithRow(w.db, id, w.db.bookings[id].(worker := Some(worker))))
  {
    var b := w.db.bookings[id];
    var checked := Placing(ToAssign(id, b.salon, worker, Some(b)), true, false, true, false, false, NotAsked);
    steps := AssignmentChecksPass(site, w, rid, id, worker);
    var rest := CommitsAndUnlocks(site, w, WithLocked(w, rid, checked, b.salon), rid, NoInput, checked, b.salon,
                                  WithRow(w.db, id, b.(worker := Some(worker))));
    RunThen(site, w, steps, rest);
    steps := steps + rest;
  }

  // A move that read its booking earlier finishes undisturbed.
  lemma Moves(site: Site, w: World, rid: RequestId, i: Intent) returns (steps: seq<Step>)
    requires rid !in w.requests && rid !in w.salonLock.Values && i.ToMove? && Is(w.db, i.id, i.seen.status)
    requires ClaimOf(i).salon !in w.salonLock && RoomOpen(site, w.db, i) && WorkerOpen(site, w.db, i)
    ensures Possible(site, w.(requests := w.requests[rid := Started(i)]), steps)
    ensures After(site, w.(requests := w.requests[rid := Started(i)]), steps) ==
              w.(db := WithRow(w.db, i.id, w.db.bookings[i.id].(startsAt := i.startsAt, endsAt := i.endsAt)))
  {
    steps := StartedCommits(site, w, rid, i, NoInput,
                            WithRow(w.db, i.id, w.db.bookings[i.id].(startsAt := i.startsAt, endsAt := i.endsAt)));
  }

  // What the tables of locks hold once a hold has settled its code.
  function CodeSettled(site: Site, terms: HoldTerms): CodeStage {
    if terms.offer.None? then NotAsked
    else if terms.offer.value.coupon in site.couponCap then UnderItsCap(terms.offer.value)
    else Unredeemed(terms.offer.value)
  }

  function HoldingTxnLocks(w: World, rid: RequestId, c: Customer, code: CodeStage): World {
    w.(customerLock := w.customerLock[c := rid],
       couponLock := if LocksRow(code) then w.couponLock[code.offer.coupon := rid] else w.couponLock)
  }

  function Counting(w: World, rid: RequestId, slot: Slot, customerOk: bool, code: CodeStage): World {
    WithLocked(HoldingTxnLocks(w, rid, slot.customer, code), rid, Placing(ToHold(slot), true, true, true, true, customerOk, code), slot.salon)
  }

  // A checked hold takes the customer lock, counts under it, settles its code, commits and lets
  // all its locks go.
  lemma HoldCountsAndCommits(site: Site, w: World, rid: RequestId, slot: Slot, terms: HoldTerms) returns (steps: seq<Step>)
    requires rid !in w.requests && slot.salon !in w.salonLock && slot.customer !in w.customerLock && ValidTerms(terms)
    requires CodeFree(w, terms) && WithinLimits(site, w.db, slot, w.now) && CodeOpen(site, w.db, slot.customer, terms)
    ensures var v := WithLocked(w, rid, Checked(ToHold(slot)), slot.salon);
            Possible(site, v, steps) && After(site, v, steps) == w.(db := HoldPlaced(w.db, w.now, slot, terms))
  {
    steps := HoldCounts(site, w, rid, slot);
    var rest := HoldSettlesAndCommits(site, w, rid, slot, terms);
    RunThen(site, WithLocked(w, rid, Checked(ToHold(slot)), slot.salon), steps, rest);
    steps := steps + rest;
  }

  lemma HoldCounts(site: Site, w: World, rid: RequestId, slot: Slot) returns (steps: seq<Step>)
    requires slot.customer !in w.customerLock && WithinLimits(site, w.db, slot, w.now)
    ensures var v := WithLocked(w, rid, Checked(ToHold(slot)), slot.salon);
            Possible(site, v, steps) && After(site, v, steps) == Counting(w, rid, slot, true, NotAsked)
  {
    TakesCustomerLock(site, w, rid, slot);
    CountsCustomer(site, w, rid, slot);
    TwoSteps(site, WithLocked(w, rid, Checked(ToHold(slot)), slot.salon), LockCustomer(rid), Counting(w, rid, slot, false, NotAsked),
             CountCustomer(rid));
    steps := [LockCustomer(rid), CountCustomer(rid)];
  }

  lemma TakesCustomerLock(site: Site, w: World, rid: RequestId, slot: Slot)
    requires slot.customer !in w.customerLock
    ensures var v := WithLocked(w, rid, Checked(ToHold(slot)), slot.salon);
            && Enabled(site, v, LockCustomer(rid))
            && Apply(site, v, LockCustomer(rid)) == Counting(w, rid, slot, false, NotAsked)
  {
  }

  lemma CountsCustomer(site: Site, w: World, rid: RequestId, slot: Slot)
    requires WithinLimits(site, w.db, slot, w.now)
    ensures var v := Counting(w, rid, slot, false, NotAsked);
            && Enabled(site, v, CountCustomer(rid))
            && Apply(site, v, CountCustomer(rid)) == Counting(w, rid, slot, true, NotAsked)
  {
  }

  predicate CodeFree(w: World, terms: HoldTerms) {
    terms.offer.Some? ==> terms.offer.value.coupon !in w.couponLock
  }

  lemma HoldSettlesAndCommits(site: Site, w: World, rid: RequestId, slot: Slot, terms: HoldTerms) returns (steps: seq<Step>)
    requires rid !in w.requests && slot.salon !in w.salonLock && slot.customer !in w.customerLock && ValidTerms(terms)
    requires CodeFree(w, terms) && CodeOpen(site, w.db, slot.customer, terms)
    ensures var v := Counting(w, rid, slot, true, NotAsked);
            Possible(site, v, steps) && After(site, v, steps) == w.(db := HoldPlaced(w.db, w.now, slot, terms))
  {
    steps := CodeSettles(site, w, rid, slot, terms);
    var rest := HoldCommits(site, w, rid, slot, terms);
    RunThen(site, Counting(w, rid, slot, true, NotAsked), steps, rest);
    steps := steps + rest;
  }

  lemma CodeSettles(site: Site, w: World, rid: RequestId, slot: Slot, terms: HoldTerms) returns (steps: seq<Step>)
    requires CodeFree(w, terms) && CodeOpen(site, w.db, slot.customer, terms)
    ensures var v := Counting(w, rid, slot, true, NotAsked);
            Possible(site, v, steps) && After(site, v, steps) == Counting(w, rid, slot, true, CodeSettled(site, terms))
  {
    if terms.offer.None? {
      steps := [];
    } else {
      var offer := terms.offer.value;
      var v := Counting(w, rid, slot, true, NotAsked);
      assert Apply(site, v, CheckCode(rid, offer)) == Counting(w, rid, slot, true, Unredeemed(offer));
      var rest := CapSettles(site, w, rid, slot, terms);
      StepThen(site, v, CheckCode(rid, offer), rest);
      steps := [CheckCode(rid, offer)] + rest;
    }
  }

  lemma CapSettles(site: Site, w: World, rid: RequestId, slot: Slot, terms: HoldTerms) returns (steps: seq<Step>)
    requires terms.offer.Some? && CodeFree(w, terms) && CodeOpen(site, w.db, slot.customer, terms)
    ensures var v := Counting(w, rid, slot, true, Unredeemed(terms.offer.value));
            Possible(site, v, steps) && After(site, v, steps) == Counting(w, rid, slot, true, CodeSettled(site, terms))
  {
    var offer := terms.offer.value;
    if offer.coupon !in site.couponCap {
      steps := [];
    } else {
      TakesCodeLock(site, w, rid, slot, offer);
      CountsCode(site, w, rid, slot, offer);
      TwoSteps(site, Counting(w, rid, slot, true, Unredeemed(offer)), LockCode(rid), Counting(w, rid, slot, true, RowLocked(offer)),
               CountCode(rid));
      steps := [LockCode(rid), CountCode(rid)];
    }
  }

  lemma TakesCodeLock(site: Site, w: World, rid: RequestId, slot: Slot, offer: Offer)
    requires offer.coupon in site.couponCap && offer.coupon !in w.couponLock
    ensures var v := Counting(w, rid, slot, true, Unredeemed(offer));
            && Enabled(site, v, LockCode(rid))
            && Apply(site, v, LockCode(rid)) == Counting(w, rid, slot, true, RowLocked(offer))
  {
  }

  lemma CountsCode(site: Site, w: World, rid: RequestId, slot: Slot, offer: Offer)
    requires UnderCap(site, w.db, offer.coupon)
    ensures var v := Counting(w, rid, slot, true, RowLocked(offer));
            && Enabled(site, v, CountCode(rid))
            && Apply(site, v, CountCode(rid)) == Counting(w, rid, slot, true, UnderItsCap(offer))
  {
  }

  lemma HoldCommits(site: Site, w: World, rid: RequestId, slot: Slot, terms: HoldTerms) returns (steps: seq<Step>)
    requires rid !in w.requests && slot.salon !in w.salonLock && slot.customer !in w.customerLock
    requires ValidTerms(terms) && CodeFree(w, terms)
    ensures var v := Counting(w, rid, slot, true, CodeSettled(site, terms));
            Possible(site, v, steps) && After(site, v, steps) == w.(db := HoldPlaced(w.db, w.now, slot, terms))
  {
    var code := CodeSettled(site, terms);
    var r := Placing(ToHold(slot), true, true, true, true, true, code);
    assert w.customerLock[slot.customer := rid] - {slot.customer} == w.customerLock;
    if LocksRow(code) {
      assert w.couponLock[code.offer.coupon := rid] - {code.offer.coupon} == w.couponLock;
    }
    steps := CommitsAndUnlocks(site, w, Counting(w, rid, slot, true, code), rid, HoldInput(terms), r, slot.salon,
                               HoldPlaced(w.db, w.now, slot, terms));
  }

  lemma StartedHolds(site: Site, w: World, rid: RequestId, slot: Slot, terms: HoldTerms) returns (steps: seq<Step>)
    requires rid !in w.requests && slot.salon !in w.salonLock && slot.customer !in w.customerLock
    requires ValidTerms(terms) && CodeFree(w, terms) && CodeOpen(site, w.db, slot.customer, terms)
    requires WithinLimits(site, w.db, slot, w.now)
    requires RoomOpen(site, w.db, ToHold(slot)) && WorkerOpen(site, w.db, ToHold(slot))
    ensures var v := w.(requests := w.requests[rid := Started(ToHold(slot))]);
            Possible(site, v, steps) && After(site, v, steps) == w.(db := HoldPlaced(w.db, w.now, slot, terms))
  {
    var i := ToHold(slot);
    var v := w.(requests := w.requests[rid := Started(i)]);
    var checks := ChecksPass(site, v, rid, i);
    assert WithLocked(v, rid, Checked(i), slot.salon) == WithLocked(w, rid, Checked(i), slot.salon);
    var rest := HoldCountsAndCommits(site, w, rid, slot, terms);
    RunThen(site, v, checks, rest);
    steps := checks + rest;
  }

  lemma Holds(site: Site, w: World, rid: RequestId, slot: Slot, terms: HoldTerms) returns (steps: seq<Step>)
    requires rid !in w.requests && rid !in w.salonLock.Values && slot.salon !in w.salonLock && slot.customer !in w.customerLock
    requires slot.startsAt > w.now && ValidTerms(terms) && CodeFree(w, terms) && CodeOpen(site, w.db, slot.customer, terms)
    requires WithinLimits(site, w.db, slot, w.now)
    requires RoomOpen(site, w.db, ToHold(slot)) && WorkerOpen(site, w.db, ToHold(slot))
    ensures Possible(site, w, steps)
    ensures After(site, w, steps) == w.(db := HoldPlaced(w.db, w.now, slot, terms))
  {
    var start := Begin(rid, Started(ToHold(slot)));
    var rest := StartedHolds(site, w, rid, slot, terms);
    StepThen(site, w, start, rest);
    steps := [start] + rest;
  }

  // ----- what the services accept

  // What the service accepts on quiet tables is a run of the step system, ending in the same rows.
  lemma AcceptedHoldIsARun(site: Site, w: World, rid: RequestId, slot: Slot, terms: HoldTerms, code: Code)
    returns (steps: seq<Step>)
    requires w.requests == map[] && w.salonLock == map[] && w.customerLock == map[] && w.couponLock == map[]
    requires slot.startsAt > w.now && ValidTerms(WithCode(terms, code))
    requires HoldRefusal(site, w.db, w.now, slot, code, Fit).None?
    ensures Possible(site, w, steps)
    ensures After(site, w, steps) == w.(db := Run(w.db, PlaceHold(w.now, slot, WithCode(terms, code))))
  {
    steps := Holds(site, w, rid, slot, WithCode(terms, code));
  }

  lemma AcceptedEntryIsARun(site: Site, w: World, rid: RequestId, slot: Slot, price: nat, windowHours: int)
    returns (steps: seq<Step>)
    requires w.requests == map[] && w.salonLock == map[] && slot.startsAt > w.now
    requires PlaceRefusal(site, w.db, slot, Fit).None?
    ensures Possible(site, w, steps)
    ensures After(site, w, steps) == w.(db := Run(w.db, EnterManual(w.now, slot, price, windowHours)))
  {
    steps := Enters(site, w, rid, slot, price, windowHours);
  }

  lemma AcceptedAssignmentIsARun(site: Site, w: World, rid: RequestId, salon: Salon, id: BookingId, worker: Worker)
    returns (steps: seq<Step>)
    requires w.requests == map[] && w.salonLock == map[]
    requires AssignRefusal(site, w.db, salon, id, worker, RowOf(w.db, salon, id), Fit).None?
    ensures Possible(site, w, steps)
    ensures After(site, w, steps) == w.(db := Run(w.db, Assign(id, w.db.bookings[id].status, worker)))
  {
    steps := Assigns(site, w, rid, id, worker);
  }

  lemma AcceptedMoveIsARun(site: Site, w: World, rid: RequestId, id: BookingId, byCustomer: bool, startsAt: int, endsAt: int)
    returns (steps: seq<Step>)
    requires w.requests == map[] && w.salonLock == map[] && Exists(w.db, id) && w.db.bookings[id].salon in site.capacity
    requires MoveRefusal(w.db.bookings[id], byCustomer, true, startsAt, w.now, true).None?
    requires var seen := w.db.bookings[id];
             RecheckRefusal(site, w.db, Claim(seen.salon, startsAt, endsAt, seen.worker, Some(id)), true).None?
    ensures Possible(site, w, steps)
    ensures After(site, w, steps) == w.(db := Run(w.db, Move(id, w.db.bookings[id].status, startsAt, endsAt)))
  {
    var i := ToMove(id, w.db.bookings[id], startsAt, endsAt, byCustomer);
    var rest := Moves(site, w, rid, i);
    StepThen(site, w, Begin(rid, Started(i)), rest);
    steps := [Begin(rid, Started(i))] + rest;
  }

  // ----- approving

  lemma AcceptedApprovalIsARun(site: Site, w: World, rid: RequestId, id: BookingId, online: bool, paymentTimeout: int)
    returns (steps: seq<Step>)
    requires w.requests == map[] && w.salonLock == map[] && Exists(w.db, id) && w.db.bookings[id].salon in site.capacity
    requires ApproveRefusal(w.db.bookings[id], w.now, true).None?
    requires var seen := w.db.bookings[id];
             RecheckRefusal(site, w.db, Claim(seen.salon, seen.startsAt, seen.endsAt, seen.worker, Some(id)), true).None?
    ensures Possible(site, w, steps)
    ensures var seen := w.db.bookings[id];
            After(site, w, steps) == w.(db := Run(w.db, Approve(id, w.now, seen.deposit, seen.stake, online, w.now + paymentTimeout)))
  {
    var i := ToApprove(id, w.db.bookings[id], w.now);
    var rest := StartedCommits(site, w, rid, i, ApproveInput(online, paymentTimeout),
                               Run(w.db, Approve(id, w.now, i.seen.deposit, i.seen.stake, online, w.now + paymentTimeout)));
    StepThen(site, w, Begin(rid, Started(i)), rest);
    steps := [Begin(rid, Started(i))] + rest;
  }

  // A request that no longer fits, for its room or for its worker, is expired instead.
  lemma LapsesAndUnlocks(site: Site, w: World, rid: RequestId, r: Request) returns (steps: seq<Step>)
    requires r.Placing? && r.intent.ToApprove? && rid !in w.requests && r.intent.seen.salon !in w.salonLock
    requires Enabled(site, WithLocked(w, rid, r, r.intent.seen.salon), CommitInvalid(rid))
    ensures var v := WithLocked(w, rid, r, r.intent.seen.salon);
            Possible(site, v, steps) && After(site, v, steps) == w.(db := Run(w.db, Invalidate(r.intent.id)))
  {
    var salon := r.intent.seen.salon;
    var v, w' := WithLocked(w, rid, r, salon), w.(db := Run(w.db, Invalidate(r.intent.id)));
    assert v.requests[rid := Unlocking(salon)] == w.requests[rid := Unlocking(salon)];
    Unlocks(site, w', rid, salon);
    StepThen(site, v, CommitInvalid(rid), [Unlock(rid)]);
    steps := [CommitInvalid(rid)] + [Unlock(rid)];
  }

  lemma ApprovalFindsNoWorker(site: Site, w: World, rid: RequestId, i: Intent) returns (steps: seq<Step>)
    requires i.ToApprove? && i.seen.worker.Some? && rid !in w.requests && i.seen.salon !in w.salonLock && RoomOpen(site, w.db, i)
    ensures var v := WithLocked(w, rid, Placing(i, true, false, false, false, false, NotAsked), i.seen.salon);
            Possible(site, v, steps) && After(site, v, steps) == w.(db := Run(w.db, Invalidate(i.id)))
  {
    var counted := Placing(i, true, true, false, false, false, NotAsked);
    var v := WithLocked(w, rid, Placing(i, true, false, false, false, false, NotAsked), i.seen.salon);
    RoomCountPasses(site, w, rid, i);
    var rest := LapsesAndUnlocks(site, w, rid, counted);
    StepThen(site, v, CountRoom(rid), rest);
    steps := [CountRoom(rid)] + rest;
  }

  lemma LockedApprovalLapses(site: Site, w: World, rid: RequestId, i: Intent, workerOk: bool) returns (steps: seq<Step>)
    requires i.ToApprove? && rid !in w.requests && i.seen.salon !in w.salonLock
    requires RecheckRefusal(site, w.db, ClaimOf(i), workerOk).Some?
    ensures var v := WithLocked(w, rid, Placing(i, true, false, false, false, false, NotAsked), i.seen.salon);
            Possible(site, v, steps) && After(site, v, steps) == w.(db := Run(w.db, Invalidate(i.id)))
  {
    if RoomOpen(site, w.db, i) {
      steps := ApprovalFindsNoWorker(site, w, rid, i);
    } else {
      steps := LapsesAndUnlocks(site, w, rid, Placing(i, true, false, false, false, false, NotAsked));
    }
  }

  lemma LapsedApprovalIsARun(site: Site, w: World, rid: RequestId, id: BookingId, workerOk: bool) returns (steps: seq<Step>)
    requires w.requests == map[] && w.salonLock == map[] && Exists(w.db, id) && w.db.bookings[id].salon in site.capacity
    requires ApproveRefusal(w.db.bookings[id], w.now, true).None?
    requires var seen := w.db.bookings[id];
             RecheckRefusal(site, w.db, Claim(seen.salon, seen.startsAt, seen.endsAt, seen.worker, Some(id)), workerOk).Some?
    ensures Possible(site, w, steps) && After(site, w, steps) == w.(db := Run(w.db, Invalidate(id)))
  {
    var i := ToApprove(id, w.db.bookings[id], w.now);
    var v := w.(requests := w.requests[rid := Started(i)]);
    var rest := LockedApprovalLapses(site, w, rid, i, workerOk);
    assert Apply(site, v, Lock(rid)) == WithLocked(w, rid, Placing(i, true, false, false, false, false, NotAsked), i.seen.salon);
    StepThen(site, v, Lock(rid), rest);
    StepThen(site, w, Begin(rid, Started(i)), [Lock(rid)] + rest);
    steps := [Begin(rid, Started(i))] + ([Lock(rid)] + rest);
  }
}
