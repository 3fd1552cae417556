/**
 * Four runs that reach what the code does not rule out: a worker in two places at once, a session
 * minted for a payment already written off, a paid booking stripped of its hold, and, once a lease
 * has lapsed, a booking confirmed on a payment that was written off.
 */
module Scenarios {
  import opened Options
  import opened Pricing
  import opened Records
  import opened Transactions
  import opened Schedule
  import opened Protocol
  import opened Runs
  import opened WholeRequests
  import opened WorkerSafety
  import opened LateSessions
  import opened DeclinedHolds
  import opened Evolution
  import opened LapsedLease

  // ----- a worker in two places

  const PARLOUR := Site(map[0 := 2], map[0 := 0, 1 := 0], 5, 5, map[])

  function EmptyWorld(now: int): World {
    World(Tables([], map[], map[], [], map[], []), now, map[], map[], map[], map[], {})
  }

  function Appointment(customer: Customer, startsAt: int, worker: Worker): Slot {
    Slot(customer, 0, startsAt, startsAt + 10, Some(worker))
  }

  // Two workers, one appointment each, at different times.
  lemma TwoAppointments() returns (steps: seq<Step>)
    ensures Possible(PARLOUR, EmptyWorld(0), steps)
    ensures After(PARLOUR, EmptyWorld(0), steps) == EmptyWorld(0).(db := EmptyWorld(0).db.(bookings :=
              [ManualBooking(0, Appointment(0, 10, 0), 0, 0), ManualBooking(0, Appointment(1, 30, 1), 0, 0)]))
  {
    var w := EmptyWorld(0);
    var first, second := Appointment(0, 10, 0), Appointment(1, 30, 1);
    assert SalonBusy(w.db, 0, 10, 20, None) == {} && WorkerBusy(w.db, 0, 10, 20, None) == {};
    steps := Enters(PARLOUR, w, 0, first, 0, 0);
    var w' := After(PARLOUR, w, steps);
    assert SalonBusy(w'.db, 0, 30, 40, None) == {} && WorkerBusy(w'.db, 1, 30, 40, None) == {};
    var rest := Enters(PARLOUR, w', 0, second, 0, 0);
    RunThen(PARLOUR, w, steps, rest);
    steps := steps + rest;
  }

  // The first booking is given to the other worker while a move that read its old worker waits
  // for the salon lock; the move then checks the wrong worker and double-books the right one.
  lemma MoveWithStaleWorkerDoubleBooks() returns (steps: seq<Step>)
    ensures Init(EmptyWorld(0)) && Possible(PARLOUR, EmptyWorld(0), steps)
    ensures !WorkerExclusive(After(PARLOUR, EmptyWorld(0), steps).db)
  {
    var w := EmptyWorld(0);
    steps := TwoAppointments();
    var booked := After(PARLOUR, w, steps);
    var b, other := booked.db.bookings[0], booked.db.bookings[1];
    var move := ToMove(0, b, 30, 40, true);
    var waiting := Apply(PARLOUR, booked, Begin(0, Started(move)));
    ThenStep(PARLOUR, w, steps, Begin(0, Started(move)));
    steps := steps + [Begin(0, Started(move))];
    assert WorkerBusy(waiting.db, 1, 10, 20, Some(0)) == {};
    var assign := Assigns(PARLOUR, waiting, 1, 0, 1);
    RunThen(PARLOUR, w, steps, assign);
    steps := steps + assign;
    var given := booked.(db := booked.db.(bookings := [b.(worker := Some(1)), other]));
    assert After(PARLOUR, w, steps) == given.(requests := given.requests[0 := Started(move)]);
    var finish := MovesOntoOther(given, b, other, move);
    RunThen(PARLOUR, w, steps, finish);
    steps := steps + finish;
  }

  // The move checks the worker it had read, who is free, and puts the new one there twice.
  lemma MovesOntoOther(w: World, b: Booking, other: Booking, move: Intent) returns (steps: seq<Step>)
    requires b == ManualBooking(0, Appointment(0, 10, 0), 0, 0) && other == ManualBooking(0, Appointment(1, 30, 1), 0, 0)
    requires move == ToMove(0, b, 30, 40, true) && w.db.bookings == [b.(worker := Some(1)), other]
    requires w.requests == map[] && w.salonLock == map[]
    ensures Possible(PARLOUR, w.(requests := w.requests[0 := Started(move)]), steps)
    ensures !WorkerExclusive(After(PARLOUR, w.(requests := w.requests[0 := Started(move)]), steps).db)
  {
    assert SalonBusy(w.db, 0, 30, 40, Some(0)) == {1} && WorkerBusy(w.db, 0, 30, 40, Some(0)) == {};
    steps := Moves(PARLOUR, w, 0, move);
    var end := After(PARLOUR, w.(requests := w.requests[0 := Started(move)]), steps).db;
    assert end.bookings == [b.(worker := Some(1), startsAt := 30, endsAt := 40), other];
    assert end.bookings[0].worker == end.bookings[1].worker;
  }

  // ----- a session for a payment written off

  // A deposit of 30 on a price of 100, to be paid within half an hour.
  const DEPOSIT_TERMS := HoldTerms(100, None, None, 30, 0, false, true, false, 600_000, 1_800_000, 24)

  // A session is asked for just before the deadline and still on its way when the
  // reconciliation job, finding none in the ledger, writes the payment off.
  lemma WritesOffWhileMinting(w: World) returns (steps: seq<Step>)
    requires Stale(w, 0) && w.db.payments[0].authority.None? && w.db.payments[0].sessions == []
    requires 2 !in w.requests && w.salonLock == map[] && NoReconciliation(w)
    ensures Possible(PARLOUR, w, steps)
    ensures var w' := After(PARLOUR, w, steps);
            && w'.db == PaymentSet(w.db, 0, Failed)
            && forall rid :: rid in w.requests ==> rid in w'.requests && w'.requests[rid] == w.requests[rid]
  {
    var start := Begin(2, Reconciling([0], None));
    var started := Apply(PARLOUR, w, start);
    assert started == w.(requests := w.requests[2 := Reconciling([0], None)]) && started.requests[2].queue[0] == 0;
    var rest := LoadsAndRetires(started);
    StepThen(PARLOUR, w, start, rest);
    steps := [start] + rest;
  }

  lemma LoadsAndRetires(w: World) returns (steps: seq<Step>)
    requires 2 in w.requests && w.requests[2] == Reconciling([0], None)
    requires PaymentIs(w.db, 0, Initiated) && w.db.payments[0].authority.None? && w.db.payments[0].sessions == []
    ensures Possible(PARLOUR, w, steps)
    ensures var w' := After(PARLOUR, w, steps);
            && w'.db == PaymentSet(w.db, 0, Failed)
            && forall rid :: rid in w.requests && rid != 2 ==> rid in w'.requests && w'.requests[rid] == w.requests[rid]
  {
    var loaded := w.(requests := w.requests[2 := Reconciling([0], Some([]))]);
    assert Apply(PARLOUR, w, Load(2)) == loaded;
    var retire := Commit(2, NoInput);
    RetireStep(loaded);
    StepThen(PARLOUR, loaded, retire, []);
    StepThen(PARLOUR, w, Load(2), [retire] + []);
    steps := [Load(2)] + ([retire] + []);
  }

  lemma RetireStep(w: World)
    requires 2 in w.requests && w.requests[2] == Reconciling([0], Some([]))
    requires PaymentIs(w.db, 0, Initiated) && w.db.payments[0].authority.None?
    ensures var retire := Commit(2, NoInput);
            && Enabled(PARLOUR, w, retire)
            && var w' := Apply(PARLOUR, w, retire);
            && w'.db == PaymentSet(w.db, 0, Failed)
            && forall rid :: rid in w.requests && rid != 2 ==> rid in w'.requests && w'.requests[rid] == w.requests[rid]
  {
    assert CommitDb(PARLOUR, w, 2, NoInput) == PaymentSet(w.db, 0, Failed);
    DbChangesByTxn(PARLOUR, w, Commit(2, NoInput));
  }

  lemma DepositIsThirty()
    ensures HoldPrice(DEPOSIT_TERMS) == Resolved(100, None) && HoldDeposit(DEPOSIT_TERMS) == 30
  {
    var offers: seq<Option<Discount>> := [None, None];
    BestIsBest(100, offers, Resolved(100, None));
  }

  lemma DepositHeld(db: Tables, now: int, slot: Slot, t: HoldTerms)
    requires db.bookings == [] && db.payments == map[] && !CouponApplied(t) && !t.applyWallet && t.online && !t.manualApproval
    requires HoldDeposit(t) > 0
    ensures var db' := HoldPlaced(db, now, slot, t);
            && Is(db', 0, PendingPayment) && db'.bookings[0].paymentDeadline == Some(now + t.paymentTimeout)
            && db'.payments == map[0 := NewPayment(HoldDeposit(t), now)]
  {
  }

  // What the tables hold once that hold is placed.
  lemma DepositAwaited(now: int, slot: Slot)
    ensures var db := HoldPlaced(EmptyWorld(0).db, now, slot, DEPOSIT_TERMS);
            && Is(db, 0, PendingPayment) && db.bookings[0].paymentDeadline == Some(now + 1_800_000)
            && db.payments == map[0 := NewPayment(30, now)]
  {
    DepositIsThirty();
    DepositHeld(EmptyWorld(0).db, now, slot, DEPOSIT_TERMS);
  }

  // A session is being asked for when the deadline passes.
  lemma DeadlinePasses(w: World) returns (steps: seq<Step>)
    requires w.now == 0 && w.requests == map[] && w.salonLock == map[] && 0 in w.db.payments
    ensures Possible(PARLOUR, w, steps)
    ensures After(PARLOUR, w, steps) == w.(now := 1_801_000, requests := map[1 := Minting(0)])
  {
    StepThen(PARLOUR, w.(now := 1_799_000, requests := map[1 := Minting(0)]), Tick(2_000), []);
    StepThen(PARLOUR, w.(now := 1_799_000), Begin(1, Minting(0)), [Tick(2_000)] + []);
    StepThen(PARLOUR, w, Tick(1_799_000), [Begin(1, Minting(0))] + ([Tick(2_000)] + []));
    steps := [Tick(1_799_000)] + ([Begin(1, Minting(0))] + ([Tick(2_000)] + []));
  }

  const DEPOSIT_SLOT := Slot(0, 0, 100_000_000, 100_000_010, None)

  lemma DepositIsBooked() returns (steps: seq<Step>)
    ensures Possible(PARLOUR, EmptyWorld(0), steps)
    ensures After(PARLOUR, EmptyWorld(0), steps) == EmptyWorld(0).(db := HoldPlaced(EmptyWorld(0).db, 0, DEPOSIT_SLOT, DEPOSIT_TERMS))
  {
    var db := EmptyWorld(0).db;
    assert SalonBusy(db, 0, DEPOSIT_SLOT.startsAt, DEPOSIT_SLOT.endsAt, None) == {};
    assert CustomerBusy(db, 0, DEPOSIT_SLOT.startsAt, DEPOSIT_SLOT.endsAt) == {};
    assert ActiveOf(db, 0, 0) == {} && ActiveAtSalon(db, 0, 0, 0) == {};
    steps := Holds(PARLOUR, EmptyWorld(0), 0, DEPOSIT_SLOT, DEPOSIT_TERMS);
  }

  lemma WritesOffPastDeadline(w: World) returns (steps: seq<Step>)
    requires w.now == 0 && w.requests == map[] && w.salonLock == map[] && w.db.payments == map[0 := NewPayment(30, 0)]
    requires Is(w.db, 0, PendingPayment) && w.db.bookings[0].paymentDeadline == Some(1_800_000)
    ensures Possible(PARLOUR, w, steps)
    ensures var w' := After(PARLOUR, w, steps);
            Enabled(PARLOUR, w', Commit(1, SessionInput(7))) && MintsLate(w', Commit(1, SessionInput(7)))
  {
    steps := DeadlinePasses(w);
    var writeOff := WritesOffWhileMinting(After(PARLOUR, w, steps));
    RunThen(PARLOUR, w, steps, writeOff);
    steps := steps + writeOff;
  }

  lemma LateSessionIsReachable() returns (steps: seq<Step>, late: Step)
    ensures Init(EmptyWorld(0)) && Possible(PARLOUR, EmptyWorld(0), steps)
    ensures var w' := After(PARLOUR, EmptyWorld(0), steps); Enabled(PARLOUR, w', late) && MintsLate(w', late)
  {
    steps := DepositIsBooked();
    DepositAwaited(0, DEPOSIT_SLOT);
    var rest := WritesOffPastDeadline(After(PARLOUR, EmptyWorld(0), steps));
    RunThen(PARLOUR, EmptyWorld(0), steps, rest);
    steps := steps + rest;
    late := Commit(1, SessionInput(7));
  }

  // ----- a confirmed booking that loses its stake and its coupon

  // The same deposit, a tenth off with a code, and a wallet that pays its part.
  const WALLET_TERMS := HoldTerms(100, None, Some(Offer(0, Percent(10))), 30, 0, true, true, false, 600_000, 1_800_000, 24)

  function WorldWithWallet(balance: nat): World {
    EmptyWorld(0).(db := EmptyWorld(0).db.(balances := map[0 := balance]))
  }

  // A wallet of ten pays ten of the twenty-seven and the code is spent.
  lemma StakeAndCouponAwaitPayment()
    ensures var db := HoldPlaced(WorldWithWallet(10).db, 0, DEPOSIT_SLOT, WALLET_TERMS);
            && Is(db, 0, PendingPayment) && db.payments == map[0 := NewPayment(17, 0)]
            && db.bookings[0].stake == 10 && 0 in db.redemptions
  {
    var offers: seq<Option<Discount>> := [None, Some(Percent(10))];
    BestIsBest(100, offers, Resolved(90, Some(1)));
    assert HoldDeposit(WALLET_TERMS) == 27;
  }

  lemma StakeIsBooked() returns (steps: seq<Step>)
    ensures Possible(PARLOUR, WorldWithWallet(10), steps)
    ensures After(PARLOUR, WorldWithWallet(10), steps) ==
              WorldWithWallet(10).(db := HoldPlaced(WorldWithWallet(10).db, 0, DEPOSIT_SLOT, WALLET_TERMS))
  {
    var db := WorldWithWallet(10).db;
    assert SalonBusy(db, 0, DEPOSIT_SLOT.startsAt, DEPOSIT_SLOT.endsAt, None) == {};
    assert CustomerBusy(db, 0, DEPOSIT_SLOT.startsAt, DEPOSIT_SLOT.endsAt) == {};
    assert ActiveOf(db, 0, 0) == {} && ActiveAtSalon(db, 0, 0, 0) == {};
    steps := Holds(PARLOUR, WorldWithWallet(10), 0, DEPOSIT_SLOT, WALLET_TERMS);
  }

  // One session is minted for a payment, undisturbed.
  lemma Mints(w: World, rid: RequestId, id: BookingId, session: Session) returns (steps: seq<Step>)
    requires id in w.db.payments && FreshSession(w.db, session) && rid !in w.requests && rid !in w.salonLock.Values
    ensures Possible(PARLOUR, w, steps)
    ensures After(PARLOUR, w, steps) == w.(db := Minted(w.db, id, session))
  {
    var start, mint := Begin(rid, Minting(id)), Commit(rid, SessionInput(session));
    var started := Apply(PARLOUR, w, start);
    assert CommitDb(PARLOUR, started, rid, SessionInput(session)) == Minted(w.db, id, session);
    assert w.requests[rid := Minting(id)] - {rid} == w.requests;
    StepThen(PARLOUR, started, mint, []);
    StepThen(PARLOUR, w, start, [mint] + []);
    steps := [start] + ([mint] + []);
  }

  // The hold's own session and a retry's: both may still be paid.
  lemma MintsTwice(w: World) returns (steps: seq<Step>)
    requires w.db.payments == map[0 := NewPayment(17, 0)] && w.requests == map[] && w.salonLock == map[]
    ensures Possible(PARLOUR, w, steps) && After(PARLOUR, w, steps) == w.(db := Minted(Minted(w.db, 0, 1), 0, 2))
  {
    steps := Mints(w, 1, 0, 1);
    var second := Mints(w.(db := Minted(w.db, 0, 1)), 1, 0, 2);
    RunThen(PARLOUR, w, steps, second);
    steps := steps + second;
  }

  predicate AwaitsPayment(w: World, sessions: seq<Session>) {
    && Is(w.db, 0, PendingPayment) && w.db.bookings[0].stake == 10 && 0 in w.db.redemptions
    && PaymentIs(w.db, 0, Initiated) && w.db.payments[0].sessions == sessions
    && w.requests == map[] && w.salonLock == map[]
  }

  lemma MintsTwiceWaiting(w: World)
    requires AwaitsPayment(w, [])
    ensures AwaitsPayment(w.(db := Minted(Minted(w.db, 0, 1), 0, 2)), [1, 2])
  {
  }

  lemma StakeIsHeld() returns (steps: seq<Step>)
    ensures Possible(PARLOUR, WorldWithWallet(10), steps) && AwaitsPayment(After(PARLOUR, WorldWithWallet(10), steps), [])
    ensures After(PARLOUR, WorldWithWallet(10), steps).db.payments == map[0 := NewPayment(17, 0)]
  {
    steps := StakeIsBooked();
    StakeAndCouponAwaitPayment();
  }

  lemma TwoSessionsOpen() returns (steps: seq<Step>)
    ensures Init(WorldWithWallet(10)) && Possible(PARLOUR, WorldWithWallet(10), steps)
    ensures AwaitsPayment(After(PARLOUR, WorldWithWallet(10), steps), [1, 2])
  {
    steps := StakeIsHeld();
    MintsTwiceWaiting(After(PARLOUR, WorldWithWallet(10), steps));
    var rest := MintsTwice(After(PARLOUR, WorldWithWallet(10), steps));
    RunThen(PARLOUR, WorldWithWallet(10), steps, rest);
    steps := steps + rest;
  }

  // From the empty tables: the second session pays, the first comes back declined after it, and
  // the confirmed, paid booking has lost its wallet stake and its coupon.
  lemma ConfirmedBookingLosesHold() returns (before: seq<Step>, steps: seq<Step>)
    ensures Init(WorldWithWallet(10)) && Possible(PARLOUR, WorldWithWallet(10), before + steps)
    ensures Possible(PARLOUR, WorldWithWallet(10), before)
    ensures var held := After(PARLOUR, WorldWithWallet(10), before).db;
            Is(held, 0, PendingPayment) && held.bookings[0].stake == 10 && 0 in held.redemptions
    ensures var db := After(PARLOUR, WorldWithWallet(10), before + steps).db;
            Is(db, 0, Confirmed) && PaymentIs(db, 0, Paid) && db.bookings[0].stake == 0 && 0 !in db.redemptions
  {
    before := TwoSessionsOpen();
    var w := After(PARLOUR, WorldWithWallet(10), before);
    assert 1 in w.db.payments[0].sessions && 2 in w.db.payments[0].sessions;
    steps := LateDeclineStrips(PARLOUR, w, 0, 2, 1, 1, 2);
    RunThen(PARLOUR, WorldWithWallet(10), before, steps);
  }

  // ----- a booking confirmed on a payment that was written off

  // One reconciliation run has selected the payment when its lease lapses; a second selects it too
  // and retires it, having found no session; the session on its way arrives, and the first run, only
  // now loading, finds it paid.
  lemma MintsThenCaptures(w: World) returns (steps: seq<Step>)
    requires 1 in w.requests && w.requests[1] == Minting(0) && 3 in w.requests && w.requests[3] == Reconciling([0], None)
    requires Is(w.db, 0, PendingPayment) && PaymentIs(w.db, 0, Failed) && w.db.payments[0].sessions == [] && FreshSession(w.db, 7)
    ensures Possible(PARLOUR, w, steps)
    ensures Is(After(PARLOUR, w, steps).db, 0, Confirmed) && PaymentIs(After(PARLOUR, w, steps).db, 0, Failed)
  {
    var mint := Commit(1, SessionInput(7));
    var minted := Apply(PARLOUR, w, mint);
    DbChangesByTxn(PARLOUR, w, mint);
    assert CommitDb(PARLOUR, w, 1, SessionInput(7)) == Minted(w.db, 0, 7);
    assert minted.db.payments[0].sessions == [7];
    var rest := LoadsAndCaptures(minted);
    StepThen(PARLOUR, w, mint, rest);
    steps := [mint] + rest;
  }

  lemma LoadsAndCaptures(w: World) returns (steps: seq<Step>)
    requires 3 in w.requests && w.requests[3] == Reconciling([0], None)
    requires Is(w.db, 0, PendingPayment) && PaymentIs(w.db, 0, Failed) && w.db.payments[0].sessions == [7]
    ensures Possible(PARLOUR, w, steps)
    ensures Is(After(PARLOUR, w, steps).db, 0, Confirmed) && PaymentIs(After(PARLOUR, w, steps).db, 0, Failed)
  {
    var loaded := w.(requests := w.requests[3 := Reconciling([0], Some([7]))]);
    assert Apply(PARLOUR, w, Load(3)) == loaded;
    var capture := Commit(3, Verified(7));
    CapturesForFailed(loaded);
    StepThen(PARLOUR, loaded, capture, []);
    StepThen(PARLOUR, w, Load(3), [capture] + []);
    steps := [Load(3)] + ([capture] + []);
  }

  lemma CapturesForFailed(w: World)
    requires 3 in w.requests && w.requests[3] == Reconciling([0], Some([7]))
    requires Is(w.db, 0, PendingPayment) && PaymentIs(w.db, 0, Failed)
    ensures var capture := Commit(3, Verified(7));
            && Enabled(PARLOUR, w, capture)
            && Is(Apply(PARLOUR, w, capture).db, 0, Confirmed) && PaymentIs(Apply(PARLOUR, w, capture).db, 0, Failed)
  {
    DbChangesByTxn(PARLOUR, w, Commit(3, Verified(7)));
    CapturedRow(w.db, 0, 7);
  }

  lemma DeadlinePassesThenSelects(w: World) returns (steps: seq<Step>)
    requires w.now == 0 && w.requests == map[] && w.salonLock == map[] && w.db.payments == map[0 := NewPayment(30, 0)]
    requires Is(w.db, 0, PendingPayment) && w.db.bookings[0].paymentDeadline == Some(1_800_000)
    ensures Possible(PARLOUR, w, steps)
    ensures var w' := After(PARLOUR, w, steps);
            && w'.requests == map[1 := Minting(0), 3 := Reconciling([0], None)] && w'.salonLock == map[]
            && Stale(w', 0) && Is(w'.db, 0, PendingPayment) && w'.db.payments == w.db.payments
  {
    steps := DeadlinePasses(w);
    var select := Begin(3, Reconciling([0], None));
    ThenStep(PARLOUR, w, steps, select);
    steps := steps + [select];
  }

  // The first run selects the payment while a session is on its way and the deadline is past.
  lemma FirstRunSelects() returns (steps: seq<Step>)
    ensures Init(EmptyWorld(0)) && Possible(PARLOUR, EmptyWorld(0), steps)
    ensures var w := After(PARLOUR, EmptyWorld(0), steps);
            && w.requests == map[1 := Minting(0), 3 := Reconciling([0], None)] && w.salonLock == map[]
            && Stale(w, 0) && Is(w.db, 0, PendingPayment) && w.db.payments == map[0 := NewPayment(30, 0)]
  {
    steps := DepositIsBooked();
    DepositAwaited(0, DEPOSIT_SLOT);
    var rest := DeadlinePassesThenSelects(After(PARLOUR, EmptyWorld(0), steps));
    RunThen(PARLOUR, EmptyWorld(0), steps, rest);
    steps := steps + rest;
  }

  lemma LapsedLeaseBreaksCoupling() returns (before: seq<Step>, lapse: Move, steps: seq<Step>)
    ensures Init(EmptyWorld(0)) && Possible(PARLOUR, EmptyWorld(0), before)
    ensures var w := After(PARLOUR, EmptyWorld(0), before);
            && lapse.Lapse? && CanMove(PARLOUR, w, lapse)
            && var w' := Moved(PARLOUR, w, lapse);
            && Possible(PARLOUR, w', steps)
            && Is(After(PARLOUR, w', steps).db, 0, Confirmed) && PaymentIs(After(PARLOUR, w', steps).db, 0, Failed)
  {
    before := FirstRunSelects();
    var w := After(PARLOUR, EmptyWorld(0), before);
    lapse := Lapse(2, [0]);
    var w' := Moved(PARLOUR, w, lapse);
    steps := LoadsAndRetires(w');
    var rest := MintsThenCaptures(After(PARLOUR, w', steps));
    RunThen(PARLOUR, w', steps, rest);
    steps := steps + rest;
  }
}
