/**
 * A decline gives the hold back whichever way its two status guards went. The callback and the
 * reconciliation job both do so, and either may have read the payment before another session
 * captured it: then a confirmed booking loses its wallet stake and its coupon redemption. This is
 * exactly when.
 */
module DeclinedHolds {
  import opened Options
  import opened Records
  import opened Transactions
  import opened Schedule
  import opened Protocol
  import opened Evolution
  import opened Requests
  import opened HoldRelease
  import opened Runs

  predicate KeepsHold(db: Tables, db': Tables, id: BookingId) {
    && Exists(db, id) && Exists(db', id) && db'.bookings[id].stake == db.bookings[id].stake
    && (id in db.redemptions <==> id in db'.redemptions)
  }

  // A decline that finds something to take: a stake that is what it read, or a redemption.
  predicate Strips(db: Tables, t: Txn, id: BookingId) {
    && t.Decline? && t.id == id && Exists(db, id)
    && ((t.seenStake > 0 && db.bookings[id].stake == t.seenStake) || id in db.redemptions)
  }

  // ----- one transaction

  lemma {:induction false} BatchKeepsRedemption(db: Tables, ids: seq<BookingId>, due: Due, id: BookingId)
    requires Exists(db, id) && db.bookings[id].status != ExpiresFrom(due)
    ensures KeepsHold(db, BatchExpired(db, ids, due), id)
  {
    BatchRows(db, ids, due);
    if ids == [] {
    } else {
      var init, last := ids[..|ids| - 1], ids[|ids| - 1];
      BatchKeepsRedemption(db, init, due, id);
      BatchRows(db, init, due);
      var rest := BatchExpired(db, init, due);
      if Is(rest, last, ExpiresFrom(due)) {
        EndedRow(rest, last, ExpiresFrom(due), Expired);
      }
    }
  }

  // A cancellation that wins its guard leaves the booking dead; one that loses it writes nothing.
  lemma CancelKeepsHoldOrEnds(db: Tables, t: Txn)
    requires (t.Cancel? || t.AdminCancel?) && Is(db, t.id, Confirmed)
    ensures Is(Run(db, t), t.id, Confirmed) ==> KeepsHold(db, Run(db, t), t.id)
  {
    match t
    case Cancel(id, seen, byOwner, refund) =>
      if Is(db, id, seen) { CancelledRow(db, id, seen, byOwner, refund); }
    case AdminCancel(id, seen) =>
      if Is(db, id, seen) { AdminCancelledRow(db, id, seen); }
  }

  lemma TargetKeepsHoldIff(db: Tables, t: Txn)
    requires TouchesOneRow(t) && Legal(t) && Is(db, t.id, Confirmed)
    ensures Is(Run(db, t), t.id, Confirmed) ==> (KeepsHold(db, Run(db, t), t.id) <==> !Strips(db, t, t.id))
  {
    if t.Cancel? || t.AdminCancel? {
      CancelKeepsHoldOrEnds(db, t);
    } else if t.Decline? {
      DeclinedRow(db, t.id, t.seenStake);
    }
  }

  // A booking that is confirmed before and after a transaction keeps its stake and its redemption
  // if and only if the transaction is not a decline of it that finds one of them.
  lemma ConfirmedKeepsHoldIff(db: Tables, t: Txn, id: BookingId)
    requires Legal(t) && Is(db, id, Confirmed)
    ensures Is(Run(db, t), id, Confirmed) ==> (KeepsHold(db, Run(db, t), id) <==> !Strips(db, t, id))
  {
    match t
    case PlaceHold(now, slot, terms) => HoldPlacedRow(db, now, slot, terms);
    case EnterManual(_, _, _, _) =>
    case ExpirePayments(ids, at, cutoff) => BatchKeepsRedemption(db, ids, UnpaidBy(at, cutoff), id);
    case ExpireApprovals(ids, at) => BatchKeepsRedemption(db, ids, UndecidedBy(at), id);
    case _ =>
      if t.id == id {
        TargetKeepsHoldIff(db, t);
      } else {
        RunWritesRow(db, t);
        RunDrops(db, t);
      }
  }

  // What was given back is never taken again.
  predicate HoldOnlyShrinks(db: Tables, db': Tables, id: BookingId) {
    && Exists(db, id) && Exists(db', id)
    && (db'.bookings[id].stake == db.bookings[id].stake || db'.bookings[id].stake == 0)
    && (id in db'.redemptions ==> id in db.redemptions)
  }

  lemma RunOnlyShrinksHold(db: Tables, t: Txn, id: BookingId)
    requires Legal(t) && Exists(db, id)
    ensures HoldOnlyShrinks(db, Run(db, t), id)
  {
    RunEvolves(db, t);
    assert Evolves(db.bookings[id], Run(db, t).bookings[id]);
    match t
    case PlaceHold(now, slot, terms) => HoldPlacedRow(db, now, slot, terms);
    case EnterManual(_, _, _, _) =>
    case ExpirePayments(ids, at, cutoff) => BatchDrops(db, ids, UnpaidBy(at, cutoff));
    case ExpireApprovals(ids, at) => BatchDrops(db, ids, UndecidedBy(at));
    case _ => RunDrops(db, t);
  }

  // ----- one step

  predicate StepStrips(site: Site, w: World, step: Step, id: BookingId)
    requires Enabled(site, w, step)
  {
    Is(w.db, id, Confirmed) && Commits(site, w, step).Some? && Strips(w.db, Commits(site, w, step).value, id)
  }

  lemma StepKeepsHoldIff(site: Site, w: World, step: Step, id: BookingId)
    requires Sound(w) && Enabled(site, w, step) && Is(w.db, id, Confirmed)
    ensures HoldOnlyShrinks(w.db, Apply(site, w, step).db, id)
    ensures Is(Apply(site, w, step).db, id, Confirmed) ==>
              (KeepsHold(w.db, Apply(site, w, step).db, id) <==> !StepStrips(site, w, step, id))
  {
    DbChangesByTxn(site, w, step);
    CommitIsLegal(site, w, step);
    var t := Commits(site, w, step);
    if t.Some? {
      ConfirmedKeepsHoldIff(w.db, t.value, id);
      RunOnlyShrinksHold(w.db, t.value, id);
    }
  }

  // ----- every run

  predicate NeverStripped(site: Site, w: World, steps: seq<Step>, id: BookingId)
    requires Possible(site, w, steps)
    decreases |steps|
  {
    steps == [] || (!StepStrips(site, w, steps[0], id) && NeverStripped(site, Apply(site, w, steps[0]), steps[1..], id))
  }

  // Confirmed is entered once: what has left it, or ended otherwise, does not come back.
  lemma {:induction false} EndedForGood(site: Site, w: World, steps: seq<Step>, id: BookingId)
    requires Sound(w) && Possible(site, w, steps) && Exists(w.db, id) && !SlotBlocking(w.db.bookings[id].status)
    ensures !Is(After(site, w, steps).db, id, Confirmed)
    decreases |steps|
  {
    if steps == [] {
    } else {
      StepStaysSound(site, w, steps[0]);
      StepEvolves(site, w, steps[0]);
      assert Evolves(w.db.bookings[id], Apply(site, w, steps[0]).db.bookings[id]);
      EndedForGood(site, Apply(site, w, steps[0]), steps[1..], id);
    }
  }

  lemma {:induction false} LostForGood(site: Site, w: World, steps: seq<Step>, id: BookingId)
    requires Sound(w) && Possible(site, w, steps) && Exists(w.db, id)
    ensures HoldOnlyShrinks(w.db, After(site, w, steps).db, id)
    decreases |steps|
  {
    if steps == [] {
    } else {
      StepStaysSound(site, w, steps[0]);
      DbChangesByTxn(site, w, steps[0]);
      CommitIsLegal(site, w, steps[0]);
      if Commits(site, w, steps[0]).Some? {
        RunOnlyShrinksHold(w.db, Commits(site, w, steps[0]).value, id);
      }
      LostForGood(site, Apply(site, w, steps[0]), steps[1..], id);
    }
  }

  // Over any stretch of a run that a booking is confirmed at both ends of, it keeps its stake and
  // its redemption if and only if no decline on the way strips it.
  lemma {:induction false} HoldSurvivesIff(site: Site, w: World, steps: seq<Step>, id: BookingId)
    requires Sound(w) && Possible(site, w, steps) && Is(w.db, id, Confirmed)
    ensures Is(After(site, w, steps).db, id, Confirmed) ==>
              (KeepsHold(w.db, After(site, w, steps).db, id) <==> NeverStripped(site, w, steps, id))
    decreases |steps|
  {
    if steps == [] {
    } else {
      var w' := Apply(site, w, steps[0]);
      StepStaysSound(site, w, steps[0]);
      StepEvolves(site, w, steps[0]);
      StepKeepsHoldIff(site, w, steps[0], id);
      LostForGood(site, w', steps[1..], id);
      if Is(w'.db, id, Confirmed) {
        HoldSurvivesIff(site, w', steps[1..], id);
      } else {
        assert Evolves(w.db.bookings[id], w'.db.bookings[id]);
        EndedForGood(site, w', steps[1..], id);
      }
    }
  }

  // ----- how it happens

  function WithCalls(w: World, id: BookingId, paying: Session, declined: Session, payer: RequestId, decliner: RequestId): World {
    w.(requests := w.requests[payer := CallingBack(id, paying, false)][decliner := CallingBack(id, declined, false)])
  }

  lemma BothCallBack(site: Site, w: World, id: BookingId, paying: Session, declined: Session, payer: RequestId, decliner: RequestId)
    returns (steps: seq<Step>)
    requires PaymentIs(w.db, id, Initiated) && paying in w.db.payments[id].sessions && declined in w.db.payments[id].sessions
    requires payer != decliner && payer !in w.requests && decliner !in w.requests
    requires payer !in w.salonLock.Values && decliner !in w.salonLock.Values
    ensures Possible(site, w, steps) && After(site, w, steps) == WithCalls(w, id, paying, declined, payer, decliner)
  {
    var first := Begin(payer, CallingBack(id, paying, false));
    var second := Begin(decliner, CallingBack(id, declined, false));
    ThenStep(site, w, [], first);
    assert [] + [first] == [first];
    ThenStep(site, w, [first], second);
    steps := [first] + [second];
  }

  lemma DeclineCommits(site: Site, w: World, id: BookingId, declined: Session, decliner: RequestId, stake: nat)
    returns (steps: seq<Step>)
    requires decliner in w.requests && w.requests[decliner] == CallingBack(id, declined, false)
    ensures Possible(site, w, steps) && After(site, w, steps).db == Run(w.db, Decline(id, stake))
  {
    var refuse := Commit(decliner, NotVerified(stake));
    DbChangesByTxn(site, w, refuse);
    StepThen(site, w, refuse, []);
    steps := [refuse] + [];
  }

  // The paying session is recorded first, the declined one after it.
  lemma CaptureThenDecline(site: Site, w: World, id: BookingId, paying: Session, declined: Session, payer: RequestId, decliner: RequestId)
    returns (steps: seq<Step>)
    requires Is(w.db, id, PendingPayment) && PaymentIs(w.db, id, Initiated) && payer != decliner
    ensures var v := WithCalls(w, id, paying, declined, payer, decliner);
            && Possible(site, v, steps)
            && After(site, v, steps).db == Run(Run(w.db, Capture(id, paying)), Decline(id, w.db.bookings[id].stake))
  {
    var v := WithCalls(w, id, paying, declined, payer, decliner);
    var pay := Commit(payer, Verified(paying));
    DbChangesByTxn(site, v, pay);
    var rest := DeclineCommits(site, Apply(site, v, pay), id, declined, decliner, w.db.bookings[id].stake);
    StepThen(site, v, pay, rest);
    steps := [pay] + rest;
  }

  lemma DeclineAfterCapture(db: Tables, id: BookingId, paying: Session)
    requires Is(db, id, PendingPayment) && PaymentIs(db, id, Initiated)
    ensures var db' := Run(Run(db, Capture(id, paying)), Decline(id, db.bookings[id].stake));
            && Is(db', id, Confirmed) && PaymentIs(db', id, Paid) && db'.bookings[id].stake == 0 && id !in db'.redemptions
  {
    CapturedRow(db, id, paying);
    DeclinedRow(Run(db, Capture(id, paying)), id, db.bookings[id].stake);
  }

  // From any state in which a booking waits for payment with two sessions open: both return
  // having read the payment as initiated, the one that paid commits first, and the one that was
  // declined leaves a confirmed, paid booking with neither stake nor redemption.
  lemma LateDeclineStrips(site: Site, w: World, id: BookingId, paying: Session, declined: Session, payer: RequestId, decliner: RequestId)
    returns (steps: seq<Step>)
    requires Is(w.db, id, PendingPayment) && PaymentIs(w.db, id, Initiated)
    requires paying in w.db.payments[id].sessions && declined in w.db.payments[id].sessions
    requires payer != decliner && payer !in w.requests && decliner !in w.requests
    requires payer !in w.salonLock.Values && decliner !in w.salonLock.Values
    ensures Possible(site, w, steps)
    ensures var db := After(site, w, steps).db;
            Is(db, id, Confirmed) && PaymentIs(db, id, Paid) && db.bookings[id].stake == 0 && id !in db.redemptions
  {
    var calls := BothCallBack(site, w, id, paying, declined, payer, decliner);
    var commits := CaptureThenDecline(site, w, id, paying, declined, payer, decliner);
    RunThen(site, w, calls, commits);
    DeclineAfterCapture(w.db, id, paying);
    steps := calls + commits;
  }
}
