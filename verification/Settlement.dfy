/** What a salon is told it still collects always completes the price, in every reachable state. */
module Settlement {
  import opened Options
  import opened Pricing
  import opened Records
  import opened Transactions
  import opened Schedule
  import opened Protocol
  import opened Evolution
  import opened Requests

  // attachNamesForSalon's money fields; amountDue is None where the price is only a quote.
  datatype SalonMoney = SalonMoney(depositPaid: bool, prepaid: int, amountDue: Option<int>)

  function MoneyFor(db: Tables, id: BookingId, fixedPrice: bool): SalonMoney
    requires Exists(db, id)
  {
    var b := db.bookings[id];
    var depositPaid := PaymentIs(db, id, Paid) || PaymentIs(db, id, RefundPending) || PaymentIs(db, id, Refunded);
    var prepaid := if PaymentIs(db, id, Paid) then db.payments[id].amount else 0;
    SalonMoney(
      depositPaid,
      prepaid,
      if !fixedPrice then None
      else if b.status == NoShow || Dead(b.status) then Some(0)
      else Some(Max(0, b.price - prepaid - b.stake)))
  }

  // The gateway's share and the wallet's share of the deposit together stay within the price.
  predicate Affordable(b: Booking) {
    0 <= b.deposit && b.deposit + b.stake <= b.price
  }

  predicate MoneyFits(db: Tables) {
    && (forall id: BookingId :: id < |db.bookings| ==> Affordable(db.bookings[id]))
    && (forall id :: id in db.payments ==>
          Exists(db, id) && db.payments[id].amount == db.bookings[id].deposit && db.payments[id].amount > 0)
  }

  // ----- one transaction

  // What createHold and approve bring with them: valid discounts, and the booking's own deposit.
  predicate Priced(db: Tables, t: Txn) {
    match t
    case PlaceHold(_, _, terms) => ValidTerms(terms)
    case EnterManual(_, _, price, _) => price >= 0
    case Approve(id, _, seenDeposit, _, _, _) => Exists(db, id) ==> seenDeposit == db.bookings[id].deposit
    case _ => true
  }

  // The wallet pays its part of the deposit and the gateway the rest, never more than the price.
  lemma HoldSplitsDeposit(db: Tables, now: int, slot: Slot, terms: HoldTerms)
    requires ValidTerms(terms)
    ensures var b := HeldBooking(db, now, slot, terms);
            && b.deposit + b.stake == HoldDeposit(terms) <= b.price <= terms.listPrice
            && b.stake <= Balance(db, slot.customer) && Affordable(b)
            && (b.stake > 0 ==> terms.online && terms.applyWallet)
            && (b.status == PendingPayment ==> b.deposit > 0 && terms.online && !terms.manualApproval)
  {
    BestStaysNonNegative(
      terms.listPrice,
      [terms.serviceDiscount, if terms.offer.Some? then Some(terms.offer.value.discount) else None]);
  }

  lemma TargetPaymentPriced(db: Tables, t: Txn)
    requires TouchesOneRow(t) && Priced(db, t)
    requires t.id in db.payments ==>
               db.payments[t.id].amount > 0 && Exists(db, t.id) && db.payments[t.id].amount == db.bookings[t.id].deposit
    ensures var p := Run(db, t).payments;
            t.id in p ==> Exists(db, t.id) && p[t.id].amount > 0 && p[t.id].amount == db.bookings[t.id].deposit
  {
    match t
    case Approve(id, now, deposit, stake, online, deadline) =>
      if Is(db, id, PendingApproval) { ApprovedRow(db, id, now, deposit, stake, online, deadline); }
    case Cancel(id, seen, byOwner, refund) =>
      if Is(db, id, seen) { CancelledRow(db, id, seen, byOwner, refund); }
    case AdminCancel(id, seen) =>
      if Is(db, id, seen) { AdminCancelledRow(db, id, seen); }
    case Decline(id, seenStake) => DeclinedRow(db, id, seenStake);
    case _ =>
  }

  lemma CreationFits(db: Tables, t: Txn)
    requires (t.PlaceHold? || t.EnterManual?) && Priced(db, t) && MoneyFits(db)
    ensures MoneyFits(Run(db, t))
  {
    if t.PlaceHold? {
      HoldPlacedRow(db, t.now, t.slot, t.terms);
      HoldSplitsDeposit(db, t.now, t.slot, t.terms);
    }
  }

  lemma RunKeepsMoneyFits(db: Tables, t: Txn)
    requires Legal(t) && Priced(db, t) && MoneyFits(db)
    ensures MoneyFits(Run(db, t))
  {
    var db' := Run(db, t);
    if t.PlaceHold? || t.EnterManual? {
      CreationFits(db, t);
    } else {
      RunRowCount(db, t);
      RunEvolves(db, t);
      forall id: BookingId | id < |db'.bookings|
        ensures Affordable(db'.bookings[id])
      {
        assert Evolves(db.bookings[id], db'.bookings[id]) && Affordable(db.bookings[id]);
      }
      if TouchesOneRow(t) {
        RunWritesPayment(db, t);
        TargetPaymentPriced(db, t);
      } else if t.ExpirePayments? {
        BatchRows(db, t.ids, UnpaidBy(t.at, t.cutoff));
      } else {
        BatchRows(db, t.ids, UndecidedBy(t.at));
      }
      forall id | id in db'.payments
        ensures Exists(db', id) && db'.payments[id].amount == db'.bookings[id].deposit && db'.payments[id].amount > 0
      {
        assert id < |db.bookings| ==> Evolves(db.bookings[id], db'.bookings[id]);
      }
    }
  }

  // ----- every run

  lemma StepKeepsMoneyFits(site: Site, w: World, step: Step)
    requires Sound(w) && MoneyFits(w.db) && Enabled(site, w, step)
    ensures MoneyFits(Apply(site, w, step).db)
  {
    DbChangesByTxn(site, w, step);
    CommitIsLegal(site, w, step);
    var t := Commits(site, w, step);
    if t.Some? {
      if step.Commit? {
        assert SoundRequest(w.db, w.requests[step.rid]);
      }
      RunKeepsMoneyFits(w.db, t.value);
    }
  }

  lemma {:induction false} MoneyFitsThroughout(site: Site, w: World, steps: seq<Step>)
    requires Sound(w) && MoneyFits(w.db) && Possible(site, w, steps)
    ensures MoneyFits(After(site, w, steps).db)
    decreases |steps|
  {
    if steps == [] {
    } else {
      StepStaysSound(site, w, steps[0]);
      StepKeepsMoneyFits(site, w, steps[0]);
      MoneyFitsThroughout(site, Apply(site, w, steps[0]), steps[1..]);
    }
  }

  // The clamp at zero never bites: for a live or completed fixed-price booking the captured
  // deposit, the wallet's part and what is left to collect are exactly the price.
  lemma AmountsAddUp(site: Site, w: World, steps: seq<Step>, id: BookingId)
    requires Init(w) && Possible(site, w, steps) && Exists(After(site, w, steps).db, id)
    ensures var db := After(site, w, steps).db;
            var b := db.bookings[id];
            var m := MoneyFor(db, id, true);
            && m.amountDue.Some? && m.prepaid + b.stake <= b.price
            && (SlotBlocking(b.status) || b.status == Completed ==> m.prepaid + b.stake + m.amountDue.value == b.price)
            && (m.prepaid > 0 ==> m.depositPaid && m.prepaid == b.deposit)
            && (b.status == NoShow || Dead(b.status) ==> m.amountDue.value == 0)
            && (m.depositPaid <==> id in db.payments && db.payments[id].status != Initiated && db.payments[id].status != Failed)
            && MoneyFor(db, id, false) == m.(amountDue := None)
  {
    MoneyFitsThroughout(site, w, steps);
    var db := After(site, w, steps).db;
    assert Affordable(db.bookings[id]);
  }

  // ----- coupons

  // A redemption is written only when the code beat both the list price and the service's own
  // discount, and it is this booking's.
  lemma RedeemsOnlyForALowerPrice(db: Tables, now: int, slot: Slot, terms: HoldTerms)
    requires forall id :: id in db.redemptions ==> Exists(db, id)
    ensures var db' := HoldPlaced(db, now, slot, terms);
            |db.bookings| in db'.redemptions ==>
              && terms.offer.Some? && Exists(db', |db.bookings|)
              && var price := db'.bookings[|db.bookings|].price;
              && db'.redemptions[|db.bookings|] == Redemption(terms.offer.value.coupon, slot.customer)
              && price == Discounted(terms.listPrice, terms.offer.value.discount) < terms.listPrice
              && (terms.serviceDiscount.Some? ==> price < Discounted(terms.listPrice, terms.serviceDiscount.value))
  {
    HoldPlacedRow(db, now, slot, terms);
    var candidates := [terms.serviceDiscount, if terms.offer.Some? then Some(terms.offer.value.discount) else None];
    CouponWinsOnlyIfCheaper(terms.listPrice, candidates[0], candidates[1]);
    BestMeetsIsBest(terms.listPrice, candidates);
  }
}
