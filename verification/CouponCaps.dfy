/**
 * A capped code is never redeemed on more bookings than its cap, at any mix of salons: what a hold
 * found of its code under the customer's lock and the code's row lock stands until it commits.
 */
module CouponCaps {
  import opened Options
  import opened Records
  import opened Transactions
  import opened Schedule
  import opened Protocol
  import opened Evolution
  import opened Requests
  import opened CapacitySafety
  import opened HoldRelease

  predicate WithinCap(site: Site, db: Tables, coupon: Coupon) {
    coupon in site.couponCap ==> |RedeemedOn(db, coupon)| <= site.couponCap[coupon]
  }

  lemma DroppingKeepsCap(site: Site, db: Tables, db': Tables, coupon: Coupon)
    requires WithinCap(site, db, coupon) && OnlyDrops(db, db')
    ensures WithinCap(site, db', coupon)
  {
    SubsetSize(RedeemedOn(db', coupon), RedeemedOn(db, coupon));
  }

  lemma HoldKeepsCap(site: Site, db: Tables, now: int, slot: Slot, terms: HoldTerms, coupon: Coupon)
    requires WithinCap(site, db, coupon) && CodeOpen(site, db, slot.customer, terms)
    ensures WithinCap(site, HoldPlaced(db, now, slot, terms), coupon)
  {
    HoldPlacedRow(db, now, slot, terms);
    var db' := HoldPlaced(db, now, slot, terms);
    if CouponApplied(terms) && terms.offer.value.coupon == coupon {
      SubsetSize(RedeemedOn(db', coupon), RedeemedOn(db, coupon) + {|db.bookings|});
    } else {
      SubsetSize(RedeemedOn(db', coupon), RedeemedOn(db, coupon));
    }
  }

  lemma RunDropsOnly(db: Tables, t: Txn)
    requires !t.PlaceHold?
    ensures OnlyDrops(db, Run(db, t))
  {
    match t
    case EnterManual(_, _, _, _) =>
    case ExpirePayments(ids, at, cutoff) => BatchDrops(db, ids, UnpaidBy(at, cutoff));
    case ExpireApprovals(ids, at) => BatchDrops(db, ids, UndecidedBy(at));
    case _ => RunDrops(db, t);
  }

  // ----- what a hold in flight may rely on

  // A code found unredeemed under the customer's lock, and its cap found open under its own.
  predicate CodeFact(site: Site, db: Tables, r: Request) {
    r.Placing? && r.intent.ToHold? && !r.code.NotAsked? ==>
      && !AlreadyRedeemed(db, r.code.offer.coupon, r.intent.slot.customer)
      && (r.code.UnderItsCap? ==> UnderCap(site, db, r.code.offer.coupon))
  }

  predicate CodesKept(site: Site, w: World) {
    forall rid :: rid in w.requests ==> CodeFact(site, w.db, w.requests[rid])
  }

  lemma DroppingKeepsFact(site: Site, db: Tables, db': Tables, r: Request)
    requires CodeFact(site, db, r) && OnlyDrops(db, db')
    ensures CodeFact(site, db', r)
  {
    if r.Placing? && r.intent.ToHold? && !r.code.NotAsked? {
      var coupon := r.code.offer.coupon;
      SubsetSize(RedeemedOn(db', coupon), RedeemedOn(db, coupon));
    }
  }

  // The one redemption a hold may write.
  predicate AddsAtMost(db: Tables, db': Tables, x: Redemption) {
    forall id :: id in db'.redemptions ==>
      (id in db.redemptions && db'.redemptions[id] == db.redemptions[id]) || db'.redemptions[id] == x
  }

  lemma AddingKeepsFact(site: Site, db: Tables, db': Tables, r: Request, x: Redemption)
    requires CodeFact(site, db, r) && AddsAtMost(db, db', x)
    requires r.Placing? && r.intent.ToHold? && !r.code.NotAsked? ==> x.customer != r.intent.slot.customer
    requires r.Placing? && r.code.UnderItsCap? ==> x.coupon != r.code.offer.coupon || x.coupon !in site.couponCap
    ensures CodeFact(site, db', r)
  {
    if r.Placing? && r.intent.ToHold? && !r.code.NotAsked? {
      var coupon := r.code.offer.coupon;
      if x.coupon != coupon {
        SubsetSize(RedeemedOn(db', coupon), RedeemedOn(db, coupon));
      }
    }
  }

  // ----- one step

  // Whoever redeems for a customer holds his lock, and whoever redeems a capped code holds its row.
  lemma RedeemersExclude(site: Site, w: World, rid: RequestId, late: Late, other: RequestId)
    requires Sound(w) && IsPlacing(w, rid) && w.requests[rid].intent.ToHold? && rid != other && other in w.requests
    requires CanCommit(site, w, w.requests[rid], late) && late.terms.offer.Some?
    ensures var r := w.requests[other];
            var coupon := late.terms.offer.value.coupon;
            && (r.Placing? && r.intent.ToHold? && !r.code.NotAsked? ==> w.requests[rid].intent.slot.customer != r.intent.slot.customer)
            && (r.Placing? && r.code.UnderItsCap? ==> coupon != r.code.offer.coupon || coupon !in site.couponCap)
  {
    assert SoundRequest(w.db, w.requests[rid]) && HoldsLocks(w, rid, w.requests[rid]);
    assert SoundRequest(w.db, w.requests[other]) && HoldsLocks(w, other, w.requests[other]);
  }

  lemma HoldKeepsFact(site: Site, w: World, rid: RequestId, late: Late, other: RequestId)
    requires Sound(w) && IsPlacing(w, rid) && w.requests[rid].intent.ToHold? && rid != other && other in w.requests
    requires CanCommit(site, w, w.requests[rid], late) && CodeFact(site, w.db, w.requests[other])
    ensures CodeFact(site, HoldPlaced(w.db, w.now, w.requests[rid].intent.slot, late.terms), w.requests[other])
  {
    var slot := w.requests[rid].intent.slot;
    var db' := HoldPlaced(w.db, w.now, slot, late.terms);
    HoldPlacedRow(w.db, w.now, slot, late.terms);
    if CouponApplied(late.terms) {
      RedeemersExclude(site, w, rid, late, other);
      AddingKeepsFact(site, w.db, db', w.requests[other], Redemption(late.terms.offer.value.coupon, slot.customer));
    } else {
      DroppingKeepsFact(site, w.db, db', w.requests[other]);
    }
  }

  lemma OthersKeepFact(site: Site, w: World, step: Step, other: RequestId)
    requires Sound(w) && Enabled(site, w, step) && Actor(step) != Some(other) && other in w.requests
    requires CodeFact(site, w.db, w.requests[other])
    ensures CodeFact(site, Apply(site, w, step).db, w.requests[other])
  {
    DbChangesByTxn(site, w, step);
    var t := Commits(site, w, step);
    if t.Some? && t.value.PlaceHold? {
      HoldKeepsFact(site, w, step.rid, step.late, other);
    } else if t.Some? {
      RunDropsOnly(w.db, t.value);
      DroppingKeepsFact(site, w.db, Run(w.db, t.value), w.requests[other]);
    }
  }

  predicate FactAt(site: Site, w: World, rid: RequestId) {
    rid in w.requests ==> CodeFact(site, w.db, w.requests[rid])
  }

  lemma AdvancedHasFact(site: Site, w: World, step: Step)
    requires Advances(step) && Enabled(site, w, step) && FactAt(site, w, step.rid)
    ensures CodeFact(site, w.db, Advanced(site, w, step))
  {
  }

  lemma ActorHasFact(site: Site, w: World, step: Step)
    requires CodesKept(site, w) && Enabled(site, w, step) && Actor(step).Some?
    ensures FactAt(site, Apply(site, w, step), Actor(step).value)
  {
    assert FactAt(site, w, step.rid);
    if Advances(step) {
      AdvancedHasFact(site, w, step);
    } else if !step.Begin? {
      LeaverIsNotPlacing(site, w, step);
    }
  }

  lemma StepKeepsCodes(site: Site, w: World, step: Step)
    requires Sound(w) && CodesKept(site, w) && Enabled(site, w, step)
    ensures CodesKept(site, Apply(site, w, step))
  {
    var w' := Apply(site, w, step);
    forall rid | rid in w'.requests
      ensures CodeFact(site, w'.db, w'.requests[rid])
    {
      if Actor(step) == Some(rid) {
        ActorHasFact(site, w, step);
      } else {
        OthersWait(site, w, step, rid);
        OthersKeepFact(site, w, step, rid);
      }
    }
  }

  // So the code a hold commits with is still open on the rows it writes over.
  lemma CommitFindsCodeOpen(site: Site, w: World, rid: RequestId, late: Late)
    requires Sound(w) && CodesKept(site, w) && IsPlacing(w, rid) && w.requests[rid].intent.ToHold?
    requires CanCommit(site, w, w.requests[rid], late)
    ensures CodeOpen(site, w.db, w.requests[rid].intent.slot.customer, late.terms)
  {
    assert CodeFact(site, w.db, w.requests[rid]);
  }

  lemma StepKeepsCap(site: Site, w: World, step: Step, coupon: Coupon)
    requires Sound(w) && CodesKept(site, w) && WithinCap(site, w.db, coupon) && Enabled(site, w, step)
    ensures WithinCap(site, Apply(site, w, step).db, coupon)
  {
    DbChangesByTxn(site, w, step);
    var t := Commits(site, w, step);
    if t.Some? && t.value.PlaceHold? {
      CommitFindsCodeOpen(site, w, step.rid, step.late);
      HoldKeepsCap(site, w.db, t.value.now, t.value.slot, t.value.terms, coupon);
    } else if t.Some? {
      RunDropsOnly(w.db, t.value);
      DroppingKeepsCap(site, w.db, Run(w.db, t.value), coupon);
    }
  }

  // ----- every run

  lemma {:induction false} CodesStand(site: Site, w: World, steps: seq<Step>)
    requires Sound(w) && CodesKept(site, w) && Possible(site, w, steps)
    ensures CodesKept(site, After(site, w, steps))
    decreases |steps|
  {
    if steps == [] {
    } else {
      StepStaysSound(site, w, steps[0]);
      StepKeepsCodes(site, w, steps[0]);
      CodesStand(site, Apply(site, w, steps[0]), steps[1..]);
    }
  }

  lemma {:induction false} CapKept(site: Site, w: World, steps: seq<Step>, coupon: Coupon)
    requires Sound(w) && CodesKept(site, w) && WithinCap(site, w.db, coupon) && Possible(site, w, steps)
    ensures WithinCap(site, After(site, w, steps).db, coupon)
    decreases |steps|
  {
    if steps == [] {
    } else {
      StepStaysSound(site, w, steps[0]);
      StepKeepsCodes(site, w, steps[0]);
      StepKeepsCap(site, w, steps[0], coupon);
      CapKept(site, Apply(site, w, steps[0]), steps[1..], coupon);
    }
  }

  // Holds at unrelated salons share no salon lock and, of two customers, no customer lock either;
  // the code's row lock, taken before the count and kept to the commit, is what holds the cap.
  lemma CouponsStayWithinCaps(site: Site, w: World, steps: seq<Step>, coupon: Coupon)
    requires Init(w) && Possible(site, w, steps) && coupon in site.couponCap
    ensures |RedeemedOn(After(site, w, steps).db, coupon)| <= site.couponCap[coupon]
  {
    assert RedeemedOn(w.db, coupon) == {};
    CapKept(site, w, steps, coupon);
  }
}
