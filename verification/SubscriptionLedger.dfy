/**
 * Billing periods and coupon redemptions of salon subscriptions: subscription-billing.service.ts.
 * Salons bill and resolve concurrently; a capped coupon's row lock, a unique index and a
 * guarded status update keep the redemption ledger in step with the periods.
 */
module SubscriptionLedger {
  import opened Options
  import opened Pricing

  type SalonId = nat
  type CouponId = nat
  type PeriodId = nat
  type RequestId = nat

  datatype PeriodStatus = Pending | PaidUp | Comped | Void

  datatype Period = Period(
    salon: SalonId,
    from: int,
    until: int,
    base: int,
    discountPercent: Option<int>,
    amount: int,
    coupon: Option<CouponId>,
    status: PeriodStatus)

  datatype Redeemed = Redeemed(coupon: CouponId, salon: SalonId, period: PeriodId)

  datatype Ledger = Ledger(periods: seq<Period>, redeemed: set<Redeemed>)

  // A coupon's discount, and its cap if it has one.
  datatype CouponTerms = CouponTerms(percent: int, maxRedemptions: Option<nat>)

  function Uses(l: Ledger, c: CouponId): set<Redeemed> {
    set r | r in l.redeemed && r.coupon == c
  }

  predicate UsedBy(l: Ledger, c: CouponId, salon: SalonId) {
    exists r :: r in l.redeemed && r.coupon == c && r.salon == salon
  }

  // ----- the two transactions

  // The amount is the base less the coupon's percentage, to the nearest whole toman.
  function NewPeriod(salon: SalonId, from: int, until: int, base: int, offer: Option<(CouponId, CouponTerms)>): (p: Period)
    ensures offer.None? ==> p.amount == base
    ensures offer.Some? ==> 200 * p.amount - 100 <= 2 * (base * (100 - offer.value.1.percent)) < 200 * p.amount + 100
  {
    Period(
      salon, from, until, base,
      if offer.Some? then Some(offer.value.1.percent) else None,
      if offer.Some? then PercentOf(base, 100 - offer.value.1.percent) else base,
      if offer.Some? then Some(offer.value.0) else None,
      Pending)
  }

  // UNIQUE(coupon_id, salon_id) rolls the whole insert back.
  function Billed(l: Ledger, p: Period): Ledger {
    if p.coupon.Some? && UsedBy(l, p.coupon.value, p.salon) then l
    else
      Ledger(l.periods + [p],
             if p.coupon.Some? then l.redeemed + {Redeemed(p.coupon.value, p.salon, |l.periods|)} else l.redeemed)
  }

  function Settled(l: Ledger, id: PeriodId, salon: SalonId, to: PeriodStatus): Ledger {
    if id < |l.periods| && l.periods[id].salon == salon && l.periods[id].status == Pending then
      Ledger(l.periods[id := l.periods[id].(status := to)],
             if to == Void && l.periods[id].coupon.Some? then set r | r in l.redeemed && r.period != id else l.redeemed)
    else l
  }

  datatype BillingError = EmptyPeriod | NotActive | InvalidCoupon | CouponExpired | AlreadyUsed | CapReached | NotFound | AlreadySettled

  // A row of subscription_coupons, and the row a code names if there is one.
  datatype CouponRow = CouponRow(id: CouponId, active: bool, expiresAt: Option<int>, terms: CouponTerms)
  datatype Code = NoCode | Unknown | Naming(row: CouponRow)

  function Offered(code: Code): Option<(CouponId, CouponTerms)> {
    if code.Naming? then Some((code.row.id, code.row.terms)) else None
  }

  function CodeRefusal(l: Ledger, code: Code, salon: SalonId, now: int): Option<BillingError> {
    match code
    case NoCode => None
    case Unknown => Some(InvalidCoupon)
    case Naming(row) =>
      if !row.active then Some(InvalidCoupon)
      else if row.expiresAt.Some? && row.expiresAt.value < now then Some(CouponExpired)
      else if UsedBy(l, row.id, salon) then Some(AlreadyUsed)
      else if row.terms.maxRedemptions.Some? && |Uses(l, row.id)| >= row.terms.maxRedemptions.value then Some(CapReached)
      else None
  }

  // A code is refused for the first of four reasons: no active row, expired, used by this salon, spent.
  lemma CodeObjections(l: Ledger, code: Code, salon: SalonId, now: int)
    ensures var refusal := CodeRefusal(l, code, salon, now);
            var known := code.Naming? && code.row.active;
            var expired := known && code.row.expiresAt.Some? && code.row.expiresAt.value < now;
            var used := known && exists r :: r in l.redeemed && r.coupon == code.row.id && r.salon == salon;
            var spent := known && code.row.terms.maxRedemptions.Some?
                         && |set r | r in l.redeemed && r.coupon == code.row.id| >= code.row.terms.maxRedemptions.value;
            && (refusal == Some(InvalidCoupon) <==> !code.NoCode? && !known)
            && (refusal == Some(CouponExpired) <==> expired)
            && (refusal == Some(AlreadyUsed) <==> used && !expired)
            && (refusal == Some(CapReached) <==> spent && !used && !expired)
            && (refusal == None <==> code.NoCode? || (known && !expired && !used && !spent))
  {
    if code.Naming? {
      assert Uses(l, code.row.id) == set r | r in l.redeemed && r.coupon == code.row.id;
    }
  }

  // The same as statements on the tables, one caller at a time.
  class BillingTables {
    var periods: seq<Period>
    var redeemed: set<Redeemed>

    constructor ()
      ensures View() == Ledger([], {})
    {
      periods, redeemed := [], {};
    }

    function View(): Ledger
      reads this
    {
      Ledger(periods, redeemed)
    }

    method CreatePeriod(salon: SalonId, from: int, until: int, base: int, active: bool, code: Code, now: int)
      returns (r: Result<PeriodId, BillingError>)
      modifies this
      ensures r == if until <= from then Failure(EmptyPeriod)
                   else if !active then Failure(NotActive)
                   else match CodeRefusal(old(View()), code, salon, now)
                     case Some(e) => Failure(e)
                     case None => Success(|old(periods)|)
      ensures View() == if r.Success?
                        then Billed(old(View()), NewPeriod(salon, from, until, base, Offered(code)))
                        else old(View())
      ensures r.Success? ==>
                && |periods| == |old(periods)| + 1 && periods[..|old(periods)|] == old(periods)
                && var p := periods[|old(periods)|];
                && p.salon == salon && p.from == from && p.until == until && p.base == base && p.status == Pending
                && p.coupon == (if code.Naming? then Some(code.row.id) else None)
                && p.discountPercent == (if code.Naming? then Some(code.row.terms.percent) else None)
                && (if code.Naming? then 200 * p.amount - 100 <= 2 * (base * (100 - code.row.terms.percent)) < 200 * p.amount + 100
                    else p.amount == base)
                && redeemed == old(redeemed) + if code.Naming? then {Redeemed(code.row.id, salon, |old(periods)|)} else {}
    {
      if until <= from { return Failure(EmptyPeriod); }
      if !active { return Failure(NotActive); }
      var offer: Option<(CouponId, CouponTerms)> := None;
      match code {
        case NoCode =>
        case Unknown => return Failure(InvalidCoupon);
        case Naming(row) =>
          if !row.active { return Failure(InvalidCoupon); }
          if row.expiresAt.Some? && row.expiresAt.value < now { return Failure(CouponExpired); }
          if UsedBy(View(), row.id, salon) { return Failure(AlreadyUsed); }
          if row.terms.maxRedemptions.Some? && |Uses(View(), row.id)| >= row.terms.maxRedemptions.value { return Failure(CapReached); }
          offer := Some((row.id, row.terms));
      }
      var id := |periods|;
      periods := periods + [NewPeriod(salon, from, until, base, offer)];
      if offer.Some? {
        redeemed := redeemed + {Redeemed(offer.value.0, salon, id)};
      }
      return Success(id);
    }

    method SetStatus(salon: SalonId, id: PeriodId, to: PeriodStatus) returns (refusal: Option<BillingError>)
      requires to != Pending
      modifies this
      ensures refusal == if id >= |old(periods)| || old(periods)[id].salon != salon then Some(NotFound)
                         else if old(periods)[id].status != Pending then Some(AlreadySettled) else None
      ensures View() == Settled(old(View()), id, salon, to)
      ensures refusal.None? ==>
                && periods == old(periods)[id := old(periods)[id].(status := to)]
                && redeemed == set r | r in old(redeemed) && !(to == Void && r.period == id && old(periods)[id].coupon.Some?)
    {
      if id >= |periods| || periods[id].salon != salon { return Some(NotFound); }
      if periods[id].status != Pending { return Some(AlreadySettled); }
      periods := periods[id := periods[id].(status := to)];
      if to == Void && periods[id].coupon.Some? {
        redeemed := set r | r in redeemed && r.period != id;
      }
      return None;
    }
  }

  // ----- the step system

  datatype Request =
    | Creating(period: Period, unusedSeen: bool, locked: bool, counted: bool)
    | Resolving(id: PeriodId, salon: SalonId, to: PeriodStatus)

  datatype World = World(ledger: Ledger, requests: map<RequestId, Request>, couponLock: map<CouponId, RequestId>)

  datatype Step =
    | Begin(rid: RequestId, request: Request)
    | SeeUnused(rid: RequestId)
    | LockCoupon(rid: RequestId)
    | CountCap(rid: RequestId)
    | Commit(rid: RequestId)
    | Abort(rid: RequestId)

  predicate Capped(coupons: map<CouponId, CouponTerms>, c: CouponId) {
    c in coupons && coupons[c].maxRedemptions.Some?
  }

  // What createPeriod makes of its input and the coupon it looked up.
  predicate WellPriced(coupons: map<CouponId, CouponTerms>, p: Period) {
    && p.from < p.until && p.status == Pending
    && (p.coupon.Some? ==> p.coupon.value in coupons)
    && p == NewPeriod(p.salon, p.from, p.until, p.base, if p.coupon.Some? then Some((p.coupon.value, coupons[p.coupon.value])) else None)
  }

  predicate IsCreating(w: World, rid: RequestId) {
    rid in w.requests && w.requests[rid].Creating?
  }

  predicate Enabled(coupons: map<CouponId, CouponTerms>, w: World, step: Step) {
    match step
    case Begin(rid, Creating(p, unusedSeen, locked, counted)) =>
      rid !in w.requests && rid !in w.couponLock.Values && WellPriced(coupons, p) && !unusedSeen && !locked && !counted
    case Begin(rid, Resolving(id, salon, to)) =>
      rid !in w.requests && rid !in w.couponLock.Values && to != Pending && id < |w.ledger.periods| && w.ledger.periods[id].salon == salon
    case SeeUnused(rid) =>
      && IsCreating(w, rid) && w.requests[rid].period.coupon.Some?
      && !UsedBy(w.ledger, w.requests[rid].period.coupon.value, w.requests[rid].period.salon)
    case LockCoupon(rid) =>
      && IsCreating(w, rid) && w.requests[rid].unusedSeen && !w.requests[rid].locked && w.requests[rid].period.coupon.Some?
      && Capped(coupons, w.requests[rid].period.coupon.value) && w.requests[rid].period.coupon.value !in w.couponLock
    case CountCap(rid) =>
      && IsCreating(w, rid) && w.requests[rid].locked && w.requests[rid].period.coupon.Some?
      && var c := w.requests[rid].period.coupon.value;
      && Capped(coupons, c) && |Uses(w.ledger, c)| < coupons[c].maxRedemptions.value
    case Commit(rid) =>
      && rid in w.requests
      && (w.requests[rid].Creating? && w.requests[rid].period.coupon.Some? ==>
            w.requests[rid].unusedSeen && (Capped(coupons, w.requests[rid].period.coupon.value) ==> w.requests[rid].counted))
    case Abort(rid) => rid in w.requests
  }

  function WithoutLock(w: World, rid: RequestId): World
    requires rid in w.requests
  {
    var r := w.requests[rid];
    w.(requests := w.requests - {rid},
       couponLock := if r.Creating? && r.locked && r.period.coupon.Some? then w.couponLock - {r.period.coupon.value} else w.couponLock)
  }

  function Outcome(l: Ledger, r: Request): Ledger {
    match r
    case Creating(p, _, _, _) => Billed(l, p)
    case Resolving(id, salon, to) => Settled(l, id, salon, to)
  }

  function Apply(coupons: map<CouponId, CouponTerms>, w: World, step: Step): World
    requires Enabled(coupons, w, step)
  {
    match step
    case Begin(rid, r) => w.(requests := w.requests[rid := r])
    case SeeUnused(rid) => w.(requests := w.requests[rid := w.requests[rid].(unusedSeen := true)])
    case LockCoupon(rid) =>
      w.(requests := w.requests[rid := w.requests[rid].(locked := true)],
         couponLock := w.couponLock[w.requests[rid].period.coupon.value := rid])
    case CountCap(rid) => w.(requests := w.requests[rid := w.requests[rid].(counted := true)])
    case Commit(rid) => WithoutLock(w, rid).(ledger := Outcome(w.ledger, w.requests[rid]))
    case Abort(rid) => WithoutLock(w, rid)
  }

  predicate Init(w: World) {
    w == World(Ledger([], {}), map[], map[])
  }

  predicate Possible(coupons: map<CouponId, CouponTerms>, w: World, steps: seq<Step>)
    decreases |steps|
  {
    steps == [] || (Enabled(coupons, w, steps[0]) && Possible(coupons, Apply(coupons, w, steps[0]), steps[1..]))
  }

  function After(coupons: map<CouponId, CouponTerms>, w: World, steps: seq<Step>): World
    requires Possible(coupons, w, steps)
    decreases |steps|
  {
    if steps == [] then w else After(coupons, Apply(coupons, w, steps[0]), steps[1..])
  }

  // ----- a request that nobody disturbs

  lemma OneStep(coupons: map<CouponId, CouponTerms>, w: World, step: Step)
    requires Enabled(coupons, w, step)
    ensures Possible(coupons, w, [step]) && After(coupons, w, [step]) == Apply(coupons, w, step)
  {
    assert [step][1..] == [];
  }

  lemma StepThen(coupons: map<CouponId, CouponTerms>, w: World, step: Step, rest: seq<Step>)
    requires Enabled(coupons, w, step) && Possible(coupons, Apply(coupons, w, step), rest)
    ensures Possible(coupons, w, [step] + rest)
    ensures After(coupons, w, [step] + rest) == After(coupons, Apply(coupons, w, step), rest)
  {
    assert ([step] + rest)[1..] == rest;
  }

  lemma CheckedPeriodCommits(coupons: map<CouponId, CouponTerms>, w: World, rid: RequestId, r: Request) returns (steps: seq<Step>)
    requires rid !in w.requests && r.Creating? && !r.locked && !r.counted
    requires r.period.coupon.Some? ==>
               && r.unusedSeen && r.period.coupon.value !in w.couponLock
               && (Capped(coupons, r.period.coupon.value) ==>
                     |Uses(w.ledger, r.period.coupon.value)| < coupons[r.period.coupon.value].maxRedemptions.value)
    ensures var v := w.(requests := w.requests[rid := r]);
            Possible(coupons, v, steps) && After(coupons, v, steps) == w.(ledger := Billed(w.ledger, r.period))
  {
    var v := w.(requests := w.requests[rid := r]);
    if r.period.coupon.Some? && Capped(coupons, r.period.coupon.value) {
      var c := r.period.coupon.value;
      var locked := Apply(coupons, v, LockCoupon(rid));
      var counted := Apply(coupons, locked, CountCap(rid));
      assert counted.requests == w.requests[rid := r.(locked := true, counted := true)];
      OneStep(coupons, counted, Commit(rid));
      StepThen(coupons, locked, CountCap(rid), [Commit(rid)]);
      StepThen(coupons, v, LockCoupon(rid), [CountCap(rid)] + [Commit(rid)]);
      assert counted.requests - {rid} == w.requests && counted.couponLock - {c} == w.couponLock;
      steps := [LockCoupon(rid)] + ([CountCap(rid)] + [Commit(rid)]);
    } else {
      OneStep(coupons, v, Commit(rid));
      assert v.requests - {rid} == w.requests;
      steps := [Commit(rid)];
    }
  }

  // A period that createPeriod accepts on a quiet ledger is a run of the step system, to the same rows.
  lemma AcceptedPeriodIsARun(coupons: map<CouponId, CouponTerms>, w: World, rid: RequestId, salon: SalonId, from: int, until: int,
                             base: int, code: Code, now: int) returns (steps: seq<Step>)
    requires w.requests == map[] && w.couponLock == map[] && from < until && CodeRefusal(w.ledger, code, salon, now).None?
    requires code.Naming? ==> code.row.id in coupons && coupons[code.row.id] == code.row.terms
    ensures Possible(coupons, w, steps)
    ensures After(coupons, w, steps) == w.(ledger := Billed(w.ledger, NewPeriod(salon, from, until, base, Offered(code))))
  {
    var p := NewPeriod(salon, from, until, base, Offered(code));
    var start := Begin(rid, Creating(p, false, false, false));
    var v := Apply(coupons, w, start);
    if code.Naming? {
      var rest := CheckedPeriodCommits(coupons, w, rid, Creating(p, true, false, false));
      assert Apply(coupons, v, SeeUnused(rid)) == w.(requests := w.requests[rid := Creating(p, true, false, false)]);
      StepThen(coupons, v, SeeUnused(rid), rest);
      StepThen(coupons, w, start, [SeeUnused(rid)] + rest);
      steps := [start] + ([SeeUnused(rid)] + rest);
    } else {
      var rest := CheckedPeriodCommits(coupons, w, rid, Creating(p, false, false, false));
      StepThen(coupons, w, start, rest);
      steps := [start] + rest;
    }
  }

  // So is the resolution of a pending period.
  lemma AcceptedResolutionIsARun(coupons: map<CouponId, CouponTerms>, w: World, rid: RequestId, salon: SalonId, id: PeriodId,
                                 to: PeriodStatus) returns (steps: seq<Step>)
    requires w.requests == map[] && w.couponLock == map[] && to != Pending
    requires id < |w.ledger.periods| && w.ledger.periods[id].salon == salon && w.ledger.periods[id].status == Pending
    ensures Possible(coupons, w, steps) && After(coupons, w, steps) == w.(ledger := Settled(w.ledger, id, salon, to))
  {
    var start := Begin(rid, Resolving(id, salon, to));
    var v := Apply(coupons, w, start);
    OneStep(coupons, v, Commit(rid));
    StepThen(coupons, w, start, [Commit(rid)]);
    assert v.requests - {rid} == w.requests;
    steps := [start] + [Commit(rid)];
  }

  // ----- what the ledger keeps

  predicate Owes(l: Ledger, id: PeriodId) {
    id < |l.periods| && l.periods[id].coupon.Some? && l.periods[id].status != Void
  }

  function RowOf(l: Ledger, id: PeriodId): Redeemed
    requires Owes(l, id)
  {
    Redeemed(l.periods[id].coupon.value, l.periods[id].salon, id)
  }

  // Redemption rows and the non-void periods with a coupon match one to one.
  ghost predicate Matched(l: Ledger) {
    && (forall r :: r in l.redeemed ==> Owes(l, r.period) && r == RowOf(l, r.period))
    && (forall id: PeriodId :: Owes(l, id) ==> RowOf(l, id) in l.redeemed)
  }

  ghost predicate OncePerSalon(l: Ledger) {
    forall r, r' :: r in l.redeemed && r' in l.redeemed && r.coupon == r'.coupon && r.salon == r'.salon ==> r == r'
  }

  ghost predicate WithinCaps(coupons: map<CouponId, CouponTerms>, l: Ledger) {
    forall c :: Capped(coupons, c) ==> |Uses(l, c)| <= coupons[c].maxRedemptions.value
  }

  ghost predicate LedgerSound(coupons: map<CouponId, CouponTerms>, l: Ledger) {
    Matched(l) && OncePerSalon(l) && WithinCaps(coupons, l)
  }

  // Whoever holds a coupon's lock and has counted has room for one more.
  predicate RequestSound(coupons: map<CouponId, CouponTerms>, w: World, rid: RequestId)
    requires rid in w.requests
  {
    match w.requests[rid]
    case Resolving(_, _, to) => to != Pending
    case Creating(p, _, _, _) =>
      var r := w.requests[rid];
      && p.status == Pending
      && (r.locked ==> r.period.coupon.Some? && r.period.coupon.value in w.couponLock && w.couponLock[r.period.coupon.value] == rid)
      && (r.counted ==> r.locked && Capped(coupons, r.period.coupon.value)
                        && |Uses(w.ledger, r.period.coupon.value)| < coupons[r.period.coupon.value].maxRedemptions.value)
  }

  ghost predicate Sound(coupons: map<CouponId, CouponTerms>, w: World) {
    LedgerSound(coupons, w.ledger) && forall rid :: rid in w.requests ==> RequestSound(coupons, w, rid)
  }

  lemma FewerUses(l: Ledger, l': Ledger, c: CouponId)
    requires Uses(l', c) <= Uses(l, c)
    ensures |Uses(l', c)| <= |Uses(l, c)|
  {
    assert Uses(l, c) == Uses(l', c) + (Uses(l, c) - Uses(l', c));
  }

  lemma BilledUses(l: Ledger, p: Period, c: CouponId)
    requires Matched(l)
    ensures p.coupon != Some(c) ==> Uses(Billed(l, p), c) == Uses(l, c)
    ensures |Uses(Billed(l, p), c)| <= |Uses(l, c)| + 1
  {
    if Billed(l, p) != l && p.coupon == Some(c) {
      assert Uses(Billed(l, p), c) == Uses(l, c) + {Redeemed(c, p.salon, |l.periods|)};
    }
  }

  lemma BilledMatches(l: Ledger, p: Period)
    requires Matched(l) && OncePerSalon(l) && p.status == Pending
    ensures Matched(Billed(l, p)) && OncePerSalon(Billed(l, p))
  {
    var l' := Billed(l, p);
    if l' != l {
      forall k: PeriodId | Owes(l', k)
        ensures RowOf(l', k) in l'.redeemed
      {
        if k < |l.periods| {
          assert Owes(l, k);
        }
      }
      forall r | r in l'.redeemed
        ensures Owes(l', r.period) && r == RowOf(l', r.period)
      {
        if r in l.redeemed {
          assert Owes(l, r.period) && r == RowOf(l, r.period);
        }
      }
    }
  }

  lemma BilledKeeps(coupons: map<CouponId, CouponTerms>, l: Ledger, p: Period)
    requires LedgerSound(coupons, l) && p.status == Pending
    requires p.coupon.Some? && Capped(coupons, p.coupon.value) ==> |Uses(l, p.coupon.value)| < coupons[p.coupon.value].maxRedemptions.value
    ensures LedgerSound(coupons, Billed(l, p))
  {
    BilledMatches(l, p);
    forall c | Capped(coupons, c)
      ensures |Uses(Billed(l, p), c)| <= coupons[c].maxRedemptions.value
    {
      BilledUses(l, p, c);
    }
  }

  lemma SettledKeeps(coupons: map<CouponId, CouponTerms>, l: Ledger, id: PeriodId, salon: SalonId, to: PeriodStatus)
    requires LedgerSound(coupons, l) && to != Pending
    ensures LedgerSound(coupons, Settled(l, id, salon, to))
    ensures forall c: CouponId :: Uses(Settled(l, id, salon, to), c) <= Uses(l, c)
  {
    var l' := Settled(l, id, salon, to);
    if l' != l {
      forall k: PeriodId | Owes(l', k)
        ensures RowOf(l', k) in l'.redeemed
      {
        assert Owes(l, k) && RowOf(l, k) in l.redeemed;
      }
      forall r | r in l'.redeemed
        ensures Owes(l', r.period) && r == RowOf(l', r.period)
      {
        assert Owes(l, r.period) && r == RowOf(l, r.period);
      }
      forall c | Capped(coupons, c)
        ensures |Uses(l', c)| <= coupons[c].maxRedemptions.value
      {
        FewerUses(l, l', c);
      }
    }
  }

  lemma StepKeepsLedger(coupons: map<CouponId, CouponTerms>, w: World, step: Step)
    requires Sound(coupons, w) && Enabled(coupons, w, step)
    ensures LedgerSound(coupons, Apply(coupons, w, step).ledger)
  {
    if step.Commit? {
      assert RequestSound(coupons, w, step.rid);
      match w.requests[step.rid]
      case Creating(p, _, _, _) => BilledKeeps(coupons, w.ledger, p);
      case Resolving(id, salon, to) => SettledKeeps(coupons, w.ledger, id, salon, to);
    }
  }

  // A count made under the coupon's lock stands: only its holder adds, and the rest only give back.
  lemma OthersKeepCount(coupons: map<CouponId, CouponTerms>, w: World, step: Step, rid: RequestId)
    requires Sound(coupons, w) && Enabled(coupons, w, step) && step.rid != rid && rid in w.requests
    ensures rid in Apply(coupons, w, step).requests && Apply(coupons, w, step).requests[rid] == w.requests[rid]
    ensures RequestSound(coupons, Apply(coupons, w, step), rid)
  {
    assert RequestSound(coupons, w, rid);
    if step.rid in w.requests {
      assert RequestSound(coupons, w, step.rid);
    }
    if step.Commit? && w.requests[rid].Creating? && w.requests[rid].counted {
      var c := w.requests[rid].period.coupon.value;
      match w.requests[step.rid]
      case Creating(p, _, _, _) => BilledUses(w.ledger, p, c);
      case Resolving(id, salon, to) =>
        SettledKeeps(coupons, w.ledger, id, salon, to);
        FewerUses(w.ledger, Apply(coupons, w, step).ledger, c);
    }
  }

  lemma StepStaysSound(coupons: map<CouponId, CouponTerms>, w: World, step: Step)
    requires Sound(coupons, w) && Enabled(coupons, w, step)
    ensures Sound(coupons, Apply(coupons, w, step))
  {
    var w' := Apply(coupons, w, step);
    StepKeepsLedger(coupons, w, step);
    forall rid | rid in w'.requests
      ensures RequestSound(coupons, w', rid)
    {
      if rid != step.rid {
        OthersKeepCount(coupons, w, step, rid);
      } else if rid in w.requests {
        assert RequestSound(coupons, w, rid);
      }
    }
  }

  lemma {:induction false} SoundThroughout(coupons: map<CouponId, CouponTerms>, w: World, steps: seq<Step>)
    requires Sound(coupons, w) && Possible(coupons, w, steps)
    ensures Sound(coupons, After(coupons, w, steps))
    decreases |steps|
  {
    if steps == [] {
    } else {
      StepStaysSound(coupons, w, steps[0]);
      SoundThroughout(coupons, Apply(coupons, w, steps[0]), steps[1..]);
    }
  }

  // However creations and resolutions interleave: one redemption row for every non-void period
  // with a coupon and no others, no salon twice on one coupon, no capped coupon over its cap.
  lemma RedemptionsMatchPeriods(coupons: map<CouponId, CouponTerms>, w: World, steps: seq<Step>)
    requires Init(w) && Possible(coupons, w, steps)
    ensures LedgerSound(coupons, After(coupons, w, steps).ledger)
  {
    forall c | Capped(coupons, c)
      ensures |Uses(w.ledger, c)| <= coupons[c].maxRedemptions.value
    {
      assert Uses(w.ledger, c) == {};
    }
    SoundThroughout(coupons, w, steps);
  }

  // ----- one resolver per period

  predicate Wins(w: World, step: Step, id: PeriodId) {
    && step.Commit? && step.rid in w.requests && w.requests[step.rid].Resolving? && w.requests[step.rid].id == id
    && id < |w.ledger.periods| && w.ledger.periods[id].status == Pending && w.ledger.periods[id].salon == w.requests[step.rid].salon
  }

  function WinCount(coupons: map<CouponId, CouponTerms>, w: World, steps: seq<Step>, id: PeriodId): nat
    requires Possible(coupons, w, steps)
    decreases |steps|
  {
    if steps == [] then 0
    else (if Wins(w, steps[0], id) then 1 else 0) + WinCount(coupons, Apply(coupons, w, steps[0]), steps[1..], id)
  }

  function Unresolved(l: Ledger, id: PeriodId): nat {
    if id < |l.periods| && l.periods[id].status != Pending then 0 else 1
  }

  lemma StepResolvesOnce(coupons: map<CouponId, CouponTerms>, w: World, step: Step, id: PeriodId)
    requires Sound(coupons, w) && Enabled(coupons, w, step)
    ensures var l, l' := w.ledger, Apply(coupons, w, step).ledger;
            && Unresolved(l, id) == Unresolved(l', id) + (if Wins(w, step, id) then 1 else 0)
            && (id < |l.periods| ==> id < |l'.periods| && l'.periods[id] == l.periods[id].(status := l'.periods[id].status))
            && (id < |l.periods| && l.periods[id].status != Pending ==> l'.periods[id].status == l.periods[id].status)
  {
    if step.Commit? {
      assert RequestSound(coupons, w, step.rid);
    }
  }

  // Every period is resolved by exactly one winner, and by none while it is pending.
  lemma {:induction false} ResolvedByOneWinner(coupons: map<CouponId, CouponTerms>, w: World, steps: seq<Step>, id: PeriodId)
    requires Sound(coupons, w) && Possible(coupons, w, steps)
    ensures WinCount(coupons, w, steps, id) + Unresolved(After(coupons, w, steps).ledger, id) == Unresolved(w.ledger, id)
    ensures id < |w.ledger.periods| && w.ledger.periods[id].status != Pending ==>
              id < |After(coupons, w, steps).ledger.periods| && After(coupons, w, steps).ledger.periods[id] == w.ledger.periods[id]
    decreases |steps|
  {
    if steps == [] {
    } else {
      StepResolvesOnce(coupons, w, steps[0], id);
      StepStaysSound(coupons, w, steps[0]);
      ResolvedByOneWinner(coupons, Apply(coupons, w, steps[0]), steps[1..], id);
    }
  }

  lemma EachPeriodHasOneWinner(coupons: map<CouponId, CouponTerms>, w: World, steps: seq<Step>, id: PeriodId)
    requires Init(w) && Possible(coupons, w, steps) && id < |After(coupons, w, steps).ledger.periods|
    ensures WinCount(coupons, w, steps, id) == if After(coupons, w, steps).ledger.periods[id].status == Pending then 0 else 1
  {
    forall c | Capped(coupons, c)
      ensures |Uses(w.ledger, c)| <= coupons[c].maxRedemptions.value
    {
      assert Uses(w.ledger, c) == {};
    }
    ResolvedByOneWinner(coupons, w, steps, id);
  }
}
