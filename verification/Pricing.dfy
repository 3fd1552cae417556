/** Discount and deposit arithmetic: discount.util.ts and deposit.util.ts. Amounts are whole toman. */
module Pricing {
  import opened Options

  datatype Discount = Percent(value: int) | Fixed(value: int)

  // What the database CHECK constraints allow a stored discount to be.
  predicate ValidDiscount(d: Discount) {
    match d
    case Percent(v) => 1 <= v <= 100
    case Fixed(v) => v > 0
  }

  // winner is the position of the winning candidate: the source compares candidates by identity.
  datatype Resolved = Resolved(finalPrice: int, winner: Option<nat>)

  // Math.round(amount * percent / 100): the nearest whole number, halves going up.
  function PercentOf(amount: int, percent: int): (r: int)
    ensures 200 * r - 100 <= 2 * (amount * percent) < 200 * r + 100
  {
    (2 * (amount * percent) + 100) / 200
  }

  // What one discount makes of a price: a percentage leaves the rest of it, rounded; a fixed amount
  // comes off it, down to nothing.
  function Discounted(price: int, d: Discount): (r: int)
    ensures d.Percent? ==> 200 * r - 100 <= 2 * (price * (100 - d.value)) < 200 * r + 100
    ensures d.Fixed? ==> 0 <= r && price <= r + d.value && (r > 0 ==> price == r + d.value)
  {
    match d
    case Percent(v) => PercentOf(price, 100 - v)
    case Fixed(v) => if price - v > 0 then price - v else 0
  }

  // The scan of resolveBestPriceWithWinner, as far as the candidates given.
  function Best(price: int, candidates: seq<Option<Discount>>): Resolved {
    if candidates == [] then Resolved(price, None)
    else
      var last := |candidates| - 1;
      var sofar := Best(price, candidates[..last]);
      if candidates[last].Some? && Discounted(price, candidates[last].value) < sofar.finalPrice
      then Resolved(Discounted(price, candidates[last].value), Some(last))
      else sofar
  }

  // r is at most what the discount leaves of the price, and exactly that.
  ghost predicate AtMostLeft(price: int, d: Discount, r: int) {
    match d
    case Percent(v) => 200 * r - 100 <= 2 * (price * (100 - v))
    case Fixed(v) => r <= 0 || r <= price - v
  }

  ghost predicate JustLeft(price: int, d: Discount, r: int) {
    match d
    case Percent(v) => 200 * r - 100 <= 2 * (price * (100 - v)) < 200 * r + 100
    case Fixed(v) => r == if price > v then price - v else 0
  }

  lemma DiscountedIsLeft(price: int, d: Discount, r: int)
    ensures JustLeft(price, d, r) <==> r == Discounted(price, d)
    ensures AtMostLeft(price, d, r) <==> r <= Discounted(price, d)
  {
  }

  // What the resolution promises: the price is the lowest on offer, and the winner is the
  // earliest candidate to reach it and strictly beats paying the full price.
  ghost predicate IsBest(price: int, candidates: seq<Option<Discount>>, r: Resolved) {
    && r.finalPrice <= price
    && (forall i :: 0 <= i < |candidates| && candidates[i].Some? ==> AtMostLeft(price, candidates[i].value, r.finalPrice))
    && match r.winner
       case None => r.finalPrice == price
       case Some(w) =>
         && w < |candidates| && candidates[w].Some?
         && JustLeft(price, candidates[w].value, r.finalPrice) && r.finalPrice < price
         && forall i :: 0 <= i < w && candidates[i].Some? ==> !JustLeft(price, candidates[i].value, r.finalPrice)
  }

  // IsBest leaves exactly one answer, and Best is that answer.
  lemma {:induction false} BestIsBest(price: int, candidates: seq<Option<Discount>>, r: Resolved)
    ensures IsBest(price, candidates, r) <==> r == Best(price, candidates)
  {
    BestMeetsIsBest(price, candidates);
  }

  lemma {:induction false} BestMeetsIsBest(price: int, candidates: seq<Option<Discount>>)
    ensures IsBest(price, candidates, Best(price, candidates))
  {
    if candidates == [] {
    } else {
      var init := candidates[..|candidates| - 1];
      BestMeetsIsBest(price, init);
      assert forall i :: 0 <= i < |init| ==> candidates[i] == init[i];
    }
  }

  method ResolveBestPriceWithWinner(price: int, candidates: seq<Option<Discount>>) returns (r: Resolved)
    ensures r == Best(price, candidates)
    ensures IsBest(price, candidates, r)
  {
    var best := price;
    var winner: Option<nat> := None;
    var i := 0;
    while i < |candidates|
      invariant 0 <= i <= |candidates|
      invariant Resolved(best, winner) == Best(price, candidates[..i])
    {
      assert candidates[..i + 1][..i] == candidates[..i];
      if candidates[i].Some? {
        var candidatePrice := Discounted(price, candidates[i].value);
        if candidatePrice < best {
          best, winner := candidatePrice, Some(i);
        }
      }
      i := i + 1;
    }
    assert candidates[..i] == candidates;
    r := Resolved(best, winner);
    BestMeetsIsBest(price, candidates);
  }

  // A coupon code is spent only when it beats the service's own discount, not on a tie.
  lemma CouponWinsOnlyIfCheaper(price: int, service: Option<Discount>, coupon: Option<Discount>)
    ensures Best(price, [service, coupon]).winner == Some(1) <==>
            && coupon.Some?
            && Discounted(price, coupon.value) < price
            && (service.Some? ==> Discounted(price, coupon.value) < Discounted(price, service.value))
  {
    BestMeetsIsBest(price, [service, coupon]);
    assert [service, coupon][..1] == [service];
    assert [service][..0] == [];
  }

  // A fixed amount alone comes off the price; against a percentage it wins exactly when what it
  // leaves is below both the list price and what the percentage leaves.
  lemma FixedComesOff(price: nat, v: int)
    requires v > 0
    ensures Best(price, [Some(Fixed(v))]).finalPrice == if price > v then price - v else 0
  {
    BestMeetsIsBest(price, [Some(Fixed(v))]);
    assert [Some(Fixed(v))][0] == Some(Fixed(v));
  }

  lemma FixedBeatsPercentIff(price: nat, p: int, v: int, left: int)
    requires 1 <= p <= 100 && v > 0 && 200 * left - 100 <= 2 * (price * (100 - p)) < 200 * left + 100
    ensures var off := if price > v then price - v else 0;
            var best := Best(price, [Some(Percent(p)), Some(Fixed(v))]);
            && (best.winner == Some(1) <==> off < price && off < left)
            && best.finalPrice == if off < price && off < left then off else if left < price then left else price
  {
    var off := if price > v then price - v else 0;
    var least := if off < price && off < left then off else if left < price then left else price;
    var winner: Option<nat> := if off < price && off < left then Some(1) else if left < price then Some(0) else None;
    var candidates := [Some(Percent(p)), Some(Fixed(v))];
    assert candidates[0] == Some(Percent(p)) && candidates[1] == Some(Fixed(v));
    BestIsBest(price, candidates, Resolved(least, winner));
  }

  // ----- the older rule for percentages alone

  // resolveDiscountPercent: no discount counts as zero.
  function LargerPercent(service: Option<int>, coupon: Option<int>): int {
    var a, b := if service.Some? then service.value else 0, if coupon.Some? then coupon.value else 0;
    if a > b then a else b
  }

  // applyDiscount
  function Applied(price: int, percent: int): (r: int)
    ensures percent <= 0 ==> r == price
    ensures percent > 0 ==> 200 * r - 100 <= 2 * (price * (100 - percent)) < 200 * r + 100
  {
    if percent <= 0 then price else PercentOf(price, 100 - percent)
  }

  lemma MorePercentCostsLess(price: nat, p: int, q: int)
    requires p <= q
    ensures PercentOf(price, 100 - q) <= PercentOf(price, 100 - p)
  {
    assert price * (100 - q) <= price * (100 - p);
  }

  lemma FullPercentIsPrice(price: int)
    ensures PercentOf(price, 100) == price
  {
  }

  // Taking the larger percentage and taking the lower resulting price come to the same price.
  lemma LargerPercentIsBestPrice(price: nat, service: Option<int>, coupon: Option<int>)
    requires service.Some? ==> 1 <= service.value <= 100
    requires coupon.Some? ==> 1 <= coupon.value <= 100
    ensures Applied(price, LargerPercent(service, coupon)) ==
              Best(price, [if service.Some? then Some(Percent(service.value)) else None,
                           if coupon.Some? then Some(Percent(coupon.value)) else None]).finalPrice
  {
    var candidates := [if service.Some? then Some(Percent(service.value)) else None,
                       if coupon.Some? then Some(Percent(coupon.value)) else None];
    BestMeetsIsBest(price, candidates);
    FullPercentIsPrice(price);
    if service.Some? {
      assert candidates[0] == Some(Percent(service.value));
      MorePercentCostsLess(price, 0, service.value);
    }
    if coupon.Some? {
      assert candidates[1] == Some(Percent(coupon.value));
      MorePercentCostsLess(price, 0, coupon.value);
    }
    if service.Some? && coupon.Some? {
      if service.value <= coupon.value {
        MorePercentCostsLess(price, service.value, coupon.value);
      } else {
        MorePercentCostsLess(price, coupon.value, service.value);
      }
    }
  }

  lemma DiscountedStaysNonNegative(price: int, d: Discount)
    requires price >= 0 && ValidDiscount(d)
    ensures Discounted(price, d) >= 0
  {
    if d.Percent? {
      assert price * (100 - d.value) >= 0;
    }
  }

  // Stored discounts can never take a price below zero.
  lemma BestStaysNonNegative(price: int, candidates: seq<Option<Discount>>)
    requires price >= 0
    requires forall i :: 0 <= i < |candidates| && candidates[i].Some? ==> ValidDiscount(candidates[i].value)
    ensures 0 <= Best(price, candidates).finalPrice <= price
  {
    BestMeetsIsBest(price, candidates);
    var winner := Best(price, candidates).winner;
    if winner.Some? {
      DiscountedStaysNonNegative(price, candidates[winner.value].value);
    }
  }

  // calculateDeposit: a percentage with a floor, never above the price it is deducted from.
  // On a negative price the outer clamp makes it zero.
  function Deposit(price: int, percent: int, minimum: int): (r: int)
    ensures 0 <= r
    ensures if price >= 0 then r <= price else r == 0
    ensures r < price ==> r >= minimum && r >= PercentOf(price, percent)
    ensures r > 0 && r > minimum ==> r <= PercentOf(price, percent)
    ensures price >= 0 && minimum >= 0 ==>
              r == price || (r >= minimum && r >= PercentOf(price, percent) && (r == minimum || r == PercentOf(price, percent)))
  {
    var byPercent := PercentOf(price, percent);
    var floored := if byPercent > minimum then byPercent else minimum;
    var capped := if floored < price then floored else price;
    if capped > 0 then capped else 0
  }
}
