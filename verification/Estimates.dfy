/** Whether the legs of an order carry the whole of its estimate (internal/orders/pricing.go,
    internal/orders/handler.go). */
module Estimates {
  import opened Models
  import opened GoInt
  import opened Legs
  import opened Pricing
  import opened Protocol

  predicate Requested(input: PriceInput, l: Leg) {
    match l
    case Transport => input.cargo.Some?
    case Equipment => input.equipment.Some?
    case Labor => input.labor.Some?
  }

  /** What the estimate charges for a leg the order does not have. */
  ghost function Stray(b: Breakdown, legs: seq<Leg>, l: Leg): int {
    if l in legs then 0 else b.For(l)
  }

  ghost function AllStray(b: Breakdown, legs: seq<Leg>): int {
    Stray(b, legs, Transport) + Stray(b, legs, Equipment) + Stray(b, legs, Labor)
  }

  /** Whatever is requested has a positive price, and none of the three prices overflows. */
  ghost predicate PricedPositive(t: Tariffs, input: PriceInput) {
    && (input.cargo.Some? ==> input.cargo.value > 0)
    && (input.equipment.Some? ==>
          var e, rate := input.equipment.value, EquipmentRate(t, input.equipment.value.kind);
          e.hours > 0 && rate > 0 && e.hours * rate <= MAX)
    && (input.labor.Some? ==>
          var l, rate := input.labor.value, LaborRate(t);
          && l.workers > 0 && l.hours > 0 && rate > 0
          && l.workers * l.hours <= MAX && (l.workers * l.hours) * rate <= MAX)
  }

  /** For positive prices: the estimate charges nothing for absent legs, and the weights of the legs
      add up to it, if and only if everything requested has its leg. */
  lemma LegsCarryTheEstimate(t: Tariffs, request: OrderRequest)
    requires RequestedLegs(request) != [] && PricedPositive(t, request.input)
    ensures var b, legs := Estimate(t, request.input), RequestedLegs(request);
            && ((forall l: Leg :: l !in legs ==> b.For(l) == 0) <==>
                forall l: Leg :: Requested(request.input, l) ==> l in legs)
            && (WeightSum(b, legs) == b.Sum() <==>
                forall l: Leg :: Requested(request.input, l) ==> l in legs)
  {
    var b, legs := Estimate(t, request.input), RequestedLegs(request);
    forall l: Leg
      ensures b.For(l) >= 0 && (b.For(l) > 0 <==> Requested(request.input, l))
    {
      ChargedIfRequested(t, request.input, l);
    }
    CarriedUnlessStray(b, request);
    StrayDoesNotWrap(b, legs);
    assert AllStray(b, legs) == 0 <==> forall l: Leg :: Requested(request.input, l) ==> l in legs by {
      StrayIfSomeStray(b, legs);
    }
  }

  lemma StrayIfSomeStray(b: Breakdown, legs: seq<Leg>)
    requires forall l: Leg :: b.For(l) >= 0
    ensures AllStray(b, legs) == 0 <==> forall l: Leg :: l !in legs ==> b.For(l) == 0
  {
    if AllStray(b, legs) == 0 {
      forall l: Leg | l !in legs
        ensures b.For(l) == 0
      {
        assert Stray(b, legs, l) == b.For(l);
        match l { case Transport => case Equipment => case Labor => }
      }
    }
  }

  lemma ChargedIfRequested(t: Tariffs, input: PriceInput, l: Leg)
    requires PricedPositive(t, input)
    ensures Estimate(t, input).For(l) >= 0 && (Estimate(t, input).For(l) > 0 <==> Requested(input, l))
  {
    match l {
      case Transport =>
      case Equipment =>
        if input.equipment.Some? {
          PositiveProduct(input.equipment.value.hours, EquipmentRate(t, input.equipment.value.kind));
        }
      case Labor =>
        if input.labor.Some? {
          var r := input.labor.value;
          PositiveProduct(r.workers, r.hours);
          PositiveProduct(Mul(r.workers, r.hours), LaborRate(t));
        }
    }
  }

  lemma PositiveProduct(x: int64, y: int64)
    requires x > 0 && y > 0 && x * y <= MAX
    ensures Mul(x, y) == x * y > 0
  {
    MulInRange(x, y);
  }

  /** Of any request at all: what the weights of the legs miss of the estimate is what absent legs are
      charged. */
  lemma CarriedUnlessStray(b: Breakdown, request: OrderRequest)
    ensures var legs := RequestedLegs(request); WeightSum(b, legs) == b.Sum() <==> Wrap(AllStray(b, legs)) == 0
  {
    SumOfLegs(b, request);
    CarriedIfSummed(b, RequestedLegs(request));
  }

  lemma CarriedIfSummed(b: Breakdown, legs: seq<Leg>)
    requires SumOver(Weights(b, legs), legs) + AllStray(b, legs) == b.transport as int + b.equipment as int + b.labor as int
    ensures WeightSum(b, legs) == b.Sum() <==> Wrap(AllStray(b, legs)) == 0
  {
    WrappedSums(SumOver(Weights(b, legs), legs), AllStray(b, legs), b.transport, b.equipment, b.labor);
  }

  lemma StrayDoesNotWrap(b: Breakdown, legs: seq<Leg>)
    requires legs != [] && forall l: Leg :: b.For(l) >= 0
    ensures Wrap(AllStray(b, legs)) == 0 ==> AllStray(b, legs) == 0
  {
    assert legs[0] in legs;
    forall l: Leg
      ensures 0 <= Stray(b, legs, l) <= MAX
    {
      assert b.For(l) >= 0;
    }
    assert Stray(b, legs, legs[0]) == 0;
    match legs[0] {
      case Transport => assert AllStray(b, legs) <= 2 * MAX;
      case Equipment => assert AllStray(b, legs) <= 2 * MAX;
      case Labor => assert AllStray(b, legs) <= 2 * MAX;
    }
  }

  /** A transport order with options has a leg for whatever is requested. */
  lemma OptionsAreNeverStray(t: Tariffs, request: OrderRequest)
    requires request.kind.TransportWithOptions?
    ensures AllStray(Estimate(t, request.input), RequestedLegs(request)) == 0
  {
  }

  lemma SumOfLegs(b: Breakdown, request: OrderRequest)
    ensures var legs := RequestedLegs(request);
            SumOver(Weights(b, legs), legs) + AllStray(b, legs) == b.transport as int + b.equipment as int + b.labor as int
  {
    var legs := RequestedLegs(request);
    var w := Weights(b, legs);
    assert SumTo(w, legs, 0) == 0;
    if |legs| >= 1 {
      assert SumTo(w, legs, 1) == w[legs[0]];
    }
    if |legs| >= 2 {
      assert SumTo(w, legs, 2) == SumTo(w, legs, 1) + w[legs[1]];
    }
    if |legs| >= 3 {
      assert SumTo(w, legs, 3) == SumTo(w, legs, 2) + w[legs[2]];
    }
  }

  lemma WrappedSums(some: int, stray: int, t: int, e: int, l: int)
    requires some + stray == t + e + l
    ensures Wrap(some) == Wrap(Wrap(t + e) + l) <==> Wrap(stray) == 0
  {
    WrapAdd(t + e, l);
    SameWrap(some, some + stray);
  }

  lemma SameWrap(x: int, y: int)
    ensures Wrap(x) == Wrap(y) <==> Wrap(y - x) == 0
  {
    WrapSub(y, x);
    WrapAdd(y - x, x);
  }

  lemma OneLegGetsAll(b: Breakdown, total: int64, leg: Leg)
    ensures Split(b, total, [leg]) == map[leg := total]
  {
    SplitIsExact(b, total, [leg]);
    var prices := Split(b, total, [leg]);
    assert SumTo(prices, [leg], 1) == prices[leg];
  }

  function StrayCrane(): OrderRequest {
    OrderRequest(TransportOnly, true, true, PriceInput(Some(200_000), Some(EquipmentRequest("crane", 8)), None), None, None)
  }

  /** A transport-only order that also asks for equipment is charged for it, and the whole price
      goes to the one leg it has. */
  lemma StrayRequestIsCharged()
    ensures var b, legs := Estimate(map[], StrayCrane().input), RequestedLegs(StrayCrane());
            && legs == [Transport]
            && Total(map[], b) == 2_200_000
            && Split(b, Total(map[], b), legs) == map[Transport := 2_200_000]
  {
    MulInRange(8, 250_000);
    OneLegGetsAll(Estimate(map[], StrayCrane().input), 2_200_000, Transport);
  }
}
