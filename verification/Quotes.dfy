/** What an order costs, told on the request and the tariff table (internal/orders/pricing.go,
    internal/orders/handler.go). */
module Quotes {
  import opened Models
  import opened GoInt
  import opened Legs
  import opened Orders
  import opened Protocol
  import Pricing

  ghost function TransportCost(input: Pricing.PriceInput): int {
    if input.cargo.Some? then input.cargo.value else 0
  }

  /** Hours at the tariff of the machine, 250 000 an hour where there is none. */
  ghost function EquipmentCost(tariffs: Pricing.Tariffs, input: Pricing.PriceInput): int {
    if input.equipment == None then 0
    else
      var e := input.equipment.value;
      var key := "equipment_hour_" + e.kind;
      Wrap(e.hours * if key in tariffs then tariffs[key] else 250_000)
  }

  /** Workers times hours at the tariff, 45 000 an hour where there is none. */
  ghost function LaborCost(tariffs: Pricing.Tariffs, input: Pricing.PriceInput): int {
    if input.labor == None then 0
    else
      var l := input.labor.value;
      Wrap(Wrap(l.workers * l.hours)
           * if "labor_hour_per_worker" in tariffs then tariffs["labor_hour_per_worker"] else 45_000)
  }

  /** The least an order costs. */
  ghost function Least(tariffs: Pricing.Tariffs): int {
    if "minimum_order" in tariffs then tariffs["minimum_order"] else 100_000
  }

  ghost function CostOf(tariffs: Pricing.Tariffs, input: Pricing.PriceInput): int {
    TransportCost(input) + EquipmentCost(tariffs, input) + LaborCost(tariffs, input)
  }

  lemma ComponentsAre(tariffs: Pricing.Tariffs, input: Pricing.PriceInput)
    ensures var b := Pricing.Estimate(tariffs, input);
            && b.transport == TransportCost(input)
            && b.equipment == EquipmentCost(tariffs, input)
            && b.labor == LaborCost(tariffs, input)
  {
    if input.equipment.Some? {
      var e := input.equipment.value;
      MulIsWrappedProduct(e.hours, Pricing.EquipmentRate(tariffs, e.kind));
    }
    if input.labor.Some? {
      var l := input.labor.value;
      MulIsWrappedProduct(l.workers, l.hours);
      MulIsWrappedProduct(Mul(l.workers, l.hours), Pricing.LaborRate(tariffs));
    }
  }

  /** The stored estimate is the price the client was shown, if it sent a positive one; otherwise the
      sum of the components, as an int64, or the least an order costs, whichever is larger. */
  lemma StoredPrice(w: World, id: OrderId, client: UserId, tariffs: Pricing.Tariffs, request: OrderRequest)
    requires DoCreate(w, id, client, tariffs, request).1 == Created
    ensures var estimate, sum := DoCreate(w, id, client, tariffs, request).0.orders[id].estimate,
                                 Wrap(CostOf(tariffs, request.input));
            if request.shownPrice != None && request.shownPrice.value > 0 then estimate == request.shownPrice.value
            else
              && estimate >= sum && estimate >= Least(tariffs)
              && (estimate == sum || estimate == Least(tariffs))
  {
    SumIs(tariffs, request.input);
    ServerTotal(tariffs, Pricing.Estimate(tariffs, request.input));
    CreatedAtTotal(w, id, client, tariffs, request);
  }

  lemma SumIs(tariffs: Pricing.Tariffs, input: Pricing.PriceInput)
    ensures Pricing.Estimate(tariffs, input).Sum() == Wrap(CostOf(tariffs, input))
  {
    ComponentsAre(tariffs, input);
    WrapAdd(TransportCost(input) + EquipmentCost(tariffs, input), LaborCost(tariffs, input));
  }

  lemma ServerTotal(tariffs: Pricing.Tariffs, b: Pricing.Breakdown)
    ensures var total := Pricing.Total(tariffs, b);
            && total >= b.Sum() && total >= Least(tariffs)
            && (total == b.Sum() || total == Least(tariffs))
  {
  }

  lemma CreatedAtTotal(w: World, id: OrderId, client: UserId, tariffs: Pricing.Tariffs, request: OrderRequest)
    requires DoCreate(w, id, client, tariffs, request).1 == Created
    ensures DoCreate(w, id, client, tariffs, request).0.orders[id].estimate == OrderTotal(tariffs, request)
  {
  }

  /** The legs share the estimate by those very components. */
  lemma StoredParts(w: World, id: OrderId, client: UserId, tariffs: Pricing.Tariffs, request: OrderRequest)
    requires DoCreate(w, id, client, tariffs, request).1 == Created
    ensures var o, input := DoCreate(w, id, client, tariffs, request).0.orders[id], request.input;
            forall b: Pricing.Breakdown ::
              b.transport == TransportCost(input) && b.equipment == EquipmentCost(tariffs, input)
              && b.labor == LaborCost(tariffs, input) ==>
                && Pricing.Split(b, o.estimate, RequestedLegs(request)).Keys == o.legs.Keys
                && forall l :: l in o.legs ==> o.legs[l].price == Pricing.Split(b, o.estimate, RequestedLegs(request))[l]
  {
    ComponentsAre(tariffs, request.input);
    var b := Pricing.Estimate(tariffs, request.input);
    Pricing.SplitIsExact(b, OrderTotal(tariffs, request), RequestedLegs(request));
  }

  function OneHour(): OrderRequest {
    OrderRequest(LaborOnly, true, true, Pricing.PriceInput(None, None, Some(Pricing.LaborRequest(1, 1))), None, None)
  }

  /** One worker for one hour costs the least there is. */
  lemma SmallOrderCostsTheLeast(client: UserId)
    ensures NewOrder(client, map[], OneHour()).estimate == 100_000
  {
    SumIs(map[], OneHour().input);
    ServerTotal(map[], Pricing.Estimate(map[], OneHour().input));
  }
}
