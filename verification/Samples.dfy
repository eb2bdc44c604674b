/** Two small orders the create handler stores, for the lemmas that need an input. */
module Samples {
  import opened Models
  import opened GoInt
  import opened Legs
  import opened Pricing
  import opened Orders
  import opened Ledger
  import opened Protocol
  import Estimates

  // ---- one leg ----------------------------------------------------------------------

  function OneLoad(): OrderRequest {
    OrderRequest(TransportOnly, true, true, PriceInput(Some(50), None, None), Some(100), None)
  }

  function OneLeg(status: Status, executor: Option<UserId>): Order {
    Order(7, TransportOnly, 100, Payme, map[Transport := LegRow(status, executor, 100)])
  }

  lemma OneLoadPriced()
    ensures RequestedLegs(OneLoad()) == [Transport]
    ensures NewOrder(7, map[], OneLoad()) == OneLeg(Published, None)
    ensures Insertable(OneLeg(Published, None))
  {
    var b := Estimate(map[], OneLoad().input);
    Estimates.OneLegGetsAll(b, 100, Transport);
    NewOrderFrom(7, map[], OneLoad(), b, 100, [Transport], map[Transport := 100]);
    assert PricedOrder(7, OneLoad(), 100, map[Transport := 100]).legs == OneLeg(Published, None).legs;
  }

  lemma OneLoadCreatable()
    ensures Creatable(OneLeg(Published, None))
  {
    OneLoadPriced();
    assert Creates(7, map[], OneLoad(), OneLeg(Published, None));
  }

  // ---- two legs ---------------------------------------------------------------------

  function LaborTariff(): Tariffs {
    map["labor_hour_per_worker" := 50]
  }

  function TwoLoads(): OrderRequest {
    OrderRequest(TransportWithOptions, true, true, PriceInput(Some(100), None, Some(LaborRequest(1, 1))), Some(150),
                 None)
  }

  function TwoLegs(transport: Status, carrier: Option<UserId>, labor: Status, worker: Option<UserId>): Order {
    Order(7, TransportWithOptions, 150, Payme,
          map[Transport := LegRow(transport, carrier, 100), Labor := LegRow(labor, worker, 50)])
  }

  lemma TwoLoadsPriced()
    ensures RequestedLegs(TwoLoads()) == [Transport, Labor]
    ensures NewOrder(7, LaborTariff(), TwoLoads()) == TwoLegs(Published, None, Published, None)
    ensures Insertable(TwoLegs(Published, None, Published, None))
  {
    TwoLoadsEstimated();
    OwnCost(Breakdown(100, 0, 50));
    var prices: Prices := map[Transport := 100, Labor := 50];
    NewOrderFrom(7, LaborTariff(), TwoLoads(), Breakdown(100, 0, 50), 150, [Transport, Labor], prices);
    TwoLoadsStored(prices);
  }

  lemma TwoLoadsCreatable()
    ensures Creatable(TwoLegs(Published, None, Published, None))
  {
    TwoLoadsPriced();
    assert Creates(7, LaborTariff(), TwoLoads(), TwoLegs(Published, None, Published, None));
  }

  lemma TwoLoadsStored(prices: Prices)
    requires prices == map[Transport := 100, Labor := 50]
    ensures PricedOrder(7, TwoLoads(), 150, prices) == TwoLegs(Published, None, Published, None)
    ensures Insertable(TwoLegs(Published, None, Published, None))
  {
    assert PricedOrder(7, TwoLoads(), 150, prices).legs == TwoLegs(Published, None, Published, None).legs;
  }

  lemma NewOrderFrom(client: UserId, tariffs: Tariffs, request: OrderRequest, b: Breakdown, total: int64, legs: seq<Leg>,
                     prices: Prices)
    requires Estimate(tariffs, request.input) == b && OrderTotal(tariffs, request) == total
    requires RequestedLegs(request) == legs && Split(b, total, legs) == prices
    ensures NewOrder(client, tariffs, request) == PricedOrder(client, request, total, prices)
  {
  }

  lemma TwoLoadsEstimated()
    ensures Estimate(LaborTariff(), TwoLoads().input) == Breakdown(100, 0, 50)
  {
    MulInRange(1, 1);
    MulInRange(1, 50);
  }

  lemma OwnCost(b: Breakdown)
    requires b == Breakdown(100, 0, 50)
    ensures Split(b, 150, [Transport, Labor]) == map[Transport := 100, Labor := 50]
  {
    var legs := [Transport, Labor];
    var w := Weights(b, legs);
    assert w == map[Transport := 100, Labor := 50];
    SumOfTwo(w, Transport, Labor);
    SplitOfOwnCostIsIdentity(b, legs);
  }

  lemma SumOfTwo(m: Prices, x: Leg, y: Leg)
    requires x in m && y in m
    ensures SumOver(m, [x, y]) - m[x] == m[y]
  {
    var legs := [x, y];
    assert SumTo(m, legs, 0) == 0;
    assert SumTo(m, legs, 1) == m[legs[0]];
    assert SumTo(m, legs, 2) == SumTo(m, legs, 1) + m[legs[1]];
  }
}
