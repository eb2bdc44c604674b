/** One person taking two legs of an order: one escrow row, at the price of the first
    (internal/wallet/handler.go), so a full confirmation pays less than the price. */
module SharedExecutor {
  import opened Models
  import opened GoInt
  import opened Legs
  import opened Pricing
  import opened Orders
  import opened Ledger
  import opened Protocol
  import opened Conservation
  import opened Samples
  import opened OverEscrow

  function TakeBoth(): seq<Step> {
    [Create(0, 7, LaborTariff(), TwoLoads()), PlainAccept(0, Transport, 1), PlainAccept(0, Labor, 1)]
  }

  function FinishBoth(): seq<Step> {
    [UpdateStatus(0, Transport, Caller(1, false), Delivered), UpdateStatus(0, Labor, Caller(1, false), Delivered),
     Confirm(0, Caller(7, false), {1})]
  }

  ghost function Row(status: TxStatus): Tx {
    Tx(0, 7, 1, 100, 0, status)
  }

  /** Both legs delivered, the client's confirmation reaching the one executor there is: 100 paid for
      an order of 150. */
  lemma SharedExecutorIsUnderpaid()
    ensures var w := Run(EMPTY, TakeBoth() + FinishBoth());
            && w.orders == map[0 := TwoLegs(Completed, Some(1), Completed, Some(1))]
            && PaidOut(w.ledger, 0) == 100 < w.orders[0].estimate == 150
  {
    RunSplits(EMPTY, TakeBoth(), FinishBoth());
    BothTaken();
    BothFinished();
    OrderSumAppend([], Row(Released), 0, CREDITED);
    OrderSumAppend([], Row(Released), 0, FEES);
    assert [] + [Row(Released)] == [Row(Released)];
  }

  lemma BothTaken()
    ensures Run(EMPTY, TakeBoth()) == World(map[0 := TwoLegs(Accepted, Some(1), Accepted, Some(1))], [Row(Held)])
  {
    RunOfThree(EMPTY, TakeBoth()[0], TakeBoth()[1], TakeBoth()[2]);
    BothCreated();
    TransportTaken();
    LaborTakenOver();
  }

  lemma BothCreated()
    ensures DoCreate(EMPTY, 0, 7, LaborTariff(), TwoLoads()).0
         == World(map[0 := TwoLegs(Published, None, Published, None)], [])
  {
    TwoLoadsPriced();
  }

  lemma TransportTaken()
    ensures Offer(World(map[0 := TwoLegs(Published, None, Published, None)], []), 0, Transport, 1)
         == World(map[0 := TwoLegs(Accepted, Some(1), Published, None)], [Row(Held)])
  {
    var w := World(map[0 := TwoLegs(Published, None, Published, None)], []);
    OfferTaken(w, 0, Transport, 1);
    FreeCommission(100);
    assert [] + [Row(Held)] == [Row(Held)];
    assert Claim(w.orders, 0, Transport, 1)[0].legs == TwoLegs(Accepted, Some(1), Published, None).legs;
  }

  lemma LaborTakenOver()
    ensures Offer(World(map[0 := TwoLegs(Accepted, Some(1), Published, None)], [Row(Held)]), 0, Labor, 1)
         == World(map[0 := TwoLegs(Accepted, Some(1), Accepted, Some(1))], [Row(Held)])
  {
    var w := World(map[0 := TwoLegs(Accepted, Some(1), Published, None)], [Row(Held)]);
    assert For(w.ledger[0], 0, 1) && Existing(w.ledger, 0, 1) == Some(Row(Held));
    assert Claim(w.orders, 0, Labor, 1)[0].legs == TwoLegs(Accepted, Some(1), Accepted, Some(1)).legs;
  }

  lemma BothFinished()
    ensures Run(World(map[0 := TwoLegs(Accepted, Some(1), Accepted, Some(1))], [Row(Held)]), FinishBoth())
         == World(map[0 := TwoLegs(Completed, Some(1), Completed, Some(1))], [Row(Released)])
  {
    var w := World(map[0 := TwoLegs(Accepted, Some(1), Accepted, Some(1))], [Row(Held)]);
    RunOfThree(w, FinishBoth()[0], FinishBoth()[1], FinishBoth()[2]);
    BothDelivered();
    BothConfirmed();
  }

  lemma BothDelivered()
    ensures var w := World(map[0 := TwoLegs(Accepted, Some(1), Accepted, Some(1))], [Row(Held)]);
            DoUpdate(DoUpdate(w, 0, Transport, Caller(1, false), Delivered).0, 0, Labor, Caller(1, false), Delivered).0
            == World(map[0 := TwoLegs(Delivered, Some(1), Delivered, Some(1))], [Row(Held)])
  {
    var w := World(map[0 := TwoLegs(Accepted, Some(1), Accepted, Some(1))], [Row(Held)]);
    var w1 := World(map[0 := TwoLegs(Delivered, Some(1), Accepted, Some(1))], [Row(Held)]);
    assert SetStatus(w.orders, 0, Transport, Delivered)[0].legs == w1.orders[0].legs;
    assert DoUpdate(w, 0, Transport, Caller(1, false), Delivered).0 == w1;
    assert SetStatus(w1.orders, 0, Labor, Delivered)[0].legs == TwoLegs(Delivered, Some(1), Delivered, Some(1)).legs;
  }

  lemma BothConfirmed()
    ensures DoConfirm(World(map[0 := TwoLegs(Delivered, Some(1), Delivered, Some(1))], [Row(Held)]), 0,
                      Caller(7, false), {1}).0
         == World(map[0 := TwoLegs(Completed, Some(1), Completed, Some(1))], [Row(Released)])
  {
    var w := World(map[0 := TwoLegs(Delivered, Some(1), Delivered, Some(1))], [Row(Held)]);
    BothReady();
    assert SetAll(w.orders, 0, Completed)[0].legs == TwoLegs(Completed, Some(1), Completed, Some(1)).legs;
    assert ReleaseTo(w.ledger, 0, w.orders[0].Executors() * {1}) == [Row(Released)];
  }

  lemma BothReady()
    ensures TwoLegs(Delivered, Some(1), Delivered, Some(1)).Ready()
    ensures TwoLegs(Delivered, Some(1), Delivered, Some(1)).Executors() * {1} == {1}
  {
    var o := TwoLegs(Delivered, Some(1), Delivered, Some(1));
    o.ReadyMeansEveryLegDone();
    assert o.legs[Transport].executor == Some(1);
    assert o.HeldBy(1);
  }
}
