/** The two ways the escrow of an order can exceed its price, each with its exact condition: nothing
    validates the hours or workers of a request, so a leg can be priced below zero; and an answer
    lost after its effect leaves escrow behind no leg. */
module OverEscrow {
  import opened Models
  import opened GoInt
  import opened Legs
  import opened Pricing
  import opened Orders
  import opened Ledger
  import opened Protocol
  import opened Invariants
  import opened LegMachine
  import opened Conservation
  import opened Samples
  import opened SplitSigns

  // ---- just created ------------------------------------------------------------------------

  /** Just created: nobody has accepted anything and no money is held. */
  ghost predicate IsFresh(w: World, id: OrderId) {
    && id in w.orders
    && (forall l :: l in w.orders[id].legs ==> w.orders[id].legs[l].status == Published)
    && (forall p: UserId :: !HasRow(w.ledger, id, p))
  }

  lemma CreatedIsFresh(w: World, s: Step)
    requires Inv(w) && s.Create? && Do(w, s).1 == Created
    ensures IsFresh(Do(w, s).0, s.id)
  {
    forall p: UserId
      ensures !HasRow(w.ledger, s.id, p)
    {
      forall i | 0 <= i < |w.ledger|
        ensures !For(w.ledger[i], s.id, p)
      {
        assert TxOk(w.orders, w.ledger[i]);
      }
    }
  }

  lemma {:induction false} NoRowsNoMoney(rows: Rows, id: OrderId)
    requires forall i :: 0 <= i < |rows| ==> rows[i].order != id
    ensures OrderSum(rows, id, AMOUNT) == 0
  {
    if rows != [] {
      NoRowsNoMoney(rows[..|rows| - 1], id);
    }
  }

  lemma FreshIsUnclaimed(w: World, id: OrderId)
    requires Inv(w) && IsFresh(w, id)
    ensures w.orders[id].Sum(ClaimedPrice) == 0 == OrderSum(w.ledger, id, AMOUNT)
    ensures w.orders[id].Sum(Price) == w.orders[id].estimate
  {
    assert OrderOk(w.orders[id]);
    assert forall l :: l in w.orders[id].legs ==> RowOk(w.orders[id].legs[l]);
    forall i | 0 <= i < |w.ledger|
      ensures w.ledger[i].order != id
    {
      assert !HasRow(w.ledger, id, w.ledger[i].payee);
      assert !For(w.ledger[i], id, w.ledger[i].payee);
    }
    NoRowsNoMoney(w.ledger, id);
  }

  // ---- whatever may happen next --------------------------------------------------------------

  /** No continuation at all escrows more than the order's price. */
  ghost predicate NeverOverEscrowed(steps: seq<Step>, id: OrderId)
    requires id in Run(EMPTY, steps).orders
  {
    forall more :: OrderSum(Run(EMPTY, steps + more).ledger, id, AMOUNT) <= Run(EMPTY, steps).orders[id].estimate
  }

  ghost predicate AllFree(o: Order) {
    forall l :: l in o.legs ==> o.legs[l].price == 0
  }

  /** With lost answers among what may happen, an order just created is safe from over-escrow only if
      it costs nothing at all. */
  lemma OnlyFreeOrdersAreSafe(steps: seq<Step>, id: OrderId)
    requires IsFresh(Run(EMPTY, steps), id)
    ensures NeverOverEscrowed(steps, id) <==> AllFree(Run(EMPTY, steps).orders[id])
  {
    var w := Run(EMPTY, steps);
    EveryRunIsSound(steps);
    FreshIsUnclaimed(w, id);
    if AllFree(w.orders[id]) {
      forall more
        ensures OrderSum(Run(EMPTY, steps + more).ledger, id, AMOUNT) <= w.orders[id].estimate
      {
        FreeStaysFree(steps, more, id);
      }
    } else if l :| l in w.orders[id].legs && w.orders[id].legs[l].price > 0 {
      var k: nat := if w.orders[id].estimate < 0 then 0 else w.orders[id].estimate + 1;
      LosingAnswers(w, id, l, k);
      RunSplits(EMPTY, steps, LoseAnswers(id, l, k));
      EnoughOf(k, w.orders[id].legs[l].price, w.orders[id].estimate);
    } else {
      assert steps + [] == steps;
      NegativeTotal(w.orders[id]);
    }
  }

  lemma NegativeTotal(o: Order)
    requires !AllFree(o) && forall l :: l in o.legs ==> o.legs[l].price <= 0
    ensures o.Sum(Price) < 0
  {
    var l :| l in o.legs && o.legs[l].price != 0;
    match l { case Transport => case Equipment => case Labor => }
  }

  lemma EnoughOf(k: nat, price: int, estimate: int)
    requires price > 0 && k == if estimate < 0 then 0 else estimate + 1
    ensures k * price > estimate
  {
    assert k * price >= k * 1;
  }

  lemma FreeStaysFree(steps: seq<Step>, more: seq<Step>, id: OrderId)
    requires id in Run(EMPTY, steps).orders && AllFree(Run(EMPTY, steps).orders[id])
    ensures OrderSum(Run(EMPTY, steps + more).ledger, id, AMOUNT) <= Run(EMPTY, steps).orders[id].estimate
  {
    var all := steps + more;
    LegsOnlyAdvance(steps, more);
    assert OrderAdvances(Run(EMPTY, steps).orders[id], Run(EMPTY, all).orders[id]);
    EveryRunBalances(all, id);
    EveryRunIsSound(steps);
    assert OrderOk(Run(EMPTY, steps).orders[id]);
    FreeStrandsNothing(all, id);
    NeverNegative(all, id);
  }

  lemma {:induction false} FreeStrandsNothing(steps: seq<Step>, id: OrderId)
    requires id in Run(EMPTY, steps).orders ==> AllFree(Run(EMPTY, steps).orders[id])
    ensures AllStranded(steps, id) == 0
  {
    if steps != [] {
      var before := Run(EMPTY, steps[..|steps| - 1]);
      EveryRunIsSound(steps[..|steps| - 1]);
      StepAdvances(before, steps[|steps| - 1]);
      if id in before.orders {
        assert OrderAdvances(before.orders[id], Run(EMPTY, steps).orders[id]);
      }
      FreeStrandsNothing(steps[..|steps| - 1], id);
    }
  }

  // ---- losing one answer after the other -------------------------------------------------------

  function LostAccept(id: OrderId, leg: Leg, executor: UserId): Step {
    Accept(id, leg, Caller(executor, false), executor, true, WalletCall(Lost, Charged, 0))
  }

  function LoseAnswers(id: OrderId, leg: Leg, k: nat): seq<Step> {
    if k == 0 then [] else LoseAnswers(id, leg, k - 1) + [LostAccept(id, leg, k - 1)]
  }

  /** After k of them: the orders as they were, and k rows at the price of the leg. */
  ghost predicate LostTimes(w: World, orders: Table, id: OrderId, price: int, k: nat) {
    && w.orders == orders
    && OrderSum(w.ledger, id, AMOUNT) == k * price
    && forall p: UserId :: HasRow(w.ledger, id, p) ==> p < k
  }

  lemma {:induction false} LosingAnswers(w: World, id: OrderId, leg: Leg, k: nat)
    requires Inv(w) && IsFresh(w, id) && leg in w.orders[id].legs && w.orders[id].legs[leg].price >= 0
    ensures LostTimes(Run(w, LoseAnswers(id, leg, k)), w.orders, id, w.orders[id].legs[leg].price, k)
  {
    if k == 0 {
      LosingNone(w, id, w.orders[id].legs[leg].price);
    } else {
      LosingAnswers(w, id, leg, k - 1);
      FreshIsFree(w, id, leg);
      RunOneMore(w, LoseAnswers(id, leg, k - 1), LostAccept(id, leg, k - 1));
      LosingOneMore(Run(w, LoseAnswers(id, leg, k - 1)), w.orders, id, leg, k - 1);
    }
  }

  lemma LosingNone(w: World, id: OrderId, price: int)
    requires Inv(w) && IsFresh(w, id)
    ensures LostTimes(w, w.orders, id, price, 0)
  {
    FreshIsUnclaimed(w, id);
  }

  /** A leg anybody may take, at a price the ledger can hold. */
  ghost predicate FreeLeg(orders: Table, id: OrderId, leg: Leg) {
    && Claimable(orders, id, leg) && ValidMethod(orders[id].paymentMethod)
    && orders[id].legs[leg].price >= 0 && FitsNumeric(orders[id].legs[leg].price)
  }

  lemma FreshIsFree(w: World, id: OrderId, leg: Leg)
    requires Inv(w) && IsFresh(w, id) && leg in w.orders[id].legs && w.orders[id].legs[leg].price >= 0
    ensures FreeLeg(w.orders, id, leg)
  {
    assert OrderOk(w.orders[id]) && RowOk(w.orders[id].legs[leg]);
  }

  lemma LosingOneMore(w: World, orders: Table, id: OrderId, leg: Leg, k: nat)
    requires FreeLeg(orders, id, leg)
    requires LostTimes(w, orders, id, orders[id].legs[leg].price, k)
    ensures LostTimes(Do(w, LostAccept(id, leg, k)).0, orders, id, orders[id].legs[leg].price, k + 1)
  {
    var price: int := orders[id].legs[leg].price;
    assert (k + 1) * price == k * price + price;
    LosingOne(w, id, leg, k);
  }

  lemma LosingOne(w: World, id: OrderId, leg: Leg, p: UserId)
    requires FreeLeg(w.orders, id, leg) && !HasRow(w.ledger, id, p)
    ensures var row := NewRow(id, w.orders[id].client, p, w.orders[id].legs[leg].price, 0);
            && Do(w, LostAccept(id, leg, p)).0 == World(w.orders, w.ledger + [row])
            && OrderSum(w.ledger + [row], id, AMOUNT) == OrderSum(w.ledger, id, AMOUNT) + w.orders[id].legs[leg].price
            && forall q: UserId :: HasRow(w.ledger + [row], id, q) ==> HasRow(w.ledger, id, q) || q == p
  {
    var row := NewRow(id, w.orders[id].client, p, w.orders[id].legs[leg].price, 0);
    FreeCommission(w.orders[id].legs[leg].price);
    OrderSumAppend(w.ledger, row, id, AMOUNT);
    OnlyOneMoreRow(w.ledger, row);
  }

  // ---- as long as no answer is lost ---------------------------------------------------------------

  /** No continuation without a lost answer escrows more than the order's price. */
  ghost predicate NeverOverEscrowedUnlessLost(steps: seq<Step>, id: OrderId)
    requires id in Run(EMPTY, steps).orders
  {
    forall more :: NoLostAnswer(more) ==>
      OrderSum(Run(EMPTY, steps + more).ledger, id, AMOUNT) <= Run(EMPTY, steps).orders[id].estimate
  }

  /** While no answer is lost, an order just created is safe from over-escrow if and only if none of
      its legs was priced below zero. */
  lemma OverEscrowNeedsANegativeLeg(steps: seq<Step>, id: OrderId)
    requires IsFresh(Run(EMPTY, steps), id)
    ensures NeverOverEscrowedUnlessLost(steps, id) <==> NoNegativeLeg(Run(EMPTY, steps).orders[id])
  {
    if NoNegativeLeg(Run(EMPTY, steps).orders[id]) {
      forall more | NoLostAnswer(more)
        ensures OrderSum(Run(EMPTY, steps + more).ledger, id, AMOUNT) <= Run(EMPTY, steps).orders[id].estimate
      {
        StaysWithinEstimate(steps, more, id);
      }
    } else {
      EverybodyAcceptsOverEscrows(steps, id);
    }
  }

  lemma StaysWithinEstimate(steps: seq<Step>, more: seq<Step>, id: OrderId)
    requires IsFresh(Run(EMPTY, steps), id) && NoLostAnswer(more)
    requires NoNegativeLeg(Run(EMPTY, steps).orders[id])
    ensures OrderSum(Run(EMPTY, steps + more).ledger, id, AMOUNT) <= Run(EMPTY, steps).orders[id].estimate
  {
    LegsOnlyAdvance(steps, more);
    assert OrderAdvances(Run(EMPTY, steps).orders[id], Run(EMPTY, steps + more).orders[id]);
    EveryRunIsSound(steps);
    FreshIsUnclaimed(Run(EMPTY, steps), id);
    EveryRunBalances(steps, id);
    NothingMoreStranded(steps, more, id);
    EscrowWithinEstimate(steps + more, id);
  }

  lemma {:induction false} NothingMoreStranded(steps: seq<Step>, more: seq<Step>, id: OrderId)
    requires NoLostAnswer(more)
    ensures AllStranded(steps + more, id) == AllStranded(steps, id)
    ensures AllUnescrowed(steps + more, id) >= AllUnescrowed(steps, id)
  {
    if more == [] {
      assert steps + more == steps;
    } else {
      var n := |more| - 1;
      NothingMoreStranded(steps, more[..n], id);
      assert (steps + more)[..|steps + more| - 1] == steps + more[..n];
      StepNeverNegative(Run(EMPTY, steps + more[..n]), more[n], id);
    }
  }

  lemma EverybodyAcceptsOverEscrows(steps: seq<Step>, id: OrderId)
    requires IsFresh(Run(EMPTY, steps), id) && !NoNegativeLeg(Run(EMPTY, steps).orders[id])
    ensures NoLostAnswer(AcceptEveryLeg(id))
    ensures OrderSum(Run(EMPTY, steps + AcceptEveryLeg(id)).ledger, id, AMOUNT) > Run(EMPTY, steps).orders[id].estimate
  {
    EveryRunIsSound(steps);
    OffersEscrowOverTotal(Run(EMPTY, steps), id);
    RunSplits(EMPTY, steps, AcceptEveryLeg(id));
  }

  lemma OffersEscrowOverTotal(w: World, id: OrderId)
    requires Inv(w) && IsFresh(w, id) && !NoNegativeLeg(w.orders[id])
    ensures OrderSum(Run(w, AcceptEveryLeg(id)).ledger, id, AMOUNT) > w.orders[id].estimate
  {
    AllAccepted(w, id);
    assert OrderOk(w.orders[id]);
    SumsOverTotal(w.orders[id], Run(w, AcceptEveryLeg(id)).orders[id]);
  }

  // ---- everybody accepts -------------------------------------------------------------

  function PlainAccept(id: OrderId, leg: Leg, executor: UserId): Step {
    Accept(id, leg, Caller(executor, false), executor, true, WalletCall(Answered, Charged, 0))
  }

  ghost function Offer(w: World, id: OrderId, l: Leg, p: UserId): World {
    DoAccept(w, id, l, Caller(p, false), p, true, WalletCall(Answered, Charged, 0)).0
  }

  function AcceptEveryLeg(id: OrderId): seq<Step> {
    [PlainAccept(id, Transport, 0), PlainAccept(id, Equipment, 1), PlainAccept(id, Labor, 2)]
  }

  function Executor(l: Leg): UserId {
    match l case Transport => 0 case Equipment => 1 case Labor => 2
  }

  /** The order after its first n legs were offered to their executors: those not priced below
      zero are taken, and only those executors have rows. */
  ghost predicate Offered(w: World, o: Order, id: OrderId, n: nat) {
    && OfferedLegs(w.orders, o, id, n)
    && (forall p: UserId :: HasRow(w.ledger, id, p) ==> p < n)
    && OrderSum(w.ledger, id, AMOUNT) == w.orders[id].Sum(ClaimedPrice)
  }

  ghost predicate OfferedLegs(t: Table, o: Order, id: OrderId, n: nat) {
    && id in t
    && t[id].(legs := o.legs) == o
    && t[id].legs.Keys == o.legs.Keys
    && forall l :: l in o.legs ==> t[id].legs[l] == AfterOffer(o, l, n)
  }

  ghost function AfterOffer(o: Order, l: Leg, n: nat): LegRow
    requires l in o.legs
  {
    if Executor(l) < n && o.legs[l].price >= 0 then LegRow(Accepted, Some(Executor(l)), o.legs[l].price)
    else LegRow(Published, None, o.legs[l].price)
  }

  lemma OfferOne(w: World, o: Order, id: OrderId, l: Leg)
    requires OrderOk(o) && Offered(w, o, id, Executor(l))
    ensures Offered(Offer(w, id, l, Executor(l)), o, id, Executor(l) + 1)
  {
    assert l in o.legs ==> RowOk(o.legs[l]);
    OfferTaken(w, id, l, Executor(l));
    if l in o.legs && o.legs[l].price >= 0 {
      Taken(w, o, id, l);
    }
  }

  /** A published leg is taken, with a new row behind it, unless its price is negative. */
  lemma OfferTaken(w: World, id: OrderId, l: Leg, p: UserId)
    requires id in w.orders && !HasRow(w.ledger, id, p) && ValidMethod(w.orders[id].paymentMethod)
    requires l in w.orders[id].legs ==>
               && w.orders[id].legs[l] == LegRow(Published, None, w.orders[id].legs[l].price)
               && FitsNumeric(w.orders[id].legs[l].price)
    ensures Offer(w, id, l, p)
         == if l in w.orders[id].legs && w.orders[id].legs[l].price >= 0 then Grown(w, id, l, p) else w
  {
    if l in w.orders[id].legs {
      FreeCommission(w.orders[id].legs[l].price);
    }
  }

  ghost function Grown(w: World, id: OrderId, l: Leg, p: UserId): World
    requires HasLeg(w.orders, id, l)
  {
    World(Claim(w.orders, id, l, p), w.ledger + [NewRow(id, w.orders[id].client, p, w.orders[id].legs[l].price, 0)])
  }

  lemma Taken(w: World, o: Order, id: OrderId, l: Leg)
    requires l in o.legs && o.legs[l].price >= 0 && Offered(w, o, id, Executor(l))
    ensures Offered(Grown(w, id, l, Executor(l)), o, id, Executor(l) + 1)
  {
    TakenRows(w.ledger, NewRow(id, w.orders[id].client, Executor(l), w.orders[id].legs[l].price, 0), id, Executor(l));
    TakenMoney(w, id, l, Executor(l));
    TakenLegs(w.orders, o, id, l);
  }

  lemma TakenLegs(t: Table, o: Order, id: OrderId, l: Leg)
    requires l in o.legs && o.legs[l].price >= 0 && OfferedLegs(t, o, id, Executor(l))
    ensures OfferedLegs(Claim(t, id, l, Executor(l)), o, id, Executor(l) + 1)
  {
    forall k | k in o.legs
      ensures Claim(t, id, l, Executor(l))[id].legs[k] == AfterOffer(o, k, Executor(l) + 1)
    {
      assert k != l ==> Executor(k) != Executor(l);
    }
  }

  lemma TakenRows(rows: Rows, t: Tx, id: OrderId, n: nat)
    requires (forall p: UserId :: HasRow(rows, id, p) ==> p < n) && For(t, id, n)
    ensures forall p: UserId :: HasRow(rows + [t], id, p) ==> p < n + 1
  {
    OnlyOneMoreRow(rows, t);
  }

  lemma TakenMoney(w: World, id: OrderId, l: Leg, p: UserId)
    requires Claimable(w.orders, id, l) && OrderSum(w.ledger, id, AMOUNT) == w.orders[id].Sum(ClaimedPrice)
    ensures var w' := Grown(w, id, l, p); OrderSum(w'.ledger, id, AMOUNT) == w'.orders[id].Sum(ClaimedPrice)
  {
    var row, o := NewRow(id, w.orders[id].client, p, w.orders[id].legs[l].price, 0), w.orders[id];
    OrderSumAppend(w.ledger, row, id, AMOUNT);
    ClaimCounts(o, l, p);
    var o' := o.(legs := o.legs[l := o.legs[l].(status := Accepted, executor := Some(p))]);
    assert Grown(w, id, l, p) == World(w.orders[id := o'], w.ledger + [row]);
  }

  lemma FreshIsOffered(w: World, id: OrderId)
    requires Inv(w) && IsFresh(w, id)
    ensures OrderOk(w.orders[id]) && Offered(w, w.orders[id], id, 0)
  {
    var o := w.orders[id];
    forall l | l in o.legs
      ensures o.legs[l] == LegRow(Published, None, o.legs[l].price)
    {
      assert OrderOk(o) && RowOk(o.legs[l]);
    }
    FreshIsUnclaimed(w, id);
  }

  lemma AllAccepted(w: World, id: OrderId)
    requires Inv(w) && IsFresh(w, id)
    ensures Offered(Run(w, AcceptEveryLeg(id)), w.orders[id], id, 3)
  {
    var o := w.orders[id];
    FreshIsOffered(w, id);
    RunIsOffers(w, id);
    OfferOne(w, o, id, Transport);
    var w1 := Offer(w, id, Transport, 0);
    OfferOne(w1, o, id, Equipment);
    OfferOne(Offer(w1, id, Equipment, 1), o, id, Labor);
  }

  lemma RunIsOffers(w: World, id: OrderId)
    ensures Run(w, AcceptEveryLeg(id))
         == Offer(Offer(Offer(w, id, Transport, 0), id, Equipment, 1), id, Labor, 2)
  {
    RunOfThree(w, PlainAccept(id, Transport, 0), PlainAccept(id, Equipment, 1), PlainAccept(id, Labor, 2));
  }

  lemma SumsOverTotal(o: Order, o': Order)
    requires !NoNegativeLeg(o) && o'.legs.Keys == o.legs.Keys
    requires forall l :: l in o.legs ==> o'.legs[l] == AfterOffer(o, l, 3)
    ensures o'.Sum(ClaimedPrice) > o.Sum(Price)
  {
    LegOverPrice(o, o', Transport);
    LegOverPrice(o, o', Equipment);
    LegOverPrice(o, o', Labor);
    var l :| l in o.legs && o.legs[l].price < 0;
    assert l == Transport || l == Equipment || l == Labor;
  }

  lemma LegOverPrice(o: Order, o': Order, l: Leg)
    requires o'.legs.Keys == o.legs.Keys
    requires l in o.legs ==> o'.legs[l] == AfterOffer(o, l, 3)
    ensures o'.OneLeg(l, ClaimedPrice) >= o.OneLeg(l, Price)
    ensures l in o.legs && o.legs[l].price < 0 ==> o'.OneLeg(l, ClaimedPrice) > o.OneLeg(l, Price)
  {
  }

  // ---- concretely ----------------------------------------------------------------------

  /** A load, and labour booked for a negative number of hours. */
  function ShortShift(load: int64, hours: int64): OrderRequest {
    OrderRequest(TransportWithOptions, true, true,
                 PriceInput(Some(load), None, Some(LaborRequest(1, hours))), None, None)
  }

  /** Every such order is accepted by the server, priced below its own transport leg. */
  lemma NegativeHoursPriceBelowZero(load: int64, hours: int64)
    requires -20_000 < hours < 0 && 100_000 < load + 45_000 * hours && load < 1_000_000_000
    ensures var (w, response) := DoCreate(EMPTY, 0, 7, map[], ShortShift(load, hours));
            && response == Created
            && w.orders[0].estimate == load + 45_000 * hours < load
            && w.orders[0].legs[Labor].price == 45_000 * hours < 0
            && w.orders[0].legs[Transport].price == load
  {
    ShortShiftPriced(load, hours);
    assert Insertable(ShortShiftOrder(load, 45_000 * hours));
    CreateStores(7, ShortShift(load, hours), ShortShiftOrder(load, 45_000 * hours));
  }

  ghost function ShortShiftOrder(load: int64, labor: int64): Order
    requires MIN <= load + labor <= MAX
  {
    Order(7, TransportWithOptions, load + labor, Payme,
          map[Transport := LegRow(Published, None, load), Labor := LegRow(Published, None, labor)])
  }

  /** From the empty tables: create such an order, let everybody accept, and more is held for it than
      it costs. */
  lemma NegativeHoursOverEscrow(load: int64, hours: int64)
    requires -20_000 < hours < 0 && 100_000 < load + 45_000 * hours && load < 1_000_000_000
    ensures var w := Run(EMPTY, [Create(0, 7, map[], ShortShift(load, hours))] + AcceptEveryLeg(0));
            0 in w.orders && OrderSum(w.ledger, 0, AMOUNT) > w.orders[0].estimate
  {
    var create := Create(0, 7, map[], ShortShift(load, hours));
    NegativeHoursPriceBelowZero(load, hours);
    assert [create][..0] == [];
    assert Run(EMPTY, [create]) == Do(Run(EMPTY, []), create).0;
    CreatedIsFresh(EMPTY, create);
    EverybodyAcceptsOverEscrows([create], 0);
    LegsOnlyAdvance([create], AcceptEveryLeg(0));
    assert OrderAdvances(Run(EMPTY, [create]).orders[0], Run(EMPTY, [create] + AcceptEveryLeg(0)).orders[0]);
  }

  /** What create could check: while nothing overflows, the order it stores has a leg priced below zero
      exactly if its total or one of its weighed shares is. */
  lemma CreateStoresNegativeLegIff(w: World, id: OrderId, client: UserId, tariffs: Tariffs, request: OrderRequest)
    requires DoCreate(w, id, client, tariffs, request).1 == Created
    requires SplitSigns.NoWrap(Estimate(tariffs, request.input), OrderTotal(tariffs, request), RequestedLegs(request))
    ensures NoNegativeLeg(DoCreate(w, id, client, tariffs, request).0.orders[id]) <==>
            SafeWeights(Estimate(tariffs, request.input), OrderTotal(tariffs, request), RequestedLegs(request))
  {
    var b, total, legs := Estimate(tariffs, request.input), OrderTotal(tariffs, request), RequestedLegs(request);
    SplitIsNonNegativeIff(b, total, legs);
    var prices := Split(b, total, legs);
    var o := NewOrder(client, tariffs, request);
    assert o.legs.Keys == prices.Keys && forall l :: l in prices ==> o.legs[l].price == prices[l];
  }

  lemma ShortShiftPriced(load: int64, hours: int64)
    requires -20_000 < hours < 0 && 100_000 < load + 45_000 * hours && load < 1_000_000_000
    ensures NewOrder(7, map[], ShortShift(load, hours)) == ShortShiftOrder(load, 45_000 * hours)
    ensures RequestedLegs(ShortShift(load, hours)) == [Transport, Labor]
  {
    ShortShiftEstimate(load, hours);
    var b := Breakdown(load, 0, 45_000 * hours);
    ShortShiftSplit(b);
    NewOrderFrom(7, map[], ShortShift(load, hours), b, load + 45_000 * hours, [Transport, Labor],
                 map[Transport := load, Labor := 45_000 * hours]);
    ShortShiftStored(load, hours, 45_000 * hours);
  }

  lemma ShortShiftStored(load: int64, hours: int64, labor: int64)
    requires MIN <= load + labor <= MAX
    ensures PricedOrder(7, ShortShift(load, hours), load + labor, map[Transport := load, Labor := labor])
         == ShortShiftOrder(load, labor)
  {
  }

  lemma CreateStores(client: UserId, request: OrderRequest, o: Order)
    requires RequestedLegs(request) != [] && request.addressed && FitsColumns(request)
    requires NewOrder(client, map[], request) == o && Insertable(o)
    ensures DoCreate(EMPTY, 0, client, map[], request) == (World(map[0 := o], []), Created)
  {
  }

  lemma ShortShiftEstimate(load: int64, hours: int64)
    requires -20_000 < hours < 0 && 100_000 < load + 45_000 * hours && load < 1_000_000_000
    ensures Estimate(map[], ShortShift(load, hours).input) == Breakdown(load, 0, 45_000 * hours)
    ensures OrderTotal(map[], ShortShift(load, hours)) == load + 45_000 * hours
  {
    MulInRange(1, hours);
    MulInRange(hours, 45_000);
  }

  lemma ShortShiftSplit(b: Breakdown)
    requires b.equipment == 0 && 0 < b.transport < 1_000_000_000 && -1_000_000_000 < b.labor < 0
    requires b.transport + b.labor > 0
    ensures Split(b, b.transport + b.labor, [Transport, Labor]) == map[Transport := b.transport, Labor := b.labor]
  {
    var legs := [Transport, Labor];
    var m := Weights(b, legs);
    assert m == map[Transport := b.transport, Labor := b.labor];
    SumOfTwo(m, Transport, Labor);
    ProductUpTo(b.transport + b.labor, b.transport, 1_000_000_000);
    var labor: int := b.labor;
    ProductUpTo(b.transport + labor, -labor, 1_000_000_000);
    NegatedFactor(b.transport + labor, labor);
    SplitOfOwnCostIsIdentity(b, legs);
  }

  lemma NegatedFactor(x: int, y: int)
    ensures x * -y == -(x * y)
  {
  }

  /** An answer lost after its effect leaves a held row for somebody whose claim was rolled back;
      the next executor's escrow comes on top of it. */
  lemma LostAnswerStrandsARow()
    ensures var w := Run(EMPTY, [Create(0, 7, map[], OneLoad()),
                                 Accept(0, Transport, Caller(1, false), 1, true, WalletCall(Lost, Charged, 0)),
                                 Accept(0, Transport, Caller(2, false), 2, true, WalletCall(Answered, Charged, 0))]);
            0 in w.orders && w.orders[0].estimate == 100 && OrderSum(w.ledger, 0, AMOUNT) == 200
  {
    RunOfThree(EMPTY, Create(0, 7, map[], OneLoad()),
               Accept(0, Transport, Caller(1, false), 1, true, WalletCall(Lost, Charged, 0)),
               Accept(0, Transport, Caller(2, false), 2, true, WalletCall(Answered, Charged, 0)));
    OneLoadPriced();
    CreateStores(7, OneLoad(), OneLeg(Published, None));
    StrandThenClaim();
  }

  lemma StrandThenClaim()
    ensures var w1 := World(map[0 := OneLeg(Published, None)], []);
            var w2 := DoAccept(w1, 0, Transport, Caller(1, false), 1, true, WalletCall(Lost, Charged, 0)).0;
            var w3 := DoAccept(w2, 0, Transport, Caller(2, false), 2, true, WalletCall(Answered, Charged, 0)).0;
            0 in w3.orders && w3.orders[0].estimate == 100 && OrderSum(w3.ledger, 0, AMOUNT) == 200
  {
    var w1 := World(map[0 := OneLeg(Published, None)], []);
    Strand(w1);
    var t1 := NewRow(0, 7, 1, 100, 0);
    assert !HasRow([t1], 0, 2);
    OfferTaken(World(w1.orders, [t1]), 0, Transport, 2);
    assert OrderSum([], 0, AMOUNT) == 0;
    OrderSumAppend([], t1, 0, AMOUNT);
    assert [] + [t1] == [t1];
    OrderSumAppend([t1], NewRow(0, 7, 2, 100, 0), 0, AMOUNT);
  }

  lemma Strand(w: World)
    requires w == World(map[0 := OneLeg(Published, None)], [])
    ensures DoAccept(w, 0, Transport, Caller(1, false), 1, true, WalletCall(Lost, Charged, 0)).0
         == World(w.orders, [NewRow(0, 7, 1, 100, 0)])
  {
    FreeCommission(100);
    assert !HasRow([], 0, 1);
  }
}
