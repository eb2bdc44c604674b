/** Where the money of an order goes, from its price estimate to the payouts: pricing, split, claim,
    escrow, commission and release together, whichever calls of the wallet fail and however. */
module Conservation {
  import opened Models
  import opened GoInt
  import opened Legs
  import opened Pricing
  import opened Orders
  import opened Ledger
  import opened Protocol
  import opened Invariants
  import opened LegMachine

  // ---- per-order sums -------------------------------------------------------------

  ghost function OrderSum(rows: Rows, id: OrderId, m: Measure): int {
    if rows == [] then 0
    else
      var t := rows[|rows| - 1];
      OrderSum(rows[..|rows| - 1], id, m) + if t.order == id then m.Of(t) else 0
  }

  lemma OrderSumAppend(rows: Rows, t: Tx, id: OrderId, m: Measure)
    ensures OrderSum(rows + [t], id, m) == OrderSum(rows, id, m) + if t.order == id then m.Of(t) else 0
  {
    assert (rows + [t])[..|rows|] == rows;
  }

  /** Settling rows moves no money between orders and creates none. */
  lemma {:induction false} AmountsSurvive(rows: Rows, rows': Rows, id: OrderId)
    requires |rows| == |rows'| && Survives(rows, rows')
    ensures OrderSum(rows', id, AMOUNT) == OrderSum(rows, id, AMOUNT)
  {
    if rows != [] {
      var n := |rows| - 1;
      assert RowSurvives(rows[n], rows'[n]);
      assert forall i :: 0 <= i < n ==> RowSurvives(rows[i], rows'[i]);
      AmountsSurvive(rows[..n], rows'[..n], id);
    }
  }

  ghost function ClaimedPrice(r: LegRow): int {
    if r.executor.Some? then r.price else 0
  }

  /** Both parts of what an escrow row pays out, once released. */
  ghost function PaidOut(rows: Rows, id: OrderId): int {
    OrderSum(rows, id, CREDITED) + OrderSum(rows, id, FEES)
  }

  // ---- escrow without a leg, legs without escrow --------------------------------------

  /** Claimed by the wallet but not by the orders service: an accept whose answer was lost after its
      escrow was opened leaves a row behind no leg. */
  ghost function Stranded(w: World, s: Step, id: OrderId): int {
    if s.Accept? && s.id == id && s.call.reply == Lost && |Do(w, s).0.ledger| > |w.ledger| && HasLeg(w.orders, id, s.leg)
    then w.orders[id].legs[s.leg].price
    else 0
  }

  /** The branch of the wallet that answers an accept with a row opened earlier: the price of the
      leg then taken is not escrowed. */
  ghost function Unescrowed(w: World, s: Step, id: OrderId): int {
    if s.Accept? && s.id == id && Do(w, s).1 == Ok && HasRow(w.ledger, id, s.executor)
       && HasLeg(w.orders, id, s.leg)
    then w.orders[id].legs[s.leg].price
    else 0
  }

  ghost function AllStranded(steps: seq<Step>, id: OrderId): int {
    if steps == [] then 0
    else
      var before := steps[..|steps| - 1];
      AllStranded(before, id) + Stranded(Run(EMPTY, before), steps[|steps| - 1], id)
  }

  ghost function AllUnescrowed(steps: seq<Step>, id: OrderId): int {
    if steps == [] then 0
    else
      var before := steps[..|steps| - 1];
      AllUnescrowed(before, id) + Unescrowed(Run(EMPTY, before), steps[|steps| - 1], id)
  }

  /** Both are sums of prices, never negative. */
  lemma {:induction false} NeverNegative(steps: seq<Step>, id: OrderId)
    ensures AllStranded(steps, id) >= 0 && AllUnescrowed(steps, id) >= 0
  {
    if steps != [] {
      var before, last := steps[..|steps| - 1], steps[|steps| - 1];
      NeverNegative(before, id);
      StepNeverNegative(Run(EMPTY, before), last, id);
    }
  }

  lemma StepNeverNegative(w: World, s: Step, id: OrderId)
    ensures Stranded(w, s, id) >= 0 && Unescrowed(w, s, id) >= 0
  {
    if s.Accept? && HasLeg(w.orders, s.id, s.leg) {
      OpenedIsOneRow(w, s.id, s.leg, s.executor, s.call);
    }
  }

  // ---- the balance -----------------------------------------------------------------------

  /** The balance of one order: its escrow is the price of its claimed legs, plus `net`. */
  ghost predicate Balanced(w: World, id: OrderId, net: int) {
    if id in w.orders then OrderSum(w.ledger, id, AMOUNT) == w.orders[id].Sum(ClaimedPrice) + net
    else OrderSum(w.ledger, id, AMOUNT) == 0 && net == 0
  }

  /** Over every run: the escrow of an order is the price of its claimed legs, plus what lost answers
      stranded, less what was taken over existing rows. */
  lemma {:induction false} EveryRunBalances(steps: seq<Step>, id: OrderId)
    ensures Balanced(Run(EMPTY, steps), id, AllStranded(steps, id) - AllUnescrowed(steps, id))
  {
    if steps != [] {
      var before := steps[..|steps| - 1];
      EveryRunBalances(before, id);
      EveryRunIsSound(before);
      StepBalances(Run(EMPTY, before), steps[|steps| - 1], id, AllStranded(before, id) - AllUnescrowed(before, id));
    }
  }

  lemma StepBalances(w: World, s: Step, id: OrderId, net: int)
    requires Inv(w) && Balanced(w, id, net)
    ensures Balanced(Do(w, s).0, id, net + Stranded(w, s, id) - Unescrowed(w, s, id))
  {
    match s {
      case Create(id', _, _, _) => CreateBalances(w, s, id, net);
      case Accept(_, _, _, _, _, _) => AcceptBalances(w, s, id, net);
      case UpdateStatus(_, _, _, _) => SettleBalances(w, s, id, net);
      case Cancel(_, _, _) => SettleBalances(w, s, id, net);
      case Confirm(_, _, _) => SettleBalances(w, s, id, net);
    }
  }

  lemma CreateBalances(w: World, s: Step, id: OrderId, net: int)
    requires s.Create? && Balanced(w, id, net)
    ensures Balanced(Do(w, s).0, id, net)
  {
    NothingClaimedYet(s.client, s.tariffs, s.request);
    CreateOnlyAdds(w, s);
  }

  lemma CreateOnlyAdds(w: World, s: Step)
    requires s.Create?
    ensures Do(w, s).0.ledger == w.ledger
    ensures Do(w, s).0.orders == w.orders
            || (s.id !in w.orders && Do(w, s).0.orders == w.orders[s.id := NewOrder(s.client, s.tariffs, s.request)])
  {
  }

  lemma NothingClaimedYet(client: UserId, tariffs: Tariffs, request: OrderRequest)
    ensures NewOrder(client, tariffs, request).Sum(ClaimedPrice) == 0
    ensures DistinctExecutors(NewOrder(client, tariffs, request))
  {
  }

  ghost predicate DistinctExecutors(o: Order) {
    forall l, k :: l in o.legs && k in o.legs && l != k && o.legs[l].executor.Some? ==>
      o.legs[l].executor != o.legs[k].executor
  }

  /** Status changes, cancellations and confirmations touch neither claims nor amounts. */
  lemma SettleBalances(w: World, s: Step, id: OrderId, net: int)
    requires (s.UpdateStatus? || s.Cancel? || s.Confirm?) && Inv(w) && Balanced(w, id, net)
    ensures Balanced(Do(w, s).0, id, net)
  {
    LedgerOnlySettles(w, s);
    AmountsSurvive(w.ledger, Do(w, s).0.ledger, id);
    if id in w.orders {
      SameClaims(w, s, id);
    }
  }

  lemma LedgerOnlySettles(w: World, s: Step)
    requires (s.UpdateStatus? || s.Cancel? || s.Confirm?) && Inv(w)
    ensures |Do(w, s).0.ledger| == |w.ledger| && Survives(w.ledger, Do(w, s).0.ledger)
    ensures Do(w, s).0.orders.Keys == w.orders.Keys
  {
  }

  lemma SameClaims(w: World, s: Step, id: OrderId)
    requires (s.UpdateStatus? || s.Cancel? || s.Confirm?) && id in w.orders
    ensures id in Do(w, s).0.orders
    ensures Do(w, s).0.orders[id].Sum(ClaimedPrice) == w.orders[id].Sum(ClaimedPrice)
    ensures DistinctExecutors(Do(w, s).0.orders[id]) <==> DistinctExecutors(w.orders[id])
  {
    OrderEffect(w, s, id);
    forall l | l in w.orders[id].legs
      ensures Do(w, s).0.orders[id].legs[l].executor == w.orders[id].legs[l].executor
      ensures Do(w, s).0.orders[id].legs[l].price == w.orders[id].legs[l].price
    {
      LegEffect(w, s, id, l);
    }
    ClaimsCompare(w.orders[id], Do(w, s).0.orders[id]);
  }

  lemma ClaimsCompare(o: Order, o': Order)
    requires o'.legs.Keys == o.legs.Keys
    requires forall l :: l in o.legs ==> o'.legs[l].executor == o.legs[l].executor && o'.legs[l].price == o.legs[l].price
    ensures o'.Sum(ClaimedPrice) == o.Sum(ClaimedPrice)
    ensures DistinctExecutors(o') <==> DistinctExecutors(o)
  {
    assert forall l :: l in o.legs <==> l in o'.legs;
  }

  /** An accept moves the price of its leg into escrow and the leg to its executor, or only one of
      the two. */
  lemma AcceptBalances(w: World, s: Step, id: OrderId, net: int)
    requires s.Accept? && Inv(w) && Balanced(w, id, net)
    ensures Balanced(Do(w, s).0, id, net + Stranded(w, s, id) - Unescrowed(w, s, id))
  {
    if Do(w, s).1 == Ok {
      AcceptOpens(w, s);
      LossIsNotOk(w, s, id);
      ClaimBalances(w, Do(w, s).0, s.id, s.leg, s.executor, id, net);
    } else {
      NoClaimBalances(w, s, id, net);
    }
  }

  lemma LossIsNotOk(w: World, s: Step, id: OrderId)
    requires s.Accept? && Do(w, s).1 == Ok
    ensures s.call.reply == Answered && Stranded(w, s, id) == 0
  {
  }

  /** The ledger after a claim: unchanged, or grown by one row for the claimed leg. */
  ghost predicate OneRowFor(rows: Rows, rows': Rows, id: OrderId, executor: UserId, price: int) {
    if HasRow(rows, id, executor) then rows' == rows
    else
      && |rows'| == |rows| + 1
      && rows' == rows + [rows'[|rows|]]
      && For(rows'[|rows|], id, executor)
      && rows'[|rows|].amount == price
  }

  lemma ClaimBalances(w: World, w': World, at: OrderId, leg: Leg, executor: UserId, id: OrderId, net: int)
    requires Balanced(w, id, net) && Claimable(w.orders, at, leg)
    requires w'.orders == Claim(w.orders, at, leg, executor)
    requires OneRowFor(w.ledger, w'.ledger, at, executor, w.orders[at].legs[leg].price)
    ensures Balanced(w', id, net - if at == id && HasRow(w.ledger, id, executor) then w.orders[at].legs[leg].price else 0)
  {
    ClaimCounts(w.orders[at], leg, executor);
    if !HasRow(w.ledger, at, executor) {
      OrderSumAppend(w.ledger, w'.ledger[|w.ledger|], id, AMOUNT);
    }
  }

  lemma NoClaimBalances(w: World, s: Step, id: OrderId, net: int)
    requires s.Accept? && Balanced(w, id, net) && Do(w, s).1 != Ok
    ensures Balanced(Do(w, s).0, id, net + Stranded(w, s, id))
  {
    RefusedAccept(w, s);
    if Do(w, s).0.ledger != w.ledger {
      OrderSumAppend(w.ledger, Do(w, s).0.ledger[|w.ledger|], id, AMOUNT);
    }
  }

  /** An accept that is not answered well leaves the orders alone, and the ledger too unless its
      answer was lost: then a new row may be there, at the price of the leg. */
  lemma RefusedAccept(w: World, s: Step)
    requires s.Accept? && Do(w, s).1 != Ok
    ensures Do(w, s).0.orders == w.orders
    ensures Do(w, s).0.ledger != w.ledger ==>
              && s.call.reply == Lost && HasLeg(w.orders, s.id, s.leg)
              && OneRowFor(w.ledger, Do(w, s).0.ledger, s.id, s.executor, w.orders[s.id].legs[s.leg].price)
              && |Do(w, s).0.ledger| == |w.ledger| + 1
  {
    if AcceptRefusal(w.orders, s.id, s.leg, s.caller, s.executor, s.licensed).None? {
      OpenedIsOneRow(w, s.id, s.leg, s.executor, s.call);
    }
  }

  /** What a successful accept does to the ledger: nothing, or one new row for exactly this leg. */
  lemma AcceptOpens(w: World, s: Step)
    requires s.Accept? && Do(w, s).1 == Ok
    ensures Claimable(w.orders, s.id, s.leg)
    ensures Do(w, s).0.orders == Claim(w.orders, s.id, s.leg, s.executor)
    ensures w.orders[s.id].legs[s.leg].price >= 0
    ensures OneRowFor(w.ledger, Do(w, s).0.ledger, s.id, s.executor, w.orders[s.id].legs[s.leg].price)
    ensures Do(w, s).0.orders[s.id].HeldBy(s.executor)
  {
    OpenedIsOneRow(w, s.id, s.leg, s.executor, s.call);
    assert Do(w, s).0.orders[s.id].legs[s.leg].executor == Some(s.executor);
  }

  lemma OpenedIsOneRow(w: World, id: OrderId, leg: Leg, executor: UserId, call: WalletCall)
    requires HasLeg(w.orders, id, leg)
    ensures var escrow := LegEscrow(w, id, leg, executor, call);
            escrow.Opened? ==>
              && w.orders[id].legs[leg].price >= 0
              && OneRowFor(w.ledger, AfterEscrow(w.ledger, escrow), id, executor, w.orders[id].legs[leg].price)
  {
  }

  lemma ClaimCounts(o: Order, leg: Leg, executor: UserId)
    requires leg in o.legs && o.legs[leg].executor.None?
    ensures var o' := o.(legs := o.legs[leg := o.legs[leg].(status := Accepted, executor := Some(executor))]);
            && o'.Sum(ClaimedPrice) == o.Sum(ClaimedPrice) + o.legs[leg].price
            && (DistinctExecutors(o') ==> DistinctExecutors(o) && !o.HeldBy(executor))
  {
    var o' := o.(legs := o.legs[leg := o.legs[leg].(status := Accepted, executor := Some(executor))]);
    if DistinctExecutors(o') {
      forall l, k | l in o.legs && k in o.legs && l != k && o.legs[l].executor.Some?
        ensures o.legs[l].executor != o.legs[k].executor
      {
        assert o'.legs[l].executor == o.legs[l].executor;
        assert k != leg ==> o'.legs[k].executor == o.legs[k].executor;
      }
    }
    if o.HeldBy(executor) {
      var k :| k in o.legs && o.legs[k].executor == Some(executor);
      assert k != leg && o'.legs[leg].executor == o'.legs[k].executor;
    }
  }

  // ---- escrow against the estimate ---------------------------------------------------------

  ghost function UnclaimedPrice(r: LegRow): int {
    if r.executor.Some? then 0 else r.price
  }

  ghost predicate NoNegativeLeg(o: Order) {
    forall l :: l in o.legs ==> o.legs[l].price >= 0
  }

  /** In every reachable state: the escrow of an order exceeds its estimate exactly if lost answers
      stranded more than was taken without escrow and what unclaimed legs still cost. */
  lemma EscrowWithinEstimate(steps: seq<Step>, id: OrderId)
    requires id in Run(EMPTY, steps).orders
    ensures var w := Run(EMPTY, steps);
            && (OrderSum(w.ledger, id, AMOUNT) <= w.orders[id].estimate <==>
                AllStranded(steps, id) - AllUnescrowed(steps, id) <= w.orders[id].Sum(UnclaimedPrice))
            && (NoNegativeLeg(w.orders[id]) && AllStranded(steps, id) <= AllUnescrowed(steps, id) ==>
                OrderSum(w.ledger, id, AMOUNT) <= w.orders[id].estimate)
  {
    EveryRunBalances(steps, id);
    EveryRunIsSound(steps);
    assert OrderOk(Run(EMPTY, steps).orders[id]);
    ClaimedAndUnclaimed(Run(EMPTY, steps).orders[id]);
  }

  lemma ClaimedAndUnclaimed(o: Order)
    ensures o.Sum(ClaimedPrice) + o.Sum(UnclaimedPrice) == o.Sum(Price)
    ensures NoNegativeLeg(o) ==> o.Sum(UnclaimedPrice) >= 0
  {
  }

  // ---- what a confirmation pays --------------------------------------------------------------

  /** A confirmation of the order that was let through and reached every payee. */
  ghost predicate FullConfirm(w: World, s: Step, id: OrderId) {
    s.Confirm? && s.id == id && Do(w, s).1 == Ok && id in w.orders && w.orders[id].Executors() <= s.releaseReached
  }

  /** Once a confirmation reached every payee: the rows of its executors are released, what lost
      answers left to anybody else is still held, and payouts and commissions together are the price
      estimate, plus what was stranded, less what was taken without escrow, less what is still held.
      Without lost answers nothing is stranded or still held, so the price is paid exactly if nobody
      took a leg with a price over an existing row, as when the executors are distinct. */
  lemma ConfirmedOrderPaysItsPrice(steps: seq<Step>, id: OrderId)
    requires steps != [] && FullConfirm(Run(EMPTY, steps[..|steps| - 1]), steps[|steps| - 1], id)
    ensures id in Run(EMPTY, steps).orders
    ensures var w, paid := Run(EMPTY, steps), PaidOut(Run(EMPTY, steps).ledger, id);
            && (forall i :: 0 <= i < |w.ledger| && w.ledger[i].order == id ==>
                  w.ledger[i].status == if w.ledger[i].payee in w.orders[id].Executors() then Released else Held)
            && paid == w.orders[id].estimate + AllStranded(steps, id) - AllUnescrowed(steps, id)
                       - OrderSum(w.ledger, id, HELD)
            && (NoLostAnswer(steps) ==> AllStranded(steps, id) == 0 == OrderSum(w.ledger, id, HELD))
            && (NoLostAnswer(steps) ==> (paid == w.orders[id].estimate <==> NothingTakenOver(steps, id)))
            && (NoLostAnswer(steps) && DistinctExecutors(w.orders[id]) ==> NothingTakenOver(steps, id))
  {
    var n := |steps| - 1;
    var before := Run(EMPTY, steps[..n]);
    EveryRunIsSound(steps[..n]);
    OnlyHoldersArePaid(steps[..n]);
    EveryRunBalances(steps, id);
    ConfirmedClaims(before, steps[n], id);
    ConfirmedRows(before, steps[n], id);
    PaidAndHeld(Run(EMPTY, steps).ledger, id);
    TakenOverTerms(steps, id);
    if NoLostAnswer(steps) {
      LossFreeRun(steps, id);
      NothingHeld(Run(EMPTY, steps), id);
      if DistinctExecutors(Run(EMPTY, steps).orders[id]) {
        DistinctTakeNothingOver(steps, id);
      }
    }
  }

  /** The claims after a full confirmation: every leg of the order. */
  lemma ConfirmedClaims(w: World, s: Step, id: OrderId)
    requires Inv(w) && FullConfirm(w, s, id)
    ensures id in Do(w, s).0.orders
    ensures Do(w, s).0.orders[id].Sum(ClaimedPrice) == Do(w, s).0.orders[id].estimate
    ensures Do(w, s).0.orders[id].Executors() == w.orders[id].Executors()
  {
    ReadyIsWorked(w.orders[id]);
    AllClaimed(w.orders[id]);
    SameClaims(w, s, id);
    OrderEffect(w, s, id);
    ConfirmedHolders(w, s, id);
  }

  lemma ConfirmedHolders(w: World, s: Step, id: OrderId)
    requires FullConfirm(w, s, id)
    ensures id in Do(w, s).0.orders && Do(w, s).0.orders[id].Executors() == w.orders[id].Executors()
  {
    var o, o' := w.orders[id], Do(w, s).0.orders[id];
    forall p: UserId
      ensures o'.HeldBy(p) <==> o.HeldBy(p)
    {
      assert forall l :: l in o.legs <==> l in o'.legs;
      assert forall l :: l in o.legs ==> o'.legs[l].executor == o.legs[l].executor;
    }
  }

  lemma AllClaimed(o: Order)
    requires OrderOk(o) && forall l :: l in o.legs ==> o.legs[l].executor.Some?
    ensures o.Sum(ClaimedPrice) == o.estimate
  {
  }

  /** The rows after a full confirmation: released for its executors, held for anybody else. */
  lemma ConfirmedRows(w: World, s: Step, id: OrderId)
    requires Inv(w) && ReleasedToHolders(w) && FullConfirm(w, s, id)
    ensures forall i :: 0 <= i < |Do(w, s).0.ledger| && Do(w, s).0.ledger[i].order == id ==>
              Do(w, s).0.ledger[i].status
              == if Do(w, s).0.ledger[i].payee in w.orders[id].Executors() then Released else Held
  {
    OnlyExecutorsPaid(w, id);
    ReleaseTheRest(w.ledger, id, w.orders[id].Executors(), w.orders[id].Executors() * s.releaseReached);
  }

  /** Before it: nothing refunded, and nothing released to anybody without a leg. */
  lemma OnlyExecutorsPaid(w: World, id: OrderId)
    requires Inv(w) && ReleasedToHolders(w) && id in w.orders && w.orders[id].Ready()
    ensures forall i :: 0 <= i < |w.ledger| && w.ledger[i].order == id ==>
              && w.ledger[i].status != Refunded
              && (w.ledger[i].status == Released ==> w.ledger[i].payee in w.orders[id].Executors())
  {
    ReadyIsWorked(w.orders[id]);
    RowsOfStay(w, id);
  }

  lemma ReleaseTheRest(rows: Rows, id: OrderId, executors: set<UserId>, payees: set<UserId>)
    requires payees == executors
    requires forall i :: 0 <= i < |rows| && rows[i].order == id ==>
               rows[i].status != Refunded && (rows[i].status == Released ==> rows[i].payee in executors)
    ensures forall i :: 0 <= i < |rows| && rows[i].order == id ==>
              ReleaseTo(rows, id, payees)[i].status == if rows[i].payee in executors then Released else Held
  {
  }

  lemma {:induction false} PaidAndHeld(rows: Rows, id: OrderId)
    requires forall i :: 0 <= i < |rows| && rows[i].order == id ==> rows[i].status != Refunded
    ensures PaidOut(rows, id) + OrderSum(rows, id, HELD) == OrderSum(rows, id, AMOUNT)
  {
    if rows != [] {
      PaidAndHeld(rows[..|rows| - 1], id);
    }
  }

  // ---- who is paid ---------------------------------------------------------------------------

  /** Money goes only to people who hold a leg of the order. */
  ghost predicate ReleasedToHolders(w: World) {
    forall i :: 0 <= i < |w.ledger| && w.ledger[i].status == Released ==>
      w.ledger[i].order in w.orders && w.orders[w.ledger[i].order].HeldBy(w.ledger[i].payee)
  }

  lemma {:induction false} OnlyHoldersArePaid(steps: seq<Step>)
    ensures ReleasedToHolders(Run(EMPTY, steps))
  {
    if steps != [] {
      var before := steps[..|steps| - 1];
      OnlyHoldersArePaid(before);
      EveryRunIsSound(before);
      StepPaysHolders(Run(EMPTY, before), steps[|steps| - 1]);
    }
  }

  lemma StepPaysHolders(w: World, s: Step)
    requires Inv(w) && ReleasedToHolders(w)
    ensures ReleasedToHolders(Do(w, s).0)
  {
    var w' := Do(w, s).0;
    forall i | 0 <= i < |w'.ledger| && w'.ledger[i].status == Released
      ensures w'.ledger[i].order in w'.orders && w'.orders[w'.ledger[i].order].HeldBy(w'.ledger[i].payee)
    {
      NewlyReleased(w, s, i);
      HolderStays(w, s, w.ledger[i].order, w.ledger[i].payee);
    }
  }

  /** A released row was released before, or is so to an executor of the order confirmed. */
  lemma NewlyReleased(w: World, s: Step, i: nat)
    requires Inv(w) && ReleasedToHolders(w)
    requires i < |Do(w, s).0.ledger| && Do(w, s).0.ledger[i].status == Released
    ensures i < |w.ledger|
    ensures Do(w, s).0.ledger[i].order == w.ledger[i].order && Do(w, s).0.ledger[i].payee == w.ledger[i].payee
    ensures w.ledger[i].order in w.orders && w.orders[w.ledger[i].order].HeldBy(w.ledger[i].payee)
  {
    match s {
      case Create(_, _, _, _) => CreateOnlyAdds(w, s);
      case Accept(_, _, _, _, _, _) => AcceptOpensHeld(w, s);
      case UpdateStatus(_, _, _, _) =>
      case Cancel(_, _, _) =>
      case Confirm(_, _, _) =>
    }
  }

  lemma AcceptOpensHeld(w: World, s: Step)
    requires s.Accept?
    ensures var rows := Do(w, s).0.ledger;
            || rows == w.ledger
            || (|rows| == |w.ledger| + 1 && rows[..|w.ledger|] == w.ledger && rows[|w.ledger|].status == Held)
  {
  }

  lemma HolderStays(w: World, s: Step, id: OrderId, p: UserId)
    requires Inv(w) && id in w.orders && w.orders[id].HeldBy(p)
    ensures id in Do(w, s).0.orders && Do(w, s).0.orders[id].HeldBy(p)
  {
    StepAdvances(w, s);
    var o, o' := w.orders[id], Do(w, s).0.orders[id];
    var l :| l in o.legs && o.legs[l].executor == Some(p);
    assert OrderAdvances(o, o') && Advances(o.legs[l], o'.legs[l]);
  }

  // ---- runs without lost answers ----------------------------------------------------------------

  ghost predicate NoLostAnswer(steps: seq<Step>) {
    forall i :: 0 <= i < |steps| && steps[i].Accept? ==> steps[i].call.reply != Lost
  }

  /** No leg was accepted, at a price, by somebody who already had a row of the order. */
  ghost predicate NothingTakenOver(steps: seq<Step>, id: OrderId) {
    steps == [] ||
    (NothingTakenOver(steps[..|steps| - 1], id) &&
     Unescrowed(Run(EMPTY, steps[..|steps| - 1]), steps[|steps| - 1], id) == 0)
  }

  lemma {:induction false} TakenOverTerms(steps: seq<Step>, id: OrderId)
    ensures AllUnescrowed(steps, id) == 0 <==> NothingTakenOver(steps, id)
  {
    if steps != [] {
      var n := |steps| - 1;
      TakenOverTerms(steps[..n], id);
      NeverNegative(steps[..n], id);
      StepNeverNegative(Run(EMPTY, steps[..n]), steps[n], id);
    }
  }

  /** Every row of an order belongs to somebody who holds one of its legs. */
  ghost predicate RowsHaveLegs(w: World) {
    forall i :: 0 <= i < |w.ledger| && w.ledger[i].order in w.orders ==>
      w.orders[w.ledger[i].order].HeldBy(w.ledger[i].payee)
  }

  /** Without lost answers nothing is stranded, and every row belongs to somebody with a leg. */
  lemma {:induction false} LossFreeRun(steps: seq<Step>, id: OrderId)
    requires NoLostAnswer(steps)
    ensures AllStranded(steps, id) == 0 && RowsHaveLegs(Run(EMPTY, steps))
  {
    if steps != [] {
      var before, last := steps[..|steps| - 1], steps[|steps| - 1];
      LossFreeRun(before, id);
      EveryRunIsSound(before);
      LossFreeStep(Run(EMPTY, before), last);
    }
  }

  /** Nor is anything taken over, unless two legs share an executor. */
  lemma {:induction false} DistinctTakeNothingOver(steps: seq<Step>, id: OrderId)
    requires NoLostAnswer(steps) && id in Run(EMPTY, steps).orders && DistinctExecutors(Run(EMPTY, steps).orders[id])
    ensures AllUnescrowed(steps, id) == 0
  {
    if steps != [] {
      var before, last := steps[..|steps| - 1], steps[|steps| - 1];
      LossFreeRun(before, id);
      EveryRunIsSound(before);
      EveryRunBalances(before, id);
      DistinctStep(Run(EMPTY, before), last, id);
      if id in Run(EMPTY, before).orders {
        DistinctTakeNothingOver(before, id);
      }
    }
  }

  lemma LossFreeStep(w: World, s: Step)
    requires Inv(w) && RowsHaveLegs(w) && (s.Accept? ==> s.call.reply != Lost)
    ensures RowsHaveLegs(Do(w, s).0)
  {
    KeepsHolders(w, s);
    match s {
      case Create(_, _, _, _) => CreateOnlyAdds(w, s);
      case Accept(_, _, _, _, _, _) =>
        if Do(w, s).1 == Ok {
          AcceptOpens(w, s);
          HoldersOfGrown(w, Do(w, s).0, s.id, s.executor);
        } else {
          RefusedAccept(w, s);
        }
      case UpdateStatus(_, _, _, _) => SettledRowsHaveLegs(w, s);
      case Cancel(_, _, _) => SettledRowsHaveLegs(w, s);
      case Confirm(_, _, _) => SettledRowsHaveLegs(w, s);
    }
  }

  lemma SettledRowsHaveLegs(w: World, s: Step)
    requires (s.UpdateStatus? || s.Cancel? || s.Confirm?) && Inv(w)
    requires forall i :: 0 <= i < |w.ledger| ==>
               w.ledger[i].order in Do(w, s).0.orders && Do(w, s).0.orders[w.ledger[i].order].HeldBy(w.ledger[i].payee)
    ensures RowsHaveLegs(Do(w, s).0)
  {
    var w' := Do(w, s).0;
    LedgerOnlySettles(w, s);
    forall i | 0 <= i < |w'.ledger|
      ensures w'.ledger[i].order == w.ledger[i].order && w'.ledger[i].payee == w.ledger[i].payee
    {
      assert RowSurvives(w.ledger[i], w'.ledger[i]);
    }
  }

  /** If executors are distinct after a step they were before, and the step took nothing over. */
  lemma DistinctStep(w: World, s: Step, id: OrderId)
    requires Inv(w) && RowsHaveLegs(w)
    requires id in Do(w, s).0.orders && DistinctExecutors(Do(w, s).0.orders[id])
    ensures Unescrowed(w, s, id) == 0
    ensures id in w.orders ==> DistinctExecutors(w.orders[id])
  {
    match s {
      case Create(_, _, _, _) => CreateOnlyAdds(w, s);
      case Accept(_, _, _, _, _, _) =>
        if Do(w, s).1 == Ok {
          AcceptOpens(w, s);
          ClaimCounts(w.orders[s.id], s.leg, s.executor);
          if HasRow(w.ledger, s.id, s.executor) {
            AlreadyHolds(w, s.id, s.executor);
          }
        } else {
          RefusedAccept(w, s);
        }
      case UpdateStatus(_, _, _, _) => if id in w.orders { SameClaims(w, s, id); }
      case Cancel(_, _, _) => if id in w.orders { SameClaims(w, s, id); }
      case Confirm(_, _, _) => if id in w.orders { SameClaims(w, s, id); }
    }
  }

  lemma KeepsHolders(w: World, s: Step)
    requires Inv(w) && RowsHaveLegs(w)
    ensures forall i :: 0 <= i < |w.ledger| ==>
              w.ledger[i].order in Do(w, s).0.orders
              && Do(w, s).0.orders[w.ledger[i].order].HeldBy(w.ledger[i].payee)
  {
    StepAdvances(w, s);
    forall i | 0 <= i < |w.ledger|
      ensures w.ledger[i].order in Do(w, s).0.orders
      ensures Do(w, s).0.orders[w.ledger[i].order].HeldBy(w.ledger[i].payee)
    {
      var t := w.ledger[i];
      assert TxOk(w.orders, t);
      var o, o' := w.orders[t.order], Do(w, s).0.orders[t.order];
      var l :| l in o.legs && o.legs[l].executor == Some(t.payee);
      assert OrderAdvances(o, o') && Advances(o.legs[l], o'.legs[l]);
    }
  }

  lemma HoldersOfGrown(w: World, w': World, id: OrderId, executor: UserId)
    requires id in w'.orders && w'.orders[id].HeldBy(executor) && OneRowForAny(w.ledger, w'.ledger, id, executor)
    requires forall i :: 0 <= i < |w.ledger| ==>
               w.ledger[i].order in w'.orders && w'.orders[w.ledger[i].order].HeldBy(w.ledger[i].payee)
    ensures RowsHaveLegs(w')
  {
  }

  ghost predicate OneRowForAny(rows: Rows, rows': Rows, id: OrderId, executor: UserId) {
    rows' == rows || (|rows'| == |rows| + 1 && rows' == rows + [rows'[|rows|]] && For(rows'[|rows|], id, executor))
  }

  lemma AlreadyHolds(w: World, id: OrderId, executor: UserId)
    requires Inv(w) && RowsHaveLegs(w) && HasRow(w.ledger, id, executor)
    ensures id in w.orders && w.orders[id].HeldBy(executor)
  {
    var i :| 0 <= i < |w.ledger| && For(w.ledger[i], id, executor);
    assert TxOk(w.orders, w.ledger[i]);
  }

  lemma NothingHeld(w: World, id: OrderId)
    requires RowsHaveLegs(w) && id in w.orders
    requires forall i :: 0 <= i < |w.ledger| && w.ledger[i].order == id ==>
               w.ledger[i].status == if w.ledger[i].payee in w.orders[id].Executors() then Released else Held
    ensures OrderSum(w.ledger, id, HELD) == 0
  {
    NoneHeld(w.ledger, id);
  }

  lemma {:induction false} NoneHeld(rows: Rows, id: OrderId)
    requires forall i :: 0 <= i < |rows| && rows[i].order == id ==> rows[i].status != Held
    ensures OrderSum(rows, id, HELD) == 0
  {
    if rows != [] {
      NoneHeld(rows[..|rows| - 1], id);
    }
  }
}
