/** What every run of the protocol keeps, whichever calls to the wallet fail and however. */
module Invariants {
  import opened Models
  import opened GoInt
  import opened Legs
  import opened Pricing
  import opened Orders
  import opened Ledger
  import opened Protocol

  /** In every reachable state a claimed leg has escrow behind it, a released row means every leg
      is completed, a refunded row that every leg is cancelled; hence an order in neither state has
      only held rows, and no order has both a payout and a refund. */
  lemma {:induction false} EveryRunIsSound(steps: seq<Step>)
    ensures Inv(Run(EMPTY, steps))
  {
    if steps != [] {
      var before := Run(EMPTY, steps[..|steps| - 1]);
      EveryRunIsSound(steps[..|steps| - 1]);
      StepKeepsInv(before, steps[|steps| - 1]);
    }
  }

  lemma NeverPaidAndRefunded(steps: seq<Step>, i: nat, j: nat)
    requires var rows := Run(EMPTY, steps).ledger;
             i < |rows| && j < |rows| && rows[i].order == rows[j].order
    ensures var w := Run(EMPTY, steps);
            && w.ledger[i].order in w.orders
            && !(w.ledger[i].status == Released && w.ledger[j].status == Refunded)
            && (w.ledger[i].status != Held ==>
                  w.orders[w.ledger[i].order].All(Completed) || w.orders[w.ledger[i].order].All(Cancelled))
  {
    EveryRunIsSound(steps);
    var w := Run(EMPTY, steps);
    assert TxOk(w.orders, w.ledger[i]) && TxOk(w.orders, w.ledger[j]);
    SomeLeg(w.orders[w.ledger[i].order]);
  }

  lemma SomeLeg(o: Order)
    requires OrderOk(o)
    ensures exists l :: l in o.legs
  {
    assert Transport in o.legs || Equipment in o.legs || Labor in o.legs;
  }

  lemma StepKeepsInv(w: World, s: Step)
    requires Inv(w)
    ensures Inv(Do(w, s).0)
  {
    match s {
      case Create(id, client, tariffs, request) => CreateKeepsInv(w, id, client, tariffs, request);
      case Accept(id, leg, caller, executor, licensed, call) =>
        AcceptKeepsInv(w, id, leg, caller, executor, licensed, call);
      case UpdateStatus(id, leg, caller, status) => UpdateKeepsInv(w, id, leg, caller, status);
      case Cancel(id, caller, refundReached) => CancelKeepsInv(w, id, caller, refundReached);
      case Confirm(id, caller, releaseReached) => ConfirmKeepsInv(w, id, caller, releaseReached);
    }
  }

  // ---- create -----------------------------------------------------------------

  lemma CreateKeepsInv(w: World, id: OrderId, client: UserId, tariffs: Tariffs, request: OrderRequest)
    requires Inv(w)
    ensures Inv(DoCreate(w, id, client, tariffs, request).0)
  {
    if DoCreate(w, id, client, tariffs, request).1 == Created {
      NewOrderOk(client, tariffs, request);
      StoredKeepsInv(w, id, NewOrder(client, tariffs, request));
    }
  }

  lemma StoredKeepsInv(w: World, id: OrderId, o: Order)
    requires Inv(w) && id !in w.orders && OrderOk(o) && forall l :: l in o.legs ==> o.legs[l].executor.None?
    ensures Inv(w.(orders := w.orders[id := o]))
  {
    forall i | 0 <= i < |w.ledger|
      ensures TxOk(w.orders[id := o], w.ledger[i])
    {
      assert TxOk(w.orders, w.ledger[i]);
    }
  }

  /** The prices of the legs a stored order starts with add up to its price estimate. */
  lemma NewOrderOk(client: UserId, tariffs: Tariffs, request: OrderRequest)
    requires RequestedLegs(request) != [] && Insertable(NewOrder(client, tariffs, request))
    ensures OrderOk(NewOrder(client, tariffs, request))
  {
    var o := NewOrder(client, tariffs, request);
    var legs := RequestedLegs(request);
    var b, total := Estimate(tariffs, request.input), OrderTotal(tariffs, request);
    PricesAddUp(o, b, total, legs);
    FreshLegsOk(o, Split(b, total, legs));
  }

  lemma PricesAddUp(o: Order, b: Breakdown, total: int64, legs: seq<Leg>)
    requires exists e, l :: legs == LegsFor(o.kind, e, l)
    requires legs != [] && FitsNumeric(total)
    requires var prices := Split(b, total, legs); o.legs == map l | l in prices :: LegRow(Published, None, prices[l])
    requires forall l :: l in o.legs ==> FitsNumeric(o.legs[l].price)
    ensures o.Sum(Price) == total
  {
    var prices := Split(b, total, legs);
    SplitIsExact(b, total, legs);
    assert forall l <- legs :: l in o.legs && o.legs[l].price == prices[l];
    StoredPartsSumExactly(prices, legs, total);
    LegSumIsSplitSum(o, prices, legs);
  }

  lemma FreshLegsOk(o: Order, prices: Prices)
    requires o.legs == map l | l in prices :: LegRow(Published, None, prices[l])
    requires forall l :: l in o.legs ==> FitsNumeric(o.legs[l].price)
    ensures forall l :: l in o.legs ==> RowOk(o.legs[l]) && o.legs[l].status != Cancelled
  {
  }

  lemma LegSumIsSplitSum(o: Order, prices: Prices, legs: seq<Leg>)
    requires exists e, b :: legs == LegsFor(o.kind, e, b)
    requires o.legs == map l | l in prices :: LegRow(Published, None, prices[l])
    requires prices.Keys == (set l | l in legs) && Covers(prices, legs)
    ensures o.Sum(Price) == SumOver(prices, legs)
  {
    assert |legs| <= 3;
    if |legs| > 0 { assert SumTo(prices, legs, 1) == prices[legs[0]]; }
    if |legs| > 1 { assert SumTo(prices, legs, 2) == SumTo(prices, legs, 1) + prices[legs[1]]; }
  }

  // ---- accept -----------------------------------------------------------------

  lemma AcceptKeepsInv(w: World, id: OrderId, leg: Leg, caller: Caller, executor: UserId, licensed: bool,
                       call: WalletCall)
    requires Inv(w)
    ensures Inv(DoAccept(w, id, leg, caller, executor, licensed, call).0)
  {
    if AcceptRefusal(w.orders, id, leg, caller, executor, licensed).None? && call.reply != Dropped {
      var escrow := LegEscrow(w, id, leg, executor, call);
      OpenedIsARow(w, id, leg, executor, call);
      EscrowKeepsMoney(w, id, executor, escrow);
      var w' := World(w.orders, AfterEscrow(w.ledger, escrow));
      if call.reply == Answered && escrow.Opened? {
        ClaimKeepsInv(w', id, leg, executor);
      }
    }
  }

  /** What the wallet opens: the row the pair already has, or a new held one. */
  lemma OpenedIsARow(w: World, id: OrderId, leg: Leg, executor: UserId, call: WalletCall)
    requires HasLeg(w.orders, id, leg)
    ensures var escrow := LegEscrow(w, id, leg, executor, call);
            escrow.Opened? ==>
              && w.orders[id].legs[leg].price >= 0
              && (|| Existing(w.ledger, id, executor) == Some(escrow.tx)
                  || (Storable(escrow.tx) && For(escrow.tx, id, executor) && escrow.tx.status == Held))
  {
  }

  lemma EscrowKeepsMoney(w: World, id: OrderId, executor: UserId, escrow: EscrowResult)
    requires Inv(w) && id in w.orders
    requires escrow.Opened? ==>
               || Existing(w.ledger, id, executor) == Some(escrow.tx)
               || (Storable(escrow.tx) && For(escrow.tx, id, executor) && escrow.tx.status == Held)
    ensures Inv(World(w.orders, AfterEscrow(w.ledger, escrow)))
    ensures escrow.Opened? ==> HasRow(AfterEscrow(w.ledger, escrow), id, executor)
  {
    if escrow.Opened? {
      var rows := w.ledger;
      if Existing(rows, id, executor).None? {
        ExecuteKeepsSound(rows, InsertRow(escrow.tx));
        assert (rows + [escrow.tx])[|rows|] == escrow.tx;
        HasRowGrows(rows, [escrow.tx]);
      }
    }
  }

  lemma HasRowGrows(rows: Rows, more: Rows)
    ensures forall o, p :: HasRow(rows, o, p) ==> HasRow(rows + more, o, p)
  {
    forall o, p | HasRow(rows, o, p)
      ensures HasRow(rows + more, o, p)
    {
      var i :| 0 <= i < |rows| && For(rows[i], o, p);
      assert For((rows + more)[i], o, p);
    }
  }

  lemma ClaimKeepsInv(w: World, id: OrderId, leg: Leg, executor: UserId)
    requires Inv(w) && Claimable(w.orders, id, leg) && w.orders[id].legs[leg].price >= 0
    requires HasRow(w.ledger, id, executor)
    ensures Inv(World(Claim(w.orders, id, leg, executor), w.ledger))
  {
    var o := w.orders[id];
    var o' := o.(legs := o.legs[leg := o.legs[leg].(status := Accepted, executor := Some(executor))]);
    assert !o.All(Cancelled) && !o.All(Completed);
    LegMovedOk(o, leg, o'.legs[leg]);
    RowsOfStay(w, id);
    ReplaceOrder(w, id, o', w.ledger);
  }

  lemma LegMovedOk(o: Order, leg: Leg, row: LegRow)
    requires OrderOk(o) && leg in o.legs && RowOk(row) && row.price == o.legs[leg].price
    requires row.status != Cancelled && o.legs[leg].status != Cancelled
    ensures OrderOk(o.(legs := o.legs[leg := row]))
  {
    assert !o.All(Cancelled);
  }

  lemma AllSetOk(o: Order, s: Status)
    requires OrderOk(o) && s in {Completed, Cancelled}
    requires s == Completed ==> forall l :: l in o.legs ==> o.legs[l].executor.Some?
    ensures OrderOk(AllSet(o, s)) && AllSet(o, s).All(s)
  {
  }

  /** The frame of every step on an existing order: only that order and the ledger change. */
  lemma ReplaceOrder(w: World, id: OrderId, o': Order, ledger': Rows)
    requires Inv(w) && id in w.orders && OrderOk(o') && Sound(ledger')
    requires forall o, p :: HasRow(w.ledger, o, p) ==> HasRow(ledger', o, p)
    requires forall l :: l in o'.legs && o'.legs[l].executor.Some? ==> HasRow(ledger', id, o'.legs[l].executor.value)
    requires |ledger'| == |w.ledger|
    requires forall i :: 0 <= i < |ledger'| && ledger'[i].order != id ==> ledger'[i] == w.ledger[i]
    requires forall i :: 0 <= i < |ledger'| && ledger'[i].order == id ==>
               && (ledger'[i].status == Released ==> o'.All(Completed))
               && (ledger'[i].status == Refunded ==> o'.All(Cancelled))
    ensures Inv(World(w.orders[id := o'], ledger'))
  {
    var t' := w.orders[id := o'];
    forall i | 0 <= i < |ledger'|
      ensures TxOk(t', ledger'[i])
    {
      assert TxOk(w.orders, w.ledger[i]);
    }
  }

  // ---- status -----------------------------------------------------------------

  lemma UpdateKeepsInv(w: World, id: OrderId, leg: Leg, caller: Caller, status: Status)
    requires Inv(w)
    ensures Inv(DoUpdate(w, id, leg, caller, status).0)
  {
    if UpdateRefusal(w.orders, id, leg, caller, status).None? {
      var o := w.orders[id];
      assert OrderOk(o) && RowOk(o.legs[leg]);
      var row := o.legs[leg].(status := status);
      MovedRowOk(o.legs[leg], status);
      LegMovedOk(o, leg, row);
      LegReplaced(w, id, leg, row);
    }
  }

  lemma MovedRowOk(r: LegRow, status: Status)
    requires RowOk(r) && r.executor.Some? && CanTransition(r.status, status)
    ensures RowOk(r.(status := status)) && status != Cancelled && r.status !in {Completed, Cancelled}
  {
    TransitionsAreForward(r.status, status);
  }

  /** One leg of an order moved on, in the same hands, while the order is neither completed nor
      cancelled. */
  lemma LegReplaced(w: World, id: OrderId, leg: Leg, row: LegRow)
    requires Inv(w) && HasLeg(w.orders, id, leg) && row.executor == w.orders[id].legs[leg].executor
    requires w.orders[id].legs[leg].status !in {Completed, Cancelled}
    requires OrderOk(w.orders[id].(legs := w.orders[id].legs[leg := row]))
    ensures Inv(w.(orders := SetLeg(w.orders, id, leg, row)))
  {
    var o := w.orders[id];
    assert !o.All(Cancelled) && !o.All(Completed);
    RowsOfStay(w, id);
    ReplaceOrder(w, id, o.(legs := o.legs[leg := row]), w.ledger);
  }

  // ---- cancel and confirm -------------------------------------------------------

  function AllSet(o: Order, s: Status): Order {
    o.(legs := map l | l in o.legs :: o.legs[l].(status := s))
  }

  /** Every leg of an order is given the same final status, and held rows of it the matching one. */
  lemma SettleKeepsInv(w: World, id: OrderId, s: Status, to: TxStatus, ledger': Rows)
    requires Inv(w) && id in w.orders && (s, to) in {(Completed, Released), (Cancelled, Refunded)}
    requires OrderOk(AllSet(w.orders[id], s))
    requires w.orders[id].All(Completed) ==> s == Completed
    requires w.orders[id].All(Cancelled) ==> s == Cancelled
    requires Sound(ledger') && Survives(w.ledger, ledger') && |ledger'| == |w.ledger|
    requires forall i :: 0 <= i < |ledger'| ==>
               ledger'[i] == w.ledger[i] || (ledger'[i].order == id && ledger'[i].status == to)
    ensures Inv(World(SetAll(w.orders, id, s), ledger'))
  {
    SurvivingRowsStay(w.ledger, ledger');
    RowsOfStay(w, id);
    forall i | 0 <= i < |w.ledger|
      ensures ledger'[i].order == w.ledger[i].order
    {
      assert RowSurvives(w.ledger[i], ledger'[i]);
    }
    ReplaceOrder(w, id, AllSet(w.orders[id], s), ledger');
  }

  lemma CancelKeepsInv(w: World, id: OrderId, caller: Caller, refundReached: bool)
    requires Inv(w)
    ensures Inv(DoCancel(w, id, caller, refundReached).0)
  {
    if CancelRefusal(w.orders, id, caller).None? {
      OpenOrder(w.orders[id]);
      AllSetOk(w.orders[id], Cancelled);
      var ledger' := if refundReached then Refund(w.ledger, id) else w.ledger;
      RefundKeepsSound(w.ledger, id);
      SettleKeepsInv(w, id, Cancelled, Refunded, ledger');
    }
  }

  lemma RefundKeepsSound(rows: Rows, id: OrderId)
    requires Sound(rows)
    ensures Survives(rows, rows) && Sound(Refund(rows, id)) && Survives(rows, Refund(rows, id))
  {
    ExecuteKeepsSound(rows, RefundRows(id));
  }

  lemma OpenOrder(o: Order)
    requires OrderOk(o) && o.MayCancel()
    ensures !o.All(Completed)
  {
    SomeLeg(o);
  }

  lemma ConfirmKeepsInv(w: World, id: OrderId, caller: Caller, releaseReached: set<UserId>)
    requires Inv(w)
    ensures Inv(DoConfirm(w, id, caller, releaseReached).0)
  {
    if ConfirmRefusal(w.orders, id, caller).None? {
      ReadyIsWorked(w.orders[id]);
      AllSetOk(w.orders[id], Completed);
      var reached := w.orders[id].Executors() * releaseReached;
      ReleaseKeepsSound(w.ledger, id, reached);
      SettleKeepsInv(w, id, Completed, Released, ReleaseTo(w.ledger, id, reached));
    }
  }

  lemma ReadyIsWorked(o: Order)
    requires OrderOk(o) && o.Ready()
    ensures !o.All(Cancelled) && forall l :: l in o.legs ==> o.legs[l].executor.Some?
  {
    o.ReadyMeansEveryLegDone();
    SomeLeg(o);
    assert forall l :: l in o.legs ==> RowOk(o.legs[l]);
  }

  lemma ReleaseKeepsSound(rows: Rows, id: OrderId, payees: set<UserId>)
    requires Sound(rows)
    ensures Sound(ReleaseTo(rows, id, payees)) && Survives(rows, ReleaseTo(rows, id, payees))
  {
  }

  lemma SurvivingRowsStay(rows: Rows, rows': Rows)
    requires Survives(rows, rows')
    ensures forall o, p :: HasRow(rows, o, p) ==> HasRow(rows', o, p)
  {
    forall o, p | HasRow(rows, o, p)
      ensures HasRow(rows', o, p)
    {
      var i :| 0 <= i < |rows| && For(rows[i], o, p);
      assert RowSurvives(rows[i], rows'[i]);
    }
  }

  lemma RowsOfStay(w: World, id: OrderId)
    requires Inv(w) && id in w.orders
    ensures forall i :: 0 <= i < |w.ledger| && w.ledger[i].order == id ==>
              && (w.ledger[i].status == Released ==> w.orders[id].All(Completed))
              && (w.ledger[i].status == Refunded ==> w.orders[id].All(Cancelled))
  {
    forall i | 0 <= i < |w.ledger| && w.ledger[i].order == id
      ensures TxOk(w.orders, w.ledger[i])
    {
    }
  }
}
