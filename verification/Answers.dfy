/** Who is answered what, and what the tables then hold: the five handlers told on the fields of the
    tables, field by field and row by row (internal/orders/handler.go). */
module Answers {
  import opened Models
  import opened GoInt
  import opened Legs
  import opened Orders
  import opened Ledger
  import opened Protocol
  import Pricing

  // ---- cancel and confirm ---------------------------------------------------------------------

  /** Every leg has the status, and nothing else about the order has changed. */
  ghost predicate LegsBecome(o: Order, o': Order, status: Status) {
    && o' == Order(o.client, o.kind, o.estimate, o.paymentMethod, o'.legs)
    && o'.legs.Keys == o.legs.Keys
    && forall l :: l in o.legs ==> o'.legs[l] == LegRow(status, o.legs[l].executor, o.legs[l].price)
  }

  ghost predicate OnlyOrder(t: Table, t': Table, id: OrderId) {
    t'.Keys == t.Keys && forall other :: other in t && other != id ==> t'[other] == t[other]
  }

  /** Only the order's client and administrators may cancel it, while no leg is past accepted. */
  lemma CancelAnswers(w: World, id: OrderId, caller: Caller, reached: bool)
    ensures var (w', r) := DoCancel(w, id, caller, reached);
            && (r == OrderNotFound <==> id !in w.orders)
            && (r == Forbidden <==> id in w.orders && caller.sub != w.orders[id].client && !caller.admin)
            && (r == Ok <==>
                  && id in w.orders && (caller.sub == w.orders[id].client || caller.admin)
                  && forall l :: l in w.orders[id].legs ==>
                       w.orders[id].legs[l].status in {Draft, Published, Matched, Accepted, Cancelled})
            && r in {OrderNotFound, Forbidden, NotCancellable, Ok}
            && (r != Ok ==> w' == w)
  {
  }

  lemma CancelEffect(w: World, id: OrderId, caller: Caller, reached: bool)
    requires DoCancel(w, id, caller, reached).1 == Ok
    ensures var w' := DoCancel(w, id, caller, reached).0;
            && id in w.orders && OnlyOrder(w.orders, w'.orders, id)
            && LegsBecome(w.orders[id], w'.orders[id], Cancelled)
            && |w'.ledger| == |w.ledger|
            && forall i :: 0 <= i < |w.ledger| ==>
                 w'.ledger[i] == if reached && w.ledger[i].order == id && w.ledger[i].status == Held
                                 then w.ledger[i].(status := Refunded) else w.ledger[i]
  {
  }

  /** Only the order's client and administrators may confirm it, once every leg is done. */
  lemma ConfirmAnswers(w: World, id: OrderId, caller: Caller, reached: set<UserId>)
    ensures var (w', r) := DoConfirm(w, id, caller, reached);
            && (r == OrderNotFound <==> id !in w.orders)
            && (r == Forbidden <==> id in w.orders && caller.sub != w.orders[id].client && !caller.admin)
            && (r == Ok <==>
                  && id in w.orders && (caller.sub == w.orders[id].client || caller.admin)
                  && w.orders[id].legs != map[]
                  && forall l :: l in w.orders[id].legs ==> w.orders[id].legs[l].status in {Delivered, Completed})
            && r in {OrderNotFound, Forbidden, NotReady, Ok}
            && (r != Ok ==> w' == w)
  {
    if id in w.orders {
      w.orders[id].ReadyMeansEveryLegDone();
    }
  }

  /** Paid are the held rows of those who hold a leg, as far as the calls got through. */
  lemma ConfirmEffect(w: World, id: OrderId, caller: Caller, reached: set<UserId>)
    requires DoConfirm(w, id, caller, reached).1 == Ok
    ensures var w' := DoConfirm(w, id, caller, reached).0;
            && id in w.orders && OnlyOrder(w.orders, w'.orders, id)
            && LegsBecome(w.orders[id], w'.orders[id], Completed)
            && |w'.ledger| == |w.ledger|
            && forall i :: 0 <= i < |w.ledger| ==>
                 w'.ledger[i] == if Owed(w.orders[id], w.ledger[i], id) && w.ledger[i].payee in reached
                                 then w.ledger[i].(status := Released) else w.ledger[i]
  {
    var o := w.orders[id];
    forall p: UserId
      ensures p in o.Executors() <==> exists l :: l in o.legs && o.legs[l].executor == Some(p)
    {
      assert p in o.Executors() <==> o.HeldBy(p);
    }
  }

  ghost predicate Owed(o: Order, row: Tx, id: OrderId) {
    row.order == id && row.status == Held && exists l :: l in o.legs && o.legs[l].executor == Some(row.payee)
  }

  // ---- status ---------------------------------------------------------------------------------

  /** Only the executor of a leg and administrators may move it, along the table. */
  lemma UpdateAnswers(w: World, id: OrderId, leg: Leg, caller: Caller, status: Status)
    ensures var (w', r) := DoUpdate(w, id, leg, caller, status);
            && (r == OrderNotFound <==> id !in w.orders)
            && (r == LegNotFound <==> id in w.orders && leg !in w.orders[id].legs)
            && (r == Forbidden <==>
                  && id in w.orders && leg in w.orders[id].legs
                  && var executor := w.orders[id].legs[leg].executor;
                  executor == None || (executor != Some(caller.sub) && !caller.admin))
            && (r == Ok ==> CanTransition(w.orders[id].legs[leg].status, status))
            && (r == InvalidTransition ==> !CanTransition(w.orders[id].legs[leg].status, status))
            && r in {OrderNotFound, LegNotFound, Forbidden, InvalidTransition, Ok}
            && (r != Ok ==> w' == w)
  {
  }

  lemma UpdateEffect(w: World, id: OrderId, leg: Leg, caller: Caller, status: Status)
    requires DoUpdate(w, id, leg, caller, status).1 == Ok
    ensures var w' := DoUpdate(w, id, leg, caller, status).0;
            && id in w.orders && OnlyOrder(w.orders, w'.orders, id) && w'.ledger == w.ledger
            && OnlyLeg(w.orders[id], w'.orders[id], leg)
            && w'.orders[id].legs[leg] == LegRow(status, w.orders[id].legs[leg].executor, w.orders[id].legs[leg].price)
  {
  }

  ghost predicate OnlyLeg(o: Order, o': Order, leg: Leg) {
    && o' == Order(o.client, o.kind, o.estimate, o.paymentMethod, o'.legs)
    && leg in o.legs && o'.legs.Keys == o.legs.Keys
    && forall l :: l in o.legs && l != leg ==> o'.legs[l] == o.legs[l]
  }

  // ---- accept ---------------------------------------------------------------------------------

  /** A leg of an existing order that the caller may take for this executor. */
  ghost predicate Takeable(t: Table, id: OrderId, leg: Leg, caller: Caller, executor: UserId, licensed: bool) {
    && (executor == caller.sub || caller.admin) && licensed
    && id in t && leg in t[id].legs && t[id].legs[leg].executor == None && t[id].legs[leg].status == Published
  }

  /** The checks before the claim, in their order; what is refused changes nothing. */
  lemma AcceptAnswers(w: World, id: OrderId, leg: Leg, caller: Caller, executor: UserId, licensed: bool, call: WalletCall)
    ensures var (w', r) := DoAccept(w, id, leg, caller, executor, licensed, call);
            var allowed := executor == caller.sub || caller.admin;
            && (r == Forbidden <==> !allowed)
            && (r == OrderNotFound <==> allowed && id !in w.orders)
            && (r == LegNotFound <==> allowed && id in w.orders && leg !in w.orders[id].legs)
            && (r == LicenceMismatch <==> allowed && id in w.orders && leg in w.orders[id].legs && !licensed)
            && (r == LegAlreadyTaken <==>
                  && allowed && id in w.orders && leg in w.orders[id].legs && licensed
                  && w.orders[id].legs[leg].executor != None)
            && (r in {Ok, PaymentRefused, Internal} <==> Takeable(w.orders, id, leg, caller, executor, licensed))
            && r in {Forbidden, OrderNotFound, LegNotFound, LicenceMismatch, LegAlreadyTaken, OrderNotPublished,
                     PaymentRefused, Internal, Ok}
            && (r !in {Ok, PaymentRefused, Internal} ==> w' == w)
  {
  }

  /** The escrow row of a leg: from the order's client to the executor, at the price of the leg. */
  ghost function RowFor(o: Order, id: OrderId, leg: Leg, executor: UserId, pct: int64): Tx
    requires leg in o.legs
  {
    Tx(id, o.client, executor, o.legs[leg].price, Commission(o.legs[leg].price, pct), Held)
  }

  ghost predicate Escrowable(o: Order, leg: Leg)
    requires leg in o.legs
  {
    o.legs[leg].price >= 0 && o.paymentMethod in {Payme, Click, Uzcard}
  }

  ghost predicate RowFits(row: Tx) {
    0 <= row.amount < 100_000_000_000_000 && 0 <= row.commission < 100_000_000_000_000
  }

  /** The call opens a row, unless the pair has one: it gets through, the money can be charged, and
      the table takes the row. */
  ghost predicate Opens(w: World, id: OrderId, leg: Leg, executor: UserId, call: WalletCall)
    requires id in w.orders && leg in w.orders[id].legs
  {
    && call.reply != Dropped && Escrowable(w.orders[id], leg) && call.charge == Charged
    && RowFits(RowFor(w.orders[id], id, leg, executor, call.pct))
  }

  /** Assigned exactly if the wallet answered that the money is held; refused for payment exactly if
      it answered that the charge was declined. */
  lemma AcceptEffect(w: World, id: OrderId, leg: Leg, caller: Caller, executor: UserId, licensed: bool, call: WalletCall)
    requires Takeable(w.orders, id, leg, caller, executor, licensed)
    ensures var (w', r) := DoAccept(w, id, leg, caller, executor, licensed, call);
            var o, held := w.orders[id], HasRow(w.ledger, id, executor);
            && (r == Ok <==>
                  && call.reply == Answered && Escrowable(o, leg)
                  && (held || Opens(w, id, leg, executor, call)))
            && (r == PaymentRefused <==>
                  call.reply == Answered && Escrowable(o, leg) && !held && call.charge == Declined)
            && w'.ledger == (if !held && Opens(w, id, leg, executor, call)
                             then w.ledger + [RowFor(o, id, leg, executor, call.pct)] else w.ledger)
            && (r != Ok ==> w'.orders == w.orders)
            && (r == Ok ==>
                  && OnlyOrder(w.orders, w'.orders, id) && OnlyLeg(o, w'.orders[id], leg)
                  && w'.orders[id].legs[leg] == LegRow(Accepted, Some(executor), o.legs[leg].price))
  {
  }

  // ---- create ---------------------------------------------------------------------------------

  predicate InInteger(x: int) {
    -2_147_483_648 <= x <= 2_147_483_647
  }

  predicate InMoney(x: int) {
    -100_000_000_000_000 < x < 100_000_000_000_000
  }

  /** What was asked for fits its columns. */
  ghost predicate RequestFits(request: OrderRequest) {
    && (request.input.cargo != None ==> request.weightFits)
    && (request.input.equipment.Some? ==> InInteger(request.input.equipment.value.hours))
    && (request.input.labor.Some? ==>
          InInteger(request.input.labor.value.workers) && InInteger(request.input.labor.value.hours))
  }

  /** Refused for a type or an address missing; failing on what a column refuses; else stored. */
  lemma CreateAnswers(w: World, id: OrderId, client: UserId, tariffs: Pricing.Tariffs, request: OrderRequest)
    ensures var (w', r) := DoCreate(w, id, client, tariffs, request);
            var o := NewOrder(client, tariffs, request);
            && (r == BadRequest <==> request.kind.UnknownType? || !request.addressed)
            && (r == Created <==>
                  && !request.kind.UnknownType? && request.addressed && id !in w.orders && RequestFits(request)
                  && o.paymentMethod in {Payme, Click, Uzcard} && InMoney(o.estimate)
                  && forall l :: l in o.legs ==> InMoney(o.legs[l].price))
            && r in {BadRequest, Internal, Created}
            && w' == if r == Created then World(w.orders[id := o], w.ledger) else w
  {
  }

  /** A new order is its client's, of the type asked for, paid as asked or by Payme, and has the legs
      of its type, published and free. */
  lemma NewOrderFields(client: UserId, tariffs: Pricing.Tariffs, request: OrderRequest)
    ensures var o, input := NewOrder(client, tariffs, request), request.input;
            && o.client == client && o.kind == request.kind
            && o.paymentMethod == (if request.paymentMethod == None then Payme else request.paymentMethod.value)
            && (forall l :: l in o.legs ==> o.legs[l] == LegRow(Published, None, o.legs[l].price))
            && (Transport in o.legs <==> request.kind.TransportOnly? || request.kind.TransportWithOptions?)
            && (Equipment in o.legs <==>
                  request.kind.EquipmentOnly? || (request.kind.TransportWithOptions? && input.equipment.Some?))
            && (Labor in o.legs <==>
                  request.kind.LaborOnly? || (request.kind.TransportWithOptions? && input.labor.Some?))
  {
    if RequestedLegs(request) != [] {
      Pricing.SplitIsExact(Pricing.Estimate(tariffs, request.input), OrderTotal(tariffs, request), RequestedLegs(request));
    }
  }

  // ---- the wallet's create ------------------------------------------------------------------------

  /** An error before anything is looked up; the pair's row if it has one; else what the charge says. */
  lemma EscrowAnswers(rows: Rows, order: OrderId, payer: UserId, payee: UserId, amount: int64, paymentMethod: PaymentMethod,
                      charge: Charge, pct: int64)
    ensures var r := EscrowOutcome(rows, order, payer, payee, amount, paymentMethod, charge, pct);
            var row, held := Tx(order, payer, payee, amount, Commission(amount, pct), Held), HasRow(rows, order, payee);
            var valid := amount >= 0 && paymentMethod in {Payme, Click, Uzcard};
            && (r == BadAmount <==> amount < 0)
            && (r == BadMethod <==> amount >= 0 && paymentMethod !in {Payme, Click, Uzcard})
            && (r == PaymentDeclined <==> valid && !held && charge == Declined)
            && (r.Opened? <==> valid && (held || (charge == Charged && RowFits(row))))
            && (r.Opened? && held ==> r.tx in rows && r.tx.order == order && r.tx.payee == payee)
            && (r.Opened? && !held ==> r.tx == row)
            && AfterEscrow(rows, r) == if r.Opened? && !held then rows + [row] else rows
  {
  }
}
