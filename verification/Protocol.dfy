/** The order and escrow protocol with each handler one step (internal/orders/handler.go). */
module Protocol {
  import opened Models
  import opened GoInt
  import opened Legs
  import opened Pricing
  import opened Orders
  import opened Ledger

  datatype World = World(orders: Table, ledger: Rows)

  datatype Response =
    | Ok
    | Created
    | BadRequest
    | Forbidden
    | OrderNotFound
    | LegNotFound
    | LicenceMismatch
    | LegAlreadyTaken
    | OrderNotPublished
    | PaymentRefused
    | InvalidTransition
    | NotCancellable
    | NotReady
    | Internal

  /** How a call to the wallet ends for the orders service: with the wallet's answer; without the
      call taking effect; or with its effect done but the answer lost. */
  datatype Reply = Answered | Dropped | Lost

  datatype WalletCall = WalletCall(reply: Reply, charge: Charge, pct: int64)

  /** `weightFits` is whether NUMERIC(8,2) holds the weight of the cargo, if there is one. */
  datatype OrderRequest = OrderRequest(
    kind: OrderType,
    addressed: bool,
    weightFits: bool,
    input: PriceInput,
    shownPrice: Option<int64>,
    paymentMethod: Option<PaymentMethod>)

  datatype Step =
    | Create(id: OrderId, client: UserId, tariffs: Tariffs, request: OrderRequest)
    | Accept(id: OrderId, leg: Leg, caller: Caller, executor: UserId, licensed: bool, call: WalletCall)
    | UpdateStatus(id: OrderId, leg: Leg, caller: Caller, status: Status)
    | Cancel(id: OrderId, caller: Caller, refundReached: bool)
    | Confirm(id: OrderId, caller: Caller, releaseReached: set<UserId>)

  // ---- create -------------------------------------------------------------

  function RequestedLegs(request: OrderRequest): (legs: seq<Leg>)
    ensures Distinct(legs) && |legs| <= 3
  {
    LegsFor(request.kind, request.input.equipment.Some?, request.input.labor.Some?)
  }

  /** The price the client was shown when it sent a positive one, the server's formula otherwise. */
  function OrderTotal(tariffs: Tariffs, request: OrderRequest): int64 {
    if request.shownPrice.Some? && request.shownPrice.value > 0 then request.shownPrice.value
    else Total(tariffs, Estimate(tariffs, request.input))
  }

  ghost function NewOrder(client: UserId, tariffs: Tariffs, request: OrderRequest): Order {
    var total := OrderTotal(tariffs, request);
    PricedOrder(client, request, total, Split(Estimate(tariffs, request.input), total, RequestedLegs(request)))
  }

  ghost function PricedOrder(client: UserId, request: OrderRequest, total: int64, prices: Prices): Order {
    Order(client, request.kind, total,
          if request.paymentMethod.Some? then request.paymentMethod.value else Payme,
          map l | l in prices :: LegRow(Published, None, prices[l]))
  }

  /** The CHECK on the payment method and the range of the NUMERIC(14,0) columns. */
  ghost predicate Insertable(o: Order) {
    && ValidMethod(o.paymentMethod)
    && FitsNumeric(o.estimate)
    && forall l :: l in o.legs ==> FitsNumeric(o.legs[l].price)
  }

  /** The ranges of the columns that keep what was asked for. */
  predicate FitsColumns(request: OrderRequest) {
    var input := request.input;
    && (input.cargo.Some? ==> request.weightFits)
    && (input.equipment.Some? ==> FitsInteger(input.equipment.value.hours))
    && (input.labor.Some? ==> FitsInteger(input.labor.value.workers) && FitsInteger(input.labor.value.hours))
  }

  /** Some request makes the create handler store this order. */
  ghost predicate Creatable(o: Order) {
    exists client: UserId, tariffs: Tariffs, request: OrderRequest ::
      Creates(client, tariffs, request, o)
  }

  ghost predicate Creates(client: UserId, tariffs: Tariffs, request: OrderRequest, o: Order) {
    && RequestedLegs(request) != [] && request.addressed
    && FitsColumns(request) && NewOrder(client, tariffs, request) == o && Insertable(o)
  }

  ghost function DoCreate(w: World, id: OrderId, client: UserId, tariffs: Tariffs, request: OrderRequest): (World, Response)
  {
    if RequestedLegs(request) == [] || !request.addressed then (w, BadRequest)
    else
      var o := NewOrder(client, tariffs, request);
      if id in w.orders || !FitsColumns(request) || !Insertable(o) then (w, Internal)
      else (w.(orders := w.orders[id := o]), Created)
  }

  // ---- accept -------------------------------------------------------------

  function AcceptRefusal(t: Table, id: OrderId, leg: Leg, caller: Caller, executor: UserId, licensed: bool): Option<Response>
  {
    if executor != caller.sub && !caller.admin then Some(Forbidden)
    else if id !in t then Some(OrderNotFound)
    else if leg !in t[id].legs then Some(LegNotFound)
    else if !licensed then Some(LicenceMismatch)
    else if t[id].legs[leg].executor.Some? then Some(LegAlreadyTaken)
    else if t[id].legs[leg].status != Published then Some(OrderNotPublished)
    else None
  }

  function LegEscrow(w: World, id: OrderId, leg: Leg, executor: UserId, call: WalletCall): EscrowResult
    requires HasLeg(w.orders, id, leg)
  {
    var o := w.orders[id];
    EscrowOutcome(w.ledger, id, o.client, executor, o.legs[leg].price, o.paymentMethod, call.charge, call.pct)
  }

  /** The leg is assigned exactly when the wallet answered that its money is held. */
  function DoAccept(w: World, id: OrderId, leg: Leg, caller: Caller, executor: UserId, licensed: bool,
                    call: WalletCall): (World, Response)
  {
    match AcceptRefusal(w.orders, id, leg, caller, executor, licensed)
    case Some(refusal) => (w, refusal)
    case None =>
      if call.reply == Dropped then (w, Internal)
      else
        var escrow := LegEscrow(w, id, leg, executor, call);
        var ledger := AfterEscrow(w.ledger, escrow);
        if call.reply == Lost then (World(w.orders, ledger), Internal)
        else if escrow.Opened? then (World(Claim(w.orders, id, leg, executor), ledger), Ok)
        else (World(w.orders, ledger), if escrow.PaymentDeclined? then PaymentRefused else Internal)
  }

  // ---- status, cancel, confirm ----------------------------------------------

  function UpdateRefusal(t: Table, id: OrderId, leg: Leg, caller: Caller, status: Status): Option<Response>
  {
    if id !in t then Some(OrderNotFound)
    else if leg !in t[id].legs then Some(LegNotFound)
    else
      var row := t[id].legs[leg];
      if row.executor.None? || (row.executor.value != caller.sub && !caller.admin) then Some(Forbidden)
      else if !CanTransition(row.status, status) then Some(InvalidTransition)
      else None
  }

  function DoUpdate(w: World, id: OrderId, leg: Leg, caller: Caller, status: Status): (World, Response)
  {
    match UpdateRefusal(w.orders, id, leg, caller, status)
    case Some(refusal) => (w, refusal)
    case None => (w.(orders := SetStatus(w.orders, id, leg, status)), Ok)
  }

  predicate IsClient(o: Order, caller: Caller) {
    o.client == caller.sub || caller.admin
  }

  function CancelRefusal(t: Table, id: OrderId, caller: Caller): Option<Response> {
    if id !in t then Some(OrderNotFound)
    else if !IsClient(t[id], caller) then Some(Forbidden)
    else if !t[id].MayCancel() then Some(NotCancellable)
    else None
  }

  function DoCancel(w: World, id: OrderId, caller: Caller, refundReached: bool): (World, Response) {
    match CancelRefusal(w.orders, id, caller)
    case Some(refusal) => (w, refusal)
    case None =>
      (World(SetAll(w.orders, id, Cancelled), if refundReached then Refund(w.ledger, id) else w.ledger), Ok)
  }

  function ConfirmRefusal(t: Table, id: OrderId, caller: Caller): Option<Response> {
    if id !in t then Some(OrderNotFound)
    else if !IsClient(t[id], caller) then Some(Forbidden)
    else if !t[id].Ready() then Some(NotReady)
    else None
  }

  /** One release per distinct executor; those the call reached take effect. */
  function DoConfirm(w: World, id: OrderId, caller: Caller, releaseReached: set<UserId>): (World, Response) {
    match ConfirmRefusal(w.orders, id, caller)
    case Some(refusal) => (w, refusal)
    case None =>
      (World(SetAll(w.orders, id, Completed), ReleaseTo(w.ledger, id, w.orders[id].Executors() * releaseReached)), Ok)
  }

  // ---- runs -----------------------------------------------------------------

  ghost function Do(w: World, s: Step): (World, Response) {
    match s
    case Create(id, client, tariffs, request) => DoCreate(w, id, client, tariffs, request)
    case Accept(id, leg, caller, executor, licensed, call) => DoAccept(w, id, leg, caller, executor, licensed, call)
    case UpdateStatus(id, leg, caller, status) => DoUpdate(w, id, leg, caller, status)
    case Cancel(id, caller, refundReached) => DoCancel(w, id, caller, refundReached)
    case Confirm(id, caller, releaseReached) => DoConfirm(w, id, caller, releaseReached)
  }

  ghost function Run(w: World, steps: seq<Step>): World {
    if steps == [] then w else Do(Run(w, steps[..|steps| - 1]), steps[|steps| - 1]).0
  }

  const EMPTY: World := World(map[], [])

  lemma {:induction false} RunSplits(w: World, a: seq<Step>, b: seq<Step>)
    ensures Run(w, a + b) == Run(Run(w, a), b)
  {
    if b == [] {
      assert a + b == a;
    } else {
      var n := |b| - 1;
      RunSplits(w, a, b[..n]);
      assert (a + b)[..|a + b| - 1] == a + b[..n];
    }
  }

  lemma RunOneMore(w: World, steps: seq<Step>, s: Step)
    ensures Run(w, steps + [s]) == Do(Run(w, steps), s).0
  {
    assert (steps + [s])[..|steps|] == steps;
  }

  lemma RunOfThree(w: World, a: Step, b: Step, c: Step)
    ensures Run(w, [a, b, c]) == Do(Do(Do(w, a).0, b).0, c).0
  {
    var steps := [a, b, c];
    assert steps[..2] == [a, b] && steps[..2][..1] == [a] && steps[..2][..1][..0] == [];
    assert [a, b][..1] == [a] && [a][..0] == [];
    assert Run(w, [a]) == Do(Run(w, []), a).0;
    assert Run(w, [a, b]) == Do(Run(w, [a]), b).0;
  }

  // ---- what every run keeps ---------------------------------------------------

  ghost predicate RowOk(r: LegRow) {
    && r.status !in {Draft, Matched, Disputed}
    && (r.status == Published ==> r.executor.None?)
    && (r.executor.None? ==> r.status in {Published, Cancelled})
    && (r.executor.Some? ==> r.price >= 0)
    && FitsNumeric(r.price)
  }

  /** The legs are those the order type calls for. */
  ghost predicate ShapeOk(o: Order) {
    match o.kind
    case TransportOnly => o.legs.Keys == {Transport}
    case EquipmentOnly => o.legs.Keys == {Equipment}
    case LaborOnly => o.legs.Keys == {Labor}
    case TransportWithOptions => Transport in o.legs
    case UnknownType(_) => false
  }

  ghost function Price(r: LegRow): int { r.price }

  ghost predicate OrderOk(o: Order) {
    && ShapeOk(o)
    && ValidMethod(o.paymentMethod)
    && o.Sum(Price) == o.estimate
    && (forall l :: l in o.legs ==> RowOk(o.legs[l]))
    && (forall l :: l in o.legs && o.legs[l].status == Cancelled ==> o.All(Cancelled))
  }

  /** Money and status agree: work is backed by a row, a payout by completion, a refund by cancellation. */
  ghost predicate MoneyOk(w: World) {
    && (forall id, l :: HasLeg(w.orders, id, l) && w.orders[id].legs[l].executor.Some? ==>
          HasRow(w.ledger, id, w.orders[id].legs[l].executor.value))
    && (forall i :: 0 <= i < |w.ledger| ==> TxOk(w.orders, w.ledger[i]))
  }

  ghost predicate TxOk(t: Table, tx: Tx) {
    && tx.order in t
    && (tx.status == Released ==> t[tx.order].All(Completed))
    && (tx.status == Refunded ==> t[tx.order].All(Cancelled))
  }

  ghost predicate Inv(w: World) {
    && Sound(w.ledger)
    && (forall id :: id in w.orders ==> OrderOk(w.orders[id]))
    && MoneyOk(w)
  }
}
