/** The flat order of the API contract, and what its readers rebuild from it
    (internal/orders/store.go, internal/reviews/handler.go, dashboard/src/lib/format.ts). */
module Wire {
  import opened Models
  import opened Legs
  import opened Orders
  import opened Protocol
  import Answers
  import Invariants
  import LegMachine

  /** Per-leg rows collapsed into columns; no status at all stands for the empty string. */
  datatype WireOrder = WireOrder(
    client: UserId,
    kind: OrderType,
    status: Option<Status>,
    driver: Option<UserId>,
    equipmentProvider: Option<UserId>,
    equipmentStatus: Option<Status>,
    laborProvider: Option<UserId>,
    laborStatus: Option<Status>)

  /** The leg whose status the top-level status mirrors. */
  function PrimaryLeg(o: Order): Option<Leg> {
    if Transport in o.legs then Some(Transport)
    else if o.LegNames() != [] then Some(o.LegNames()[0])
    else None
  }

  function StatusOf(o: Order, l: Option<Leg>): Option<Status> {
    if l.Some? && l.value in o.legs then Some(o.legs[l.value].status) else None
  }

  function ExecutorOf(o: Order, l: Leg): Option<UserId> {
    if l in o.legs then o.legs[l].executor else None
  }

  function Flatten(o: Order): WireOrder {
    WireOrder(o.client, o.kind, StatusOf(o, PrimaryLeg(o)),
              ExecutorOf(o, Transport),
              ExecutorOf(o, Equipment), StatusOf(o, Some(Equipment)),
              ExecutorOf(o, Labor), StatusOf(o, Some(Labor)))
  }

  // ---- the dashboard ---------------------------------------------------------------------

  type LegView = (Leg, Option<Status>)

  /** The legs the dashboard draws for an order. */
  method LegsOf(w: WireOrder) returns (legs: seq<LegView>)
    ensures legs == Drawn(w)
    ensures forall o: Order :: Flatten(o) == w && ShapeOk(o) ==> legs == Stored(o)
  {
    legs := [];
    if w.kind == EquipmentOnly {
      legs := legs + [(Equipment, w.status)];
    } else if w.kind == LaborOnly {
      legs := legs + [(Labor, w.status)];
    } else {
      legs := legs + [(Transport, w.status)];
    }
    if w.kind == TransportWithOptions {
      if w.equipmentStatus.Some? {
        legs := legs + [(Equipment, w.equipmentStatus)];
      }
      if w.laborStatus.Some? {
        legs := legs + [(Labor, w.laborStatus)];
      }
    }
    forall o: Order | Flatten(o) == w && ShapeOk(o)
      ensures Drawn(w) == Stored(o)
    {
      FlattenLosesNoLeg(o);
    }
  }

  ghost function Drawn(w: WireOrder): seq<LegView> {
    match w.kind
    case EquipmentOnly => [(Equipment, w.status)]
    case LaborOnly => [(Labor, w.status)]
    case TransportWithOptions =>
      [(Transport, w.status)]
      + (if w.equipmentStatus.Some? then [(Equipment, w.equipmentStatus)] else [])
      + (if w.laborStatus.Some? then [(Labor, w.laborStatus)] else [])
    case _ => [(Transport, w.status)]
  }

  /** The legs as the database has them, in canonical order. */
  ghost function Stored(o: Order): seq<LegView> {
    seq(|o.LegNames()|, i requires 0 <= i < |o.LegNames()| =>
          (o.LegNames()[i], Some(o.legs[o.LegNames()[i]].status)))
  }

  /** The legs an order of this type must have for the dashboard to read it right. */
  ghost predicate LegsFitType(o: Order) {
    match o.kind
    case EquipmentOnly => o.LegNames() == [Equipment]
    case LaborOnly => o.LegNames() == [Labor]
    case TransportWithOptions => Transport in o.legs
    case _ => o.LegNames() == [Transport]
  }

  /** The dashboard's list is the stored one exactly when the legs fit the order type, and every
      order of proper shape is such. */
  lemma FlattenLosesNoLeg(o: Order)
    ensures Drawn(Flatten(o)) == Stored(o) <==> LegsFitType(o)
    ensures ShapeOk(o) ==> LegsFitType(o)
  {
    if Drawn(Flatten(o)) == Stored(o) {
      SameNames(o);
    }
    KeysAreNames(o, Transport);
    KeysAreNames(o, Equipment);
    KeysAreNames(o, Labor);
  }

  lemma SameNames(o: Order)
    requires Drawn(Flatten(o)) == Stored(o)
    ensures LegsFitType(o)
  {
    var drawn, names := Drawn(Flatten(o)), o.LegNames();
    assert |drawn| == |names| && drawn[0].0 == names[0];
  }

  lemma KeysAreNames(o: Order, l: Leg)
    ensures o.legs.Keys == {l} ==> o.LegNames() == [l]
  {
    assert l in o.LegNames() <==> l in o.legs;
  }

  /** What the flat order says of one leg: whether it exists, its status, who holds it. */
  ghost function ReadBack(w: WireOrder, l: Leg): Option<(Option<Status>, Option<UserId>)> {
    match l
    case Transport =>
      if w.kind.TransportOnly? || w.kind.TransportWithOptions? then Some((w.status, w.driver)) else None
    case Equipment =>
      if w.kind.EquipmentOnly? then Some((w.status, w.equipmentProvider))
      else if w.kind.TransportWithOptions? && w.equipmentStatus.Some? then Some((w.equipmentStatus, w.equipmentProvider))
      else None
    case Labor =>
      if w.kind.LaborOnly? then Some((w.status, w.laborProvider))
      else if w.kind.TransportWithOptions? && w.laborStatus.Some? then Some((w.laborStatus, w.laborProvider))
      else None
  }

  /** Reading a flattened order back gives every leg row its status and its holder, and invents
      no leg. */
  lemma ReadBackInvertsFlatten(o: Order, l: Leg)
    requires ShapeOk(o)
    ensures Flatten(o).client == o.client && Flatten(o).kind == o.kind
    ensures ReadBack(Flatten(o), l) ==
            if l in o.legs then Some((Some(o.legs[l].status), o.legs[l].executor)) else None
  {
    KeysAreNames(o, l);
  }

  /** Whatever run led here, the dashboard shows every leg of every order. */
  lemma DashboardShowsEveryLeg(steps: seq<Step>, id: OrderId)
    requires id in Run(EMPTY, steps).orders
    ensures var o := Run(EMPTY, steps).orders[id]; Drawn(Flatten(o)) == Stored(o) && Stored(o) != []
  {
    Invariants.EveryRunIsSound(steps);
    var o := Run(EMPTY, steps).orders[id];
    assert OrderOk(o);
    FlattenLosesNoLeg(o);
    Invariants.SomeLeg(o);
    var l :| l in o.legs;
    assert l in o.LegNames();
  }

  // ---- reviews ----------------------------------------------------------------------------

  /** What the reviews service demands of the flat order before it takes a review. */
  predicate ReviewsCompleted(w: WireOrder) {
    && w.status == Some(Completed)
    && (w.equipmentStatus.Some? ==> w.equipmentStatus.value == Completed)
    && (w.laborStatus.Some? ==> w.laborStatus.value == Completed)
  }

  /** Of three columns it reads exactly that every leg the order has is completed, whatever legs
      those are. */
  lemma ReviewsNeedEveryLeg(o: Order)
    ensures ReviewsCompleted(Flatten(o)) <==> o.legs != map[] && o.All(Completed)
  {
    if o.legs != map[] {
      var l :| l in o.legs;
      assert l in o.LegNames();
    }
  }

  // ---- the dashboard tiles -------------------------------------------------------------------

  datatype OrderStats = OrderStats(total: nat, active: nat, completed: nat)

  ghost predicate Active(o: Order) {
    exists l :: l in o.legs && o.legs[l].status !in {Completed, Cancelled}
  }

  ghost function ActiveOrders(t: Table): set<OrderId> { set id | id in t && Active(t[id]) }

  function CompletedOrders(t: Table): set<OrderId> { set id | id in t && t[id].All(Completed) }

  function CancelledOrders(t: Table): set<OrderId> { set id | id in t && t[id].All(Cancelled) }

  ghost function Stats(t: Table): OrderStats {
    OrderStats(|t|, |ActiveOrders(t)|, |CompletedOrders(t)|)
  }

  /** In every reachable state each order is exactly one of active, completed and wholly cancelled,
      so the tiles leave out precisely the cancelled ones. */
  lemma EveryOrderIsOnOneTile(steps: seq<Step>)
    ensures var t := Run(EMPTY, steps).orders;
            && ActiveOrders(t) !! CompletedOrders(t) !! CancelledOrders(t)
            && ActiveOrders(t) + CompletedOrders(t) + CancelledOrders(t) == t.Keys
            && Stats(t).total == Stats(t).active + Stats(t).completed + |CancelledOrders(t)|
  {
    Invariants.EveryRunIsSound(steps);
    TilesPartition(Run(EMPTY, steps).orders);
  }

  lemma TilesPartition(t: Table)
    requires forall id :: id in t ==> OrderOk(t[id])
    ensures ActiveOrders(t) !! CompletedOrders(t) !! CancelledOrders(t)
    ensures ActiveOrders(t) + CompletedOrders(t) + CancelledOrders(t) == t.Keys
    ensures |t| == |ActiveOrders(t)| + |CompletedOrders(t)| + |CancelledOrders(t)|
  {
    forall id: OrderId
      ensures id in t.Keys <==> id in ActiveOrders(t) || id in CompletedOrders(t) || id in CancelledOrders(t)
      ensures !(id in ActiveOrders(t) && id in CompletedOrders(t))
      ensures !(id in ActiveOrders(t) && id in CancelledOrders(t))
      ensures !(id in CompletedOrders(t) && id in CancelledOrders(t))
    {
      TileOf(t, id);
    }
    AddUp(ActiveOrders(t), CompletedOrders(t), CancelledOrders(t), t.Keys);
  }

  lemma TileOf(t: Table, id: OrderId)
    requires id in t ==> OrderOk(t[id])
    ensures id in ActiveOrders(t) || id in CompletedOrders(t) || id in CancelledOrders(t) <==> id in t
    ensures !(id in ActiveOrders(t) && id in CompletedOrders(t))
    ensures !(id in ActiveOrders(t) && id in CancelledOrders(t))
    ensures !(id in CompletedOrders(t) && id in CancelledOrders(t))
  {
    if id in t {
      OneOfThree(t[id]);
    }
  }

  lemma AddUp(a: set<OrderId>, b: set<OrderId>, c: set<OrderId>, all: set<OrderId>)
    requires forall id :: id in all <==> id in a || id in b || id in c
    requires forall id :: !(id in a && id in b) && !(id in a && id in c) && !(id in b && id in c)
    ensures a !! b !! c && a + b + c == all
    ensures |all| == |a| + |b| + |c|
  {
    assert all == a + b + c;
  }

  lemma OneOfThree(o: Order)
    requires OrderOk(o)
    ensures o.All(Completed) || o.All(Cancelled) <==> !Active(o)
    ensures !(o.All(Completed) && o.All(Cancelled))
  {
    Invariants.SomeLeg(o);
    if !Active(o) && !o.All(Completed) {
      var l :| l in o.legs && o.legs[l].status != Completed;
      assert o.legs[l].status == Cancelled;
    }
  }

  /** The completed tile never counts down: a completed order is completed for good, and so is a
      cancelled one cancelled. */
  lemma CompletedOrdersStay(before: seq<Step>, after: seq<Step>)
    ensures var t, t' := Run(EMPTY, before).orders, Run(EMPTY, before + after).orders;
            CompletedOrders(t) <= CompletedOrders(t') && CancelledOrders(t) <= CancelledOrders(t')
  {
    LegMachine.LegsOnlyAdvance(before, after);
    var t, t' := Run(EMPTY, before).orders, Run(EMPTY, before + after).orders;
    forall id | id in t
      ensures id in t' && (t[id].All(Completed) ==> t'[id].All(Completed))
      ensures t[id].All(Cancelled) ==> t'[id].All(Cancelled)
    {
      assert LegMachine.OrderAdvances(t[id], t'[id]);
    }
  }

  // ---- what moves an order from tile to tile ------------------------------------------------------

  /** A new order is one more, and active. */
  lemma CreatedTile(w: World, s: Step)
    requires s.Create? && Do(w, s).1 == Created
    ensures var t, t' := w.orders, Do(w, s).0.orders;
            && Stats(t').total == Stats(t).total + 1
            && Stats(t').active == Stats(t).active + 1
            && Stats(t').completed == Stats(t).completed
  {
    Answers.NewOrderFields(s.client, s.tariffs, s.request);
    Answers.CreateAnswers(w, s.id, s.client, s.tariffs, s.request);
    NewTile(w.orders, s.id, NewOrder(s.client, s.tariffs, s.request));
  }

  lemma NewTile(t: Table, id: OrderId, o: Order)
    requires id !in t && (Transport in o.legs || Equipment in o.legs || Labor in o.legs)
    requires forall l :: l in o.legs ==> o.legs[l].status == Published
    ensures ActiveOrders(t[id := o]) == ActiveOrders(t) + {id}
    ensures CompletedOrders(t[id := o]) == CompletedOrders(t)
    ensures |t[id := o]| == |t| + 1
  {
    FreshIsActive(o);
    OneMoreKey(t, id, o);
    OneMoreActive(t, t[id := o], id);
  }

  lemma OneMoreActive(t: Table, t': Table, id: OrderId)
    requires id !in t && t'.Keys == t.Keys + {id} && forall other :: other in t ==> t'[other] == t[other]
    requires Active(t'[id]) && !t'[id].All(Completed)
    ensures ActiveOrders(t') == ActiveOrders(t) + {id}
    ensures CompletedOrders(t') == CompletedOrders(t)
  {
    OneOrderChanged(t, t', id);
  }

  lemma FreshIsActive(o: Order)
    requires Transport in o.legs || Equipment in o.legs || Labor in o.legs
    requires forall l :: l in o.legs ==> o.legs[l].status == Published
    ensures Active(o) && !o.All(Completed)
  {
    var l :| l in o.legs;
    assert o.legs[l].status == Published;
  }

  lemma OneMoreKey(t: Table, id: OrderId, o: Order)
    requires id !in t
    ensures t[id := o].Keys == t.Keys + {id} && |t[id := o]| == |t| + 1
  {
    assert t[id := o].Keys == t.Keys + {id};
    assert |t[id := o]| == |t[id := o].Keys| && |t| == |t.Keys|;
  }

  /** A confirmed order leaves the active ones, if it was one, for the completed ones. */
  lemma ConfirmedTile(w: World, s: Step)
    requires s.Confirm? && Do(w, s).1 == Ok && Active(w.orders[s.id])
    ensures var t, t' := w.orders, Do(w, s).0.orders;
            && Stats(t').total == Stats(t).total
            && Stats(t').active == Stats(t).active - 1
            && Stats(t').completed == Stats(t).completed + 1
  {
    var t, t' := w.orders, Do(w, s).0.orders;
    Answers.ConfirmAnswers(w, s.id, s.caller, s.releaseReached);
    Answers.ConfirmEffect(w, s.id, s.caller, s.releaseReached);
    OneOrderChanged(t, t', s.id);
    assert ActiveOrders(t') == ActiveOrders(t) - {s.id};
    assert CompletedOrders(t') == CompletedOrders(t) + {s.id};
  }

  /** A cancelled one leaves them for good. */
  lemma CancelledTile(w: World, s: Step)
    requires s.Cancel? && Do(w, s).1 == Ok && Active(w.orders[s.id])
    ensures var t, t' := w.orders, Do(w, s).0.orders;
            && Stats(t').total == Stats(t).total
            && Stats(t').active == Stats(t).active - 1
            && Stats(t').completed == Stats(t).completed
  {
    var t, t' := w.orders, Do(w, s).0.orders;
    Answers.CancelAnswers(w, s.id, s.caller, s.refundReached);
    Answers.CancelEffect(w, s.id, s.caller, s.refundReached);
    OneOrderChanged(t, t', s.id);
    var l :| l in t[s.id].legs && t[s.id].legs[l].status !in {Completed, Cancelled};
    assert t'[s.id].legs[l].status == Cancelled;
    assert ActiveOrders(t') == ActiveOrders(t) - {s.id};
    assert CompletedOrders(t') == CompletedOrders(t);
  }

  lemma OneOrderChanged(t: Table, t': Table, id: OrderId)
    requires t.Keys <= t'.Keys <= t.Keys + {id}
    requires forall other :: other in t && other != id ==> t'[other] == t[other]
    ensures forall other :: other != id ==>
              && (other in ActiveOrders(t') <==> other in ActiveOrders(t))
              && (other in CompletedOrders(t') <==> other in CompletedOrders(t))
  {
  }
}
