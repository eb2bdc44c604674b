/** The orders tables and the single statements that change them (internal/orders/store.go). */
module Orders {
  import opened Models
  import opened GoInt
  import opened Legs

  /** A row of orders.order_legs. */
  datatype LegRow = LegRow(status: Status, executor: Option<UserId>, price: int64)

  /** A row of orders.orders together with its legs. */
  datatype Order = Order(
    client: UserId,
    kind: OrderType,
    estimate: int64,
    paymentMethod: PaymentMethod,
    legs: map<Leg, LegRow>)
  {
    /** The legs in canonical order, as attachLegs reads them back. */
    function LegNames(): (names: seq<Leg>)
      ensures forall l :: l in names <==> l in legs
      ensures Distinct(names)
    {
      var t := if Transport in legs then [Transport] else [];
      var e := if Equipment in legs then t + [Equipment] else t;
      var names := if Labor in legs then e + [Labor] else e;
      assert forall l :: l in legs ==> l == Transport || l == Equipment || l == Labor;
      assert Transport in legs ==> names[0] == Transport;
      assert Equipment in legs ==> names[|t|] == Equipment;
      assert Labor in legs ==> names[|e|] == Labor;
      names
    }

    function Statuses(): (s: seq<Status>)
      ensures |s| == |LegNames()|
      ensures forall i :: 0 <= i < |s| ==> s[i] == legs[LegNames()[i]].status
    {
      seq(|LegNames()|, i requires 0 <= i < |LegNames()| => legs[LegNames()[i]].status)
    }

    /** Everybody who holds a leg. */
    function Executors(): (ps: set<UserId>)
      ensures forall p :: p in ps <==> HeldBy(p)
    {
      set l | l in legs && legs[l].executor.Some? :: legs[l].executor.value
    }

    ghost predicate HeldBy(p: UserId) {
      exists l :: l in legs && legs[l].executor == Some(p)
    }

    predicate All(s: Status) {
      forall l :: l in legs ==> legs[l].status == s
    }

    predicate MayCancel() {
      forall l :: l in legs ==> Cancellable(legs[l].status)
    }

    predicate Ready() {
      IsReadyForClientConfirmation(Statuses())
    }

    lemma ReadyMeansEveryLegDone()
      ensures Ready() <==> legs != map[] && forall l :: l in legs ==> legs[l].status in {Delivered, Completed}
    {
      if legs != map[] {
        var l :| l in legs;
        assert l in LegNames();
      }
      if Ready() {
        forall l | l in legs
          ensures legs[l].status in {Delivered, Completed}
        {
          var i :| 0 <= i < |LegNames()| && LegNames()[i] == l;
          assert Statuses()[i] in Statuses();
        }
      }
    }

    /** The sum of f over the (at most three) legs. */
    ghost function Sum(f: LegRow -> int): int {
      OneLeg(Transport, f) + OneLeg(Equipment, f) + OneLeg(Labor, f)
    }

    ghost function OneLeg(l: Leg, f: LegRow -> int): int {
      if l in legs then f(legs[l]) else 0
    }
  }

  type Table = map<OrderId, Order>

  predicate HasLeg(t: Table, id: OrderId, leg: Leg) {
    id in t && leg in t[id].legs
  }

  function SetLeg(t: Table, id: OrderId, leg: Leg, row: LegRow): Table
    requires id in t
  {
    t[id := t[id].(legs := t[id].legs[leg := row])]
  }

  /** The guard of the conditional UPDATE that claims a leg. */
  predicate Claimable(t: Table, id: OrderId, leg: Leg) {
    HasLeg(t, id, leg) && t[id].legs[leg].executor.None? && t[id].legs[leg].status == Published
  }

  function Claim(t: Table, id: OrderId, leg: Leg, executor: UserId): Table {
    if Claimable(t, id, leg) then
      SetLeg(t, id, leg, t[id].legs[leg].(status := Accepted, executor := Some(executor)))
    else t
  }

  /** Unconditional: undoes whatever claim the leg carries. */
  function ReleaseClaim(t: Table, id: OrderId, leg: Leg): Table {
    if HasLeg(t, id, leg) then
      SetLeg(t, id, leg, t[id].legs[leg].(status := Published, executor := None))
    else t
  }

  /** The unconditional roll-back is exact right after a claim. */
  lemma RollbackRestores(t: Table, id: OrderId, leg: Leg, executor: UserId)
    requires Claimable(t, id, leg)
    ensures ReleaseClaim(Claim(t, id, leg, executor), id, leg) == t
  {
    assert ReleaseClaim(Claim(t, id, leg, executor), id, leg)[id].legs == t[id].legs;
  }

  /** Unconditional: the caller has checked the transition on what it read earlier. */
  function SetStatus(t: Table, id: OrderId, leg: Leg, status: Status): Table {
    if HasLeg(t, id, leg) then
      SetLeg(t, id, leg, t[id].legs[leg].(status := status))
    else t
  }

  /** Unconditional: CompleteAllLegs and Cancel. */
  function SetAll(t: Table, id: OrderId, status: Status): Table {
    if id in t then
      t[id := t[id].(legs := map l | l in t[id].legs :: t[id].legs[l].(status := status))]
    else t
  }

  /** An order whose legs all have a status is left as it is by giving it to them again. */
  lemma SetAllIdle(t: Table, id: OrderId, status: Status)
    requires id in t && t[id].All(status)
    ensures SetAll(t, id, status) == t
  {
    assert SetAll(t, id, status)[id].legs == t[id].legs;
  }
}
