/** The life of one leg over any run of the protocol (internal/orders/legs.go). */
module LegMachine {
  import opened Models
  import opened Legs
  import opened Orders
  import opened Ledger
  import opened Protocol
  import Invariants

  /** Later in a run a leg has the same price, still the same executor if it had one, a status at
      least as far along, and a final status never changes. */
  ghost predicate Advances(before: LegRow, after: LegRow) {
    && after.price == before.price
    && (before.executor.Some? ==> after.executor == before.executor)
    && Rank(before.status) <= Rank(after.status)
    && (before.status in {Completed, Cancelled} ==> after.status == before.status)
  }

  ghost predicate OrderAdvances(before: Order, after: Order) {
    && after.(legs := before.legs) == before
    && after.legs.Keys == before.legs.Keys
    && forall l :: l in before.legs ==> Advances(before.legs[l], after.legs[l])
  }

  ghost predicate TableAdvances(before: Table, after: Table) {
    forall id :: id in before ==> id in after && OrderAdvances(before[id], after[id])
  }

  /** All that one handler call can do to one existing leg. */
  datatype LegChange = Untouched | Claimed | Moved(to: Status) | Finished | CalledOff

  ghost predicate Changes(a: LegRow, b: LegRow, c: LegChange) {
    match c
    case Untouched => b == a
    case Claimed =>
      && a.status == Published && a.executor.None?
      && b.executor.Some? && b == LegRow(Accepted, b.executor, a.price)
    case Moved(to) => CanTransition(a.status, to) && a.executor.Some? && b == a.(status := to)
    case Finished => a.status in {Delivered, Completed} && b == a.(status := Completed)
    case CalledOff => Cancellable(a.status) && b == a.(status := Cancelled)
  }

  ghost function ChangeOf(w: World, s: Step, id: OrderId, leg: Leg): LegChange
    requires HasLeg(w.orders, id, leg)
  {
    if s.id != id || Do(w, s).1 != Ok then Untouched
    else
      match s
      case Create(_, _, _, _) => Untouched
      case Accept(_, l, _, _, _, _) => if l == leg then Claimed else Untouched
      case UpdateStatus(_, l, _, status) => if l == leg then Moved(status) else Untouched
      case Cancel(_, _, _) => CalledOff
      case Confirm(_, _, _) => Finished
  }

  lemma LegEffect(w: World, s: Step, id: OrderId, leg: Leg)
    requires HasLeg(w.orders, id, leg)
    ensures HasLeg(Do(w, s).0.orders, id, leg)
    ensures Changes(w.orders[id].legs[leg], Do(w, s).0.orders[id].legs[leg], ChangeOf(w, s, id, leg))
  {
    match s {
      case Create(_, _, _, _) =>
      case Accept(_, _, _, _, _, _) => AcceptEffect(w, s, id, leg);
      case UpdateStatus(_, _, _, _) =>
      case Cancel(_, _, _) => CancelEffect(w, s, id, leg);
      case Confirm(_, _, _) => ConfirmEffect(w, s, id, leg);
    }
  }

  lemma AcceptEffect(w: World, s: Step, id: OrderId, leg: Leg)
    requires HasLeg(w.orders, id, leg) && s.Accept?
    ensures HasLeg(Do(w, s).0.orders, id, leg)
    ensures Changes(w.orders[id].legs[leg], Do(w, s).0.orders[id].legs[leg], ChangeOf(w, s, id, leg))
  {
  }

  lemma CancelEffect(w: World, s: Step, id: OrderId, leg: Leg)
    requires HasLeg(w.orders, id, leg) && s.Cancel?
    ensures HasLeg(Do(w, s).0.orders, id, leg)
    ensures Changes(w.orders[id].legs[leg], Do(w, s).0.orders[id].legs[leg], ChangeOf(w, s, id, leg))
  {
  }

  lemma ConfirmEffect(w: World, s: Step, id: OrderId, leg: Leg)
    requires HasLeg(w.orders, id, leg) && s.Confirm?
    ensures HasLeg(Do(w, s).0.orders, id, leg)
    ensures Changes(w.orders[id].legs[leg], Do(w, s).0.orders[id].legs[leg], ChangeOf(w, s, id, leg))
  {
    if ConfirmRefusal(w.orders, s.id, s.caller).None? && s.id == id {
      ReadyLeg(w.orders[id], leg);
    }
  }

  lemma ReadyLeg(o: Order, leg: Leg)
    requires o.Ready() && leg in o.legs
    ensures o.legs[leg].status == Delivered || o.legs[leg].status == Completed
  {
    o.ReadyMeansEveryLegDone();
  }

  lemma OrderEffect(w: World, s: Step, id: OrderId)
    requires id in w.orders
    ensures id in Do(w, s).0.orders
    ensures Do(w, s).0.orders[id].(legs := w.orders[id].legs) == w.orders[id]
    ensures Do(w, s).0.orders[id].legs.Keys == w.orders[id].legs.Keys
  {
    match s {
      case Create(_, _, _, _) =>
      case Accept(_, _, _, _, _, _) =>
      case UpdateStatus(_, _, _, _) =>
      case Cancel(_, _, _) =>
      case Confirm(_, _, _) =>
    }
  }

  lemma ChangeAdvances(a: LegRow, b: LegRow, c: LegChange)
    requires RowOk(a) && Changes(a, b, c)
    ensures Advances(a, b)
  {
    if c.Moved? {
      TransitionsAreForward(a.status, c.to);
    }
  }

  lemma StepAdvances(w: World, s: Step)
    requires Inv(w)
    ensures TableAdvances(w.orders, Do(w, s).0.orders)
  {
    forall id | id in w.orders
      ensures id in Do(w, s).0.orders && OrderAdvances(w.orders[id], Do(w, s).0.orders[id])
    {
      OrderEffect(w, s, id);
      forall l | l in w.orders[id].legs
        ensures Advances(w.orders[id].legs[l], Do(w, s).0.orders[id].legs[l])
      {
        LegEffect(w, s, id, l);
        assert OrderOk(w.orders[id]);
        ChangeAdvances(w.orders[id].legs[l], Do(w, s).0.orders[id].legs[l], ChangeOf(w, s, id, l));
      }
    }
  }

  /** No run takes a leg backwards, out of completed or cancelled, or to another executor. */
  lemma LegsOnlyAdvance(before: seq<Step>, after: seq<Step>)
    ensures TableAdvances(Run(EMPTY, before).orders, Run(EMPTY, before + after).orders)
  {
    RunSplits(EMPTY, before, after);
    Invariants.EveryRunIsSound(before);
    RunAdvances(Run(EMPTY, before), after);
  }

  lemma {:induction false} RunAdvances(w: World, steps: seq<Step>)
    requires Inv(w)
    ensures Inv(Run(w, steps)) && TableAdvances(w.orders, Run(w, steps).orders)
  {
    if steps != [] {
      var before, last := Run(w, steps[..|steps| - 1]), steps[|steps| - 1];
      RunAdvances(w, steps[..|steps| - 1]);
      Invariants.StepKeepsInv(before, last);
      StepAdvances(before, last);
      AdvancesOnward(w.orders, before.orders, Do(before, last).0.orders);
    }
  }

  lemma AdvancesOnward(t: Table, t1: Table, t2: Table)
    requires TableAdvances(t, t1) && TableAdvances(t1, t2)
    ensures TableAdvances(t, t2)
  {
    forall id | id in t
      ensures id in t2 && OrderAdvances(t[id], t2[id])
    {
      assert OrderAdvances(t[id], t1[id]) && OrderAdvances(t1[id], t2[id]);
    }
  }

  // ---- how often a leg can be moved ---------------------------------------------

  ghost predicate Moves(w: World, s: Step, id: OrderId, leg: Leg) {
    s.UpdateStatus? && s.id == id && s.leg == leg && Do(w, s).1 == Ok
  }

  ghost function Updates(steps: seq<Step>, id: OrderId, leg: Leg): nat {
    if steps == [] then 0
    else
      var before := steps[..|steps| - 1];
      Updates(before, id, leg) + if Moves(Run(EMPTY, before), steps[|steps| - 1], id, leg) then 1 else 0
  }

  /** How many updates a leg in this state can have seen. */
  ghost predicate UpdatesFit(r: LegRow, n: nat) {
    if r.status in {Published, Accepted, Cancelled} then n == 0 else n <= Rank(r.status) - Rank(Accepted)
  }

  /** A leg sees at most five successful status updates in its life, and a cancelled leg none. */
  lemma {:induction false} AtMostFiveUpdates(steps: seq<Step>, id: OrderId, leg: Leg)
    ensures CountFits(Run(EMPTY, steps).orders, id, leg, Updates(steps, id, leg))
    ensures Updates(steps, id, leg) <= 5
  {
    if steps != [] {
      var before := steps[..|steps| - 1];
      AtMostFiveUpdates(before, id, leg);
      Invariants.EveryRunIsSound(before);
      OneMoreStep(Run(EMPTY, before), steps[|steps| - 1], id, leg, Updates(before, id, leg));
      Invariants.EveryRunIsSound(steps);
      FitMeansAtMostFive(Run(EMPTY, steps), id, leg, Updates(steps, id, leg));
    }
  }

  lemma FitMeansAtMostFive(w: World, id: OrderId, leg: Leg, n: nat)
    requires Inv(w) && CountFits(w.orders, id, leg, n)
    ensures n <= 5
  {
    if HasLeg(w.orders, id, leg) {
      assert OrderOk(w.orders[id]);
    }
  }

  /** The count so far fits the state of the leg, if there is one. */
  ghost predicate CountFits(t: Table, id: OrderId, leg: Leg, n: nat) {
    if HasLeg(t, id, leg) then UpdatesFit(t[id].legs[leg], n) else n == 0
  }

  lemma OneMoreStep(w: World, s: Step, id: OrderId, leg: Leg, n: nat)
    requires Inv(w) && CountFits(w.orders, id, leg, n)
    ensures CountFits(Do(w, s).0.orders, id, leg, n + if Moves(w, s, id, leg) then 1 else 0)
  {
    if HasLeg(w.orders, id, leg) {
      LegEffect(w, s, id, leg);
      assert OrderOk(w.orders[id]);
      CountChange(w.orders[id].legs[leg], Do(w, s).0.orders[id].legs[leg], ChangeOf(w, s, id, leg), n);
    } else {
      NewLegIsFresh(w, s, id, leg);
    }
  }

  lemma CountChange(a: LegRow, b: LegRow, c: LegChange, n: nat)
    requires RowOk(a) && Changes(a, b, c) && UpdatesFit(a, n)
    ensures UpdatesFit(b, n + if c.Moved? then 1 else 0)
  {
    if c.Moved? {
      TransitionsAreForward(a.status, c.to);
    }
  }

  lemma NewLegIsFresh(w: World, s: Step, id: OrderId, leg: Leg)
    requires !HasLeg(w.orders, id, leg)
    ensures !Moves(w, s, id, leg)
    ensures var t := Do(w, s).0.orders; HasLeg(t, id, leg) ==> t[id].legs[leg].status == Published
  {
    if s.Create? {
    } else if id in w.orders {
      OrderEffect(w, s, id);
    }
  }
}
