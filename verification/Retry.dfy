/** Retried confirmations and cancellations (internal/orders/handler.go): however many attempts
    lost some of their wallet calls, one that loses none ends where a first success would have. */
module Retry {
  import opened Models
  import opened Legs
  import opened Orders
  import opened Ledger
  import opened Protocol
  import Invariants

  // ---- confirm ----------------------------------------------------------------

  ghost predicate ConfirmAttempts(id: OrderId, attempts: seq<Step>) {
    forall i :: 0 <= i < |attempts| ==> attempts[i].Confirm? && attempts[i].id == id
  }

  /** A full confirmation from here would end in this world. */
  ghost predicate WouldEndIn(w: World, id: OrderId, caller: Caller, reached: set<UserId>, target: World) {
    && id in w.orders && IsClient(w.orders[id], caller)
    && w.orders[id].Executors() <= reached
    && DoConfirm(w, id, caller, reached).0 == target
  }

  lemma ConfirmsInARow(w: World, attempts: seq<Step>, id: OrderId, caller: Caller, reached: set<UserId>)
    requires ConfirmAttempts(id, attempts) && id in w.orders && IsClient(w.orders[id], caller)
    requires w.orders[id].Executors() <= reached
    ensures Run(w, attempts + [Confirm(id, caller, reached)]) == DoConfirm(w, id, caller, reached).0
  {
    var full := Confirm(id, caller, reached);
    AttemptsLeadOn(w, attempts, id, caller, reached, DoConfirm(w, id, caller, reached).0);
    assert (attempts + [full])[..|attempts|] == attempts;
  }

  lemma {:induction false} AttemptsLeadOn(w: World, attempts: seq<Step>, id: OrderId, caller: Caller,
                                          reached: set<UserId>, target: World)
    requires ConfirmAttempts(id, attempts) && WouldEndIn(w, id, caller, reached, target)
    ensures WouldEndIn(Run(w, attempts), id, caller, reached, target)
  {
    if attempts != [] {
      var n := |attempts| - 1;
      AttemptsLeadOn(w, attempts[..n], id, caller, reached, target);
      OneMoreAttempt(Run(w, attempts[..n]), attempts[n], id, caller, reached, target);
    }
  }

  /** One attempt, whatever it reached, changes nothing about how a full one ends. */
  lemma OneMoreAttempt(w: World, s: Step, id: OrderId, caller: Caller, reached: set<UserId>, target: World)
    requires s.Confirm? && s.id == id && WouldEndIn(w, id, caller, reached, target)
    ensures WouldEndIn(Do(w, s).0, id, caller, reached, target)
  {
    if w.orders[id].Ready() {
      ConfirmAgain(w, id, s.caller, s.releaseReached, caller, reached);
    }
  }

  /** Two confirmations in a row release what either of them reached, and nothing twice. */
  lemma ConfirmAgain(w: World, id: OrderId, c1: Caller, r1: set<UserId>, c2: Caller, r2: set<UserId>)
    requires ConfirmRefusal(w.orders, id, c2).None?
    ensures var w1 := DoConfirm(w, id, c1, r1).0;
            && ConfirmRefusal(w1.orders, id, c2).None?
            && w1.orders[id].Executors() == w.orders[id].Executors()
            && (IsClient(w.orders[id], c1) ==>
                  DoConfirm(w1, id, c2, r2).0 == DoConfirm(w, id, c2, r1 + r2).0)
            && (!IsClient(w.orders[id], c1) ==> w1 == w)
            && (w.orders[id].Executors() <= r2 ==> DoConfirm(w1, id, c2, r2).0 == DoConfirm(w, id, c2, r2).0)
  {
    var o := w.orders[id];
    o.ReadyMeansEveryLegDone();
    if IsClient(o, c1) {
      var o1 := SetAll(w.orders, id, Completed)[id];
      o1.ReadyMeansEveryLegDone();
      assert forall l :: l in o1.legs <==> l in o.legs;
      assert forall p: UserId :: o1.HeldBy(p) <==> o.HeldBy(p) by { SameExecutors(o, o1); }
      assert o1.Executors() == o.Executors();
      SetAllTwice(w.orders, id, Completed);
      ReleaseTwice(w.ledger, id, o.Executors() * r1, o.Executors() * r2);
      assert o.Executors() * r1 + o.Executors() * r2 == o.Executors() * (r1 + r2);
      assert o.Executors() <= r2 ==> o.Executors() * (r1 + r2) == o.Executors() * r2;
    }
  }

  lemma SameExecutors(o: Order, o1: Order)
    requires o1.legs.Keys == o.legs.Keys
    requires forall l :: l in o.legs ==> o1.legs[l].executor == o.legs[l].executor
    ensures forall p: UserId :: o1.HeldBy(p) <==> o.HeldBy(p)
  {
    forall p: UserId
      ensures o1.HeldBy(p) <==> o.HeldBy(p)
    {
      if o1.HeldBy(p) {
        var l :| l in o1.legs && o1.legs[l].executor == Some(p);
        assert o.legs[l].executor == Some(p);
      }
      if o.HeldBy(p) {
        var l :| l in o.legs && o.legs[l].executor == Some(p);
        assert o1.legs[l].executor == Some(p);
      }
    }
  }

  lemma SetAllTwice(t: Table, id: OrderId, s: Status)
    requires id in t
    ensures SetAll(SetAll(t, id, s), id, s) == SetAll(t, id, s)
  {
    var once := SetAll(t, id, s);
    assert SetAll(once, id, s)[id].legs == once[id].legs;
  }

  // ---- cancel -----------------------------------------------------------------

  ghost predicate CancelAttempts(id: OrderId, attempts: seq<Step>) {
    forall i :: 0 <= i < |attempts| ==> attempts[i].Cancel? && attempts[i].id == id
  }

  ghost predicate WouldBeCancelledTo(w: World, id: OrderId, caller: Caller, target: World) {
    && id in w.orders && IsClient(w.orders[id], caller)
    && DoCancel(w, id, caller, true).0 == target
  }

  lemma CancelsInARow(w: World, attempts: seq<Step>, id: OrderId, caller: Caller)
    requires CancelAttempts(id, attempts) && id in w.orders && IsClient(w.orders[id], caller)
    ensures Run(w, attempts + [Cancel(id, caller, true)]) == DoCancel(w, id, caller, true).0
  {
    var full := Cancel(id, caller, true);
    CancelsLeadOn(w, attempts, id, caller, DoCancel(w, id, caller, true).0);
    assert (attempts + [full])[..|attempts|] == attempts;
  }

  lemma {:induction false} CancelsLeadOn(w: World, attempts: seq<Step>, id: OrderId, caller: Caller, target: World)
    requires CancelAttempts(id, attempts) && WouldBeCancelledTo(w, id, caller, target)
    ensures WouldBeCancelledTo(Run(w, attempts), id, caller, target)
  {
    if attempts != [] {
      var n := |attempts| - 1;
      CancelsLeadOn(w, attempts[..n], id, caller, target);
      OneMoreCancel(Run(w, attempts[..n]), attempts[n], id, caller, target);
    }
  }

  lemma OneMoreCancel(w: World, s: Step, id: OrderId, caller: Caller, target: World)
    requires s.Cancel? && s.id == id && WouldBeCancelledTo(w, id, caller, target)
    ensures WouldBeCancelledTo(Do(w, s).0, id, caller, target)
  {
    if w.orders[id].MayCancel() {
      CancelAgain(w, id, s.caller, s.refundReached, caller);
    }
  }

  lemma CancelAgain(w: World, id: OrderId, c1: Caller, reached: bool, c2: Caller)
    requires CancelRefusal(w.orders, id, c2).None?
    ensures var w1 := DoCancel(w, id, c1, reached).0;
            && CancelRefusal(w1.orders, id, c2).None?
            && DoCancel(w1, id, c2, true).0 == DoCancel(w, id, c2, true).0
  {
    if IsClient(w.orders[id], c1) {
      SetAllTwice(w.orders, id, Cancelled);
      assert Refund(Refund(w.ledger, id), id) == Refund(w.ledger, id);
    }
  }

  // ---- with anything in between ---------------------------------------------------

  datatype Ending = Confirmed | CalledOff {
    function LegStatus(): Status {
      if Confirmed? then Completed else Cancelled
    }

    function RowStatus(): TxStatus {
      if Confirmed? then Released else Refunded
    }

    ghost predicate Concerns(o: Order, row: Tx) {
      CalledOff? || row.payee in o.Executors()
    }
  }

  /** The order is as in the target and, but for calls that got lost, so is its money. */
  ghost predicate OnTheWayTo(target: World, w: World, id: OrderId, e: Ending) {
    && id in target.orders && id in w.orders && w.orders[id] == target.orders[id]
    && HasEnded(w.orders[id], e)
    && |target.ledger| <= |w.ledger|
    && (forall i :: 0 <= i < |target.ledger| ==> RowOnTheWayTo(target.ledger[i], w.ledger[i], w.orders[id], id, e))
    && (forall i :: |target.ledger| <= i < |w.ledger| ==> w.ledger[i].order != id)
  }

  ghost predicate HasEnded(o: Order, e: Ending) {
    o.legs != map[] && o.All(e.LegStatus()) && (e.Confirmed? ==> forall l :: l in o.legs ==> o.legs[l].executor.Some?)
  }

  ghost predicate RowOnTheWayTo(target: Tx, row: Tx, o: Order, id: OrderId, e: Ending) {
    && row.order == target.order
    && (row.order == id ==> target == Settle(row, e.Concerns(o, row), e.RowStatus()))
  }

  /** The order and its rows, position by position, are as in the target. */
  ghost predicate SameSlice(target: World, w: World, id: OrderId) {
    && id in target.orders && id in w.orders && w.orders[id] == target.orders[id]
    && |target.ledger| <= |w.ledger|
    && (forall i :: 0 <= i < |target.ledger| ==>
          w.ledger[i].order == target.ledger[i].order && (w.ledger[i].order == id ==> w.ledger[i] == target.ledger[i]))
    && (forall i :: |target.ledger| <= i < |w.ledger| ==> w.ledger[i].order != id)
  }

  /** Once a confirmation has passed its checks, whatever else happens to whichever orders, and however
      many attempts lose whichever calls: one attempt that reaches every executor leaves the order and
      its money exactly as it would have the first time. */
  lemma ConfirmConverges(w: World, id: OrderId, c1: Caller, r1: set<UserId>, between: seq<Step>, c2: Caller, r2: set<UserId>)
    requires Inv(w) && ConfirmRefusal(w.orders, id, c1).None? && IsClient(w.orders[id], c2)
    requires w.orders[id].Executors() <= r2
    ensures var later := Run(DoConfirm(w, id, c1, r1).0, between);
            SameSlice(DoConfirm(w, id, c2, r2).0, DoConfirm(later, id, c2, r2).0, id)
  {
    var target := DoConfirm(w, id, c2, r2).0;
    FirstConfirm(w, id, c1, r1, c2, r2);
    AnythingLeadsOn(target, DoConfirm(w, id, c1, r1).0, between, id, Confirmed);
    FullConfirmArrives(target, Run(DoConfirm(w, id, c1, r1).0, between), id, c2, r2);
  }

  lemma {:induction false} AnythingLeadsOn(target: World, w: World, steps: seq<Step>, id: OrderId, e: Ending)
    requires OnTheWayTo(target, w, id, e)
    ensures OnTheWayTo(target, Run(w, steps), id, e)
  {
    if steps != [] {
      AnythingLeadsOn(target, w, steps[..|steps| - 1], id, e);
      StepLeadsOn(target, Run(w, steps[..|steps| - 1]), steps[|steps| - 1], id, e);
    }
  }

  lemma StepLeadsOn(target: World, w: World, s: Step, id: OrderId, e: Ending)
    requires OnTheWayTo(target, w, id, e)
    ensures OnTheWayTo(target, Do(w, s).0, id, e)
  {
    if s.id != id {
      ElsewhereLeadsOn(target, w, s, id, e);
    } else {
      match s {
        case Create(_, _, _, _) =>
        case Accept(_, leg, caller, executor, licensed, _) =>
          EndedRefusesWork(w.orders, id, e, leg);
          assert AcceptRefusal(w.orders, id, leg, caller, executor, licensed).Some?;
        case UpdateStatus(_, leg, _, status) => EndedRefusesWork(w.orders, id, e, leg);
        case Cancel(_, _, _) => CancelLeadsOn(target, w, s, id, e);
        case Confirm(_, _, _) => ConfirmLeadsOn(target, w, s, id, e);
      }
    }
  }

  lemma ElsewhereLeadsOn(target: World, w: World, s: Step, id: OrderId, e: Ending)
    requires OnTheWayTo(target, w, id, e) && s.id != id
    ensures OnTheWayTo(target, Do(w, s).0, id, e)
  {
    StepStaysElsewhere(w, s, id);
    var w' := Do(w, s).0;
    forall i | 0 <= i < |target.ledger|
      ensures RowOnTheWayTo(target.ledger[i], w'.ledger[i], w'.orders[id], id, e)
    {
      assert RowOnTheWayTo(target.ledger[i], w.ledger[i], w.orders[id], id, e);
    }
  }

  /** A step leaves the other orders and their rows alone. */
  lemma StepStaysElsewhere(w: World, s: Step, id: OrderId)
    requires s.id != id && id in w.orders
    ensures var w' := Do(w, s).0;
            && id in w'.orders && w'.orders[id] == w.orders[id]
            && |w.ledger| <= |w'.ledger|
            && (forall i :: 0 <= i < |w.ledger| ==>
                  w'.ledger[i].order == w.ledger[i].order && (w.ledger[i].order == id ==> w'.ledger[i] == w.ledger[i]))
            && (forall i :: |w.ledger| <= i < |w'.ledger| ==> w'.ledger[i].order != id)
  {
    match s {
      case Create(_, _, _, _) =>
      case Accept(_, _, _, _, _, _) => AcceptStaysElsewhere(w, s, id);
      case UpdateStatus(_, _, _, _) =>
      case Cancel(_, _, _) =>
      case Confirm(_, _, _) =>
    }
  }

  lemma AcceptStaysElsewhere(w: World, s: Step, id: OrderId)
    requires s.Accept? && s.id != id && id in w.orders
    ensures var w' := Do(w, s).0;
            && id in w'.orders && w'.orders[id] == w.orders[id]
            && (w'.ledger == w.ledger || exists t: Tx :: t.order == s.id && w'.ledger == w.ledger + [t])
  {
    if AcceptRefusal(w.orders, s.id, s.leg, s.caller, s.executor, s.licensed).None? && s.call.reply != Dropped {
      var escrow := LegEscrow(w, s.id, s.leg, s.executor, s.call);
      if escrow.Opened? {
        assert escrow.tx.order == s.id;
        assert AfterEscrow(w.ledger, escrow) == w.ledger || AfterEscrow(w.ledger, escrow) == w.ledger + [escrow.tx];
      }
    }
  }

  /** A completed order has an executor on every leg, a cancelled one nothing to take, and neither
      status has a way out. */
  lemma EndedRefusesWork(t: Table, id: OrderId, e: Ending, leg: Leg)
    requires id in t && HasEnded(t[id], e)
    ensures leg in t[id].legs ==> t[id].legs[leg].executor.Some? || t[id].legs[leg].status != Published
    ensures leg in t[id].legs ==> forall to :: !CanTransition(t[id].legs[leg].status, to)
  {
  }

  lemma CancelLeadsOn(target: World, w: World, s: Step, id: OrderId, e: Ending)
    requires OnTheWayTo(target, w, id, e) && s.Cancel? && s.id == id
    ensures OnTheWayTo(target, Do(w, s).0, id, e)
  {
    if CancelRefusal(w.orders, id, s.caller).None? {
      var l :| l in w.orders[id].legs;
      assert Cancellable(w.orders[id].legs[l].status);
      SetAllIdle(w.orders, id, Cancelled);
      forall i | 0 <= i < |target.ledger|
        ensures RowOnTheWayTo(target.ledger[i], Refund(w.ledger, id)[i], w.orders[id], id, e)
      {
        assert RowOnTheWayTo(target.ledger[i], w.ledger[i], w.orders[id], id, e);
      }
    }
  }

  lemma ConfirmLeadsOn(target: World, w: World, s: Step, id: OrderId, e: Ending)
    requires OnTheWayTo(target, w, id, e) && s.Confirm? && s.id == id
    ensures OnTheWayTo(target, Do(w, s).0, id, e)
  {
    if ConfirmRefusal(w.orders, id, s.caller).None? {
      var o, l :| o == w.orders[id] && l in o.legs;
      o.ReadyMeansEveryLegDone();
      assert o.legs[l].status in {Delivered, Completed};
      SetAllIdle(w.orders, id, Completed);
      var rows := ReleaseTo(w.ledger, id, o.Executors() * s.releaseReached);
      forall i | 0 <= i < |target.ledger|
        ensures RowOnTheWayTo(target.ledger[i], rows[i], o, id, e)
      {
        assert RowOnTheWayTo(target.ledger[i], w.ledger[i], o, id, e);
      }
    }
  }

  // ---- the first attempt and the last ---------------------------------------------------

  lemma FirstConfirm(w: World, id: OrderId, c1: Caller, r1: set<UserId>, c2: Caller, r2: set<UserId>)
    requires Inv(w) && ConfirmRefusal(w.orders, id, c1).None? && IsClient(w.orders[id], c2)
    requires w.orders[id].Executors() <= r2
    ensures OnTheWayTo(DoConfirm(w, id, c2, r2).0, DoConfirm(w, id, c1, r1).0, id, Confirmed)
  {
    CompletedHasEnded(w.orders, id);
    ReleasedOnTheWay(w.ledger, id, w.orders[id], SetAll(w.orders, id, Completed)[id], r1, r2);
  }

  lemma CompletedHasEnded(t: Table, id: OrderId)
    requires id in t && OrderOk(t[id]) && t[id].Ready()
    ensures HasEnded(SetAll(t, id, Completed)[id], Confirmed)
    ensures SetAll(t, id, Completed)[id].Executors() == t[id].Executors()
  {
    var done := SetAll(t, id, Completed)[id];
    Invariants.ReadyIsWorked(t[id]);
    Invariants.SomeLeg(t[id]);
    var l :| l in t[id].legs;
    assert l in done.legs;
    SameExecutors(t[id], done);
    assert forall p :: p in done.Executors() <==> p in t[id].Executors();
  }

  lemma ReleasedOnTheWay(rows: Rows, id: OrderId, o: Order, done: Order, r1: set<UserId>, r2: set<UserId>)
    requires done.Executors() == o.Executors() <= r2
    ensures var target, row := ReleaseTo(rows, id, o.Executors() * r2), ReleaseTo(rows, id, o.Executors() * r1);
            forall i :: 0 <= i < |rows| ==> RowOnTheWayTo(target[i], row[i], done, id, Confirmed)
  {
    assert o.Executors() * r2 == o.Executors();
  }

  lemma FullConfirmArrives(target: World, w: World, id: OrderId, caller: Caller, reached: set<UserId>)
    requires OnTheWayTo(target, w, id, Confirmed) && IsClient(w.orders[id], caller)
    requires w.orders[id].Executors() <= reached
    ensures SameSlice(target, DoConfirm(w, id, caller, reached).0, id)
  {
    var o := w.orders[id];
    o.ReadyMeansEveryLegDone();
    SetAllIdle(w.orders, id, Completed);
    assert o.Executors() * reached == o.Executors();
    forall i | 0 <= i < |target.ledger|
      ensures RowOnTheWayTo(target.ledger[i], w.ledger[i], o, id, Confirmed)
    {
    }
  }

  lemma CancelConverges(w: World, id: OrderId, c1: Caller, reached: bool, between: seq<Step>, c2: Caller)
    requires Inv(w) && CancelRefusal(w.orders, id, c1).None? && IsClient(w.orders[id], c2)
    ensures var later := Run(DoCancel(w, id, c1, reached).0, between);
            SameSlice(DoCancel(w, id, c2, true).0, DoCancel(later, id, c2, true).0, id)
  {
    var target := DoCancel(w, id, c2, true).0;
    FirstCancel(w, id, c1, reached, c2);
    AnythingLeadsOn(target, DoCancel(w, id, c1, reached).0, between, id, CalledOff);
    FullCancelArrives(target, Run(DoCancel(w, id, c1, reached).0, between), id, c2);
  }

  lemma FirstCancel(w: World, id: OrderId, c1: Caller, reached: bool, c2: Caller)
    requires Inv(w) && CancelRefusal(w.orders, id, c1).None? && IsClient(w.orders[id], c2)
    ensures OnTheWayTo(DoCancel(w, id, c2, true).0, DoCancel(w, id, c1, reached).0, id, CalledOff)
  {
    Invariants.SomeLeg(w.orders[id]);
    var l :| l in w.orders[id].legs;
    assert l in SetAll(w.orders, id, Cancelled)[id].legs;
  }

  lemma FullCancelArrives(target: World, w: World, id: OrderId, caller: Caller)
    requires OnTheWayTo(target, w, id, CalledOff) && IsClient(w.orders[id], caller)
    ensures SameSlice(target, DoCancel(w, id, caller, true).0, id)
  {
    SetAllIdle(w.orders, id, Cancelled);
    forall i | 0 <= i < |target.ledger|
      ensures RowOnTheWayTo(target.ledger[i], w.ledger[i], w.orders[id], id, CalledOff)
    {
    }
  }

  // ---- the measure --------------------------------------------------------------

  /** How many rows of an order still wait for a payout or a refund. */
  ghost function HeldCount(rows: Rows, id: OrderId): nat {
    if rows == [] then 0
    else
      var t := rows[|rows| - 1];
      HeldCount(rows[..|rows| - 1], id) + if t.order == id && t.status == Held then 1 else 0
  }

  /** An attempt never adds a held row, and unless it changes nothing in the ledger it removes some. */
  lemma AttemptsShrinkHeld(w: World, s: Step, id: OrderId)
    requires (s.Confirm? || s.Cancel?) && s.id == id
    ensures HeldCount(Do(w, s).0.ledger, id) <= HeldCount(w.ledger, id)
    ensures HeldCount(Do(w, s).0.ledger, id) == HeldCount(w.ledger, id) <==> Do(w, s).0.ledger == w.ledger
  {
    SettlingShrinks(w.ledger, Do(w, s).0.ledger, id);
  }

  lemma {:induction false} SettlingShrinks(rows: Rows, rows': Rows, id: OrderId)
    requires |rows'| == |rows|
    requires forall i :: 0 <= i < |rows| ==>
               || rows'[i] == rows[i]
               || (rows[i].order == rows'[i].order == id && rows[i].status == Held && rows'[i].status != Held)
    ensures HeldCount(rows', id) <= HeldCount(rows, id)
    ensures HeldCount(rows', id) == HeldCount(rows, id) <==> rows' == rows
  {
    if rows != [] {
      var n := |rows| - 1;
      SettlingShrinks(rows[..n], rows'[..n], id);
      assert rows == rows[..n] + [rows[n]] && rows' == rows'[..n] + [rows'[n]];
    }
  }
}
