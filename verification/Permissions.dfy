/** Nothing happens to an order, a leg or its money but at the word of somebody entitled to it: over
    every run, told on the callers and the fields (internal/orders/handler.go). */
module Permissions {
  import opened Models
  import opened Orders
  import opened Ledger
  import opened Protocol
  import Answers

  // ---- refused ----------------------------------------------------------------------------------

  /** A stranger to the order can neither confirm nor cancel it. */
  lemma StrangersAreRefused(w: World, s: Step)
    requires s.Confirm? || s.Cancel?
    requires s.id in w.orders && s.caller.sub != w.orders[s.id].client && !s.caller.admin
    ensures Do(w, s) == (w, Forbidden)
  {
    match s {
      case Confirm(id, caller, reached) => Answers.ConfirmAnswers(w, id, caller, reached);
      case Cancel(id, caller, reached) => Answers.CancelAnswers(w, id, caller, reached);
    }
  }

  // ---- money ------------------------------------------------------------------------------------

  ghost predicate IsClientOrAdmin(w: World, id: OrderId, caller: Caller) {
    id in w.orders && (caller.sub == w.orders[id].client || caller.admin)
  }

  /** The step that may release, or refund, this row. */
  ghost predicate Releases(w: World, s: Step, row: Tx) {
    s.Confirm? && s.id == row.order && IsClientOrAdmin(w, row.order, s.caller) && row.payee in s.releaseReached
  }

  ghost predicate Refunds(w: World, s: Step, row: Tx) {
    s.Cancel? && s.id == row.order && IsClientOrAdmin(w, row.order, s.caller) && s.refundReached
  }

  ghost predicate SettledBy(steps: seq<Step>, k: nat, row: Tx)
    requires k < |steps|
  {
    var w := Run(EMPTY, steps[..k]);
    if row.status == Released then Releases(w, steps[k], row) else Refunds(w, steps[k], row)
  }

  ghost predicate IsAccounted(steps: seq<Step>, row: Tx) {
    row.status != Held ==> exists k: nat :: k < |steps| && SettledBy(steps, k, row)
  }

  /** Over every run: a row was released by a confirmation of its order's client or of an
      administrator that reached its payee, or refunded by such a cancellation. */
  lemma {:induction false} EverySettlementIsAskedFor(steps: seq<Step>)
    ensures forall i :: 0 <= i < |Run(EMPTY, steps).ledger| ==> IsAccounted(steps, Run(EMPTY, steps).ledger[i])
  {
    if steps != [] {
      var before, s := steps[..|steps| - 1], steps[|steps| - 1];
      var w, w' := Run(EMPTY, before), Run(EMPTY, steps);
      EverySettlementIsAskedFor(before);
      forall i | 0 <= i < |w'.ledger|
        ensures IsAccounted(steps, w'.ledger[i])
      {
        SettlesOnlyIfAsked(w, s, i);
        if w'.ledger[i].status != Held {
          if i < |w.ledger| && w.ledger[i] == w'.ledger[i] {
            StillAccounted(before, s, w.ledger[i]);
            assert before + [s] == steps;
          } else {
            assert steps[..|before|] == before;
            assert SettledBy(steps, |before|, w'.ledger[i]);
          }
        }
      }
    }
  }

  lemma StillAccounted(steps: seq<Step>, s: Step, row: Tx)
    requires IsAccounted(steps, row)
    ensures IsAccounted(steps + [s], row)
  {
    if row.status != Held {
      var k: nat :| k < |steps| && SettledBy(steps, k, row);
      assert (steps + [s])[..k] == steps[..k];
      assert SettledBy(steps + [s], k, row);
    }
  }

  /** A step that changes a row settles it, and is one that may; a new row is held. */
  lemma SettlesOnlyIfAsked(w: World, s: Step, i: nat)
    requires i < |Do(w, s).0.ledger|
    ensures var row := Do(w, s).0.ledger[i];
            if i < |w.ledger| then
              || row == w.ledger[i]
              || (row == w.ledger[i].(status := Released) && Releases(w, s, row))
              || (row == w.ledger[i].(status := Refunded) && Refunds(w, s, row))
            else row.status == Held
  {
    match s {
      case Create(_, _, _, _) =>
      case Accept(id, leg, caller, executor, licensed, call) =>
        Answers.AcceptAnswers(w, id, leg, caller, executor, licensed, call);
        if Answers.Takeable(w.orders, id, leg, caller, executor, licensed) {
          Answers.AcceptEffect(w, id, leg, caller, executor, licensed, call);
        }
      case UpdateStatus(_, _, _, _) =>
      case Cancel(id, caller, reached) =>
        Answers.CancelAnswers(w, id, caller, reached);
        if DoCancel(w, id, caller, reached).1 == Ok {
          Answers.CancelEffect(w, id, caller, reached);
        }
      case Confirm(id, caller, reached) =>
        Answers.ConfirmAnswers(w, id, caller, reached);
        if DoConfirm(w, id, caller, reached).1 == Ok {
          Answers.ConfirmEffect(w, id, caller, reached);
        }
    }
  }

  // ---- legs -------------------------------------------------------------------------------------

  /** The step that may touch this leg: its taker or an administrator, licensed; its executor or an
      administrator, for a status; the client or an administrator, to cancel or confirm. */
  ghost predicate MayTouch(w: World, s: Step, id: OrderId, leg: Leg)
    requires HasLeg(w.orders, id, leg)
  {
    var executor := w.orders[id].legs[leg].executor;
    && s.id == id
    && match s
       case Create(_, _, _, _) => false
       case Accept(_, l, caller, p, licensed, _) =>
         l == leg && executor == None && licensed && (p == caller.sub || caller.admin)
       case UpdateStatus(_, l, caller, _) =>
         l == leg && executor != None && (executor == Some(caller.sub) || caller.admin)
       case Cancel(_, caller, _) => caller.sub == w.orders[id].client || caller.admin
       case Confirm(_, caller, _) => caller.sub == w.orders[id].client || caller.admin
  }

  /** Whoever changes a leg may. */
  lemma OnlyTheEntitledTouch(w: World, s: Step, id: OrderId, leg: Leg)
    requires HasLeg(w.orders, id, leg)
    ensures HasLeg(Do(w, s).0.orders, id, leg)
    ensures Do(w, s).0.orders[id].legs[leg] != w.orders[id].legs[leg] ==> MayTouch(w, s, id, leg)
  {
    match s {
      case Create(_, _, _, _) =>
      case Accept(i, l, caller, executor, licensed, call) =>
        Answers.AcceptAnswers(w, i, l, caller, executor, licensed, call);
        if Answers.Takeable(w.orders, i, l, caller, executor, licensed) {
          Answers.AcceptEffect(w, i, l, caller, executor, licensed, call);
        }
      case UpdateStatus(i, l, caller, status) =>
        Answers.UpdateAnswers(w, i, l, caller, status);
        if DoUpdate(w, i, l, caller, status).1 == Ok {
          Answers.UpdateEffect(w, i, l, caller, status);
        }
      case Cancel(i, caller, reached) =>
        Answers.CancelAnswers(w, i, caller, reached);
        if DoCancel(w, i, caller, reached).1 == Ok {
          Answers.CancelEffect(w, i, caller, reached);
        }
      case Confirm(i, caller, reached) =>
        Answers.ConfirmAnswers(w, i, caller, reached);
        if DoConfirm(w, i, caller, reached).1 == Ok {
          Answers.ConfirmEffect(w, i, caller, reached);
        }
    }
  }

  ghost predicate TakenBy(steps: seq<Step>, k: nat, id: OrderId, leg: Leg, executor: UserId)
    requires k < |steps|
  {
    var s := steps[k];
    s.Accept? && s.id == id && s.leg == leg && s.executor == executor && s.licensed
    && (s.caller.sub == executor || s.caller.admin)
  }

  ghost predicate WasTaken(steps: seq<Step>, id: OrderId, leg: Leg, executor: UserId) {
    exists k: nat :: k < |steps| && TakenBy(steps, k, id, leg, executor)
  }

  /** Over every run: whoever holds a leg was licensed, and asked for it, or an administrator did. */
  lemma {:induction false} EveryHolderAskedForIt(steps: seq<Step>, id: OrderId, leg: Leg)
    ensures var t := Run(EMPTY, steps).orders;
            HasLeg(t, id, leg) && t[id].legs[leg].executor.Some? ==>
              WasTaken(steps, id, leg, t[id].legs[leg].executor.value)
  {
    if steps != [] {
      var before, s := steps[..|steps| - 1], steps[|steps| - 1];
      var w, w' := Run(EMPTY, before), Run(EMPTY, steps);
      EveryHolderAskedForIt(before, id, leg);
      if HasLeg(w'.orders, id, leg) && w'.orders[id].legs[leg].executor.Some? {
        var p := w'.orders[id].legs[leg].executor.value;
        HolderIsOldOrTaker(w, s, id, leg);
        if HasLeg(w.orders, id, leg) && w.orders[id].legs[leg].executor == Some(p) {
          var k: nat :| k < |before| && TakenBy(before, k, id, leg, p);
          assert TakenBy(steps, k, id, leg, p);
        } else {
          assert TakenBy(steps, |before|, id, leg, p);
        }
      }
    }
  }

  lemma HolderIsOldOrTaker(w: World, s: Step, id: OrderId, leg: Leg)
    requires HasLeg(Do(w, s).0.orders, id, leg) && Do(w, s).0.orders[id].legs[leg].executor.Some?
    ensures var p := Do(w, s).0.orders[id].legs[leg].executor;
            || (HasLeg(w.orders, id, leg) && w.orders[id].legs[leg].executor == p)
            || (s.Accept? && s.id == id && s.leg == leg && Some(s.executor) == p && s.licensed
                && (s.caller.sub == s.executor || s.caller.admin))
  {
    match s {
      case Create(i, client, tariffs, request) => Answers.NewOrderFields(client, tariffs, request);
      case Accept(i, l, caller, executor, licensed, call) =>
        Answers.AcceptAnswers(w, i, l, caller, executor, licensed, call);
        if Answers.Takeable(w.orders, i, l, caller, executor, licensed) {
          Answers.AcceptEffect(w, i, l, caller, executor, licensed, call);
        }
      case UpdateStatus(_, _, _, _) =>
      case Cancel(_, _, _) =>
      case Confirm(_, _, _) =>
    }
  }
}
