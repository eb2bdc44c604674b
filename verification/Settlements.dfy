/** Payout and refund when statements interleave freely: exactly which landings of the wallet's two
    UPDATEs (internal/wallet/store.go) let no order be both paid and refunded, and exactly which keep
    the money in step with the legs. */
module Settlements {
  import opened Models
  import opened GoInt
  import opened Legs
  import opened Orders
  import opened Ledger
  import opened Protocol
  import opened Interleaving
  import opened InterleavedMoney
  import opened Landings

  ghost predicate HasStatus(rows: Rows, id: OrderId, status: TxStatus) {
    exists i :: 0 <= i < |rows| && rows[i].order == id && rows[i].status == status
  }

  ghost predicate HoldsFor(rows: Rows, id: OrderId, payee: UserId) {
    exists i :: 0 <= i < |rows| && For(rows[i], id, payee) && rows[i].status == Held
  }

  // ---- never both ---------------------------------------------------------------------------

  /** No order has both a payout and a refund. */
  ghost predicate NoBoth(rows: Rows) {
    forall i, j :: 0 <= i < |rows| && 0 <= j < |rows| && rows[i].order == rows[j].order ==>
      !(rows[i].status == Released && rows[j].status == Refunded)
  }

  /** What the wallet could test before it refunds an order, and before it releases to a payee. */
  ghost predicate RefundsAlike(rows: Rows, id: OrderId) {
    HasStatus(rows, id, Held) ==> !HasStatus(rows, id, Released)
  }

  ghost predicate ReleasesAlike(rows: Rows, id: OrderId, payee: UserId) {
    HoldsFor(rows, id, payee) ==> !HasStatus(rows, id, Refunded)
  }

  ghost predicate SettlesAlike(s: Sys, a: Action) {
    a.Advance? && a.tid < |s.procs| && a.call.reply != Dropped ==>
      match s.procs[a.tid]
      case Refunding(id) => RefundsAlike(s.ledger, id)
      case Paying(id, owed) => owed != [] ==> ReleasesAlike(s.ledger, id, owed[0])
      case _ => true
  }

  ghost predicate AllAlike(actions: seq<Action>) {
    actions == [] ||
    (AllAlike(actions[..|actions| - 1]) &&
     SettlesAlike(Schedule(START, actions[..|actions| - 1]), actions[|actions| - 1]))
  }

  /** However statements interleave and whichever calls fail: no order is both paid and refunded if and
      only if no refund finds a held row beside a released one, and no release a held row of its payee
      beside a refunded one. */
  lemma {:induction false} NeverBothIff(actions: seq<Action>)
    ensures NoBoth(Schedule(START, actions).ledger) <==> AllAlike(actions)
  {
    if actions != [] {
      var before, a := actions[..|actions| - 1], actions[|actions| - 1];
      NeverBothIff(before);
      LedgerSafeUnderInterleaving(before, []);
      assert before + [] == before;
      StepBothIff(Schedule(START, before), a);
    }
  }

  lemma StepBothIff(s: Sys, a: Action)
    requires RowsReady(s)
    ensures NoBoth(Next(s, a).ledger) <==> NoBoth(s.ledger) && SettlesAlike(s, a)
  {
    if a.Advance? && a.tid < |s.procs| && a.call.reply != Dropped {
      match s.procs[a.tid] {
        case Inserting(_, _, _, row) => InsertBothIff(s.ledger, row);
        case Orphan(_, _, row) => InsertBothIff(s.ledger, row);
        case Refunding(id) => RefundBothIff(s.ledger, id);
        case Paying(id, owed) => if owed != [] { ReleaseBothIff(s.ledger, id, owed[0]); }
        case _ =>
      }
    }
  }

  lemma InsertBothIff(rows: Rows, t: Tx)
    requires t.status == Held
    ensures NoBoth(Insert(rows, t)) <==> NoBoth(rows)
  {
    var rows' := Insert(rows, t);
    assert forall i :: 0 <= i < |rows| ==> rows'[i] == rows[i];
  }

  lemma RefundBothIff(rows: Rows, id: OrderId)
    ensures NoBoth(Refund(rows, id)) <==> NoBoth(rows) && RefundsAlike(rows, id)
  {
    var rows' := Refund(rows, id);
    if !RefundsAlike(rows, id) {
      var i :| 0 <= i < |rows| && rows[i].order == id && rows[i].status == Held;
      var j :| 0 <= j < |rows| && rows[j].order == id && rows[j].status == Released;
      assert rows'[i].status == Refunded && rows'[j].status == Released;
    } else if NoBoth(rows') {
      SettledStays(rows, rows');
    }
  }

  lemma ReleaseBothIff(rows: Rows, id: OrderId, payee: UserId)
    ensures NoBoth(ReleaseTo(rows, id, {payee})) <==> NoBoth(rows) && ReleasesAlike(rows, id, payee)
  {
    var rows' := ReleaseTo(rows, id, {payee});
    if !ReleasesAlike(rows, id, payee) {
      var i :| 0 <= i < |rows| && For(rows[i], id, payee) && rows[i].status == Held;
      var j :| 0 <= j < |rows| && rows[j].order == id && rows[j].status == Refunded;
      assert rows'[i].status == Released && rows'[j].status == Refunded;
    } else if NoBoth(rows') {
      SettledStays(rows, rows');
    }
  }

  /** A violation never goes away. */
  lemma SettledStays(rows: Rows, rows': Rows)
    requires |rows'| == |rows| && NoBoth(rows')
    requires forall i :: 0 <= i < |rows| ==>
               rows'[i].order == rows[i].order && (rows[i].status != Held ==> rows'[i].status == rows[i].status)
    ensures NoBoth(rows)
  {
  }

  // ---- in step with the legs ------------------------------------------------------------------

  /** Released rows belong to completed orders, refunded ones to cancelled orders. */
  ghost predicate RowsFollow(s: Sys) {
    forall i :: 0 <= i < |s.ledger| ==> RowFollows(s.orders, s.ledger[i])
  }

  /** The wallet pays out and refunds only what the legs call for, and no UPDATE of the legs takes
      back what was paid or refunded for. */
  ghost predicate StaysInStep(s: Sys, a: Action) {
    a.Advance? && a.tid < |s.procs| ==>
      match s.procs[a.tid]
      case Refunding(id) => a.call.reply != Dropped && HasStatus(s.ledger, id, Held) ==> Off(s.orders, id)
      case Paying(id, owed) =>
        a.call.reply != Dropped && owed != [] && HoldsFor(s.ledger, id, owed[0]) ==> Done(s.orders, id)
      case Moving(id, leg, status) => HasLeg(s.orders, id, leg) ==> MoveSuits(s.ledger, id, status)
      case RollingBack(id, leg, _) => HasLeg(s.orders, id, leg) ==> MoveSuits(s.ledger, id, Published)
      case Cancelling(id) => id in s.orders && s.orders[id].legs != map[] ==> MoveSuits(s.ledger, id, Cancelled)
      case Completing(id, _) => id in s.orders && s.orders[id].legs != map[] ==> MoveSuits(s.ledger, id, Completed)
      case _ => true
  }

  ghost predicate MoveSuits(rows: Rows, id: OrderId, to: Status) {
    && (HasStatus(rows, id, Released) ==> to == Completed)
    && (HasStatus(rows, id, Refunded) ==> to == Cancelled)
  }

  ghost predicate AlwaysFollow(actions: seq<Action>) {
    RowsFollow(Schedule(START, actions)) && (actions != [] ==> AlwaysFollow(actions[..|actions| - 1]))
  }

  ghost predicate AllInStep(actions: seq<Action>) {
    actions == [] ||
    (AllInStep(actions[..|actions| - 1]) &&
     StaysInStep(Schedule(START, actions[..|actions| - 1]), actions[|actions| - 1]))
  }

  /** At every point of a schedule released rows belong to completed orders and refunded rows to
      cancelled ones, if and only if every landing keeps in step. */
  lemma {:induction false} AlwaysFollowIff(actions: seq<Action>)
    ensures AlwaysFollow(actions) <==> AllInStep(actions)
  {
    if actions != [] {
      var before, a := actions[..|actions| - 1], actions[|actions| - 1];
      AlwaysFollowIff(before);
      if AlwaysFollow(before) {
        LedgerSafeUnderInterleaving(before, []);
        assert before + [] == before;
        StepFollowsIff(Schedule(START, before), a);
      }
    }
  }

  /** Money in step is never both; and where no leg is taken backwards the money is in step. */
  lemma InStepNeverBoth(actions: seq<Action>)
    requires AllInStep(actions)
    ensures NoBoth(Schedule(START, actions).ledger) && AllAlike(actions)
  {
    var s := Schedule(START, actions);
    AlwaysFollowIff(actions);
    forall i, j | 0 <= i < |s.ledger| && 0 <= j < |s.ledger| && s.ledger[i].order == s.ledger[j].order
      ensures !(s.ledger[i].status == Released && s.ledger[j].status == Refunded)
    {
      assert RowFollows(s.orders, s.ledger[i]) && RowFollows(s.orders, s.ledger[j]);
      if Done(s.orders, s.ledger[i].order) {
        var l :| l in s.orders[s.ledger[i].order].legs;
        assert s.orders[s.ledger[i].order].legs[l].status == Completed;
      }
    }
    NeverBothIff(actions);
  }

  lemma {:induction false} GoodLandingsStayInStep(actions: seq<Action>)
    requires AllLandWell(actions)
    ensures AllInStep(actions)
  {
    GoodLandingsFollow(actions);
    AlwaysFollowIff(actions);
  }

  lemma {:induction false} GoodLandingsFollow(actions: seq<Action>)
    requires AllLandWell(actions)
    ensures AlwaysFollow(actions)
  {
    GoodLandingsExcludePayAndRefund(actions);
    if actions != [] {
      GoodLandingsFollow(actions[..|actions| - 1]);
    }
  }

  lemma StepFollowsIff(s: Sys, a: Action)
    requires RowsReady(s) && RowsFollow(s)
    ensures RowsFollow(Next(s, a)) <==> StaysInStep(s, a)
  {
    if a.Advance? && a.tid < |s.procs| {
      match s.procs[a.tid] {
        case Claiming(id, leg, executor, _, _, _) => ClaimFollows(s.orders, s.ledger, id, leg, executor);
        case Refunding(id) => if a.call.reply != Dropped { RefundFollowsIff(s.orders, s.ledger, id); }
        case Paying(id, owed) =>
          if a.call.reply != Dropped && owed != [] { ReleaseFollowsIff(s.orders, s.ledger, id, owed[0]); }
        case Moving(id, leg, status) => MoveFollowsIff(s.orders, s.ledger, id, leg, status);
        case RollingBack(id, leg, _) => UndoFollowsIff(s.orders, s.ledger, id, leg);
        case Cancelling(id) => SetAllFollowsIff(s.orders, s.ledger, id, Cancelled);
        case Completing(id, _) => SetAllFollowsIff(s.orders, s.ledger, id, Completed);
        case _ =>
      }
    }
  }

  ghost predicate Follow(t: Table, rows: Rows) {
    forall i :: 0 <= i < |rows| ==> RowFollows(t, rows[i])
  }

  /** Of a settled order no leg is published. */
  lemma ClaimFollows(t: Table, rows: Rows, id: OrderId, leg: Leg, executor: UserId)
    requires Follow(t, rows)
    ensures Follow(Claim(t, id, leg, executor), rows)
  {
    forall i | 0 <= i < |rows|
      ensures RowFollows(Claim(t, id, leg, executor), rows[i])
    {
      assert RowFollows(t, rows[i]);
    }
  }

  lemma RefundFollowsIff(t: Table, rows: Rows, id: OrderId)
    requires Follow(t, rows)
    ensures Follow(t, Refund(rows, id)) <==> (HasStatus(rows, id, Held) ==> Off(t, id))
  {
    var rows' := Refund(rows, id);
    if Follow(t, rows') {
      if i :| 0 <= i < |rows| && rows[i].order == id && rows[i].status == Held {
        assert RowFollows(t, rows'[i]);
      }
    }
    if HasStatus(rows, id, Held) ==> Off(t, id) {
      forall i | 0 <= i < |rows|
        ensures RowFollows(t, rows'[i])
      {
        assert RowFollows(t, rows[i]);
      }
    }
  }

  lemma ReleaseFollowsIff(t: Table, rows: Rows, id: OrderId, payee: UserId)
    requires Follow(t, rows)
    ensures Follow(t, ReleaseTo(rows, id, {payee})) <==> (HoldsFor(rows, id, payee) ==> Done(t, id))
  {
    var rows' := ReleaseTo(rows, id, {payee});
    if Follow(t, rows') {
      if i :| 0 <= i < |rows| && For(rows[i], id, payee) && rows[i].status == Held {
        assert RowFollows(t, rows'[i]);
      }
    }
    if HoldsFor(rows, id, payee) ==> Done(t, id) {
      forall i | 0 <= i < |rows|
        ensures RowFollows(t, rows'[i])
      {
        assert RowFollows(t, rows[i]);
      }
    }
  }

  lemma MoveFollowsIff(t: Table, rows: Rows, id: OrderId, leg: Leg, status: Status)
    requires Follow(t, rows)
    ensures Follow(SetStatus(t, id, leg, status), rows) <==> (HasLeg(t, id, leg) ==> MoveSuits(rows, id, status))
  {
    if HasLeg(t, id, leg) {
      OneLegFollowsIff(t, rows, id, leg, t[id].legs[leg].(status := status));
    }
  }

  lemma UndoFollowsIff(t: Table, rows: Rows, id: OrderId, leg: Leg)
    requires Follow(t, rows)
    ensures Follow(ReleaseClaim(t, id, leg), rows) <==> (HasLeg(t, id, leg) ==> MoveSuits(rows, id, Published))
  {
    if HasLeg(t, id, leg) {
      OneLegFollowsIff(t, rows, id, leg, t[id].legs[leg].(status := Published, executor := None));
    }
  }

  lemma OneLegFollowsIff(t: Table, rows: Rows, id: OrderId, leg: Leg, row: LegRow)
    requires Follow(t, rows) && HasLeg(t, id, leg)
    ensures Follow(SetLeg(t, id, leg, row), rows) <==> MoveSuits(rows, id, row.status)
  {
    var t' := SetLeg(t, id, leg, row);
    assert t'[id].legs[leg] == row;
    OrderFollowsIff(t, t', rows, id, row.status);
  }

  lemma SetAllFollowsIff(t: Table, rows: Rows, id: OrderId, to: Status)
    requires Follow(t, rows)
    ensures Follow(SetAll(t, id, to), rows) <==> (id in t && t[id].legs != map[] ==> MoveSuits(rows, id, to))
  {
    var t' := SetAll(t, id, to);
    if id in t {
      if l :| l in t[id].legs {
        assert t'[id].legs[l].status == to;
        OrderFollowsIff(t, t', rows, id, to);
      } else {
        assert t'[id].legs == t[id].legs;
      }
    }
  }

  /** An order some of whose legs were given a status, the others left as they were. */
  lemma OrderFollowsIff(t: Table, t': Table, rows: Rows, id: OrderId, to: Status)
    requires Follow(t, rows) && id in t && id in t' && t'[id].legs.Keys == t[id].legs.Keys
    requires forall other :: other != id ==> (other in t' <==> other in t) && (other in t ==> t'[other] == t[other])
    requires exists l :: l in t'[id].legs && t'[id].legs[l].status == to
    requires forall l :: l in t[id].legs ==> t'[id].legs[l].status == to || t'[id].legs[l] == t[id].legs[l]
    ensures Follow(t', rows) <==> MoveSuits(rows, id, to)
  {
    var l :| l in t'[id].legs && t'[id].legs[l].status == to;
    if Follow(t', rows) {
      if i :| 0 <= i < |rows| && rows[i].order == id && rows[i].status == Released {
        assert RowFollows(t', rows[i]);
      }
      if i :| 0 <= i < |rows| && rows[i].order == id && rows[i].status == Refunded {
        assert RowFollows(t', rows[i]);
      }
    }
    if MoveSuits(rows, id, to) {
      forall i | 0 <= i < |rows|
        ensures RowFollows(t', rows[i])
      {
        assert RowFollows(t, rows[i]);
      }
    }
  }
}
