/** The unconditional UPDATEs, each landing some time after its handler read the order
    (internal/orders/store.go): exactly when a landing takes no leg backwards, and what a schedule of
    such landings keeps, however its statements interleave and whichever calls fail. */
module Landings {
  import opened Models
  import opened GoInt
  import opened Legs
  import opened Orders
  import opened Ledger
  import opened Protocol
  import opened Interleaving
  import opened LegMachine

  // ---- forward-only -----------------------------------------------------------------------

  /** How far the work on a leg has come. An accept under way may still be undone, so published,
      matched and accepted count the same. */
  function Work(s: Status): int {
    if Rank(s) <= Rank(Accepted) then Rank(Accepted) else Rank(s)
  }

  /** Later on: same price, no less work, final statuses final, and nobody else on a leg that was
      under way. */
  ghost predicate Onward(a: LegRow, b: LegRow) {
    && b.price == a.price
    && Work(a.status) <= Work(b.status)
    && (a.status in {Completed, Cancelled} ==> b.status == a.status)
    && (Work(a.status) > Work(Accepted) ==> b.executor == a.executor)
  }

  ghost predicate TableOnward(t: Table, t': Table) {
    forall id :: id in t ==> id in t' && OrderOnward(t[id], t'[id])
  }

  ghost predicate OrderOnward(o: Order, o': Order) {
    o'.legs.Keys == o.legs.Keys && forall l :: l in o.legs ==> Onward(o.legs[l], o'.legs[l])
  }

  // ---- the condition on a landing ------------------------------------------------------------

  /** What the UPDATE could check on the row as it is when it lands. */
  ghost predicate LandsWell(s: Sys, a: Action) {
    if a.Advance? && a.tid < |s.procs| then
      match s.procs[a.tid]
      case Moving(id, leg, status) =>
        HasLeg(s.orders, id, leg) ==>
          var now := s.orders[id].legs[leg].status;
          Work(now) <= Work(status) && (now in {Completed, Cancelled} ==> status == now)
      case Cancelling(id) =>
        id in s.orders ==> forall l :: l in s.orders[id].legs ==> s.orders[id].legs[l].status != Completed
      case Completing(id, _) =>
        id in s.orders ==> forall l :: l in s.orders[id].legs ==> s.orders[id].legs[l].status !in {Cancelled, Disputed}
      case RollingBack(id, leg, _) =>
        HasLeg(s.orders, id, leg) ==> Work(s.orders[id].legs[leg].status) == Work(Accepted)
      case _ => true
    else true
  }

  /** A step takes no leg backwards if and only if its landing meets that condition. */
  lemma ForwardIffLandsWell(s: Sys, a: Action)
    ensures TableOnward(s.orders, Next(s, a).orders) <==> LandsWell(s, a)
  {
    if a.Advance? && a.tid < |s.procs| {
      match s.procs[a.tid] {
        case Claiming(id, leg, executor, _, _, _) => ClaimIsOnward(s.orders, id, leg, executor);
        case RollingBack(id, leg, _) => RollbackOnwardIff(s.orders, id, leg);
        case Moving(id, leg, status) => MoveOnwardIff(s.orders, id, leg, status);
        case Cancelling(id) => SetAllOnwardIff(s.orders, id, Cancelled);
        case Completing(id, _) => SetAllOnwardIff(s.orders, id, Completed);
        case _ =>
      }
    }
  }

  lemma ClaimIsOnward(t: Table, id: OrderId, leg: Leg, executor: UserId)
    ensures TableOnward(t, Claim(t, id, leg, executor))
  {
  }

  lemma RollbackOnwardIff(t: Table, id: OrderId, leg: Leg)
    ensures TableOnward(t, ReleaseClaim(t, id, leg)) <==>
            (HasLeg(t, id, leg) ==> Work(t[id].legs[leg].status) == Work(Accepted))
  {
    if HasLeg(t, id, leg) {
      OneLegOnwardIff(t, id, leg, t[id].legs[leg].(status := Published, executor := None));
    }
  }

  lemma MoveOnwardIff(t: Table, id: OrderId, leg: Leg, status: Status)
    ensures TableOnward(t, SetStatus(t, id, leg, status)) <==>
            (HasLeg(t, id, leg) ==>
               var now := t[id].legs[leg].status;
               Work(now) <= Work(status) && (now in {Completed, Cancelled} ==> status == now))
  {
    if HasLeg(t, id, leg) {
      OneLegOnwardIff(t, id, leg, t[id].legs[leg].(status := status));
    }
  }

  lemma OneLegOnwardIff(t: Table, id: OrderId, leg: Leg, row: LegRow)
    requires HasLeg(t, id, leg)
    ensures TableOnward(t, SetLeg(t, id, leg, row)) <==> Onward(t[id].legs[leg], row)
  {
    var t' := SetLeg(t, id, leg, row);
    if TableOnward(t, t') {
      assert OrderOnward(t[id], t'[id]);
    }
  }

  lemma SetAllOnwardIff(t: Table, id: OrderId, to: Status)
    requires to == Cancelled || to == Completed
    ensures TableOnward(t, SetAll(t, id, to)) <==>
            (id in t ==> forall l :: l in t[id].legs ==> AllowsFinal(t[id].legs[l].status, to))
  {
    var t' := SetAll(t, id, to);
    if id in t && TableOnward(t, t') {
      assert OrderOnward(t[id], t'[id]);
    }
  }

  predicate AllowsFinal(now: Status, to: Status) {
    if to == Cancelled then now != Completed else now != Cancelled && now != Disputed
  }

  // ---- never even as far back as a roll-back goes ------------------------------------------

  /** The same for the stricter promise handlers keep when they run alone, where an accept that fails
      leaves no trace: a roll-back breaks it whenever there is a claim to undo. */
  ghost predicate LandsAhead(s: Sys, a: Action) {
    LandsWell(s, a) &&
    (a.Advance? && a.tid < |s.procs| ==>
       match s.procs[a.tid]
       case Moving(id, leg, status) =>
         HasLeg(s.orders, id, leg) ==> Rank(s.orders[id].legs[leg].status) <= Rank(status)
       case RollingBack(id, leg, _) =>
         HasLeg(s.orders, id, leg) ==>
           s.orders[id].legs[leg].executor.None? && Rank(s.orders[id].legs[leg].status) <= Rank(Published)
       case _ => true)
  }

  lemma AdvancesIffLandsAhead(s: Sys, a: Action)
    ensures TableAdvances(s.orders, Next(s, a).orders) <==> LandsAhead(s, a)
  {
    if a.Advance? && a.tid < |s.procs| {
      match s.procs[a.tid] {
        case Claiming(id, leg, executor, _, _, _) => ClaimAdvances(s.orders, id, leg, executor);
        case RollingBack(id, leg, _) => RollbackAdvancesIff(s.orders, id, leg);
        case Moving(id, leg, status) => MoveAdvancesIff(s.orders, id, leg, status);
        case Cancelling(id) => SetAllAdvancesIff(s.orders, id, Cancelled);
        case Completing(id, _) => SetAllAdvancesIff(s.orders, id, Completed);
        case _ =>
      }
    }
  }

  lemma ClaimAdvances(t: Table, id: OrderId, leg: Leg, executor: UserId)
    ensures TableAdvances(t, Claim(t, id, leg, executor))
  {
  }

  lemma RollbackAdvancesIff(t: Table, id: OrderId, leg: Leg)
    ensures TableAdvances(t, ReleaseClaim(t, id, leg)) <==>
            (HasLeg(t, id, leg) ==>
               t[id].legs[leg].executor.None? && Rank(t[id].legs[leg].status) <= Rank(Published))
  {
    if HasLeg(t, id, leg) {
      OneLegAdvancesIff(t, id, leg, t[id].legs[leg].(status := Published, executor := None));
    }
  }

  lemma MoveAdvancesIff(t: Table, id: OrderId, leg: Leg, status: Status)
    ensures TableAdvances(t, SetStatus(t, id, leg, status)) <==>
            (HasLeg(t, id, leg) ==>
               var now := t[id].legs[leg].status;
               Rank(now) <= Rank(status) && (now in {Completed, Cancelled} ==> status == now))
  {
    if HasLeg(t, id, leg) {
      OneLegAdvancesIff(t, id, leg, t[id].legs[leg].(status := status));
    }
  }

  lemma OneLegAdvancesIff(t: Table, id: OrderId, leg: Leg, row: LegRow)
    requires HasLeg(t, id, leg)
    ensures TableAdvances(t, SetLeg(t, id, leg, row)) <==> Advances(t[id].legs[leg], row)
  {
    var t' := SetLeg(t, id, leg, row);
    if TableAdvances(t, t') {
      assert OrderAdvances(t[id], t'[id]);
    }
  }

  lemma SetAllAdvancesIff(t: Table, id: OrderId, to: Status)
    requires to == Cancelled || to == Completed
    ensures TableAdvances(t, SetAll(t, id, to)) <==>
            (id in t ==> forall l :: l in t[id].legs ==> AllowsFinal(t[id].legs[l].status, to))
  {
    var t' := SetAll(t, id, to);
    if id in t && TableAdvances(t, t') {
      assert OrderAdvances(t[id], t'[id]);
    }
  }

  // ---- schedules of good landings -------------------------------------------------------------

  ghost predicate AllLandWell(actions: seq<Action>) {
    actions == [] ||
    (AllLandWell(actions[..|actions| - 1]) &&
     LandsWell(Schedule(START, actions[..|actions| - 1]), actions[|actions| - 1]))
  }

  ghost predicate NeverBackwards(actions: seq<Action>) {
    actions == [] ||
    (NeverBackwards(actions[..|actions| - 1]) &&
     TableOnward(Schedule(START, actions[..|actions| - 1]).orders, Schedule(START, actions).orders))
  }

  /** A schedule never takes a leg backwards if and only if all its landings are good. */
  lemma {:induction false} NeverBackwardsIff(actions: seq<Action>)
    ensures NeverBackwards(actions) <==> AllLandWell(actions)
  {
    if actions != [] {
      NeverBackwardsIff(actions[..|actions| - 1]);
      ForwardIffLandsWell(Schedule(START, actions[..|actions| - 1]), actions[|actions| - 1]);
    }
  }

  /** From any point of such a schedule to any later one. */
  lemma {:induction false} GoodLandingsGoForward(before: seq<Action>, after: seq<Action>)
    requires AllLandWell(before + after)
    ensures AllLandWell(before)
    ensures TableOnward(Schedule(START, before).orders, Schedule(START, before + after).orders)
  {
    if after == [] {
      assert before + after == before;
    } else {
      var rest, a := after[..|after| - 1], after[|after| - 1];
      assert before + after == before + rest + [a];
      LastLanding(before + rest, a);
      GoodLandingsGoForward(before, rest);
      OneMoreForward(Schedule(START, before).orders, Schedule(START, before + rest), a);
    }
  }

  lemma LastLanding(actions: seq<Action>, a: Action)
    requires AllLandWell(actions + [a])
    ensures AllLandWell(actions) && LandsWell(Schedule(START, actions), a)
    ensures Schedule(START, actions + [a]) == Next(Schedule(START, actions), a)
  {
    assert (actions + [a])[..|actions|] == actions;
  }

  lemma OneMoreForward(t: Table, s: Sys, a: Action)
    requires TableOnward(t, s.orders) && LandsWell(s, a)
    ensures TableOnward(t, Next(s, a).orders)
  {
    ForwardIffLandsWell(s, a);
    OnwardTwice(t, s.orders, Next(s, a).orders);
  }

  lemma OnwardTwice(t: Table, t1: Table, t2: Table)
    requires TableOnward(t, t1) && TableOnward(t1, t2)
    ensures TableOnward(t, t2)
  {
    forall id | id in t
      ensures id in t2 && OrderOnward(t[id], t2[id])
    {
      assert OrderOnward(t[id], t1[id]) && OrderOnward(t1[id], t2[id]);
    }
  }

  // ---- payout excludes refund ------------------------------------------------------------------

  ghost predicate Done(t: Table, id: OrderId) {
    id in t && t[id].legs != map[] && t[id].All(Completed)
  }

  ghost predicate Off(t: Table, id: OrderId) {
    id in t && t[id].All(Cancelled)
  }

  /** Money moves only as the legs say, and whoever is about to move it is entitled to. */
  ghost predicate MoneyFollows(s: Sys) {
    && (forall i :: 0 <= i < |s.ledger| ==> RowFollows(s.orders, s.ledger[i]))
    && (forall t :: 0 <= t < |s.procs| ==> ProcFollows(s.orders, s.procs[t]))
  }

  ghost predicate RowFollows(t: Table, row: Tx) {
    (row.status == Released ==> Done(t, row.order)) && (row.status == Refunded ==> Off(t, row.order))
  }

  ghost predicate ProcFollows(t: Table, p: Proc) {
    match p
    case Completing(id, _) => id in t && t[id].legs != map[]
    case Paying(id, _) => Done(t, id)
    case Cancelling(id) => id in t
    case Refunding(id) => Off(t, id)
    case Inserting(_, _, _, row) => row.status == Held
    case Orphan(_, _, row) => row.status == Held
    case _ => true
  }

  /** If no landing takes a leg backwards then, however statements interleave and whichever calls fail:
      a released row means every leg is completed, a refunded one that every leg is cancelled. */
  lemma {:induction false} GoodLandingsExcludePayAndRefund(actions: seq<Action>)
    requires AllLandWell(actions)
    ensures MoneyFollows(Schedule(START, actions))
  {
    if actions != [] {
      var before, a := actions[..|actions| - 1], actions[|actions| - 1];
      GoodLandingsExcludePayAndRefund(before);
      ForwardIffLandsWell(Schedule(START, before), a);
      StepFollows(Schedule(START, before), a);
    }
  }

  /** So no order has both. */
  lemma NeverPaidAndRefundedInterleaved(actions: seq<Action>, i: nat, j: nat)
    requires AllLandWell(actions)
    requires var rows := Schedule(START, actions).ledger;
             i < |rows| && j < |rows| && rows[i].order == rows[j].order
    ensures var rows := Schedule(START, actions).ledger;
            !(rows[i].status == Released && rows[j].status == Refunded)
  {
    GoodLandingsExcludePayAndRefund(actions);
    var s := Schedule(START, actions);
    assert RowFollows(s.orders, s.ledger[i]) && RowFollows(s.orders, s.ledger[j]);
    if Done(s.orders, s.ledger[i].order) {
      var l :| l in s.orders[s.ledger[i].order].legs;
      assert s.orders[s.ledger[i].order].legs[l].status == Completed;
    }
  }

  lemma StepFollows(s: Sys, a: Action)
    requires MoneyFollows(s) && TableOnward(s.orders, Next(s, a).orders)
    ensures MoneyFollows(Next(s, a))
  {
    var s' := Next(s, a);
    FinalStays(s.orders, s'.orders);
    forall i | 0 <= i < |s'.ledger|
      ensures RowFollows(s'.orders, s'.ledger[i])
    {
      RowStepFollows(s, a, i);
    }
    forall t | 0 <= t < |s'.procs|
      ensures ProcFollows(s'.orders, s'.procs[t])
    {
      ProcStepFollows(s, a, t);
    }
  }

  lemma FinalStays(t: Table, t': Table)
    requires TableOnward(t, t')
    ensures forall id: OrderId :: id in t ==> id in t' && (t[id].legs != map[] ==> t'[id].legs != map[])
    ensures forall id: OrderId :: Done(t, id) ==> Done(t', id)
    ensures forall id: OrderId :: Off(t, id) ==> Off(t', id)
  {
    forall id | id in t
      ensures id in t' && (t[id].legs != map[] ==> t'[id].legs != map[])
      ensures t[id].All(Completed) ==> t'[id].All(Completed)
      ensures t[id].All(Cancelled) ==> t'[id].All(Cancelled)
    {
      assert OrderOnward(t[id], t'[id]);
      assert t'[id].legs.Keys == t[id].legs.Keys;
      if t[id].legs != map[] {
        var l :| l in t[id].legs;
        assert l in t'[id].legs;
      }
    }
  }

  lemma RowStepFollows(s: Sys, a: Action, i: nat)
    requires MoneyFollows(s) && i < |Next(s, a).ledger|
    requires forall id: OrderId :: Done(s.orders, id) ==> Done(Next(s, a).orders, id)
    requires forall id: OrderId :: Off(s.orders, id) ==> Off(Next(s, a).orders, id)
    ensures RowFollows(Next(s, a).orders, Next(s, a).ledger[i])
  {
    if i < |s.ledger| {
      assert RowFollows(s.orders, s.ledger[i]);
    }
    if a.Advance? && a.tid < |s.procs| {
      assert ProcFollows(s.orders, s.procs[a.tid]);
    }
  }

  lemma ProcStepFollows(s: Sys, a: Action, t: Tid)
    requires MoneyFollows(s) && t < |Next(s, a).procs|
    requires forall id: OrderId :: id in s.orders ==>
               id in Next(s, a).orders && (s.orders[id].legs != map[] ==> Next(s, a).orders[id].legs != map[])
    requires forall id: OrderId :: Done(s.orders, id) ==> Done(Next(s, a).orders, id)
    requires forall id: OrderId :: Off(s.orders, id) ==> Off(Next(s, a).orders, id)
    ensures ProcFollows(Next(s, a).orders, Next(s, a).procs[t])
  {
    if t < |s.procs| {
      assert ProcFollows(s.orders, s.procs[t]);
      if a.Advance? && a.tid == t {
        RanFollows(s, t, a.call);
      }
    } else if a.Begin? {
      ReadyHasLegs(s.orders, a.proc);
    } else {
      assert ProcFollows(s.orders, s.procs[a.tid]);
    }
  }

  lemma ReadyHasLegs(t: Table, p: Proc)
    requires JustRead(t, p)
    ensures ProcFollows(t, p)
  {
    if p.Completing? {
      t[p.id].ReadyMeansEveryLegDone();
    }
  }

  lemma RanFollows(s: Sys, t: Tid, call: WalletCall)
    requires t < |s.procs| && ProcFollows(s.orders, s.procs[t])
    requires forall id: OrderId :: Done(s.orders, id) ==> Done(RunStatement(s, t, call).orders, id)
    requires forall id: OrderId :: Off(s.orders, id) ==> Off(RunStatement(s, t, call).orders, id)
    ensures ProcFollows(RunStatement(s, t, call).orders, RunStatement(s, t, call).procs[t])
  {
    var s' := RunStatement(s, t, call);
    if s.procs[t].Completing? {
      var id := s.procs[t].id;
      var l :| l in s.orders[id].legs;
      assert l in s'.orders[id].legs;
    }
  }

  // ---- the guards, still true ---------------------------------------------------------------------

  /** What the handler read before still holds where its UPDATE lands: the condition missing from the
      WHERE clauses. */
  ghost predicate Fresh(s: Sys, a: Action) {
    a.Advance? && a.tid < |s.procs| ==>
      var p := s.procs[a.tid];
      && (p.Moving? || p.Cancelling? || p.Completing? ==> JustRead(s.orders, p))
      && (p.RollingBack? && HasLeg(s.orders, p.id, p.leg) ==> s.orders[p.id].legs[p.leg].status == Accepted)
  }

  ghost predicate AllFresh(actions: seq<Action>) {
    actions == [] ||
    (AllFresh(actions[..|actions| - 1]) &&
     Fresh(Schedule(START, actions[..|actions| - 1]), actions[|actions| - 1]))
  }

  lemma {:induction false} FreshLandsWell(actions: seq<Action>)
    requires AllFresh(actions)
    ensures AllLandWell(actions)
  {
    if actions != [] {
      FreshLandsWell(actions[..|actions| - 1]);
      FreshStepLandsWell(Schedule(START, actions[..|actions| - 1]), actions[|actions| - 1]);
    }
  }

  lemma FreshStepLandsWell(s: Sys, a: Action)
    requires Fresh(s, a)
    ensures LandsWell(s, a)
  {
    if a.Advance? && a.tid < |s.procs| {
      match s.procs[a.tid] {
        case Moving(id, leg, status) => TransitionsAreForward(s.orders[id].legs[leg].status, status);
        case Completing(id, _) => s.orders[id].ReadyMeansEveryLegDone();
        case _ =>
      }
    }
  }

  /** With the guards in the WHERE clauses, forward-only and the exclusion of payout and refund hold
      under every interleaving. */
  lemma GuardedUpdatesSuffice(before: seq<Action>, after: seq<Action>)
    requires AllFresh(before + after)
    ensures TableOnward(Schedule(START, before).orders, Schedule(START, before + after).orders)
    ensures MoneyFollows(Schedule(START, before + after))
  {
    FreshLandsWell(before + after);
    GoodLandingsGoForward(before, after);
    GoodLandingsExcludePayAndRefund(before + after);
  }
}
