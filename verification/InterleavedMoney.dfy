/** What the money keeps when statements of different handlers interleave freely. */
module InterleavedMoney {
  import opened Models
  import opened GoInt
  import opened Legs
  import opened Orders
  import opened Ledger
  import opened Protocol
  import opened Invariants
  import opened Conservation
  import opened Interleaving

  // ---- the ledger --------------------------------------------------------------------

  /** Whatever a handler's next statement is, what it does to the ledger is one ledger statement. */
  ghost predicate RowsReady(s: Sys) {
    forall t :: 0 <= t < |s.procs| && Inserts(s.procs[t]) ==> InsertReady(s.procs[t])
  }

  predicate Inserts(p: Proc) {
    p.Inserting? || p.Orphan?
  }

  ghost predicate InsertReady(p: Proc)
    requires Inserts(p)
  {
    Storable(p.row) && p.row.status == Held && For(p.row, p.id, p.executor)
  }

  lemma NextIsOneStatement(s: Sys, a: Action)
    requires RowsReady(s)
    ensures RowsReady(Next(s, a))
    ensures exists ss :: |ss| <= 1 && Next(s, a).ledger == ExecuteAll(s.ledger, ss)
  {
    var st := LedgerStatement(s, a);
    assert ExecuteAll(s.ledger, []) == s.ledger;
    match st {
      case None => assert Next(s, a).ledger == ExecuteAll(s.ledger, []);
      case Some(x) =>
        assert [x][..0] == [];
        assert Next(s, a).ledger == ExecuteAll(s.ledger, [x]);
    }
  }

  ghost function LedgerStatement(s: Sys, a: Action): Option<Ledger.Statement> {
    if !a.Advance? || a.tid >= |s.procs| || a.call.reply == Dropped then None
    else
      match s.procs[a.tid]
      case Inserting(_, _, _, row) => Some(InsertRow(row))
      case Orphan(_, _, row) => Some(InsertRow(row))
      case Refunding(id) => Some(RefundRows(id))
      case Paying(id, owed) => if owed == [] then None else Some(ReleaseRow(id, owed[0]))
      case _ => None
  }

  /** Under any interleaving: one row per (order, payee), no row lost, re-priced or re-addressed,
      and each leaves `held` at most once. */
  lemma {:induction false} LedgerSafeUnderInterleaving(before: seq<Action>, after: seq<Action>)
    ensures RowsReady(Schedule(START, before + after)) && Sound(Schedule(START, before + after).ledger)
    ensures Survives(Schedule(START, before).ledger, Schedule(START, before + after).ledger)
    decreases |before| + |after|
  {
    if after == [] {
      assert before + after == before;
      if before != [] {
        var n := |before| - 1;
        LedgerSafeUnderInterleaving(before[..n], []);
        assert before[..n] + [] == before[..n];
        OneStep(Schedule(START, before[..n]), before[n]);
      }
    } else {
      var n := |after| - 1;
      LedgerSafeUnderInterleaving(before, after[..n]);
      assert (before + after)[..|before + after| - 1] == before + after[..n];
      OneStep(Schedule(START, before + after[..n]), after[n]);
    }
  }

  lemma OneStep(s: Sys, a: Action)
    requires RowsReady(s) && Sound(s.ledger)
    ensures RowsReady(Next(s, a)) && Sound(Next(s, a).ledger) && Survives(s.ledger, Next(s, a).ledger)
  {
    NextIsOneStatement(s, a);
    var ss :| |ss| <= 1 && Next(s, a).ledger == ExecuteAll(s.ledger, ss);
    LedgerIsSafe(s.ledger, ss);
  }

  // ---- what is behind a claim ------------------------------------------------------------

  ghost predicate Pending(procs: seq<Proc>, id: OrderId, leg: Leg) {
    exists t :: 0 <= t < |procs| && Holds(procs[t], id, leg)
  }

  /** Claimed, and the accept that claimed it has come to a good end. */
  ghost predicate Settled(s: Sys, id: OrderId, leg: Leg) {
    ExecutorOf(s.orders, id, leg).Some? && !Pending(s.procs, id, leg)
  }

  /** A handler's snapshot of a price is still the price: nothing ever changes it. */
  ghost predicate SnapshotOk(t: Table, p: Proc) {
    && (p.Claiming? || p.Opening? ==> HasLeg(t, p.id, p.leg) && t[p.id].legs[p.leg].price == p.price)
    && (p.Inserting? ==> HasLeg(t, p.id, p.leg) && t[p.id].legs[p.leg].price == p.row.amount)
    && (Inserts(p) ==> p.id in t && InsertReady(p))
  }

  /** A leg is never assigned with nothing behind it. */
  ghost predicate SettledOk(s: Sys, id: OrderId, leg: Leg) {
    Settled(s, id, leg) ==>
      && s.orders[id].legs[leg].price >= 0
      && HasRow(s.ledger, id, s.orders[id].legs[leg].executor.value)
  }

  ghost predicate BackedOk(s: Sys) {
    && ClaimsOk(s)
    && Sound(s.ledger)
    && (forall t :: 0 <= t < |s.procs| ==> SnapshotOk(s.orders, s.procs[t]))
    && (forall id: OrderId, leg: Leg :: SettledOk(s, id, leg))
    && (forall id :: id in s.orders ==> s.orders[id].Sum(Price) == s.orders[id].estimate)
  }

  /** However statements interleave and whichever calls fail, lost answers included: once the accept
      that claimed a leg has come to a good end, there is a row for the order and the executor. */
  lemma {:induction false} AssignedLegsAreBacked(actions: seq<Action>)
    ensures BackedOk(Schedule(START, actions))
  {
    if actions != [] {
      AssignedLegsAreBacked(actions[..|actions| - 1]);
      NextKeepsBacked(Schedule(START, actions[..|actions| - 1]), actions[|actions| - 1]);
    }
  }

  lemma NextKeepsBacked(s: Sys, a: Action)
    requires BackedOk(s)
    ensures BackedOk(Next(s, a))
  {
    NextKeepsClaims(s, a);
    OneStep(s, a);
    match a {
      case Store(id, o) => StoreKeepsBacked(s, id, o);
      case Begin(p) =>
        if JustRead(s.orders, p) {
          NewcomerHoldsNothing(s.procs, p);
          SameSettledKeepsBacked(s, Next(s, a));
        }
      case Advance(t, call) =>
        if t < |s.procs| {
          StatementKeepsBacked(s, t, call);
        }
      case GiveUp(t, pct) =>
        if t < |s.procs| {
          AbandonedKeepsPending(s, t, pct);
          SameSettledKeepsBacked(s, Next(s, a));
        }
    }
  }

  /** Whoever gives up still holds the leg, until it has rolled back. */
  lemma AbandonedKeepsPending(s: Sys, t: Tid, pct: int64)
    requires BackedOk(s) && t < |s.procs|
    ensures var s' := Abandoned(s, t, pct);
            && s'.orders == s.orders && s'.ledger == s.ledger
            && (forall id: OrderId, leg: Leg :: SameSettled(s, s', id, leg))
            && (forall u :: 0 <= u < |s'.procs| ==> SnapshotOk(s'.orders, s'.procs[u]))
  {
    var p, s' := s.procs[t], Abandoned(s, t, pct);
    assert SnapshotOk(s.orders, p);
    if s' != s {
      var undo := RollingBack(p.id, p.leg, p.executor);
      HolderStays(s, t, undo);
      NewcomerHoldsNothing(s.procs[t := undo], s'.procs[|s.procs|]);
      assert s'.procs == s.procs[t := undo] + [s'.procs[|s.procs|]];
    }
  }

  /** An accept comes to a good end with this statement. */
  ghost predicate Settles(s: Sys, t: Tid, call: WalletCall)
    requires t < |s.procs|
  {
    (s.procs[t].Opening? || s.procs[t].Inserting?) && RunStatement(s, t, call).procs[t].Finished?
  }

  ghost predicate SameSettled(s: Sys, s': Sys, id: OrderId, leg: Leg) {
    && (Settled(s', id, leg) <==> Settled(s, id, leg))
    && (Settled(s, id, leg) ==> ExecutorOf(s'.orders, id, leg) == ExecutorOf(s.orders, id, leg))
  }

  lemma StatementKeepsBacked(s: Sys, t: Tid, call: WalletCall)
    requires BackedOk(s) && t < |s.procs|
    requires var s' := RunStatement(s, t, call); ClaimsOk(s') && Sound(s'.ledger) && Survives(s.ledger, s'.ledger)
    ensures BackedOk(RunStatement(s, t, call))
  {
    var s' := RunStatement(s, t, call);
    StatementKeepsPrices(s, t, call);
    SnapshotsStayOk(s, t, call);
    if Settles(s, t, call) {
      SettlingKeepsBacked(s, t, call);
    } else {
      SettledStays(s, t, call);
      SameSettledKeepsBacked(s, s');
    }
  }

  /** Any other statement leaves the settled legs as they are. */
  lemma SettledStays(s: Sys, t: Tid, call: WalletCall)
    requires BackedOk(s) && t < |s.procs| && !Settles(s, t, call)
    ensures forall id: OrderId, leg: Leg :: SameSettled(s, RunStatement(s, t, call), id, leg)
  {
    var p, s' := s.procs[t], RunStatement(s, t, call);
    match p {
      case Claiming(_, _, _, _, _, _) => ClaimKeepsPending(s, t, call);
      case RollingBack(_, _, _) => UndoKeepsPending(s, t, call);
      case Opening(_, _, _, _, _, _) => HolderStays(s, t, s'.procs[t]);
      case Inserting(_, _, _, _) => HolderStays(s, t, s'.procs[t]);
      case _ => OthersKeepPending(s, t, s'.procs[t]);
    }
  }

  lemma SnapshotsStayOk(s: Sys, t: Tid, call: WalletCall)
    requires t < |s.procs| && SamePrices(s.orders, RunStatement(s, t, call).orders)
    requires forall u :: 0 <= u < |s.procs| ==> SnapshotOk(s.orders, s.procs[u])
    ensures forall u :: 0 <= u < |RunStatement(s, t, call).procs| ==>
              SnapshotOk(RunStatement(s, t, call).orders, RunStatement(s, t, call).procs[u])
  {
    NewSnapshotOk(s, t, call);
    forall u | 0 <= u < |s.procs|
      ensures SnapshotOk(RunStatement(s, t, call).orders, if u == t then RunStatement(s, t, call).procs[t] else s.procs[u])
    {
      assert SnapshotOk(s.orders, s.procs[u]);
    }
  }

  lemma StoreKeepsBacked(s: Sys, id: OrderId, o: Order)
    requires BackedOk(s) && ClaimsOk(Next(s, Store(id, o)))
    ensures BackedOk(Next(s, Store(id, o)))
  {
    if Next(s, Store(id, o)) != s {
      StoredKeepsBacked(s, id, o, s.(orders := s.orders[id := o]));
    }
  }

  lemma StoredKeepsBacked(s: Sys, id: OrderId, o: Order, s': Sys)
    requires BackedOk(s) && ClaimsOk(s')
    requires id !in s.orders && Unclaimed(o) && s' == s.(orders := s.orders[id := o])
    ensures BackedOk(s')
  {
    StoredSettlesNothing(s, id, o, s');
    forall i: OrderId, leg: Leg
      ensures SettledOk(s', i, leg)
    {
      assert SettledOk(s, i, leg) && SameSettled(s, s', i, leg);
    }
    forall t | 0 <= t < |s'.procs|
      ensures SnapshotOk(s'.orders, s'.procs[t])
    {
      assert SnapshotOk(s.orders, s.procs[t]);
    }
  }

  lemma StoredSettlesNothing(s: Sys, id: OrderId, o: Order, s': Sys)
    requires id !in s.orders && Unclaimed(o) && s' == s.(orders := s.orders[id := o])
    ensures forall i: OrderId, leg: Leg :: SameSettled(s, s', i, leg)
    ensures forall i: OrderId, leg: Leg :: Settled(s, i, leg) ==> i != id
  {
  }

  /** The common case: no leg becomes settled or stops being so. */
  lemma SameSettledKeepsBacked(s: Sys, s': Sys)
    requires BackedOk(s) && ClaimsOk(s') && Sound(s'.ledger) && Survives(s.ledger, s'.ledger)
    requires SamePrices(s.orders, s'.orders)
    requires forall id: OrderId, leg: Leg :: SameSettled(s, s', id, leg)
    requires forall t :: 0 <= t < |s'.procs| ==> SnapshotOk(s'.orders, s'.procs[t])
    ensures BackedOk(s')
  {
    SurvivingRowsStay(s.ledger, s'.ledger);
    forall id: OrderId, leg: Leg
      ensures SettledOk(s', id, leg)
    {
      assert SettledOk(s, id, leg) && SameSettled(s, s', id, leg);
      assert Settled(s, id, leg) ==> HasLeg(s.orders, id, leg);
    }
    forall id | id in s'.orders
      ensures s'.orders[id].Sum(Price) == s'.orders[id].estimate
    {
      SameSum(s.orders, s'.orders, id);
    }
  }

  lemma SameSum(t: Table, t': Table, id: OrderId)
    requires SamePrices(t, t') && id in t
    ensures t'[id].Sum(Price) == t[id].Sum(Price)
  {
    forall leg | leg in t[id].legs
      ensures t'[id].legs[leg].price == t[id].legs[leg].price
    {
      assert HasLeg(t, id, leg);
    }
  }

  // ---- who is pending --------------------------------------------------------------------

  lemma PendingAfter(procs: seq<Proc>, t: Tid, q: Proc, id: OrderId, leg: Leg)
    requires t < |procs|
    requires Holds(q, id, leg) <==> Holds(procs[t], id, leg)
    ensures Pending(procs[t := q], id, leg) <==> Pending(procs, id, leg)
  {
    var procs' := procs[t := q];
    if Pending(procs, id, leg) {
      var u :| 0 <= u < |procs| && Holds(procs[u], id, leg);
      assert Holds(procs'[u], id, leg);
    }
    if Pending(procs', id, leg) {
      var u :| 0 <= u < |procs'| && Holds(procs'[u], id, leg);
      assert Holds(procs[u], id, leg);
    }
  }

  lemma NewcomerHoldsNothing(procs: seq<Proc>, p: Proc)
    requires !IsHolder(p)
    ensures forall id: OrderId, leg: Leg :: Pending(procs + [p], id, leg) <==> Pending(procs, id, leg)
  {
    forall id: OrderId, leg: Leg | Pending(procs, id, leg)
      ensures Pending(procs + [p], id, leg)
    {
      var u :| 0 <= u < |procs| && Holds(procs[u], id, leg);
      assert Holds((procs + [p])[u], id, leg);
    }
  }

  lemma HolderStays(s: Sys, t: Tid, q: Proc)
    requires t < |s.procs| && (s.procs[t].Opening? || s.procs[t].Inserting?)
    requires (q.Inserting? || q.RollingBack?) && q.id == s.procs[t].id && q.leg == s.procs[t].leg
    ensures forall id: OrderId, leg: Leg :: Pending(s.procs[t := q], id, leg) <==> Pending(s.procs, id, leg)
  {
    forall id: OrderId, leg: Leg
      ensures Pending(s.procs[t := q], id, leg) <==> Pending(s.procs, id, leg)
    {
      PendingAfter(s.procs, t, q, id, leg);
    }
  }

  lemma OthersKeepPending(s: Sys, t: Tid, q: Proc)
    requires t < |s.procs| && !IsHolder(s.procs[t])
    requires !IsHolder(q)
    ensures forall id: OrderId, leg: Leg :: Pending(s.procs[t := q], id, leg) <==> Pending(s.procs, id, leg)
  {
    forall id: OrderId, leg: Leg
      ensures Pending(s.procs[t := q], id, leg) <==> Pending(s.procs, id, leg)
    {
      PendingAfter(s.procs, t, q, id, leg);
    }
  }

  /** A leg is held by the one accept that won it, so when that one lets go nobody holds it. */
  lemma OneHolder(s: Sys, t: Tid, q: Proc)
    requires ClaimsOk(s) && t < |s.procs| && IsHolder(s.procs[t])
    requires !IsHolder(q)
    ensures !Pending(s.procs[t := q], s.procs[t].id, s.procs[t].leg)
    ensures forall id: OrderId, leg: Leg :: (id, leg) != (s.procs[t].id, s.procs[t].leg) ==>
              (Pending(s.procs[t := q], id, leg) <==> Pending(s.procs, id, leg))
  {
    var p, procs' := s.procs[t], s.procs[t := q];
    assert ProcMatchesLog(s.orders, s.log, t, p);
    forall u | 0 <= u < |procs'|
      ensures !Holds(procs'[u], p.id, p.leg)
    {
      assert ProcMatchesLog(s.orders, s.log, u, s.procs[u]);
    }
    forall id: OrderId, leg: Leg | (id, leg) != (p.id, p.leg)
      ensures Pending(procs', id, leg) <==> Pending(s.procs, id, leg)
    {
      PendingAfter(s.procs, t, q, id, leg);
    }
  }

  lemma ClaimKeepsPending(s: Sys, t: Tid, call: WalletCall)
    requires BackedOk(s) && t < |s.procs| && s.procs[t].Claiming?
    ensures forall id: OrderId, leg: Leg :: SameSettled(s, RunStatement(s, t, call), id, leg)
  {
    var p := s.procs[t];
    var s' := RunStatement(s, t, call);
    if Claimable(s.orders, p.id, p.leg) {
      assert Holds(s'.procs[t], p.id, p.leg);
      forall id: OrderId, leg: Leg
        ensures SameSettled(s, s', id, leg)
      {
        if (id, leg) != (p.id, p.leg) {
          PendingAfter(s.procs, t, s'.procs[t], id, leg);
        }
      }
    } else {
      OthersKeepPending(s, t, Finished);
    }
  }

  lemma UndoKeepsPending(s: Sys, t: Tid, call: WalletCall)
    requires BackedOk(s) && t < |s.procs| && s.procs[t].RollingBack?
    ensures forall id: OrderId, leg: Leg :: SameSettled(s, RunStatement(s, t, call), id, leg)
  {
    var p := s.procs[t];
    assert Holds(s.procs[t], p.id, p.leg);
    OneHolder(s, t, Finished);
  }

  // ---- prices and snapshots --------------------------------------------------------------

  ghost predicate SamePrices(t: Table, t': Table) {
    && t'.Keys == t.Keys
    && (forall id :: id in t ==> t'[id].estimate == t[id].estimate && t'[id].legs.Keys == t[id].legs.Keys)
    && forall id: OrderId, leg: Leg :: HasLeg(t, id, leg) ==>
         HasLeg(t', id, leg) && t'[id].legs[leg].price == t[id].legs[leg].price
  }

  lemma StatementKeepsPrices(s: Sys, t: Tid, call: WalletCall)
    requires t < |s.procs|
    ensures SamePrices(s.orders, RunStatement(s, t, call).orders)
  {
  }

  lemma NewSnapshotOk(s: Sys, t: Tid, call: WalletCall)
    requires t < |s.procs| && SnapshotOk(s.orders, s.procs[t])
    ensures SnapshotOk(s.orders, RunStatement(s, t, call).procs[t])
  {
  }

  // ---- an accept comes to a good end -----------------------------------------------------

  /** It settles its own leg and no other, and then a row is there for its executor. */
  lemma SettlingSettlesOne(s: Sys, t: Tid, call: WalletCall)
    requires BackedOk(s) && t < |s.procs| && Settles(s, t, call)
    ensures var p, s' := s.procs[t], RunStatement(s, t, call);
            && Settled(s', p.id, p.leg) && !Settled(s, p.id, p.leg)
            && s'.orders == s.orders && ExecutorOf(s.orders, p.id, p.leg) == Some(p.executor)
            && forall id: OrderId, leg: Leg :: (id, leg) != (p.id, p.leg) ==> SameSettled(s, s', id, leg)
  {
    var p := s.procs[t];
    assert Holds(p, p.id, p.leg);
    OneHolder(s, t, Finished);
    assert ProcMatchesLog(s.orders, s.log, t, p);
  }

  lemma SettlingHasRow(s: Sys, t: Tid, call: WalletCall)
    requires t < |s.procs| && Settles(s, t, call) && SnapshotOk(s.orders, s.procs[t])
    ensures var p, s' := s.procs[t], RunStatement(s, t, call);
            && HasLeg(s.orders, p.id, p.leg) && s.orders[p.id].legs[p.leg].price >= 0
            && HasRow(s'.ledger, p.id, p.executor)
            && s'.ledger == (if HasRow(s.ledger, p.id, p.executor) then s.ledger else s.ledger + [NewestFor(s, t)])
            && (!HasRow(s.ledger, p.id, p.executor) ==>
                  NewestFor(s, t).order == p.id && NewestFor(s, t).amount == s.orders[p.id].legs[p.leg].price)
  {
    var p, s' := s.procs[t], RunStatement(s, t, call);
    if p.Inserting? && !HasRow(s.ledger, p.id, p.executor) {
      assert For(s'.ledger[|s.ledger|], p.id, p.executor);
    }
  }

  lemma SettlingKeepsBacked(s: Sys, t: Tid, call: WalletCall)
    requires BackedOk(s) && t < |s.procs| && Settles(s, t, call)
    requires var s' := RunStatement(s, t, call); ClaimsOk(s') && Sound(s'.ledger) && Survives(s.ledger, s'.ledger)
    requires forall u :: 0 <= u < |RunStatement(s, t, call).procs| ==>
               SnapshotOk(RunStatement(s, t, call).orders, RunStatement(s, t, call).procs[u])
    ensures BackedOk(RunStatement(s, t, call))
  {
    var p, s' := s.procs[t], RunStatement(s, t, call);
    SettlingSettlesOne(s, t, call);
    SettlingHasRow(s, t, call);
    SurvivingRowsStay(s.ledger, s'.ledger);
    forall id: OrderId, leg: Leg
      ensures SettledOk(s', id, leg)
    {
      assert SettledOk(s, id, leg);
      assert (id, leg) != (p.id, p.leg) ==> SameSettled(s, s', id, leg);
    }
  }

  ghost function NewestFor(s: Sys, t: Tid): Tx
    requires t < |s.procs|
  {
    match s.procs[t]
    case Inserting(_, _, _, row) => row
    case _ => Tx(0, 0, 0, 0, 0, Held)
  }

  // ---- escrow against price ------------------------------------------------------------------

  ghost function SettledLeg(s: Sys, id: OrderId, leg: Leg): int {
    if Settled(s, id, leg) then s.orders[id].legs[leg].price else 0
  }

  ghost function SettledPrice(s: Sys, id: OrderId): int {
    SettledLeg(s, id, Transport) + SettledLeg(s, id, Equipment) + SettledLeg(s, id, Labor)
  }

  /** An insert that nobody gets, or still awaits, the answer to. */
  predicate Strands(p: Proc, call: WalletCall) {
    (p.Inserting? && call.reply == Lost) || (p.Orphan? && call.reply != Dropped)
  }

  /** The amount of such an insert, if the pair has no row yet. */
  ghost function StrandedNow(s: Sys, a: Action, id: OrderId): int {
    if a.Advance? && a.tid < |s.procs| && Strands(s.procs[a.tid], a.call) && s.procs[a.tid].id == id
       && !HasRow(s.ledger, id, s.procs[a.tid].executor)
    then s.procs[a.tid].row.amount
    else 0
  }

  /** A good end over a row that was there already. */
  ghost function TakenOverNow(s: Sys, a: Action, id: OrderId): int {
    if a.Advance? && a.tid < |s.procs| && Settles(s, a.tid, a.call) && s.procs[a.tid].id == id
       && HasRow(s.ledger, id, s.procs[a.tid].executor) && HasLeg(s.orders, id, s.procs[a.tid].leg)
    then s.orders[id].legs[s.procs[a.tid].leg].price
    else 0
  }

  /** What lost answers stranded, less what was taken over existing rows, over a schedule. */
  ghost function Net(actions: seq<Action>, id: OrderId): int {
    if actions == [] then 0
    else
      var before, a := actions[..|actions| - 1], actions[|actions| - 1];
      var s := Schedule(START, before);
      Net(before, id) + StrandedNow(s, a, id) - TakenOverNow(s, a, id)
  }

  ghost predicate EscrowIs(s: Sys, id: OrderId, net: int) {
    if id in s.orders then OrderSum(s.ledger, id, AMOUNT) == SettledPrice(s, id) + net
    else OrderSum(s.ledger, id, AMOUNT) == 0 && net == 0
  }

  /** Under every interleaving the escrow of an order is the price of its settled legs, plus what lost
      answers stranded, less what was taken over existing rows. */
  lemma {:induction false} EveryScheduleBalances(actions: seq<Action>, id: OrderId)
    ensures EscrowIs(Schedule(START, actions), id, Net(actions, id))
  {
    if actions != [] {
      var before, a := actions[..|actions| - 1], actions[|actions| - 1];
      EveryScheduleBalances(before, id);
      AssignedLegsAreBacked(before);
      StepBalances(Schedule(START, before), a, id, Net(before, id));
    }
  }

  /** Hence, in every reachable state, escrow exceeds the estimate exactly if more was stranded, net,
      than the legs not settled still cost. */
  lemma EscrowWithinEstimateUnderInterleaving(actions: seq<Action>, id: OrderId)
    requires id in Schedule(START, actions).orders
    ensures var s := Schedule(START, actions);
            OrderSum(s.ledger, id, AMOUNT) <= s.orders[id].estimate <==>
            Net(actions, id) <= s.orders[id].estimate - SettledPrice(s, id)
    ensures var s := Schedule(START, actions);
            NoNegativeLeg(s.orders[id]) && Net(actions, id) <= 0 ==>
              OrderSum(s.ledger, id, AMOUNT) <= s.orders[id].estimate
  {
    EveryScheduleBalances(actions, id);
    AssignedLegsAreBacked(actions);
  }

  lemma StepBalances(s: Sys, a: Action, id: OrderId, net: int)
    requires BackedOk(s) && EscrowIs(s, id, net)
    ensures EscrowIs(Next(s, a), id, net + StrandedNow(s, a, id) - TakenOverNow(s, a, id))
  {
    match a {
      case Store(i, o) =>
        if Next(s, a) != s {
          StoredKeepsSums(s, i, o, id, s.(orders := s.orders[i := o]));
        }
      case Begin(p) =>
        if JustRead(s.orders, p) {
          NewcomerHoldsNothing(s.procs, p);
          SameSettledSum(s, Next(s, a), id);
        }
      case Advance(t, call) =>
        if t < |s.procs| {
          StatementKeepsPrices(s, t, call);
          if Settles(s, t, call) {
            SettlingBalances(s, t, call, id, net);
          } else {
            NothingSettledBalances(s, t, call, id, net);
          }
        }
      case GiveUp(t, pct) => if t < |s.procs| { AbandonedBalances(s, t, pct, id, net); }
    }
  }

  lemma NothingSettledBalances(s: Sys, t: Tid, call: WalletCall, id: OrderId, net: int)
    requires BackedOk(s) && t < |s.procs| && !Settles(s, t, call) && EscrowIs(s, id, net)
    requires SamePrices(s.orders, RunStatement(s, t, call).orders)
    ensures EscrowIs(RunStatement(s, t, call), id, net + StrandedNow(s, Advance(t, call), id))
  {
    assert SnapshotOk(s.orders, s.procs[t]);
    SettledStays(s, t, call);
    SameSettledSum(s, RunStatement(s, t, call), id);
    QuietBalances(s, t, call, id);
  }

  lemma AbandonedBalances(s: Sys, t: Tid, pct: int64, id: OrderId, net: int)
    requires BackedOk(s) && t < |s.procs| && EscrowIs(s, id, net)
    ensures EscrowIs(Abandoned(s, t, pct), id, net)
  {
    AbandonedKeepsPending(s, t, pct);
    SameSettledSum(s, Abandoned(s, t, pct), id);
  }

  lemma StoredKeepsSums(s: Sys, i: OrderId, o: Order, id: OrderId, s': Sys)
    requires i !in s.orders && Unclaimed(o) && s' == s.(orders := s.orders[i := o])
    ensures SettledPrice(s', id) == if id == i then 0 else SettledPrice(s, id)
  {
    StoredSettlesNothing(s, i, o, s');
    forall leg: Leg
      ensures SettledLeg(s', id, leg) == if id == i then 0 else SettledLeg(s, id, leg)
    {
      assert SameSettled(s, s', id, leg);
    }
  }

  lemma SameSettledSum(s: Sys, s': Sys, id: OrderId)
    requires SamePrices(s.orders, s'.orders) && forall i: OrderId, leg: Leg :: SameSettled(s, s', i, leg)
    ensures SettledPrice(s', id) == SettledPrice(s, id)
  {
    forall leg: Leg
      ensures SettledLeg(s', id, leg) == SettledLeg(s, id, leg)
    {
      assert SameSettled(s, s', id, leg);
      assert Settled(s, id, leg) ==> HasLeg(s.orders, id, leg);
    }
  }

  /** Of the statements that settle nothing, only an insert with a lost or late answer adds money. */
  lemma QuietBalances(s: Sys, t: Tid, call: WalletCall, id: OrderId)
    requires BackedOk(s) && t < |s.procs| && !Settles(s, t, call)
    ensures OrderSum(RunStatement(s, t, call).ledger, id, AMOUNT)
         == OrderSum(s.ledger, id, AMOUNT) + StrandedNow(s, Advance(t, call), id)
  {
    var p, s' := s.procs[t], RunStatement(s, t, call);
    assert SnapshotOk(s.orders, p);
    if Strands(p, call) && !HasRow(s.ledger, p.id, p.executor) {
      OrderSumAppend(s.ledger, p.row, id, AMOUNT);
    } else {
      QuietLedger(s, t, call);
      AmountsSurvive(s.ledger, s'.ledger, id);
    }
  }

  lemma QuietLedger(s: Sys, t: Tid, call: WalletCall)
    requires t < |s.procs| && Sound(s.ledger) && SnapshotOk(s.orders, s.procs[t]) && !Settles(s, t, call)
    requires var p := s.procs[t]; Strands(p, call) ==> HasRow(s.ledger, p.id, p.executor)
    ensures var s' := RunStatement(s, t, call); |s'.ledger| == |s.ledger| && Survives(s.ledger, s'.ledger)
  {
    match s.procs[t] {
      case Refunding(id) => ExecuteKeepsSound(s.ledger, RefundRows(id));
      case Paying(id, owed) => if owed != [] { ExecuteKeepsSound(s.ledger, ReleaseRow(id, owed[0])); }
      case _ =>
    }
  }

  lemma SettlingBalances(s: Sys, t: Tid, call: WalletCall, id: OrderId, net: int)
    requires BackedOk(s) && t < |s.procs| && Settles(s, t, call) && EscrowIs(s, id, net)
    ensures EscrowIs(RunStatement(s, t, call), id, net - TakenOverNow(s, Advance(t, call), id))
    ensures StrandedNow(s, Advance(t, call), id) == 0
  {
    var p, s' := s.procs[t], RunStatement(s, t, call);
    assert SnapshotOk(s.orders, p);
    SettlingSettlesOne(s, t, call);
    SettlingHasRow(s, t, call);
    forall leg: Leg
      ensures SettledLeg(s', id, leg)
           == SettledLeg(s, id, leg) + if (id, leg) == (p.id, p.leg) then s.orders[id].legs[leg].price else 0
    {
      assert (id, leg) != (p.id, p.leg) ==> SameSettled(s, s', id, leg);
    }
    if !HasRow(s.ledger, p.id, p.executor) {
      OrderSumAppend(s.ledger, NewestFor(s, t), id, AMOUNT);
    }
  }
}
