/** The converse of Refinement: handlers of different orders may interleave their statements at will;
    as long as no two of the same order overlap, the tables are those of some run of whole handlers
    (internal/orders/handler.go). */
module Serial {
  import opened Models
  import opened GoInt
  import opened Legs
  import opened Orders
  import opened Ledger
  import Pricing
  import opened Protocol
  import opened Interleaving
  import Invariants
  import Refinement

  predicate WorksOn(p: Proc, id: OrderId) {
    !p.Finished? && p.id == id
  }

  /** A handler starts only when no other of its order is under way, no call outlives its caller, and the
      orders stored are those that requests create. */
  ghost predicate SerialStep(s: Sys, a: Action) {
    match a
    case Store(_, o) => Creatable(o)
    case Begin(p) => p.Finished? || forall t :: 0 <= t < |s.procs| ==> !WorksOn(s.procs[t], p.id)
    case Advance(_, _) => true
    case GiveUp(_, _) => false
  }

  ghost predicate SerialPerOrder(actions: seq<Action>) {
    actions == [] ||
    (SerialPerOrder(actions[..|actions| - 1]) &&
     SerialStep(Schedule(START, actions[..|actions| - 1]), actions[|actions| - 1]))
  }

  // ---- what links a schedule and a run -----------------------------------------------------

  ghost predicate NoHolder(procs: seq<Proc>, id: OrderId) {
    forall t :: 0 <= t < |procs| && IsHolder(procs[t]) ==> procs[t].id != id
  }

  /** The tables agree but for the legs claimed by accepts under way, which in the run are still free. */
  ghost predicate Linked(s: Sys, w: World) {
    && s.ledger == w.ledger
    && s.orders.Keys == w.orders.Keys
    && (forall id :: id in s.orders && NoHolder(s.procs, id) ==> s.orders[id] == w.orders[id])
    && (forall t :: 0 <= t < |s.procs| ==> ProcLinked(s.orders, w, s.procs[t]))
    && OnePerOrder(s.procs)
  }

  ghost predicate OnePerOrder(procs: seq<Proc>) {
    forall t, u :: 0 <= t < u < |procs| && !procs[t].Finished? ==> !WorksOn(procs[u], procs[t].id)
  }

  ghost predicate ProcLinked(t: Table, w: World, p: Proc) {
    match p
    case Claiming(_, _, _, _, _, _) => JustRead(w.orders, p)
    case Moving(_, _, _) => JustRead(w.orders, p)
    case Cancelling(_) => JustRead(w.orders, p)
    case Completing(_, _) => JustRead(w.orders, p)
    case Opening(id, leg, executor, payer, price, paymentMethod) =>
      && ClaimLinked(t, w, id, leg, executor)
      && payer == w.orders[id].client && price == w.orders[id].legs[leg].price
      && paymentMethod == w.orders[id].paymentMethod
    case Inserting(id, leg, executor, row) =>
      && ClaimLinked(t, w, id, leg, executor)
      && Storable(row) && w.orders[id].legs[leg].price >= 0 && ValidMethod(w.orders[id].paymentMethod)
      && !HasRow(w.ledger, id, executor)
      && IsNewRow(row, w.orders[id], id, leg, executor)
    case RollingBack(id, leg, executor) => ClaimLinked(t, w, id, leg, executor)
    case Orphan(_, _, _) => false
    case Refunding(id) => id in w.orders && w.orders[id].All(Cancelled)
    case Paying(id, owed) =>
      id in w.orders && Owes(w.orders[id], owed)
    case Finished => true
  }

  ghost predicate Owes(o: Order, owed: seq<UserId>) {
    o.legs != map[] && o.All(Completed) && forall q :: q in owed ==> o.HeldBy(q)
  }

  ghost predicate ClaimLinked(t: Table, w: World, id: OrderId, leg: Leg, executor: UserId) {
    Claimable(w.orders, id, leg) && id in t && t[id] == Claim(w.orders, id, leg, executor)[id]
  }

  ghost predicate IsNewRow(row: Tx, o: Order, id: OrderId, leg: Leg, executor: UserId)
    requires leg in o.legs
  {
    exists pct: int64 :: row == NewRow(id, o.client, executor, o.legs[leg].price, pct)
  }

  // ---- the frame ----------------------------------------------------------------------------

  /** Thread t has run a statement, with or without a step of the run; both concern its order only. */
  lemma FrameLinked(s: Sys, w: World, t: Tid, s': Sys, w': World)
    requires Linked(s, w) && t < |s.procs| && !s.procs[t].Finished?
    requires |s'.procs| == |s.procs| && forall u :: 0 <= u < |s.procs| && u != t ==> s'.procs[u] == s.procs[u]
    requires s'.procs[t].Finished? || s'.procs[t].id == s.procs[t].id
    requires s'.ledger == w'.ledger
    requires SameBut(s.orders, s'.orders, s.procs[t].id) && SameBut(w.orders, w'.orders, s.procs[t].id)
    requires forall o, q :: o != s.procs[t].id && HasRow(w'.ledger, o, q) ==> HasRow(w.ledger, o, q)
    requires ProcLinked(s'.orders, w', s'.procs[t])
    requires !IsHolder(s'.procs[t]) ==> s'.orders[s.procs[t].id] == w'.orders[s.procs[t].id]
    ensures Linked(s', w')
  {
    var id := s.procs[t].id;
    forall u | 0 <= u < |s'.procs| && u != t
      ensures ProcLinked(s'.orders, w', s'.procs[u])
      ensures !WorksOn(s'.procs[u], id)
    {
      assert ProcLinked(s.orders, w, s.procs[u]);
      assert !WorksOn(s.procs[u], id);
      OthersLinked(s, w, s', w', id, s.procs[u]);
    }
    forall other | other in s'.orders && NoHolder(s'.procs, other)
      ensures s'.orders[other] == w'.orders[other]
    {
      if other != id {
        assert NoHolder(s.procs, other);
      }
    }
  }

  ghost predicate SameBut(t: Table, t': Table, id: OrderId) {
    t'.Keys == t.Keys && id in t && forall other :: other in t && other != id ==> t'[other] == t[other]
  }

  lemma OthersLinked(s: Sys, w: World, s': Sys, w': World, id: OrderId, p: Proc)
    requires ProcLinked(s.orders, w, p) && !WorksOn(p, id)
    requires SameBut(s.orders, s'.orders, id) && SameBut(w.orders, w'.orders, id)
    requires forall o, q :: o != id && HasRow(w'.ledger, o, q) ==> HasRow(w.ledger, o, q)
    ensures ProcLinked(s'.orders, w', p)
  {
  }

  // ---- what a handler sees of its own order ----------------------------------------------------

  lemma SeesTheRun(s: Sys, w: World, t: Tid)
    requires Linked(s, w) && t < |s.procs| && !s.procs[t].Finished? && !IsHolder(s.procs[t])
    ensures s.procs[t].id in s.orders && s.orders[s.procs[t].id] == w.orders[s.procs[t].id]
  {
    assert ProcLinked(s.orders, w, s.procs[t]);
    forall u | 0 <= u < |s.procs| && u != t
      ensures !WorksOn(s.procs[u], s.procs[t].id)
    {
      OthersElsewhere(s, t, u);
    }
    assert NoHolder(s.procs, s.procs[t].id);
  }

  lemma OthersElsewhere(s: Sys, t: Tid, u: Tid)
    requires OnePerOrder(s.procs) && t < |s.procs| && u < |s.procs| && u != t && !s.procs[t].Finished?
    ensures !WorksOn(s.procs[u], s.procs[t].id)
  {
    if u < t && !s.procs[u].Finished? {
      assert !WorksOn(s.procs[t], s.procs[u].id);
    }
  }

  /** What the run does meanwhile: nothing, or one step. */
  ghost function Then(w: World, step: Option<Step>): World {
    if step.Some? then Do(w, step.value).0 else w
  }

  function Self(p: UserId): Caller {
    Caller(p, false)
  }

  // ---- the statements of an accept ---------------------------------------------------------------

  lemma ClaimIsLinked(s: Sys, w: World, t: Tid, call: WalletCall)
    requires Linked(s, w) && t < |s.procs| && s.procs[t].Claiming?
    ensures Linked(RunStatement(s, t, call), w)
  {
    SeesTheRun(s, w, t);
    assert ProcLinked(s.orders, w, s.procs[t]);
    FrameLinked(s, w, t, RunStatement(s, t, call), w);
  }

  lemma LookupIsLinked(s: Sys, w: World, t: Tid, call: WalletCall) returns (step: Option<Step>)
    requires Linked(s, w) && t < |s.procs| && s.procs[t].Opening?
    ensures Linked(RunStatement(s, t, call), Then(w, step))
  {
    var p, s' := s.procs[t], RunStatement(s, t, call);
    assert ProcLinked(s.orders, w, p);
    if s'.procs[t].Finished? {
      step := Some(Accept(p.id, p.leg, Self(p.executor), p.executor, true, call));
      FoundRowIsTheAnswer(w, p.id, p.leg, p.executor, call);
      FrameLinked(s, w, t, s', Then(w, step));
    } else {
      step := None;
      if s'.procs[t].Inserting? {
        assert IsNewRow(s'.procs[t].row, w.orders[p.id], p.id, p.leg, p.executor);
      }
      FrameLinked(s, w, t, s', w);
    }
  }

  lemma FoundRowIsTheAnswer(w: World, id: OrderId, leg: Leg, executor: UserId, call: WalletCall)
    requires Claimable(w.orders, id, leg) && w.orders[id].legs[leg].price >= 0 && ValidMethod(w.orders[id].paymentMethod)
    requires Existing(w.ledger, id, executor).Some? && call.reply == Answered
    ensures DoAccept(w, id, leg, Self(executor), executor, true, call).0
         == World(Claim(w.orders, id, leg, executor), w.ledger)
  {
  }

  lemma InsertIsLinked(s: Sys, w: World, t: Tid, call: WalletCall) returns (step: Option<Step>)
    requires Linked(s, w) && t < |s.procs| && s.procs[t].Inserting?
    ensures Linked(RunStatement(s, t, call), Then(w, step))
  {
    var p, s' := s.procs[t], RunStatement(s, t, call);
    assert ProcLinked(s.orders, w, p);
    if call.reply == Dropped {
      step := None;
      FrameLinked(s, w, t, s', w);
    } else {
      var pct: int64 :| p.row == NewRow(p.id, w.orders[p.id].client, p.executor, w.orders[p.id].legs[p.leg].price, pct);
      step := Some(Accept(p.id, p.leg, Self(p.executor), p.executor, true, WalletCall(call.reply, Charged, pct)));
      InsertedRowIsTheAnswer(w, p.id, p.leg, p.executor, p.row, call.reply, pct);
      OnlyOneMoreRow(w.ledger, p.row);
      FrameLinked(s, w, t, s', Then(w, step));
    }
  }

  lemma InsertedRowIsTheAnswer(w: World, id: OrderId, leg: Leg, executor: UserId, row: Tx, reply: Reply, pct: int64)
    requires Claimable(w.orders, id, leg) && w.orders[id].legs[leg].price >= 0 && ValidMethod(w.orders[id].paymentMethod)
    requires !HasRow(w.ledger, id, executor) && Storable(row) && reply != Dropped
    requires row == NewRow(id, w.orders[id].client, executor, w.orders[id].legs[leg].price, pct)
    ensures DoAccept(w, id, leg, Self(executor), executor, true, WalletCall(reply, Charged, pct)).0
         == World(if reply == Lost then w.orders else Claim(w.orders, id, leg, executor), w.ledger + [row])
    ensures Insert(w.ledger, row) == w.ledger + [row]
  {
  }

  lemma RollBackIsLinked(s: Sys, w: World, t: Tid, call: WalletCall)
    requires Linked(s, w) && t < |s.procs| && s.procs[t].RollingBack?
    ensures Linked(RunStatement(s, t, call), w)
  {
    var p := s.procs[t];
    assert ProcLinked(s.orders, w, p);
    RollbackRestores(w.orders, p.id, p.leg, p.executor);
    assert ReleaseClaim(s.orders, p.id, p.leg)[p.id]
        == ReleaseClaim(Claim(w.orders, p.id, p.leg, p.executor), p.id, p.leg)[p.id];
    FrameLinked(s, w, t, RunStatement(s, t, call), w);
  }

  // ---- the other handlers -------------------------------------------------------------------------

  lemma MoveIsLinked(s: Sys, w: World, t: Tid, call: WalletCall) returns (step: Option<Step>)
    requires Linked(s, w) && t < |s.procs| && s.procs[t].Moving?
    ensures Linked(RunStatement(s, t, call), Then(w, step))
  {
    var p := s.procs[t];
    SeesTheRun(s, w, t);
    assert ProcLinked(s.orders, w, p);
    step := Some(UpdateStatus(p.id, p.leg, Self(w.orders[p.id].legs[p.leg].executor.value), p.status));
    FrameLinked(s, w, t, RunStatement(s, t, call), Then(w, step));
  }

  /** The cancellation's UPDATE is a cancellation that did not reach the wallet. */
  lemma CancelIsLinked(s: Sys, w: World, t: Tid, call: WalletCall) returns (step: Option<Step>)
    requires Linked(s, w) && t < |s.procs| && s.procs[t].Cancelling?
    ensures Linked(RunStatement(s, t, call), Then(w, step))
  {
    var p := s.procs[t];
    SeesTheRun(s, w, t);
    assert ProcLinked(s.orders, w, p);
    step := Some(Cancel(p.id, Self(w.orders[p.id].client), false));
    FrameLinked(s, w, t, RunStatement(s, t, call), Then(w, step));
  }

  /** Its call to the wallet is a second one, which did. */
  lemma RefundIsLinked(s: Sys, w: World, t: Tid, call: WalletCall) returns (step: Option<Step>)
    requires Linked(s, w) && t < |s.procs| && s.procs[t].Refunding?
    ensures Linked(RunStatement(s, t, call), Then(w, step))
  {
    var p := s.procs[t];
    SeesTheRun(s, w, t);
    assert ProcLinked(s.orders, w, p);
    if call.reply == Dropped {
      step := None;
    } else {
      step := Some(Cancel(p.id, Self(w.orders[p.id].client), true));
      SetAllIdle(w.orders, p.id, Cancelled);
    }
    SettledRows(w.ledger, p.id, {});
    FrameLinked(s, w, t, RunStatement(s, t, call), Then(w, step));
  }

  lemma SettledRows(rows: Rows, id: OrderId, payees: set<UserId>)
    ensures forall o, q :: HasRow(Refund(rows, id), o, q) ==> HasRow(rows, o, q)
    ensures forall o, q :: HasRow(ReleaseTo(rows, id, payees), o, q) ==> HasRow(rows, o, q)
  {
    SettledRow(rows, Refund(rows, id));
    SettledRow(rows, ReleaseTo(rows, id, payees));
  }

  lemma SettledRow(rows: Rows, rows': Rows)
    requires |rows'| == |rows|
    requires forall i :: 0 <= i < |rows| ==> rows'[i].order == rows[i].order && rows'[i].payee == rows[i].payee
    ensures forall o, q :: HasRow(rows', o, q) ==> HasRow(rows, o, q)
  {
    forall o, q | HasRow(rows', o, q)
      ensures HasRow(rows, o, q)
    {
      var i :| 0 <= i < |rows'| && For(rows'[i], o, q);
      assert For(rows[i], o, q);
    }
  }

  /** The confirmation's UPDATE is a confirmation that reached nobody's release. */
  lemma CompleteIsLinked(s: Sys, w: World, t: Tid, call: WalletCall) returns (step: Option<Step>)
    requires Linked(s, w) && t < |s.procs| && s.procs[t].Completing?
    ensures Linked(RunStatement(s, t, call), Then(w, step))
  {
    var id, owed := s.procs[t].id, s.procs[t].owed;
    SeesTheRun(s, w, t);
    ReadyToComplete(s, w, t);
    step := Some(Confirm(id, Self(w.orders[id].client), {}));
    ConfirmedForNobody(w, id);
    CompletedKeepsHolders(w.orders, id, owed);
    CompletedIsLinked(s, w, t, call);
  }

  lemma ReadyToComplete(s: Sys, w: World, t: Tid)
    requires Linked(s, w) && t < |s.procs| && s.procs[t].Completing?
    ensures JustRead(w.orders, s.procs[t])
  {
    assert ProcLinked(s.orders, w, s.procs[t]);
  }

  lemma CompletedIsLinked(s: Sys, w: World, t: Tid, call: WalletCall)
    requires Linked(s, w) && t < |s.procs| && s.procs[t].Completing?
    requires var id := s.procs[t].id;
             && id in s.orders && id in w.orders && s.orders[id] == w.orders[id]
             && Owes(SetAll(w.orders, id, Completed)[id], s.procs[t].owed)
    ensures Linked(RunStatement(s, t, call), World(SetAll(w.orders, s.procs[t].id, Completed), w.ledger))
  {
    FrameLinked(s, w, t, RunStatement(s, t, call), World(SetAll(w.orders, s.procs[t].id, Completed), w.ledger));
  }

  lemma ConfirmedForNobody(w: World, id: OrderId)
    requires id in w.orders && w.orders[id].Ready()
    ensures Then(w, Some(Confirm(id, Self(w.orders[id].client), {}))) == World(SetAll(w.orders, id, Completed), w.ledger)
  {
    assert ReleaseTo(w.ledger, id, w.orders[id].Executors() * {}) == w.ledger;
  }

  lemma CompletedKeepsHolders(t: Table, id: OrderId, owed: seq<UserId>)
    requires id in t && t[id].Ready() && forall q :: q in owed <==> q in t[id].Executors()
    ensures Owes(SetAll(t, id, Completed)[id], owed)
  {
    var o := SetAll(t, id, Completed)[id];
    t[id].ReadyMeansEveryLegDone();
    var l :| l in t[id].legs;
    assert l in o.legs;
    forall q | q in owed
      ensures o.HeldBy(q)
    {
      var k :| k in t[id].legs && t[id].legs[k].executor == Some(q);
      assert o.legs[k].executor == Some(q);
    }
  }

  /** Each release is one more, which reached that payee. */
  lemma PayIsLinked(s: Sys, w: World, t: Tid, call: WalletCall) returns (step: Option<Step>)
    requires Linked(s, w) && t < |s.procs| && s.procs[t].Paying?
    ensures Linked(RunStatement(s, t, call), Then(w, step))
  {
    var id, owed := s.procs[t].id, s.procs[t].owed;
    SeesTheRun(s, w, t);
    StillOwes(s, w, t);
    if owed == [] || call.reply == Dropped {
      step := None;
      PaidIsLinked(s, w, t, call, w.ledger);
    } else {
      step := Some(Confirm(id, Self(w.orders[id].client), {owed[0]}));
      PaidAgain(w, id, owed[0]);
      PaidIsLinked(s, w, t, call, ReleaseTo(w.ledger, id, {owed[0]}));
    }
  }

  lemma StillOwes(s: Sys, w: World, t: Tid)
    requires Linked(s, w) && t < |s.procs| && s.procs[t].Paying?
    ensures var owed := s.procs[t].owed;
            && s.procs[t].id in w.orders && Owes(w.orders[s.procs[t].id], owed)
            && (owed != [] ==> Owes(w.orders[s.procs[t].id], [owed[0]]) && Owes(w.orders[s.procs[t].id], owed[1..]))
  {
    assert ProcLinked(s.orders, w, s.procs[t]);
    RestIsOwed(w.orders[s.procs[t].id], s.procs[t].owed);
  }

  lemma PaidIsLinked(s: Sys, w: World, t: Tid, call: WalletCall, ledger: Rows)
    requires Linked(s, w) && t < |s.procs| && s.procs[t].Paying? && ledger == RunStatement(s, t, call).ledger
    requires var id, owed := s.procs[t].id, s.procs[t].owed;
             && id in s.orders && id in w.orders && s.orders[id] == w.orders[id]
             && (owed != [] ==> Owes(w.orders[id], owed[1..]))
    ensures Linked(RunStatement(s, t, call), World(w.orders, ledger))
  {
    if s.procs[t].owed != [] {
      SettledRows(w.ledger, s.procs[t].id, {s.procs[t].owed[0]});
    }
    FrameLinked(s, w, t, RunStatement(s, t, call), World(w.orders, ledger));
  }

  lemma RestIsOwed(o: Order, owed: seq<UserId>)
    requires Owes(o, owed)
    ensures owed != [] ==> Owes(o, [owed[0]]) && Owes(o, owed[1..])
  {
  }

  lemma PaidAgain(w: World, id: OrderId, q: UserId)
    requires id in w.orders && Owes(w.orders[id], [q])
    ensures Then(w, Some(Confirm(id, Self(w.orders[id].client), {q}))) == World(w.orders, ReleaseTo(w.ledger, id, {q}))
  {
    assert w.orders[id].HeldBy([q][0]);
    w.orders[id].ReadyMeansEveryLegDone();
    SetAllIdle(w.orders, id, Completed);
    assert w.orders[id].Executors() * {q} == {q};
  }

  // ---- create and the start of a handler -----------------------------------------------------------

  lemma StoreIsLinked(s: Sys, w: World, id: OrderId, o: Order) returns (step: Option<Step>)
    requires Linked(s, w) && Creatable(o)
    ensures Linked(Next(s, Store(id, o)), Then(w, step))
  {
    if id in s.orders {
      step := None;
    } else {
      var client: UserId, tariffs: Pricing.Tariffs, request: OrderRequest :| Creates(client, tariffs, request, o);
      step := Some(Create(id, client, tariffs, request));
      CreatedIsUnclaimed(client, tariffs, request);
      NewOrderLinked(s, w, id, o);
    }
  }

  lemma CreatedIsUnclaimed(client: UserId, tariffs: Pricing.Tariffs, request: OrderRequest)
    requires RequestedLegs(request) != [] && Insertable(NewOrder(client, tariffs, request))
    ensures Unclaimed(NewOrder(client, tariffs, request))
  {
    Invariants.NewOrderOk(client, tariffs, request);
  }

  lemma NewOrderLinked(s: Sys, w: World, id: OrderId, o: Order)
    requires Linked(s, w) && id !in s.orders
    ensures Linked(s.(orders := s.orders[id := o]), w.(orders := w.orders[id := o]))
  {
    var s', w' := s.(orders := s.orders[id := o]), w.(orders := w.orders[id := o]);
    forall t | 0 <= t < |s'.procs|
      ensures ProcLinked(s'.orders, w', s'.procs[t])
    {
      assert ProcLinked(s.orders, w, s.procs[t]);
    }
  }

  lemma BeginIsLinked(s: Sys, w: World, p: Proc)
    requires Linked(s, w) && SerialStep(s, Begin(p))
    ensures Linked(Next(s, Begin(p)), w)
  {
    if JustRead(s.orders, p) {
      assert NoHolder(s.procs, p.id);
      assert s.orders[p.id] == w.orders[p.id];
      var s' := Next(s, Begin(p));
      forall id | id in s'.orders && NoHolder(s'.procs, id)
        ensures s'.orders[id] == w.orders[id]
      {
        StillNoHolder(s.procs, p, id);
      }
      forall t | 0 <= t < |s'.procs|
        ensures ProcLinked(s'.orders, w, s'.procs[t])
      {
        if t < |s.procs| {
          assert ProcLinked(s.orders, w, s.procs[t]);
        }
      }
    }
  }

  lemma StillNoHolder(procs: seq<Proc>, p: Proc, id: OrderId)
    requires NoHolder(procs + [p], id)
    ensures NoHolder(procs, id)
  {
    forall t | 0 <= t < |procs| && IsHolder(procs[t])
      ensures procs[t].id != id
    {
      assert (procs + [p])[t] == procs[t];
    }
  }

  // ---- whole schedules ------------------------------------------------------------------------------

  lemma StepIsLinked(s: Sys, w: World, a: Action) returns (step: Option<Step>)
    requires Linked(s, w) && SerialStep(s, a)
    ensures Linked(Next(s, a), Then(w, step))
  {
    step := None;
    match a {
      case Store(id, o) => step := StoreIsLinked(s, w, id, o);
      case Begin(p) => BeginIsLinked(s, w, p);
      case Advance(t, call) =>
        if t < |s.procs| {
          match s.procs[t] {
            case Claiming(_, _, _, _, _, _) => ClaimIsLinked(s, w, t, call);
            case Opening(_, _, _, _, _, _) => step := LookupIsLinked(s, w, t, call);
            case Inserting(_, _, _, _) => step := InsertIsLinked(s, w, t, call);
            case RollingBack(_, _, _) => RollBackIsLinked(s, w, t, call);
            case Moving(_, _, _) => step := MoveIsLinked(s, w, t, call);
            case Cancelling(_) => step := CancelIsLinked(s, w, t, call);
            case Refunding(_) => step := RefundIsLinked(s, w, t, call);
            case Completing(_, _) => step := CompleteIsLinked(s, w, t, call);
            case Paying(_, _) => step := PayIsLinked(s, w, t, call);
            case Finished =>
          }
        }
    }
  }

  lemma {:induction false} FollowedByARun(actions: seq<Action>) returns (steps: seq<Step>)
    requires SerialPerOrder(actions)
    ensures Linked(Schedule(START, actions), Run(EMPTY, steps))
  {
    if actions == [] {
      steps := [];
    } else {
      var s := Schedule(START, actions[..|actions| - 1]);
      var before := FollowedByARun(actions[..|actions| - 1]);
      var step := StepIsLinked(s, Run(EMPTY, before), actions[|actions| - 1]);
      steps := if step.Some? then before + [step.value] else before;
      if step.Some? {
        RunOneMore(EMPTY, before, step.value);
      }
    }
  }

  /** Wherever no accept is between its claim and its end, the tables of a schedule in which no two
      handlers of one order overlap are the tables of a run of whole handlers. */
  lemma SerialPerOrderIsARun(actions: seq<Action>)
    requires SerialPerOrder(actions)
    requires forall id: OrderId :: NoHolder(Schedule(START, actions).procs, id)
    ensures exists steps :: Refinement.Tables(Schedule(START, actions)) == Run(EMPTY, steps)
  {
    var steps := FollowedByARun(actions);
    var s, w := Schedule(START, actions), Run(EMPTY, steps);
    assert forall id :: id in s.orders ==> NoHolder(s.procs, id) && s.orders[id] == w.orders[id];
    assert s.orders == w.orders;
    assert Refinement.Tables(s) == w;
  }

  /** What every run keeps, such a schedule keeps. */
  lemma SerialPerOrderIsSound(actions: seq<Action>)
    requires SerialPerOrder(actions)
    requires forall id: OrderId :: NoHolder(Schedule(START, actions).procs, id)
    ensures Inv(Refinement.Tables(Schedule(START, actions)))
  {
    SerialPerOrderIsARun(actions);
    var steps :| Refinement.Tables(Schedule(START, actions)) == Run(EMPTY, steps);
    Invariants.EveryRunIsSound(steps);
  }

  /** Every order without such an accept is as in that run, and all the money is. */
  lemma QuietOrdersAreAsInARun(actions: seq<Action>)
    requires SerialPerOrder(actions)
    ensures exists steps ::
              var s, w := Schedule(START, actions), Run(EMPTY, steps);
              s.ledger == w.ledger && forall id :: id in s.orders && NoHolder(s.procs, id) ==>
                id in w.orders && s.orders[id] == w.orders[id]
  {
    var steps := FollowedByARun(actions);
  }
}
