/** The two grains agree: handlers that do not overlap, run statement by statement, leave the tables
    exactly as the handler-grain steps do (internal/orders/handler.go). */
module Refinement {
  import opened Models
  import opened GoInt
  import opened Legs
  import opened Pricing
  import opened Orders
  import opened Ledger
  import opened Protocol
  import opened Interleaving
  import Invariants

  ghost function Tables(s: Sys): World {
    World(s.orders, s.ledger)
  }

  /** Any answer will do for a statement that calls nobody. */
  function Local(): WalletCall {
    WalletCall(Answered, Charged, 0)
  }

  function Reached(yes: bool): WalletCall {
    WalletCall(if yes then Answered else Dropped, Charged, 0)
  }

  // ---- the statements of a handler that runs alone -------------------------------------------

  /** The distinct executors in leg order, as the confirm handler collects them. */
  function Payees(o: Order): (owed: seq<UserId>)
    ensures forall q :: q in owed <==> Holder(o, Transport, q) || Holder(o, Equipment, q) || Holder(o, Labor, q)
  {
    AddHolder(o, Labor, AddHolder(o, Equipment, AddHolder(o, Transport, [])))
  }

  lemma PayeesAreExecutors(o: Order)
    ensures forall q: UserId :: q in Payees(o) <==> q in o.Executors()
  {
    forall q: UserId
      ensures q in Payees(o) <==> q in o.Executors()
    {
      if o.HeldBy(q) {
        var l :| l in o.legs && o.legs[l].executor == Some(q);
        match l {
          case Transport => assert Holder(o, Transport, q);
          case Equipment => assert Holder(o, Equipment, q);
          case Labor => assert Holder(o, Labor, q);
        }
      }
      if Holder(o, Transport, q) || Holder(o, Equipment, q) || Holder(o, Labor, q) {
        assert o.HeldBy(q);
      }
    }
  }

  predicate Holder(o: Order, l: Leg, q: UserId) {
    l in o.legs && o.legs[l].executor == Some(q)
  }

  function AddHolder(o: Order, l: Leg, owed: seq<UserId>): (r: seq<UserId>)
    ensures forall q :: q in r <==> q in owed || Holder(o, l, q)
  {
    if l in o.legs && o.legs[l].executor.Some? && o.legs[l].executor.value !in owed then owed + [o.legs[l].executor.value]
    else owed
  }

  function Releases(t: Tid, owed: seq<UserId>, reached: set<UserId>): seq<Action> {
    if owed == [] then [Advance(t, Local())]
    else [Advance(t, Reached(owed[0] in reached))] + Releases(t, owed[1..], reached)
  }

  ghost function Statements(s: Sys, step: Step): seq<Action> {
    var w, t := Tables(s), |s.procs|;
    if Do(w, step).1 in {BadRequest, Forbidden, OrderNotFound, LegNotFound, LicenceMismatch, LegAlreadyTaken,
                         OrderNotPublished, InvalidTransition, NotCancellable, NotReady} then []
    else
      match step
      case Create(id, client, tariffs, request) =>
        if Do(w, step).1 == Created then [Store(id, NewOrder(client, tariffs, request))] else []
      case Accept(id, leg, _, executor, _, call) =>
        AcceptStatements(s, id, leg, executor, call)
      case UpdateStatus(id, leg, _, status) => [Begin(Moving(id, leg, status)), Advance(t, Local())]
      case Cancel(id, _, refundReached) =>
        [Begin(Cancelling(id)), Advance(t, Local()), Advance(t, Reached(refundReached))]
      case Confirm(id, _, reached) =>
        if id in s.orders then ConfirmStatements(s, id, reached) else []
  }

  ghost function AcceptStatements(s: Sys, id: OrderId, leg: Leg, executor: UserId, call: WalletCall): seq<Action> {
    var go := Advance(|s.procs|, call);
    [Begin(AcceptAt(s, id, leg, executor)), go, go, go, go]
  }

  ghost function ConfirmStatements(s: Sys, id: OrderId, reached: set<UserId>): seq<Action>
    requires id in s.orders
  {
    var t, owed := |s.procs|, Payees(s.orders[id]);
    [Begin(Completing(id, owed)), Advance(t, Local())] + Releases(t, owed, reached)
  }

  ghost function AcceptAt(s: Sys, id: OrderId, leg: Leg, executor: UserId): Proc {
    if HasLeg(s.orders, id, leg) then
      var o := s.orders[id];
      Claiming(id, leg, executor, o.client, o.legs[leg].price, o.paymentMethod)
    else Finished
  }

  // ---- each handler --------------------------------------------------------------------------

  lemma TwoSteps(s: Sys, a: Action, b: Action)
    ensures Schedule(s, [a, b]) == Next(Next(s, a), b)
  {
    Chain([s, Next(s, a), Next(Next(s, a), b)], [a, b]);
  }

  lemma UpdateAlone(s: Sys, id: OrderId, leg: Leg, caller: Caller, status: Status)
    requires UpdateRefusal(s.orders, id, leg, caller, status).None?
    ensures Tables(Schedule(s, [Begin(Moving(id, leg, status)), Advance(|s.procs|, Local())]))
         == DoUpdate(Tables(s), id, leg, caller, status).0
  {
    TwoSteps(s, Begin(Moving(id, leg, status)), Advance(|s.procs|, Local()));
  }

  lemma CancelAlone(s: Sys, id: OrderId, caller: Caller, reached: bool)
    requires CancelRefusal(s.orders, id, caller).None?
    ensures Tables(Schedule(s, [Begin(Cancelling(id)), Advance(|s.procs|, Local()), Advance(|s.procs|, Reached(reached))]))
         == DoCancel(Tables(s), id, caller, reached).0
  {
    var t := |s.procs|;
    var start, last := [Begin(Cancelling(id)), Advance(t, Local())], Advance(t, Reached(reached));
    TwoSteps(s, start[0], start[1]);
    CancelStarts(s, id);
    RefundEnds(Schedule(s, start), t, id, reached);
    ScheduleOneMore(s, start, last);
    assert start + [last] == [start[0], start[1], last];
  }

  lemma RefundEnds(s: Sys, t: Tid, id: OrderId, reached: bool)
    requires t < |s.procs| && s.procs[t] == Refunding(id)
    ensures Tables(Next(s, Advance(t, Reached(reached))))
         == World(s.orders, if reached then Refund(s.ledger, id) else s.ledger)
  {
  }

  lemma CancelStarts(s: Sys, id: OrderId)
    requires id in s.orders && s.orders[id].MayCancel()
    ensures Next(Next(s, Begin(Cancelling(id))), Advance(|s.procs|, Local()))
         == s.(orders := SetAll(s.orders, id, Cancelled), procs := s.procs + [Refunding(id)])
  {
  }

  /** Claim, look up and charge, insert, and, unless the wallet's answer arrived, undo. */
  lemma AcceptAlone(s: Sys, id: OrderId, leg: Leg, caller: Caller, executor: UserId, licensed: bool, call: WalletCall)
    requires AcceptRefusal(s.orders, id, leg, caller, executor, licensed).None?
    ensures Tables(Schedule(s, AcceptStatements(s, id, leg, executor, call)))
         == DoAccept(Tables(s), id, leg, caller, executor, licensed, call).0
  {
    var t, p := |s.procs|, AcceptAt(s, id, leg, executor);
    var actions := [Begin(p), Advance(t, call), Advance(t, call), Advance(t, call), Advance(t, call)];
    var s1 := Next(s, actions[0]);
    var s2 := Next(s1, actions[1]);
    var s3 := Next(s2, actions[2]);
    var s4 := Next(s3, actions[3]);
    Chain([s, s1, s2, s3, s4, Next(s4, actions[4])], actions);
    var claimed := Claim(s.orders, id, leg, executor);
    assert s2.orders == claimed && s2.ledger == s.ledger;
    AfterClaim(s2, t, s.orders, id, leg, executor, call);
  }

  /** From the claim on. */
  lemma AfterClaim(s: Sys, t: Tid, before: Table, id: OrderId, leg: Leg, executor: UserId, call: WalletCall)
    requires Claimable(before, id, leg) && s.orders == Claim(before, id, leg, executor)
    requires t < |s.procs|
    requires var o := before[id];
             s.procs[t] == Opening(id, leg, executor, o.client, o.legs[leg].price, o.paymentMethod)
    ensures var go := Advance(t, call);
            var escrow := LegEscrow(World(before, s.ledger), id, leg, executor, call);
            var last := Next(Next(Next(s, go), go), go);
            && last.orders == (if call.reply == Answered && escrow.Opened? then s.orders else before)
            && last.ledger == (if call.reply == Dropped then s.ledger else AfterEscrow(s.ledger, escrow))
  {
    RollbackRestores(before, id, leg, executor);
    var o := before[id];
    var row := NewRow(id, o.client, executor, o.legs[leg].price, call.pct);
    var escrow := LegEscrow(World(before, s.ledger), id, leg, executor, call);
    if escrow.Opened? && Existing(s.ledger, id, executor).Some? {
      assert Insert(s.ledger, escrow.tx) == s.ledger;
    }
  }

  /** Paying one by one whoever can be reached is one release to all of them. */
  lemma {:induction false} PaysAlone(s: Sys, t: Tid, id: OrderId, owed: seq<UserId>, reached: set<UserId>)
    requires t < |s.procs| && s.procs[t] == Paying(id, owed)
    ensures var s' := Schedule(s, Releases(t, owed, reached));
            && s'.orders == s.orders
            && s'.ledger == ReleaseTo(s.ledger, id, set q | q in owed && q in reached)
    decreases |owed|
  {
    var rest := Releases(t, owed, reached);
    if owed == [] {
      assert rest[..0] == [];
      assert Schedule(s, rest) == Next(Schedule(s, []), rest[0]);
      assert ReleaseTo(s.ledger, id, set q | q in owed && q in reached) == s.ledger;
    } else {
      var first := Advance(t, Reached(owed[0] in reached));
      var s1 := Next(s, first);
      PaysAlone(s1, t, id, owed[1..], reached);
      ScheduleSplits(s, [first], Releases(t, owed[1..], reached));
      assert [first][..0] == [] && Schedule(s, [first]) == s1;
      FirstThenRest(s.ledger, id, owed, reached);
    }
  }

  lemma FirstThenRest(rows: Rows, id: OrderId, owed: seq<UserId>, reached: set<UserId>)
    requires owed != []
    ensures ReleaseTo(if owed[0] in reached then ReleaseTo(rows, id, {owed[0]}) else rows,
                      id, set q | q in owed[1..] && q in reached)
         == ReleaseTo(rows, id, set q | q in owed && q in reached)
  {
    var tail := set q | q in owed[1..] && q in reached;
    var all := set q | q in owed && q in reached;
    assert owed == [owed[0]] + owed[1..];
    if owed[0] in reached {
      ReleaseTwice(rows, id, {owed[0]}, tail);
      assert {owed[0]} + tail == all;
    } else {
      assert tail == all;
    }
  }

  lemma ConfirmStarts(s: Sys, id: OrderId, owed: seq<UserId>)
    requires id in s.orders && s.orders[id].Ready() && forall q :: q in owed <==> q in s.orders[id].Executors()
    ensures Next(Next(s, Begin(Completing(id, owed))), Advance(|s.procs|, Local()))
         == s.(orders := SetAll(s.orders, id, Completed), procs := s.procs + [Paying(id, owed)])
  {
  }

  lemma ConfirmRuns(s: Sys, id: OrderId, owed: seq<UserId>, reached: set<UserId>)
    requires id in s.orders && s.orders[id].Ready() && forall q :: q in owed <==> q in s.orders[id].Executors()
    ensures Tables(Schedule(s, [Begin(Completing(id, owed)), Advance(|s.procs|, Local())]
                               + Releases(|s.procs|, owed, reached)))
         == World(SetAll(s.orders, id, Completed), ReleaseTo(s.ledger, id, set q | q in owed && q in reached))
  {
    var start := [Begin(Completing(id, owed)), Advance(|s.procs|, Local())];
    TwoSteps(s, start[0], start[1]);
    ConfirmStarts(s, id, owed);
    ScheduleSplits(s, start, Releases(|s.procs|, owed, reached));
    PaysAlone(Schedule(s, start), |s.procs|, id, owed, reached);
  }

  lemma ConfirmAlone(s: Sys, id: OrderId, caller: Caller, reached: set<UserId>)
    requires ConfirmRefusal(s.orders, id, caller).None?
    ensures Tables(Schedule(s, ConfirmStatements(s, id, reached))) == DoConfirm(Tables(s), id, caller, reached).0
  {
    PayeesAreExecutors(s.orders[id]);
    ConfirmRuns(s, id, Payees(s.orders[id]), reached);
    OwedAndReached(s.orders[id], reached);
  }

  lemma OwedAndReached(o: Order, reached: set<UserId>)
    ensures (set q | q in Payees(o) && q in reached) == o.Executors() * reached
  {
    PayeesAreExecutors(o);
  }

  lemma CreateAlone(s: Sys, id: OrderId, client: UserId, tariffs: Tariffs, request: OrderRequest)
    requires DoCreate(Tables(s), id, client, tariffs, request).1 == Created
    ensures Tables(Schedule(s, [Store(id, NewOrder(client, tariffs, request))]))
         == DoCreate(Tables(s), id, client, tariffs, request).0
  {
    var o := NewOrder(client, tariffs, request);
    Invariants.NewOrderOk(client, tariffs, request);
    assert Unclaimed(o);
    var a := Store(id, o);
    assert [a][..0] == [] && Schedule(s, [a]) == Next(Schedule(s, []), a);
  }

  // ---- whole runs ---------------------------------------------------------------------------------

  lemma HandlerIsItsStatements(s: Sys, step: Step)
    ensures Tables(Schedule(s, Statements(s, step))) == Do(Tables(s), step).0
  {
    match step {
      case Create(id, client, tariffs, request) =>
        if DoCreate(Tables(s), id, client, tariffs, request).1 == Created {
          CreateAlone(s, id, client, tariffs, request);
        }
      case Accept(id, leg, caller, executor, licensed, call) =>
        if AcceptRefusal(s.orders, id, leg, caller, executor, licensed).None? {
          AcceptAlone(s, id, leg, caller, executor, licensed, call);
        }
      case UpdateStatus(id, leg, caller, status) =>
        if UpdateRefusal(s.orders, id, leg, caller, status).None? {
          UpdateAlone(s, id, leg, caller, status);
        }
      case Cancel(id, caller, reached) =>
        if CancelRefusal(s.orders, id, caller).None? {
          CancelAlone(s, id, caller, reached);
        }
      case Confirm(id, caller, reached) =>
        if ConfirmRefusal(s.orders, id, caller).None? {
          ConfirmAlone(s, id, caller, reached);
        }
    }
  }

  ghost function Compiled(steps: seq<Step>): seq<Action> {
    if steps == [] then []
    else
      var before := Compiled(steps[..|steps| - 1]);
      before + Statements(Schedule(START, before), steps[|steps| - 1])
  }

  /** Every run at handler grain is a schedule at statement grain: the one where nobody overlaps. */
  lemma {:induction false} HandlerGrainRefinesStatementGrain(steps: seq<Step>)
    ensures Tables(Schedule(START, Compiled(steps))) == Run(EMPTY, steps)
  {
    if steps != [] {
      var before := Compiled(steps[..|steps| - 1]);
      var s := Schedule(START, before);
      HandlerGrainRefinesStatementGrain(steps[..|steps| - 1]);
      HandlerIsItsStatements(s, steps[|steps| - 1]);
      ScheduleSplits(START, before, Statements(s, steps[|steps| - 1]));
    }
  }
}
