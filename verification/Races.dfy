/** What does NOT survive interleaving: the unconditional writes that follow a separate read
    (internal/orders/store.go) break, in these schedules from the empty tables, promises every handler
    keeps when it runs alone. Landings and Settlements have the exact conditions. */
module Races {
  import opened Models
  import opened Legs
  import opened Orders
  import opened Ledger
  import opened Protocol
  import opened Interleaving
  import opened Samples

  function Go(t: Tid): Action {
    Advance(t, WalletCall(Answered, Charged, 0))
  }

  function GoDropped(t: Tid): Action {
    Advance(t, WalletCall(Dropped, Charged, 0))
  }

  /** One order in the tables, and the handlers in flight. */
  ghost function At(o: Order, ledger: Rows, procs: seq<Proc>, log: seq<Event>): Sys {
    Sys(map[0 := o], ledger, procs, log)
  }

  function Row(payee: UserId, amount: int, status: TxStatus): Tx {
    Tx(0, 7, payee, amount, 0, status)
  }

  // ---- a leg taken ---------------------------------------------------------------------

  function OneClaiming(): Proc {
    Claiming(0, Transport, 1, 7, 100, Payme)
  }

  /** Create, and an accept up to its claim. */
  function OneClaimed(): seq<Action> {
    [Store(0, OneLeg(Published, None)), Begin(OneClaiming()), Go(0)]
  }

  function OneWon(): seq<Event> {
    [Won(0, 0, Transport, 1)]
  }

  lemma OneIsClaimed()
    ensures Schedule(START, OneClaimed())
         == At(OneLeg(Accepted, Some(1)), [], [Opening(0, Transport, 1, 7, 100, Payme)], OneWon())
  {
    var states := [START,
                   At(OneLeg(Published, None), [], [], []),
                   At(OneLeg(Published, None), [], [OneClaiming()], []),
                   At(OneLeg(Accepted, Some(1)), [], [Opening(0, Transport, 1, 7, 100, Payme)], OneWon())];
    OneStored();
    Reads(states[1], OneClaiming());
    assert Claim(states[2].orders, 0, Transport, 1)[0].legs == OneLeg(Accepted, Some(1)).legs;
    assert [] + OneWon() == OneWon();
    Chain(states, OneClaimed());
  }

  lemma OneStored()
    ensures Next(START, Store(0, OneLeg(Published, None))) == At(OneLeg(Published, None), [], [], [])
  {
    assert Unclaimed(OneLeg(Published, None));
  }

  /** The rest of the accept: the wallet finds no row, charges and inserts one. */
  function OneTaken(): seq<Action> {
    OneClaimed() + [Go(0), Go(0)]
  }

  lemma OneIsTaken()
    ensures Schedule(START, OneTaken())
         == At(OneLeg(Accepted, Some(1)), [Row(1, 100, Held)], [Finished], OneWon())
  {
    OneIsClaimed();
    Escrowed(OneLeg(Accepted, Some(1)), [], [], Transport, 1, 100, OneWon());
    assert [] + [Opening(0, Transport, 1, 7, 100, Payme)] == [Opening(0, Transport, 1, 7, 100, Payme)];
    assert [] + [Row(1, 100, Held)] == [Row(1, 100, Held)] && [] + [Finished] == [Finished];
    ScheduleSplits(START, OneClaimed(), [Go(0), Go(0)]);
  }

  /** An accept past its claim, whose calls to the wallet all succeed. */
  lemma Escrowed(o: Order, ledger: Rows, procs: seq<Proc>, leg: Leg, executor: UserId, price: int, log: seq<Event>)
    requires 0 <= price < 1000 && Existing(ledger, 0, executor).None?
    ensures Schedule(At(o, ledger, procs + [Opening(0, leg, executor, 7, price, Payme)], log), [Go(|procs|), Go(|procs|)])
         == At(o, ledger + [Row(executor, price, Held)], procs + [Finished], log)
  {
    var t, row := |procs|, Row(executor, price, Held);
    FreeCommission(price);
    var s0 := At(o, ledger, procs + [Opening(0, leg, executor, 7, price, Payme)], log);
    var s1 := At(o, ledger, procs + [Inserting(0, leg, executor, row)], log);
    var s2 := At(o, ledger + [row], procs + [Finished], log);
    assert Next(s0, Go(t)) == s1;
    assert Next(s1, Go(t)) == s2;
    Chain([s0, s1, s2], [Go(t), Go(t)]);
  }

  // ---- single statements ---------------------------------------------------------------

  lemma Reads(s: Sys, p: Proc)
    requires JustRead(s.orders, p)
    ensures Next(s, Begin(p)) == s.(procs := s.procs + [p])
  {
  }

  lemma MoveOne(ledger: Rows, procs: seq<Proc>, log: seq<Event>, t: Tid, from: Status, to: Status)
    requires t < |procs| && procs[t] == Moving(0, Transport, to)
    ensures Next(At(OneLeg(from, Some(1)), ledger, procs, log), Go(t))
         == At(OneLeg(to, Some(1)), ledger, procs[t := Finished], log)
  {
    assert OneLeg(from, Some(1)).legs[Transport := LegRow(to, Some(1), 100)] == OneLeg(to, Some(1)).legs;
  }

  lemma CompleteOne(ledger: Rows, procs: seq<Proc>, log: seq<Event>, t: Tid, from: Status, owed: seq<UserId>)
    requires t < |procs| && procs[t] == Completing(0, owed)
    ensures Next(At(OneLeg(from, Some(1)), ledger, procs, log), Go(t))
         == At(OneLeg(Completed, Some(1)), ledger, procs[t := Paying(0, owed)], log)
  {
    var s := At(OneLeg(from, Some(1)), ledger, procs, log);
    assert SetAll(s.orders, 0, Completed)[0].legs == OneLeg(Completed, Some(1)).legs;
  }

  lemma CancelOne(ledger: Rows, procs: seq<Proc>, log: seq<Event>, t: Tid, from: Status)
    requires t < |procs| && procs[t] == Cancelling(0)
    ensures Next(At(OneLeg(from, Some(1)), ledger, procs, log), Go(t))
         == At(OneLeg(Cancelled, Some(1)), ledger, procs[t := Refunding(0)], log)
  {
    var s := At(OneLeg(from, Some(1)), ledger, procs, log);
    assert SetAll(s.orders, 0, Cancelled)[0].legs == OneLeg(Cancelled, Some(1)).legs;
  }

  lemma PayOne(o: Order, procs: seq<Proc>, log: seq<Event>, t: Tid)
    requires t < |procs| && procs[t] == Paying(0, [1])
    ensures Next(At(o, [Row(1, 100, Held)], procs, log), Go(t))
         == At(o, [Row(1, 100, Released)], procs[t := Paying(0, [])], log)
  {
    assert [1][1..] == [];
    assert ReleaseTo([Row(1, 100, Held)], 0, {1}) == [Row(1, 100, Released)];
  }

  // ---- a status update against a confirmation --------------------------------------------

  function BothUpdate(): seq<Action> {
    [Begin(Moving(0, Transport, InTransit)), Begin(Moving(0, Transport, Delivered)), Go(2)]
  }

  function ConfirmStarts(): seq<Action> {
    [Begin(Completing(0, [1])), Go(3)]
  }

  /** A status update that read `accepted` lands after the confirmation: the leg goes from completed
      back to in transit, and its executor is paid for work the table calls unfinished. */
  lemma StaleUpdateMovesBackwards()
    ensures Creatable(OneLeg(Published, None))
    ensures Schedule(START, OneTaken() + BothUpdate() + ConfirmStarts()).orders == map[0 := OneLeg(Completed, Some(1))]
    ensures Schedule(START, OneTaken() + BothUpdate() + ConfirmStarts() + [Go(1), Go(3)])
         == At(OneLeg(InTransit, Some(1)), [Row(1, 100, Released)], [Finished, Finished, Finished, Paying(0, [])], OneWon())
  {
    assert Creatable(OneLeg(Published, None)) by { OneLoadCreatable(); }
    UpToConfirmation();
    LateWrites(OneTaken() + BothUpdate() + ConfirmStarts());
  }

  lemma LateWrites(before: seq<Action>)
    requires Schedule(START, before)
          == At(OneLeg(Completed, Some(1)), [Row(1, 100, Held)],
                [Finished, Moving(0, Transport, InTransit), Finished, Paying(0, [1])], OneWon())
    ensures Schedule(START, before + [Go(1), Go(3)])
         == At(OneLeg(InTransit, Some(1)), [Row(1, 100, Released)], [Finished, Finished, Finished, Paying(0, [])], OneWon())
  {
    StaleWritesLast();
    ScheduleSplits(START, before, [Go(1), Go(3)]);
  }

  lemma UpToConfirmation()
    ensures Schedule(START, OneTaken() + BothUpdate() + ConfirmStarts())
         == At(OneLeg(Completed, Some(1)), [Row(1, 100, Held)],
               [Finished, Moving(0, Transport, InTransit), Finished, Paying(0, [1])], OneWon())
  {
    OneIsTaken();
    BothRead();
    Confirms();
    ScheduleSplits(START, OneTaken(), BothUpdate());
    ScheduleSplits(START, OneTaken() + BothUpdate(), ConfirmStarts());
  }

  lemma BothRead()
    ensures Schedule(At(OneLeg(Accepted, Some(1)), [Row(1, 100, Held)], [Finished], OneWon()),
                     BothUpdate())
         == At(OneLeg(Delivered, Some(1)), [Row(1, 100, Held)],
               [Finished, Moving(0, Transport, InTransit), Finished], OneWon())
  {
    var stale, quick, held := Moving(0, Transport, InTransit), Moving(0, Transport, Delivered), [Row(1, 100, Held)];
    var states := [At(OneLeg(Accepted, Some(1)), held, [Finished], OneWon()),
                   At(OneLeg(Accepted, Some(1)), held, [Finished, stale], OneWon()),
                   At(OneLeg(Accepted, Some(1)), held, [Finished, stale, quick], OneWon()),
                   At(OneLeg(Delivered, Some(1)), held, [Finished, stale, Finished], OneWon())];
    Reads(states[0], stale);
    Reads(states[1], quick);
    MoveOne(held, states[2].procs, OneWon(), 2, Accepted, Delivered);
    Chain(states, BothUpdate());
  }

  lemma Confirms()
    ensures Schedule(At(OneLeg(Delivered, Some(1)), [Row(1, 100, Held)],
                        [Finished, Moving(0, Transport, InTransit), Finished], OneWon()),
                     ConfirmStarts())
         == At(OneLeg(Completed, Some(1)), [Row(1, 100, Held)],
               [Finished, Moving(0, Transport, InTransit), Finished, Paying(0, [1])], OneWon())
  {
    var stale, held := Moving(0, Transport, InTransit), [Row(1, 100, Held)];
    var states := [At(OneLeg(Delivered, Some(1)), held, [Finished, stale, Finished], OneWon()),
                   At(OneLeg(Delivered, Some(1)), held, [Finished, stale, Finished, Completing(0, [1])], OneWon()),
                   At(OneLeg(Completed, Some(1)), held, [Finished, stale, Finished, Paying(0, [1])], OneWon())];
    DeliveredIsReady();
    Reads(states[0], Completing(0, [1]));
    CompleteOne(held, states[1].procs, OneWon(), 3, Delivered, [1]);
    Chain(states, ConfirmStarts());
  }

  lemma StaleWritesLast()
    ensures Schedule(At(OneLeg(Completed, Some(1)), [Row(1, 100, Held)],
                        [Finished, Moving(0, Transport, InTransit), Finished, Paying(0, [1])], OneWon()),
                     [Go(1), Go(3)])
         == At(OneLeg(InTransit, Some(1)), [Row(1, 100, Released)], [Finished, Finished, Finished, Paying(0, [])], OneWon())
  {
    var stale, held, paid := Moving(0, Transport, InTransit), [Row(1, 100, Held)], [Row(1, 100, Released)];
    var F := Finished;
    var states := [At(OneLeg(Completed, Some(1)), held, [F, stale, F, Paying(0, [1])], OneWon()),
                   At(OneLeg(InTransit, Some(1)), held, [F, F, F, Paying(0, [1])], OneWon()),
                   At(OneLeg(InTransit, Some(1)), paid, [F, F, F, Paying(0, [])], OneWon())];
    MoveOne(held, states[0].procs, OneWon(), 1, Completed, InTransit);
    PayOne(OneLeg(InTransit, Some(1)), states[1].procs, OneWon(), 3);
    Chain(states, [Go(1), Go(3)]);
  }

  lemma DeliveredIsReady()
    ensures OneLeg(Delivered, Some(1)).Ready()
    ensures forall q: UserId :: q in [1] <==> q in OneLeg(Delivered, Some(1)).Executors()
  {
    var o := OneLeg(Delivered, Some(1));
    o.ReadyMeansEveryLegDone();
    assert o.legs[Transport].executor == Some(1);
  }

  // ---- a cancellation against a roll-back ----------------------------------------------------

  /** An accept whose wallet call fails rolls back after the order was cancelled meanwhile: the
      cancelled leg is published again, free for anybody to claim. */
  lemma RollbackRepublishesCancelledLeg()
    ensures Creatable(OneLeg(Published, None))
    ensures Schedule(START, OneClaimed() + CancelStarts()).orders == map[0 := OneLeg(Cancelled, Some(1))]
    ensures Schedule(START, OneClaimed() + CancelStarts() + [GoDropped(0), Go(0)])
         == At(OneLeg(Published, None), [], [Finished, Refunding(0)], OneWon() + [Undone(0, 0, Transport)])
  {
    OneIsClaimed();
    CancelsMeanwhile();
    RollsBack();
    ScheduleSplits(START, OneClaimed(), CancelStarts());
    ScheduleSplits(START, OneClaimed() + CancelStarts(), [GoDropped(0), Go(0)]);
    OneLoadCreatable();
  }

  function CancelStarts(): seq<Action> {
    [Begin(Cancelling(0)), Go(1)]
  }

  lemma CancelsMeanwhile()
    ensures Schedule(At(OneLeg(Accepted, Some(1)), [], [Opening(0, Transport, 1, 7, 100, Payme)], OneWon()),
                     CancelStarts())
         == At(OneLeg(Cancelled, Some(1)), [], [Opening(0, Transport, 1, 7, 100, Payme), Refunding(0)], OneWon())
  {
    var o := Opening(0, Transport, 1, 7, 100, Payme);
    var states := [At(OneLeg(Accepted, Some(1)), [], [o], OneWon()),
                   At(OneLeg(Accepted, Some(1)), [], [o, Cancelling(0)], OneWon()),
                   At(OneLeg(Cancelled, Some(1)), [], [o, Refunding(0)], OneWon())];
    Reads(states[0], Cancelling(0));
    CancelOne([], states[1].procs, OneWon(), 1, Accepted);
    Chain(states, CancelStarts());
  }

  lemma RollsBack()
    ensures Schedule(At(OneLeg(Cancelled, Some(1)), [], [Opening(0, Transport, 1, 7, 100, Payme), Refunding(0)], OneWon()),
                     [GoDropped(0), Go(0)])
         == At(OneLeg(Published, None), [], [Finished, Refunding(0)], OneWon() + [Undone(0, 0, Transport)])
  {
    var o, undo := Opening(0, Transport, 1, 7, 100, Payme), RollingBack(0, Transport, 1);
    var states := [At(OneLeg(Cancelled, Some(1)), [], [o, Refunding(0)], OneWon()),
                   At(OneLeg(Cancelled, Some(1)), [], [undo, Refunding(0)], OneWon()),
                   At(OneLeg(Published, None), [], [Finished, Refunding(0)], OneWon() + [Undone(0, 0, Transport)])];
    assert Next(states[0], GoDropped(0)) == states[1];
    assert ReleaseClaim(states[1].orders, 0, Transport)[0].legs == OneLeg(Published, None).legs;
    assert Next(states[1], Go(0)) == states[2];
    Chain(states, [GoDropped(0), Go(0)]);
  }

  // ---- a wallet slower than its caller ----------------------------------------------------------

  /** The wallet inserts after the accept has given up and rolled back: the money is held for nobody's
      work, the leg free again. */
  lemma LateInsertStrandsARow()
    ensures Creatable(OneLeg(Published, None))
    ensures Schedule(START, OneClaimed() + [GiveUp(0, 0), Go(0), Go(1)])
         == At(OneLeg(Published, None), [Row(1, 100, Held)], [Finished, Finished], OneWon() + [Undone(0, 0, Transport)])
  {
    OneIsClaimed();
    GivesUp();
    ScheduleSplits(START, OneClaimed(), [GiveUp(0, 0), Go(0), Go(1)]);
    OneLoadCreatable();
  }

  lemma GivesUp()
    ensures Schedule(At(OneLeg(Accepted, Some(1)), [], [Opening(0, Transport, 1, 7, 100, Payme)], OneWon()),
                     [GiveUp(0, 0), Go(0), Go(1)])
         == At(OneLeg(Published, None), [Row(1, 100, Held)], [Finished, Finished], OneWon() + [Undone(0, 0, Transport)])
  {
    var undo, orphan := RollingBack(0, Transport, 1), Orphan(0, 1, Row(1, 100, Held));
    var log := OneWon() + [Undone(0, 0, Transport)];
    var states := [At(OneLeg(Accepted, Some(1)), [], [Opening(0, Transport, 1, 7, 100, Payme)], OneWon()),
                   At(OneLeg(Accepted, Some(1)), [], [undo, orphan], OneWon()),
                   At(OneLeg(Published, None), [], [Finished, orphan], log),
                   At(OneLeg(Published, None), [Row(1, 100, Held)], [Finished, Finished], log)];
    FreeCommission(100);
    assert Next(states[0], GiveUp(0, 0)) == states[1];
    assert ReleaseClaim(states[1].orders, 0, Transport)[0].legs == OneLeg(Published, None).legs;
    assert Next(states[1], Go(0)) == states[2];
    assert [] + [Row(1, 100, Held)] == [Row(1, 100, Held)];
    Chain(states, [GiveUp(0, 0), Go(0), Go(1)]);
  }

  // ---- a cancellation against a confirmation ---------------------------------------------------

  function Both(transport: Status, carrier: Option<UserId>, labor: Status): Order {
    TwoLegs(transport, carrier, labor, if labor == Published then None else Some(2))
  }

  function TwoRows(first: TxStatus, second: TxStatus): Rows {
    [Row(1, 100, first), Row(2, 50, second)]
  }

  function TwoWon(): seq<Event> {
    [Won(0, 0, Transport, 1), Won(1, 0, Labor, 2)]
  }

  function TransportTaken(): seq<Action> {
    [Store(0, Both(Published, None, Published)), Begin(OneClaiming()), Go(0)] + [Go(0), Go(0)]
  }

  function LaborTaken(): seq<Action> {
    [Begin(Claiming(0, Labor, 2, 7, 50, Payme)), Go(1)] + [Go(1), Go(1)]
  }

  lemma TransportIsTaken()
    ensures Schedule(START, TransportTaken())
         == At(Both(Accepted, Some(1), Published), [Row(1, 100, Held)], [Finished], OneWon())
  {
    var first := [Store(0, Both(Published, None, Published)), Begin(OneClaiming()), Go(0)];
    var opening := Opening(0, Transport, 1, 7, 100, Payme);
    var states := [START,
                   At(Both(Published, None, Published), [], [], []),
                   At(Both(Published, None, Published), [], [OneClaiming()], []),
                   At(Both(Accepted, Some(1), Published), [], [opening], OneWon())];
    TwoStored();
    Reads(states[1], OneClaiming());
    assert Claim(states[2].orders, 0, Transport, 1)[0].legs == Both(Accepted, Some(1), Published).legs;
    assert [] + OneWon() == OneWon();
    Chain(states, first);
    Escrowed(Both(Accepted, Some(1), Published), [], [], Transport, 1, 100, OneWon());
    assert [] + [opening] == [opening];
    ScheduleSplits(START, first, [Go(0), Go(0)]);
  }

  lemma TwoStored()
    ensures Next(START, Store(0, Both(Published, None, Published))) == At(Both(Published, None, Published), [], [], [])
  {
    assert Unclaimed(Both(Published, None, Published));
  }

  lemma LaborIsTaken()
    ensures Schedule(At(Both(Accepted, Some(1), Published), [Row(1, 100, Held)], [Finished], OneWon()), LaborTaken())
         == At(Both(Accepted, Some(1), Accepted), TwoRows(Held, Held), [Finished, Finished], TwoWon())
  {
    var claiming, opening := Claiming(0, Labor, 2, 7, 50, Payme), Opening(0, Labor, 2, 7, 50, Payme);
    var one := [Row(1, 100, Held)];
    var states := [At(Both(Accepted, Some(1), Published), one, [Finished], OneWon()),
                   At(Both(Accepted, Some(1), Published), one, [Finished, claiming], OneWon()),
                   At(Both(Accepted, Some(1), Accepted), one, [Finished, opening], TwoWon())];
    Reads(states[0], claiming);
    assert Claim(states[1].orders, 0, Labor, 2)[0].legs == Both(Accepted, Some(1), Accepted).legs;
    assert OneWon() + [Won(1, 0, Labor, 2)] == TwoWon();
    Chain(states, [Begin(claiming), Go(1)]);
    Escrowed(Both(Accepted, Some(1), Accepted), one, [Finished], Labor, 2, 50, TwoWon());
    assert [Finished] + [opening] == [Finished, opening] && one + [Row(2, 50, Held)] == TwoRows(Held, Held);
    ScheduleSplits(states[0], [Begin(claiming), Go(1)], [Go(1), Go(1)]);
  }

  lemma BothAreTaken()
    ensures Schedule(START, TransportTaken() + LaborTaken())
         == At(Both(Accepted, Some(1), Accepted), TwoRows(Held, Held), [Finished, Finished], TwoWon())
  {
    TransportIsTaken();
    LaborIsTaken();
    ScheduleSplits(START, TransportTaken(), LaborTaken());
  }

  function BothMove(): seq<Action> {
    [Begin(Cancelling(0)), Begin(Moving(0, Transport, Delivered)), Begin(Moving(0, Labor, Delivered))] + [Go(3), Go(4)]
  }

  function ConfirmPays(): seq<Action> {
    [Begin(Completing(0, [1, 2])), Go(5), Go(5)]
  }

  /** A cancellation that read `accepted` lands in the middle of a confirmation: one executor of the
      order is paid, the other's money goes back to the client. */
  lemma CancelRacesConfirm()
    ensures Creatable(Both(Published, None, Published))
    ensures Schedule(START, TransportTaken() + LaborTaken() + BothMove() + ConfirmPays() + [Go(2), Go(2)])
         == At(Both(Cancelled, Some(1), Cancelled), TwoRows(Released, Refunded),
               [Finished, Finished, Finished, Finished, Finished, Paying(0, [2])], TwoWon())
  {
    BothAreTaken();
    CancelReadsEarly();
    ConfirmPaysOne();
    CancelWritesLate();
    var taken := TransportTaken() + LaborTaken();
    ScheduleSplits(START, taken, BothMove());
    ScheduleSplits(START, taken + BothMove(), ConfirmPays());
    ScheduleSplits(START, taken + BothMove() + ConfirmPays(), [Go(2), Go(2)]);
    TwoLoadsCreatable();
  }

  lemma CancelReadsEarly()
    ensures Schedule(At(Both(Accepted, Some(1), Accepted), TwoRows(Held, Held), [Finished, Finished], TwoWon()), BothMove())
         == At(Both(Delivered, Some(1), Delivered), TwoRows(Held, Held),
               [Finished, Finished, Cancelling(0), Finished, Finished], TwoWon())
  {
    AllRead();
    BothMoved();
    ScheduleSplits(At(Both(Accepted, Some(1), Accepted), TwoRows(Held, Held), [Finished, Finished], TwoWon()),
                   [Begin(Cancelling(0)), Begin(Moving(0, Transport, Delivered)), Begin(Moving(0, Labor, Delivered))],
                   [Go(3), Go(4)]);
  }

  lemma AllRead()
    ensures Schedule(At(Both(Accepted, Some(1), Accepted), TwoRows(Held, Held), [Finished, Finished], TwoWon()),
                     [Begin(Cancelling(0)), Begin(Moving(0, Transport, Delivered)), Begin(Moving(0, Labor, Delivered))])
         == At(Both(Accepted, Some(1), Accepted), TwoRows(Held, Held),
               [Finished, Finished, Cancelling(0), Moving(0, Transport, Delivered), Moving(0, Labor, Delivered)], TwoWon())
  {
    var c, m1, m2, F := Cancelling(0), Moving(0, Transport, Delivered), Moving(0, Labor, Delivered), Finished;
    var o, held := Both(Accepted, Some(1), Accepted), TwoRows(Held, Held);
    var states := [At(o, held, [F, F], TwoWon()),
                   At(o, held, [F, F, c], TwoWon()),
                   At(o, held, [F, F, c, m1], TwoWon()),
                   At(o, held, [F, F, c, m1, m2], TwoWon())];
    Reads(states[0], c);
    Reads(states[1], m1);
    Reads(states[2], m2);
    Chain(states, [Begin(c), Begin(m1), Begin(m2)]);
  }

  lemma BothMoved()
    ensures Schedule(At(Both(Accepted, Some(1), Accepted), TwoRows(Held, Held),
                        [Finished, Finished, Cancelling(0), Moving(0, Transport, Delivered), Moving(0, Labor, Delivered)],
                        TwoWon()),
                     [Go(3), Go(4)])
         == At(Both(Delivered, Some(1), Delivered), TwoRows(Held, Held),
               [Finished, Finished, Cancelling(0), Finished, Finished], TwoWon())
  {
    var c, m1, m2, F := Cancelling(0), Moving(0, Transport, Delivered), Moving(0, Labor, Delivered), Finished;
    var states := [At(Both(Accepted, Some(1), Accepted), TwoRows(Held, Held), [F, F, c, m1, m2], TwoWon()),
                   At(Both(Delivered, Some(1), Accepted), TwoRows(Held, Held), [F, F, c, F, m2], TwoWon()),
                   At(Both(Delivered, Some(1), Delivered), TwoRows(Held, Held), [F, F, c, F, F], TwoWon())];
    assert SetStatus(states[0].orders, 0, Transport, Delivered)[0].legs == Both(Delivered, Some(1), Accepted).legs;
    assert SetStatus(states[1].orders, 0, Labor, Delivered)[0].legs == Both(Delivered, Some(1), Delivered).legs;
    Chain(states, [Go(3), Go(4)]);
  }

  lemma SetBoth(rows: Rows, procs: seq<Proc>, t: Tid, from: Status, to: Status)
    requires t < |procs| && from != Published
    requires (procs[t] == Cancelling(0) && to == Cancelled) || (procs[t] == Completing(0, [1, 2]) && to == Completed)
    ensures Next(At(Both(from, Some(1), from), rows, procs, TwoWon()), Go(t))
         == At(Both(to, Some(1), to), rows,
               procs[t := if to == Cancelled then Refunding(0) else Paying(0, [1, 2])], TwoWon())
  {
    var s := At(Both(from, Some(1), from), rows, procs, TwoWon());
    assert SetAll(s.orders, 0, to)[0].legs == Both(to, Some(1), to).legs;
  }

  lemma ConfirmPaysOne()
    ensures Schedule(At(Both(Delivered, Some(1), Delivered), TwoRows(Held, Held),
                        [Finished, Finished, Cancelling(0), Finished, Finished], TwoWon()), ConfirmPays())
         == At(Both(Completed, Some(1), Completed), TwoRows(Released, Held),
               [Finished, Finished, Cancelling(0), Finished, Finished, Paying(0, [2])], TwoWon())
  {
    var F, c, held := Finished, Cancelling(0), TwoRows(Held, Held);
    var states := [At(Both(Delivered, Some(1), Delivered), held, [F, F, c, F, F], TwoWon()),
                   At(Both(Delivered, Some(1), Delivered), held, [F, F, c, F, F, Completing(0, [1, 2])], TwoWon()),
                   At(Both(Completed, Some(1), Completed), held, [F, F, c, F, F, Paying(0, [1, 2])], TwoWon()),
                   At(Both(Completed, Some(1), Completed), TwoRows(Released, Held), [F, F, c, F, F, Paying(0, [2])],
                      TwoWon())];
    BothDeliveredIsReady();
    Reads(states[0], Completing(0, [1, 2]));
    SetBoth(held, states[1].procs, 5, Delivered, Completed);
    PayFirst(states[2].procs, 5);
    Chain(states, ConfirmPays());
  }

  lemma CancelWritesLate()
    ensures Schedule(At(Both(Completed, Some(1), Completed), TwoRows(Released, Held),
                        [Finished, Finished, Cancelling(0), Finished, Finished, Paying(0, [2])], TwoWon()), [Go(2), Go(2)])
         == At(Both(Cancelled, Some(1), Cancelled), TwoRows(Released, Refunded),
               [Finished, Finished, Finished, Finished, Finished, Paying(0, [2])], TwoWon())
  {
    var F, p, mixed := Finished, Paying(0, [2]), TwoRows(Released, Held);
    var states := [At(Both(Completed, Some(1), Completed), mixed, [F, F, Cancelling(0), F, F, p], TwoWon()),
                   At(Both(Cancelled, Some(1), Cancelled), mixed, [F, F, Refunding(0), F, F, p], TwoWon()),
                   At(Both(Cancelled, Some(1), Cancelled), TwoRows(Released, Refunded), [F, F, F, F, F, p], TwoWon())];
    SetBoth(mixed, states[0].procs, 2, Completed, Cancelled);
    RefundSecond(states[1].procs, 2);
    Chain(states, [Go(2), Go(2)]);
  }

  lemma BothDeliveredIsReady()
    ensures Both(Delivered, Some(1), Delivered).Ready()
    ensures forall q: UserId :: q in [1, 2] <==> q in Both(Delivered, Some(1), Delivered).Executors()
  {
    var o := Both(Delivered, Some(1), Delivered);
    o.ReadyMeansEveryLegDone();
    assert o.legs[Transport].executor == Some(1) && o.legs[Labor].executor == Some(2);
  }

  lemma PayFirst(procs: seq<Proc>, t: Tid)
    requires t < |procs| && procs[t] == Paying(0, [1, 2])
    ensures Next(At(Both(Completed, Some(1), Completed), TwoRows(Held, Held), procs, TwoWon()), Go(t))
         == At(Both(Completed, Some(1), Completed), TwoRows(Released, Held), procs[t := Paying(0, [2])], TwoWon())
  {
    assert [1, 2][1..] == [2];
    assert ReleaseTo(TwoRows(Held, Held), 0, {1}) == TwoRows(Released, Held);
  }

  lemma RefundSecond(procs: seq<Proc>, t: Tid)
    requires t < |procs| && procs[t] == Refunding(0)
    ensures Next(At(Both(Cancelled, Some(1), Cancelled), TwoRows(Released, Held), procs, TwoWon()), Go(t))
         == At(Both(Cancelled, Some(1), Cancelled), TwoRows(Released, Refunded), procs[t := Finished], TwoWon())
  {
    assert Refund(TwoRows(Released, Held), 0) == TwoRows(Released, Refunded);
  }
}
