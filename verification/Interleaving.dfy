/** The same handlers with every SQL statement its own atomic step: any number of them in flight at
    once, each holding what it read earlier. Only what the conditional UPDATEs really guarantee
    survives (internal/orders/store.go, internal/orders/handler.go). */
module Interleaving {
  import opened Models
  import opened GoInt
  import opened Legs
  import opened Orders
  import opened Ledger
  import opened Protocol

  type Tid = nat

  /** A handler in flight, about to run its next statement. */
  datatype Proc =
    // accept
    | Claiming(id: OrderId, leg: Leg, executor: UserId, payer: UserId, price: int64, paymentMethod: PaymentMethod)
    | Opening(id: OrderId, leg: Leg, executor: UserId, payer: UserId, price: int64, paymentMethod: PaymentMethod)
    | Inserting(id: OrderId, leg: Leg, executor: UserId, row: Tx)
    | RollingBack(id: OrderId, leg: Leg, executor: UserId)
    // the wallet's half of an accept's call, outliving the caller
    | Orphan(id: OrderId, executor: UserId, row: Tx)
    // status
    | Moving(id: OrderId, leg: Leg, status: Status)
    // cancel
    | Cancelling(id: OrderId)
    | Refunding(id: OrderId)
    // confirm
    | Completing(id: OrderId, owed: seq<UserId>)
    | Paying(id: OrderId, owed: seq<UserId>)
    | Finished

  datatype Event =
    | Won(tid: Tid, id: OrderId, leg: Leg, executor: UserId)
    | Undone(tid: Tid, id: OrderId, leg: Leg)

  datatype Sys = Sys(orders: Table, ledger: Rows, procs: seq<Proc>, log: seq<Event>)

  datatype Action =
    | Store(id: OrderId, order: Order)
    | Begin(proc: Proc)
    | Advance(tid: Tid, call: WalletCall)
    | GiveUp(tid: Tid, pct: int64)

  /** Nothing of the order is claimed yet: so it is with whatever the create transaction commits. */
  ghost predicate Unclaimed(o: Order) {
    && o.Sum(Price) == o.estimate
    && forall l :: l in o.legs ==> o.legs[l].status == Published && o.legs[l].executor.None?
  }

  /** What a handler must have read to be where it is, against the tables at the time of reading. */
  ghost predicate JustRead(t: Table, p: Proc) {
    match p
    case Claiming(id, leg, _, payer, price, paymentMethod) =>
      && HasLeg(t, id, leg)
      && payer == t[id].client && price == t[id].legs[leg].price && paymentMethod == t[id].paymentMethod
    case Moving(id, leg, status) =>
      HasLeg(t, id, leg) && t[id].legs[leg].executor.Some? && CanTransition(t[id].legs[leg].status, status)
    case Cancelling(id) => id in t && t[id].MayCancel()
    case Completing(id, owed) => id in t && t[id].Ready() && forall q :: q in owed <==> q in t[id].Executors()
    case _ => false
  }

  ghost function Next(s: Sys, a: Action): Sys {
    match a
    case Store(id, o) => if id !in s.orders && Unclaimed(o) then s.(orders := s.orders[id := o]) else s
    case Begin(p) => if JustRead(s.orders, p) then s.(procs := s.procs + [p]) else s
    case Advance(t, call) => if t < |s.procs| then RunStatement(s, t, call) else s
    case GiveUp(t, pct) => if t < |s.procs| then Abandoned(s, t, pct) else s
  }

  /** The caller times out and will roll back; the wallet's handler, unless it has an error or a row to
      answer with, is still to insert, whenever it gets to it. */
  ghost function Abandoned(s: Sys, t: Tid, pct: int64): Sys
    requires t < |s.procs|
  {
    match s.procs[t]
    case Opening(id, leg, executor, payer, price, paymentMethod) =>
      var row := NewRow(id, payer, executor, price, pct);
      if price >= 0 && ValidMethod(paymentMethod) && Storable(row) then
        s.(procs := s.procs[t := RollingBack(id, leg, executor)] + [Orphan(id, executor, row)])
      else s
    case Inserting(id, leg, executor, row) =>
      s.(procs := s.procs[t := RollingBack(id, leg, executor)] + [Orphan(id, executor, row)])
    case _ => s
  }

  /** Thread t runs its next statement. */
  ghost function RunStatement(s: Sys, t: Tid, call: WalletCall): Sys
    requires t < |s.procs|
  {
    match s.procs[t]
    case Claiming(id, leg, executor, payer, price, paymentMethod) =>
      if Claimable(s.orders, id, leg) then
        Sys(Claim(s.orders, id, leg, executor), s.ledger,
            s.procs[t := Opening(id, leg, executor, payer, price, paymentMethod)],
            s.log + [Won(t, id, leg, executor)])
      else s.(procs := s.procs[t := Finished])
    case Opening(id, leg, executor, payer, price, paymentMethod) =>
      s.(procs := s.procs[t := AfterLookup(s.ledger, id, leg, executor, payer, price, paymentMethod, call)])
    case Inserting(id, leg, executor, row) =>
      if call.reply == Dropped then s.(procs := s.procs[t := RollingBack(id, leg, executor)])
      else s.(ledger := Insert(s.ledger, row),
              procs := s.procs[t := if call.reply == Lost then RollingBack(id, leg, executor) else Finished])
    case RollingBack(id, leg, executor) =>
      Sys(ReleaseClaim(s.orders, id, leg), s.ledger, s.procs[t := Finished], s.log + [Undone(t, id, leg)])
    case Orphan(_, _, row) =>
      s.(ledger := if call.reply == Dropped then s.ledger else Insert(s.ledger, row), procs := s.procs[t := Finished])
    case Moving(id, leg, status) =>
      s.(orders := SetStatus(s.orders, id, leg, status), procs := s.procs[t := Finished])
    case Cancelling(id) =>
      s.(orders := SetAll(s.orders, id, Cancelled), procs := s.procs[t := Refunding(id)])
    case Refunding(id) =>
      s.(ledger := if call.reply == Dropped then s.ledger else Refund(s.ledger, id), procs := s.procs[t := Finished])
    case Completing(id, owed) =>
      s.(orders := SetAll(s.orders, id, Completed), procs := s.procs[t := Paying(id, owed)])
    case Paying(id, owed) =>
      if owed == [] then s.(procs := s.procs[t := Finished])
      else s.(ledger := if call.reply == Dropped then s.ledger else ReleaseTo(s.ledger, id, {owed[0]}),
              procs := s.procs[t := Paying(id, owed[1..])])
    case Finished => s
  }

  /** The wallet's first half: validate, look for the row, charge, compute the commission. */
  function AfterLookup(rows: Rows, id: OrderId, leg: Leg, executor: UserId, payer: UserId, price: int64,
                       paymentMethod: PaymentMethod, call: WalletCall): Proc
  {
    if call.reply == Dropped || price < 0 || !ValidMethod(paymentMethod) then RollingBack(id, leg, executor)
    else if Existing(rows, id, executor).Some? then
      if call.reply == Lost then RollingBack(id, leg, executor) else Finished
    else if call.charge != Charged || !Storable(NewRow(id, payer, executor, price, call.pct)) then
      RollingBack(id, leg, executor)
    else Inserting(id, leg, executor, NewRow(id, payer, executor, price, call.pct))
  }

  ghost function Schedule(s: Sys, actions: seq<Action>): Sys {
    if actions == [] then s
    else Next(Schedule(s, actions[..|actions| - 1]), actions[|actions| - 1])
  }

  const START: Sys := Sys(map[], [], [], [])

  /** Running a schedule is running its actions one after the other. */
  lemma {:induction false} Chain(states: seq<Sys>, actions: seq<Action>)
    requires |states| == |actions| + 1
    requires forall i :: 0 <= i < |actions| ==> Next(states[i], actions[i]) == states[i + 1]
    ensures Schedule(states[0], actions) == states[|actions|]
  {
    if actions != [] {
      var n := |actions| - 1;
      Chain(states[..n + 1], actions[..n]);
    }
  }

  lemma ScheduleOneMore(s: Sys, actions: seq<Action>, a: Action)
    ensures Schedule(s, actions + [a]) == Next(Schedule(s, actions), a)
  {
    assert (actions + [a])[..|actions|] == actions;
  }

  lemma {:induction false} ScheduleSplits(s: Sys, first: seq<Action>, rest: seq<Action>)
    ensures Schedule(s, first + rest) == Schedule(Schedule(s, first), rest)
  {
    if rest == [] {
      assert first + rest == first;
    } else {
      var before, a := rest[..|rest| - 1], rest[|rest| - 1];
      ScheduleSplits(s, first, before);
      ScheduleOneMore(s, first + before, a);
      assert first + rest == first + before + [a];
    }
  }

  // ---- the history of one leg --------------------------------------------------------

  predicate IsWin(e: Event, id: OrderId, leg: Leg) {
    e.Won? && e.id == id && e.leg == leg
  }

  predicate IsUndo(e: Event, id: OrderId, leg: Leg) {
    e.Undone? && e.id == id && e.leg == leg
  }

  ghost function Wins(log: seq<Event>, id: OrderId, leg: Leg): nat {
    if log == [] then 0
    else Wins(log[..|log| - 1], id, leg) + if IsWin(log[|log| - 1], id, leg) then 1 else 0
  }

  ghost function Undos(log: seq<Event>, id: OrderId, leg: Leg): nat {
    if log == [] then 0
    else Undos(log[..|log| - 1], id, leg) + if IsUndo(log[|log| - 1], id, leg) then 1 else 0
  }

  /** The last successful claim of a leg. */
  ghost function LastWin(log: seq<Event>, id: OrderId, leg: Leg): (e: Option<Event>)
    ensures e.Some? ==> IsWin(e.value, id, leg)
  {
    if log == [] then None
    else if IsWin(log[|log| - 1], id, leg) then Some(log[|log| - 1])
    else LastWin(log[..|log| - 1], id, leg)
  }

  lemma LogGrows(log: seq<Event>, e: Event, id: OrderId, leg: Leg)
    ensures Wins(log + [e], id, leg) == Wins(log, id, leg) + if IsWin(e, id, leg) then 1 else 0
    ensures Undos(log + [e], id, leg) == Undos(log, id, leg) + if IsUndo(e, id, leg) then 1 else 0
    ensures LastWin(log + [e], id, leg) == if IsWin(e, id, leg) then Some(e) else LastWin(log, id, leg)
  {
    assert (log + [e])[..|log|] == log;
  }

  // ---- claims -------------------------------------------------------------------------

  /** The executor column of a leg, told from its history: set exactly while there is one more
      successful claim than roll-backs, and then to the last successful claimant. */
  ghost predicate LegMatchesLog(executor: Option<UserId>, log: seq<Event>, id: OrderId, leg: Leg) {
    var net := Wins(log, id, leg) - Undos(log, id, leg);
    match executor
    case None => net == 0
    case Some(p) => net == 1 && LastWin(log, id, leg).Some? && LastWin(log, id, leg).value.executor == p
  }

  ghost function ExecutorOf(t: Table, id: OrderId, leg: Leg): Option<UserId> {
    if HasLeg(t, id, leg) then t[id].legs[leg].executor else None
  }

  /** An accept between its claim and its outcome. */
  predicate IsHolder(p: Proc) {
    p.Opening? || p.Inserting? || p.RollingBack?
  }

  predicate Holds(p: Proc, id: OrderId, leg: Leg) {
    IsHolder(p) && p.id == id && p.leg == leg
  }

  ghost predicate ProcMatchesLog(t: Table, log: seq<Event>, tid: Tid, p: Proc) {
    IsHolder(p) ==>
      && ExecutorOf(t, p.id, p.leg) == Some(p.executor)
      && LastWin(log, p.id, p.leg) == Some(Won(tid, p.id, p.leg, p.executor))
  }

  ghost predicate ClaimsOk(s: Sys) {
    && (forall id: OrderId, leg: Leg :: LegMatchesLog(ExecutorOf(s.orders, id, leg), s.log, id, leg))
    && (forall t :: 0 <= t < |s.procs| ==> ProcMatchesLog(s.orders, s.log, t, s.procs[t]))
  }

  /** However accepts, cancels, confirms, status updates and roll-backs race: per leg, successful
      claims minus roll-backs is 0 or 1 and the executor is always the last successful claimant. */
  lemma {:induction false} EveryScheduleClaimsSafely(actions: seq<Action>)
    ensures ClaimsOk(Schedule(START, actions))
  {
    if actions != [] {
      EveryScheduleClaimsSafely(actions[..|actions| - 1]);
      NextKeepsClaims(Schedule(START, actions[..|actions| - 1]), actions[|actions| - 1]);
    }
  }

  lemma NextKeepsClaims(s: Sys, a: Action)
    requires ClaimsOk(s)
    ensures ClaimsOk(Next(s, a))
  {
    match a {
      case Store(_, _) => SameExecutorsKeepClaims(s, Next(s, a));
      case Begin(_) => SameExecutorsKeepClaims(s, Next(s, a));
      case GiveUp(t, pct) => if t < |s.procs| { SameExecutorsKeepClaims(s, Abandoned(s, t, pct)); }
      case Advance(t, call) =>
        if t < |s.procs| {
          if s.procs[t].Claiming? {
            WinKeepsClaims(s, t, call);
          } else if s.procs[t].RollingBack? {
            UndoKeepsClaims(s, t, call);
          } else {
            OthersKeepClaims(s, t, call);
          }
        }
    }
  }

  lemma OthersKeepClaims(s: Sys, t: Tid, call: WalletCall)
    requires ClaimsOk(s) && t < |s.procs| && !s.procs[t].Claiming? && !s.procs[t].RollingBack?
    ensures ClaimsOk(RunStatement(s, t, call))
  {
    SameExecutorsKeepClaims(s, RunStatement(s, t, call));
  }

  /** Statements other than a claim and a roll-back touch no executor and start no holding. */
  lemma SameExecutorsKeepClaims(s: Sys, s': Sys)
    requires ClaimsOk(s) && s'.log == s.log
    requires forall id: OrderId, leg: Leg :: ExecutorOf(s'.orders, id, leg) == ExecutorOf(s.orders, id, leg)
    requires |s.procs| <= |s'.procs|
    requires forall t :: 0 <= t < |s'.procs| && IsHolder(s'.procs[t]) ==>
               && t < |s.procs| && Holds(s.procs[t], s'.procs[t].id, s'.procs[t].leg)
               && s.procs[t].executor == s'.procs[t].executor
    ensures ClaimsOk(s')
  {
    forall t | 0 <= t < |s'.procs|
      ensures ProcMatchesLog(s'.orders, s'.log, t, s'.procs[t])
    {
      if IsHolder(s'.procs[t]) {
        assert ProcMatchesLog(s.orders, s.log, t, s.procs[t]);
      }
    }
  }

  lemma WinKeepsClaims(s: Sys, t: Tid, call: WalletCall)
    requires ClaimsOk(s) && t < |s.procs| && s.procs[t].Claiming?
    ensures ClaimsOk(RunStatement(s, t, call))
  {
    var p := s.procs[t];
    if Claimable(s.orders, p.id, p.leg) {
      var e := Won(t, p.id, p.leg, p.executor);
      var orders' := Claim(s.orders, p.id, p.leg, p.executor);
      forall id: OrderId, leg: Leg
        ensures LegMatchesLog(ExecutorOf(orders', id, leg), s.log + [e], id, leg)
      {
        LogGrows(s.log, e, id, leg);
        assert LegMatchesLog(ExecutorOf(s.orders, id, leg), s.log, id, leg);
      }
      var opening := Opening(p.id, p.leg, p.executor, p.payer, p.price, p.paymentMethod);
      var procs' := s.procs[t := opening];
      forall u | 0 <= u < |procs'|
        ensures ProcMatchesLog(orders', s.log + [e], u, procs'[u])
      {
        OthersUnaffectedByWin(s, t, u);
      }
    } else {
      SameExecutorsKeepClaims(s, RunStatement(s, t, call));
    }
  }

  lemma OthersUnaffectedByWin(s: Sys, t: Tid, u: Tid)
    requires ClaimsOk(s) && t < |s.procs| && u < |s.procs| && s.procs[t].Claiming?
    requires Claimable(s.orders, s.procs[t].id, s.procs[t].leg)
    ensures var p := s.procs[t];
            var opening := Opening(p.id, p.leg, p.executor, p.payer, p.price, p.paymentMethod);
            ProcMatchesLog(Claim(s.orders, p.id, p.leg, p.executor), s.log + [Won(t, p.id, p.leg, p.executor)], u,
                           if u == t then opening else s.procs[u])
  {
    var p := s.procs[t];
    var q := if u == t then p else s.procs[u];
    if u == t {
      LogGrows(s.log, Won(t, p.id, p.leg, p.executor), p.id, p.leg);
    } else if IsHolder(q) {
      LogGrows(s.log, Won(t, p.id, p.leg, p.executor), q.id, q.leg);
      assert ProcMatchesLog(s.orders, s.log, u, q);
    }
  }

  lemma UndoKeepsClaims(s: Sys, t: Tid, call: WalletCall)
    requires ClaimsOk(s) && t < |s.procs| && s.procs[t].RollingBack?
    ensures ClaimsOk(RunStatement(s, t, call))
  {
    var p := s.procs[t];
    var s' := RunStatement(s, t, call);
    var e := Undone(t, p.id, p.leg);
    assert ProcMatchesLog(s.orders, s.log, t, p);
    forall id: OrderId, leg: Leg
      ensures LegMatchesLog(ExecutorOf(s'.orders, id, leg), s'.log, id, leg)
    {
      LogGrows(s.log, e, id, leg);
      assert LegMatchesLog(ExecutorOf(s.orders, id, leg), s.log, id, leg);
    }
    forall u | 0 <= u < |s'.procs|
      ensures ProcMatchesLog(s'.orders, s'.log, u, s'.procs[u])
    {
      var q := s'.procs[u];
      if IsHolder(q) {
        LogGrows(s.log, e, q.id, q.leg);
        assert ProcMatchesLog(s.orders, s.log, u, s.procs[u]);
      }
    }
  }

  /** A leg loses its executor only to the roll-back of the very accept that set it. */
  lemma OnlyTheClaimantUndoes(actions: seq<Action>, a: Action, id: OrderId, leg: Leg)
    requires var s := Schedule(START, actions);
             ExecutorOf(s.orders, id, leg).Some?
             && ExecutorOf(Next(s, a).orders, id, leg) != ExecutorOf(s.orders, id, leg)
    ensures var s := Schedule(START, actions);
            && a.Advance? && a.tid < |s.procs|
            && s.procs[a.tid] == RollingBack(id, leg, ExecutorOf(s.orders, id, leg).value)
            && LastWin(s.log, id, leg) == Some(Won(a.tid, id, leg, ExecutorOf(s.orders, id, leg).value))
            && ExecutorOf(Next(s, a).orders, id, leg).None?
  {
    EveryScheduleClaimsSafely(actions);
    var s := Schedule(START, actions);
    OnlyStatementsUnassign(s, a, id, leg);
    assert ProcMatchesLog(s.orders, s.log, a.tid, s.procs[a.tid]);
  }

  lemma OnlyStatementsUnassign(s: Sys, a: Action, id: OrderId, leg: Leg)
    requires ExecutorOf(s.orders, id, leg).Some?
    requires ExecutorOf(Next(s, a).orders, id, leg) != ExecutorOf(s.orders, id, leg)
    ensures a.Advance? && a.tid < |s.procs|
    ensures s.procs[a.tid].RollingBack? && s.procs[a.tid].id == id && s.procs[a.tid].leg == leg
    ensures ExecutorOf(Next(s, a).orders, id, leg).None?
  {
    if a.Advance? && a.tid < |s.procs| {
      StatementUnassigns(s, a.tid, a.call, id, leg);
    }
  }

  lemma StatementUnassigns(s: Sys, t: Tid, call: WalletCall, id: OrderId, leg: Leg)
    requires t < |s.procs| && ExecutorOf(s.orders, id, leg).Some?
    requires ExecutorOf(RunStatement(s, t, call).orders, id, leg) != ExecutorOf(s.orders, id, leg)
    ensures s.procs[t].RollingBack? && s.procs[t].id == id && s.procs[t].leg == leg
    ensures ExecutorOf(RunStatement(s, t, call).orders, id, leg).None?
  {
  }
}
