/** The orders service itself: the store's statements and the five handlers that sequence them and
    the calls to the wallet, with the roll-back (internal/orders/store.go, internal/orders/handler.go). */
module OrdersService {
  import opened Models
  import opened GoInt
  import opened Legs
  import opened Pricing
  import opened Orders
  import opened Ledger
  import opened Protocol

  datatype ClaimResult = Claimed | Taken | NotPublished | NoSuchLeg

  class Service {
    var table: Table
    const wallet: Wallet

    ghost function View(): World
      reads this, wallet
    {
      World(table, wallet.rows)
    }

    constructor (wallet: Wallet)
      ensures this.wallet == wallet && table == map[]
    {
      this.wallet := wallet;
      table := map[];
    }

    // ---- store ----------------------------------------------------------------

    /** The order row, then its legs one by one, in one transaction: all of it or, when a CHECK or a
        column range refuses a row, nothing. */
    method Insert(id: OrderId, client: UserId, request: OrderRequest, total: int64, prices: Prices)
      returns (ok: bool)
      modifies this`table
      ensures ok <==> id !in old(table) && FitsColumns(request) && Insertable(PricedOrder(client, request, total, prices))
      ensures table == if ok then old(table)[id := PricedOrder(client, request, total, prices)] else old(table)
    {
      var paymentMethod := if request.paymentMethod.Some? then request.paymentMethod.value else Payme;
      if id in table || !FitsColumns(request) || !ValidMethod(paymentMethod) || !FitsNumeric(total) {
        return false;
      }
      var before := table;
      table := table[id := Order(client, request.kind, total, paymentMethod, map[])];
      var left := prices.Keys;
      while left != {}
        invariant left <= prices.Keys
        invariant forall l :: l in prices && l !in left ==> FitsNumeric(prices[l])
        invariant table == before[id := Order(client, request.kind, total, paymentMethod,
                                              map l | l in prices && l !in left :: LegRow(Published, None, prices[l]))]
        decreases left
      {
        var leg: Leg :| leg in left;
        if !FitsNumeric(prices[leg]) {
          table := before;
          assert !FitsNumeric(PricedOrder(client, request, total, prices).legs[leg].price);
          return false;
        }
        ghost var stored := table[id].legs;
        left := left - {leg};
        assert (map l | l in prices && l !in left :: LegRow(Published, None, prices[l]))
            == stored[leg := LegRow(Published, None, prices[leg])];
        table := SetLeg(table, id, leg, LegRow(Published, None, prices[leg]));
      }
      assert table[id] == PricedOrder(client, request, total, prices);
      return true;
    }

    method ClaimLeg(id: OrderId, leg: Leg, executor: UserId) returns (r: ClaimResult)
      modifies this`table
      ensures table == Claim(old(table), id, leg, executor)
      ensures r == Claimed <==> Claimable(old(table), id, leg)
      ensures r == NoSuchLeg <==> !HasLeg(old(table), id, leg)
      ensures r == Taken <==> HasLeg(old(table), id, leg) && old(table)[id].legs[leg].executor.Some?
    {
      if id in table && leg in table[id].legs
         && table[id].legs[leg].executor.None? && table[id].legs[leg].status == Published {
        table := SetLeg(table, id, leg, table[id].legs[leg].(executor := Some(executor), status := Accepted));
        return Claimed;
      }
      if !(id in table && leg in table[id].legs) {
        return NoSuchLeg;
      }
      return if table[id].legs[leg].executor.Some? then Taken else NotPublished;
    }

    method ReleaseLegClaim(id: OrderId, leg: Leg)
      modifies this`table
      ensures table == ReleaseClaim(old(table), id, leg)
    {
      if id in table && leg in table[id].legs {
        table := SetLeg(table, id, leg, table[id].legs[leg].(executor := None, status := Published));
      }
    }

    method UpdateLegStatus(id: OrderId, leg: Leg, status: Status) returns (found: bool)
      modifies this`table
      ensures table == SetStatus(old(table), id, leg, status)
      ensures found <==> HasLeg(table, id, leg)
    {
      found := id in table && leg in table[id].legs;
      if found {
        table := SetLeg(table, id, leg, table[id].legs[leg].(status := status));
      }
    }

    /** CompleteAllLegs and Cancel are this UPDATE with one status or the other. */
    method UpdateAllLegs(id: OrderId, status: Status)
      modifies this`table
      ensures table.Keys == old(table).Keys
      ensures forall i :: i in table && i != id ==> table[i] == old(table)[i]
      ensures id in table ==>
                && table[id].(legs := map[]) == old(table)[id].(legs := map[])
                && table[id].legs.Keys == old(table)[id].legs.Keys
                && forall l :: l in table[id].legs ==>
                     table[id].legs[l] == LegRow(status, old(table)[id].legs[l].executor, old(table)[id].legs[l].price)
    {
      table := SetAll(table, id, status);
    }

    /** Those facts pin the new table down. */
    static lemma AllLegsSet(t: Table, t': Table, id: OrderId, status: Status)
      requires t'.Keys == t.Keys && forall i :: i in t' && i != id ==> t'[i] == t[i]
      requires id in t' ==>
                 && t'[id].(legs := map[]) == t[id].(legs := map[])
                 && t'[id].legs.Keys == t[id].legs.Keys
                 && forall l :: l in t'[id].legs ==> t'[id].legs[l] == t[id].legs[l].(status := status)
      ensures t' == SetAll(t, id, status)
    {
      if id in t {
        assert t'[id].legs == SetAll(t, id, status)[id].legs;
        assert t'[id].(legs := map[]).(legs := t'[id].legs) == t'[id];
      }
    }

    // ---- handlers ---------------------------------------------------------------

    method CreateOrder(id: OrderId, client: UserId, tariffs: Tariffs, request: OrderRequest) returns (r: Response)
      modifies this`table
      ensures (View(), r) == DoCreate(old(View()), id, client, tariffs, request)
    {
      var legs := LegsFor(request.kind, request.input.equipment.Some?, request.input.labor.Some?);
      if |legs| == 0 {
        return BadRequest;
      }
      if !request.addressed {
        return BadRequest;
      }
      var breakdown := Estimate(tariffs, request.input);
      var total := Total(tariffs, breakdown);
      if request.shownPrice.Some? && request.shownPrice.value > 0 {
        total := request.shownPrice.value;
      }
      var prices := SplitTotal(breakdown, total, legs);
      var ok := Insert(id, client, request, total, prices);
      return if ok then Created else Internal;
    }

    /** Claim first, then open escrow; a claim that ends with no confirmed money behind it is undone. */
    method AcceptLeg(id: OrderId, leg: Leg, caller: Caller, executor: UserId, licensed: bool, call: WalletCall)
      returns (r: Response)
      modifies this`table, wallet
      ensures (View(), r) == DoAccept(old(View()), id, leg, caller, executor, licensed, call)
    {
      if executor != caller.sub && !caller.admin {
        return Forbidden;
      }
      if id !in table {
        return OrderNotFound;
      }
      var rec := table[id];
      if leg !in rec.legs {
        return LegNotFound;
      }
      if !licensed {
        return LicenceMismatch;
      }
      var claim := ClaimLeg(id, leg, executor);
      match claim
      case Taken => return LegAlreadyTaken;
      case NotPublished => return OrderNotPublished;
      case NoSuchLeg => return LegNotFound;
      case Claimed =>
        var answer := Failed;
        if call.reply != Dropped {
          answer := wallet.OpenEscrow(id, rec.client, executor, rec.legs[leg].price, rec.paymentMethod,
                                      call.charge, call.pct);
          if call.reply == Lost {
            answer := Failed;
          }
        }
        if !answer.Opened? {
          ReleaseLegClaim(id, leg);
          RollbackRestores(old(table), id, leg, executor);
          return if answer.PaymentDeclined? then PaymentRefused else Internal;
        }
        return Ok;
    }

    method UpdateStatusOf(id: OrderId, leg: Leg, caller: Caller, status: Status) returns (r: Response)
      modifies this`table
      ensures (View(), r) == DoUpdate(old(View()), id, leg, caller, status)
    {
      if id !in table {
        return OrderNotFound;
      }
      var rec := table[id];
      if leg !in rec.legs {
        return LegNotFound;
      }
      var row := rec.legs[leg];
      if row.executor.None? || (row.executor.value != caller.sub && !caller.admin) {
        return Forbidden;
      }
      if !CanTransition(row.status, status) {
        return InvalidTransition;
      }
      var found := UpdateLegStatus(id, leg, status);
      return if found then Ok else Internal;
    }

    method CancelOrder(id: OrderId, caller: Caller, refundReached: bool) returns (r: Response)
      modifies this`table, wallet
      ensures (View(), r) == DoCancel(old(View()), id, caller, refundReached)
    {
      if id !in table {
        return OrderNotFound;
      }
      var rec := table[id];
      if rec.client != caller.sub && !caller.admin {
        return Forbidden;
      }
      var legs := rec.LegNames();
      for i := 0 to |legs|
        invariant forall j :: 0 <= j < i ==> Cancellable(rec.legs[legs[j]].status)
      {
        if !Cancellable(rec.legs[legs[i]].status) {
          return NotCancellable;
        }
      }
      UpdateAllLegs(id, Cancelled);
      AllLegsSet(old(table), table, id, Cancelled);
      if refundReached {
        var _ := wallet.RefundOrder(id);
      }
      return Ok;
    }

    method ConfirmCompletion(id: OrderId, caller: Caller, releaseReached: set<UserId>) returns (r: Response)
      modifies this`table, wallet
      ensures (View(), r) == DoConfirm(old(View()), id, caller, releaseReached)
    {
      if id !in table {
        return OrderNotFound;
      }
      var rec := table[id];
      if rec.client != caller.sub && !caller.admin {
        return Forbidden;
      }
      if !IsReadyForClientConfirmation(rec.Statuses()) {
        return NotReady;
      }
      UpdateAllLegs(id, Completed);
      AllLegsSet(old(table), table, id, Completed);
      var owed := Payees(rec);
      ghost var rows, paid: set<UserId> := wallet.rows, {};
      for i := 0 to |owed|
        invariant table == SetAll(old(table), id, Completed)
        invariant forall p :: p in paid <==> p in owed[..i] && p in releaseReached
        invariant wallet.rows == ReleaseTo(rows, id, paid)
      {
        if owed[i] in releaseReached {
          ReleaseTwice(rows, id, paid, {owed[i]});
          paid := paid + {owed[i]};
          var _ := wallet.Release(id, owed[i]);
        }
        assert owed[..i + 1] == owed[..i] + [owed[i]];
      }
      assert owed[..|owed|] == owed;
      PaidAreReached(owed, rec.Executors(), releaseReached, paid);
      return Ok;
    }

    static lemma PaidAreReached(owed: seq<UserId>, executors: set<UserId>, reached: set<UserId>, paid: set<UserId>)
      requires forall p :: p in owed <==> p in executors
      requires forall p :: p in paid <==> p in owed && p in reached
      ensures paid == executors * reached
    {
    }

    /** The distinct executors owed money on an order. */
    method Payees(rec: Order) returns (out: seq<UserId>)
      ensures Distinct(out)
      ensures forall p :: p in out <==> p in rec.Executors()
    {
      var legs := rec.LegNames();
      var seen: set<UserId> := {};
      out := [];
      for i := 0 to |legs|
        invariant forall p :: p in seen <==> p in out
        invariant Distinct(out)
        invariant forall p :: p in out <==> exists j :: 0 <= j < i && rec.legs[legs[j]].executor == Some(p)
      {
        var row := rec.legs[legs[i]];
        if row.executor.Some? && row.executor.value !in seen {
          seen := seen + {row.executor.value};
          out := out + [row.executor.value];
        }
      }
      forall p: UserId
        ensures p in out <==> p in rec.Executors()
      {
        if rec.HeldBy(p) {
          var l :| l in rec.legs && rec.legs[l].executor == Some(p);
          assert l in legs;
        }
      }
    }
  }
}
