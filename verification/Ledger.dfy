/** The escrow ledger: one row per (order, payee), held until it is released to the payee or
    refunded to the payer (internal/wallet/store.go, internal/wallet/handler.go). */
module Ledger {
  import opened Models
  import opened GoInt

  datatype Tx = Tx(
    order: OrderId,
    payer: UserId,
    payee: UserId,
    amount: int,
    commission: int,
    status: TxStatus)

  type Rows = seq<Tx>

  predicate For(t: Tx, order: OrderId, payee: UserId) {
    t.order == order && t.payee == payee
  }

  ghost predicate HasRow(rows: Rows, order: OrderId, payee: UserId) {
    exists i :: 0 <= i < |rows| && For(rows[i], order, payee)
  }

  /** The UNIQUE (order_id, payee_id) constraint, here a consequence of how rows come to be. */
  ghost predicate Unique(rows: Rows) {
    forall i, j :: 0 <= i < j < |rows| ==> !For(rows[j], rows[i].order, rows[i].payee)
  }

  // ---- the four statements ------------------------------------------------

  function Existing(rows: Rows, order: OrderId, payee: UserId): (r: Option<Tx>)
    ensures r.Some? <==> HasRow(rows, order, payee)
    ensures r.Some? ==> r.value in rows && For(r.value, order, payee)
  {
    if rows == [] then None
    else if For(rows[|rows| - 1], order, payee) then Some(rows[|rows| - 1])
    else
      var r := Existing(rows[..|rows| - 1], order, payee);
      assert forall i :: 0 <= i < |rows| - 1 ==> rows[..|rows| - 1][i] == rows[i];
      r
  }

  /** INSERT ... ON CONFLICT (order_id, payee_id) DO NOTHING. */
  function Insert(rows: Rows, t: Tx): Rows {
    if Existing(rows, t.order, t.payee).Some? then rows else rows + [t]
  }

  lemma OnlyOneMoreRow(rows: Rows, t: Tx)
    ensures forall o, p :: HasRow(rows + [t], o, p) ==> HasRow(rows, o, p) || For(t, o, p)
  {
    forall o, p | HasRow(rows + [t], o, p)
      ensures HasRow(rows, o, p) || For(t, o, p)
    {
      var i :| 0 <= i < |rows + [t]| && For((rows + [t])[i], o, p);
      if i < |rows| {
        assert For(rows[i], o, p);
      }
    }
  }

  function Settle(t: Tx, hit: bool, to: TxStatus): Tx {
    if hit && t.status == Held then t.(status := to) else t
  }

  /** UPDATE ... SET status = 'released' for some payees of an order, each still held. */
  function ReleaseTo(rows: Rows, order: OrderId, payees: set<UserId>): (r: Rows)
    ensures |r| == |rows|
    ensures forall i :: 0 <= i < |rows| ==>
              r[i] == Settle(rows[i], rows[i].order == order && rows[i].payee in payees, Released)
  {
    seq(|rows|, i requires 0 <= i < |rows| =>
          Settle(rows[i], rows[i].order == order && rows[i].payee in payees, Released))
  }

  lemma ReleaseTwice(rows: Rows, id: OrderId, a: set<UserId>, b: set<UserId>)
    ensures ReleaseTo(ReleaseTo(rows, id, a), id, b) == ReleaseTo(rows, id, a + b)
  {
  }

  /** UPDATE ... SET status = 'refunded' for every row of an order still held. */
  function Refund(rows: Rows, order: OrderId): (r: Rows)
    ensures |r| == |rows|
    ensures forall i :: 0 <= i < |rows| ==> r[i] == Settle(rows[i], rows[i].order == order, Refunded)
  {
    seq(|rows|, i requires 0 <= i < |rows| => Settle(rows[i], rows[i].order == order, Refunded))
  }

  /** What that statement returns: the order's held rows, now refunded. */
  ghost function HeldRows(rows: Rows, order: OrderId): Rows {
    if rows == [] then []
    else
      var t := rows[|rows| - 1];
      HeldRows(rows[..|rows| - 1], order)
      + if t.order == order && t.status == Held then [t.(status := Refunded)] else []
  }

  // ---- opening escrow (handler.create) ------------------------------------

  /** What the payment provider answers when asked to charge. */
  datatype Charge = Charged | Declined | Unavailable

  datatype EscrowResult = Opened(tx: Tx) | BadAmount | BadMethod | PaymentDeclined | Failed

  function ValidMethod(m: PaymentMethod): bool {
    !m.OtherMethod?
  }

  /** Go's amount * pct / 100, truncating and wrapping. */
  function Commission(amount: int64, pct: int64): int64 {
    TruncDiv(Mul(amount, pct), 100)
  }

  function NewRow(order: OrderId, payer: UserId, payee: UserId, amount: int64, pct: int64): Tx {
    Tx(order, payer, payee, amount, Commission(amount, pct), Held)
  }

  /** The table's own CHECKs and column ranges. */
  predicate Storable(t: Tx) {
    0 <= t.amount < NUMERIC_LIMIT && 0 <= t.commission < NUMERIC_LIMIT
  }

  function EscrowOutcome(rows: Rows, order: OrderId, payer: UserId, payee: UserId, amount: int64,
                         paymentMethod: PaymentMethod, charge: Charge, pct: int64): EscrowResult
  {
    if amount < 0 then BadAmount
    else if !ValidMethod(paymentMethod) then BadMethod
    else
      match Existing(rows, order, payee)
      case Some(t) => Opened(t)
      case None =>
        if charge == Declined then PaymentDeclined
        else if charge == Unavailable then Failed
        else
          var t := NewRow(order, payer, payee, amount, pct);
          if Storable(t) then Opened(t) else Failed
  }

  /** Opening escrow adds at most the one row it answers with. */
  function AfterEscrow(rows: Rows, outcome: EscrowResult): Rows {
    if outcome.Opened? then Insert(rows, outcome.tx) else rows
  }

  class Wallet {
    var rows: Rows

    constructor ()
      ensures rows == []
    {
      rows := [];
    }

    /** `created` tells the caller whether this call inserted the row it returns. */
    method Create(t: Tx) returns (rec: Option<Tx>, created: bool)
      modifies this
      ensures created <==> Storable(t) && !HasRow(old(rows), t.order, t.payee)
      ensures rows == if created then old(rows) + [t] else old(rows)
      ensures Storable(t) || HasRow(rows, t.order, t.payee) ==>
                rec.Some? && rec.value in rows && For(rec.value, t.order, t.payee)
      ensures rec == if created then Some(t) else Existing(old(rows), t.order, t.payee)
    {
      var existing := Existing(rows, t.order, t.payee);
      if Storable(t) && existing.None? {
        rows := rows + [t];
        return Some(t), true;
      }
      return existing, false;
    }

    method Release(order: OrderId, payee: UserId) returns (rec: Option<Tx>)
      modifies this
      ensures |rows| == |old(rows)|
      ensures forall i :: 0 <= i < |rows| && For(old(rows)[i], order, payee) && old(rows)[i].status == Held ==>
                rows[i] == old(rows)[i].(status := Released)
      ensures forall i :: 0 <= i < |rows| && !(For(old(rows)[i], order, payee) && old(rows)[i].status == Held) ==>
                rows[i] == old(rows)[i]
      ensures rec.Some? <==> HasRow(old(rows), order, payee)
      ensures rec.Some? ==> rec.value in rows && For(rec.value, order, payee) && rec.value.status != Held
    {
      rows := ReleaseTo(rows, order, {payee});
      rec := Existing(rows, order, payee);
      SettlingKeepsRows(old(rows), rows, order, payee);
    }

    static lemma SettlingKeepsRows(rows: Rows, rows': Rows, order: OrderId, payee: UserId)
      requires |rows'| == |rows| && forall i :: 0 <= i < |rows| ==> rows'[i].(status := rows[i].status) == rows[i]
      ensures HasRow(rows', order, payee) <==> HasRow(rows, order, payee)
    {
      forall i | 0 <= i < |rows|
        ensures For(rows'[i], order, payee) <==> For(rows[i], order, payee)
      {
        assert rows'[i].(status := rows[i].status) == rows[i];
      }
    }

    method RefundOrder(order: OrderId) returns (refunded: Rows)
      modifies this
      ensures rows == Refund(old(rows), order)
      ensures refunded == HeldRows(old(rows), order)
    {
      refunded := [];
      for i := 0 to |rows|
        invariant rows == old(rows) && refunded == HeldRows(rows[..i], order)
      {
        assert rows[..i + 1][..i] == rows[..i];
        if rows[i].order == order && rows[i].status == Held {
          refunded := refunded + [rows[i].(status := Refunded)];
        }
      }
      assert rows[..|rows|] == rows;
      rows := Refund(rows, order);
    }

    /** handler.create: validate, look for the row, charge, take the commission, insert. */
    method OpenEscrow(order: OrderId, payer: UserId, payee: UserId, amount: int64,
                      paymentMethod: PaymentMethod, charge: Charge, pct: int64) returns (r: EscrowResult)
      modifies this
      ensures r == EscrowOutcome(old(rows), order, payer, payee, amount, paymentMethod, charge, pct)
      ensures rows == AfterEscrow(old(rows), r)
    {
      if amount < 0 {
        return BadAmount;
      }
      if !ValidMethod(paymentMethod) {
        return BadMethod;
      }
      var existing := Existing(rows, order, payee);
      if existing.Some? {
        return Opened(existing.value);
      }
      if charge == Declined {
        return PaymentDeclined;
      }
      if charge == Unavailable {
        return Failed;
      }
      var rec, _ := Create(NewRow(order, payer, payee, amount, pct));
      match rec
      case Some(t) => return Opened(t);
      case None => return Failed;
    }

    method MoneyStats() returns (credited: int, fees: int, held: int)
      ensures credited == Sum(rows, CREDITED) && fees == Sum(rows, FEES) && held == Sum(rows, HELD)
    {
      credited, fees, held := 0, 0, 0;
      for i := 0 to |rows|
        invariant credited == Sum(rows[..i], CREDITED)
        invariant fees == Sum(rows[..i], FEES)
        invariant held == Sum(rows[..i], HELD)
      {
        assert rows[..i + 1][..i] == rows[..i];
        match rows[i].status
        case Released =>
          credited := credited + (rows[i].amount - rows[i].commission);
          fees := fees + rows[i].commission;
        case Held =>
          held := held + rows[i].amount;
        case Refunded =>
      }
      assert rows[..|rows|] == rows;
    }
  }

  // ---- sums over the table ------------------------------------------------

  /** What a row contributes to an aggregate. */
  datatype Measure = AMOUNT | CREDITED | FEES | HELD | REFUNDED {
    function Of(t: Tx): int {
      match this
      case AMOUNT => t.amount
      case CREDITED => if t.status == Released then t.amount - t.commission else 0
      case FEES => if t.status == Released then t.commission else 0
      case HELD => if t.status == Held then t.amount else 0
      case REFUNDED => if t.status == Refunded then t.amount else 0
    }
  }

  ghost function Sum(rows: Rows, m: Measure): int {
    if rows == [] then 0 else Sum(rows[..|rows| - 1], m) + m.Of(rows[|rows| - 1])
  }

  /** Every UZS ever escrowed is credited, kept as a fee, still held, or refunded: MoneyStats'
      three figures and the refunds account for the whole table. */
  lemma {:induction false} MoneyIsAccountedFor(rows: Rows)
    ensures Sum(rows, AMOUNT) == Sum(rows, CREDITED) + Sum(rows, FEES) + Sum(rows, HELD) + Sum(rows, REFUNDED)
  {
    if rows != [] {
      MoneyIsAccountedFor(rows[..|rows| - 1]);
    }
  }

  // ---- any run of ledger statements ---------------------------------------

  datatype Statement =
    | InsertRow(t: Tx)
    | ReleaseRow(order: OrderId, payee: UserId)
    | RefundRows(order: OrderId)

  function Execute(rows: Rows, s: Statement): Rows {
    match s
    case InsertRow(t) => if Storable(t) && t.status == Held then Insert(rows, t) else rows
    case ReleaseRow(o, p) => ReleaseTo(rows, o, {p})
    case RefundRows(o) => Refund(rows, o)
  }

  function ExecuteAll(rows: Rows, ss: seq<Statement>): Rows {
    if ss == [] then rows else Execute(ExecuteAll(rows, ss[..|ss| - 1]), ss[|ss| - 1])
  }

  /** A row later in the life of the table: same parties and money, and once it has left
      `held` its status is final. */
  ghost predicate RowSurvives(before: Tx, after: Tx) {
    && after.(status := before.status) == before
    && (before.status != Held ==> after.status == before.status)
  }

  ghost predicate Survives(before: Rows, after: Rows) {
    && |before| <= |after|
    && forall i :: 0 <= i < |before| ==> RowSurvives(before[i], after[i])
  }

  ghost predicate Sound(rows: Rows) {
    Unique(rows) && forall i :: 0 <= i < |rows| ==> Storable(rows[i])
  }

  lemma ExecuteKeepsSound(rows: Rows, s: Statement)
    requires Sound(rows)
    ensures Sound(Execute(rows, s)) && Survives(rows, Execute(rows, s))
  {
    match s {
      case InsertRow(t) =>
        assert Existing(rows, t.order, t.payee).None? ==> !HasRow(rows, t.order, t.payee);
      case ReleaseRow(_, _) =>
      case RefundRows(_) =>
    }
  }

  /** Whatever statements run, in whatever order and from however many handlers at once: at most
      one row per (order, payee); no row is ever lost, re-priced or re-addressed; and a row leaves
      `held` at most once. */
  lemma {:induction false} LedgerIsSafe(rows: Rows, ss: seq<Statement>)
    requires Sound(rows)
    ensures Sound(ExecuteAll(rows, ss)) && Survives(rows, ExecuteAll(rows, ss))
  {
    if ss != [] {
      LedgerIsSafe(rows, ss[..|ss| - 1]);
      ExecuteKeepsSound(ExecuteAll(rows, ss[..|ss| - 1]), ss[|ss| - 1]);
    }
  }

  /** Any two successful creates for a pair, however far apart, are answered with the same row:
      the one at the position the first of them found or filled. */
  lemma CreatesShareOneRow(rows: Rows, t: Tx, between: seq<Statement>, u: Tx)
    requires Sound(rows) && Storable(t) && t.status == Held && For(u, t.order, t.payee)
    ensures var first := Existing(Insert(rows, t), t.order, t.payee);
            var later := ExecuteAll(Insert(rows, t), between);
            var second := Existing(Insert(later, u), u.order, u.payee);
            first.Some? && second.Some? && RowSurvives(first.value, second.value)
            && Insert(later, u) == later
  {
    ExecuteKeepsSound(rows, InsertRow(t));
    var now := Insert(rows, t);
    var later := ExecuteAll(now, between);
    LedgerIsSafe(now, between);
    var i :| 0 <= i < |now| && now[i] == Existing(now, t.order, t.payee).value;
    assert RowSurvives(now[i], later[i]);
    ExistingIsAt(later, i);
  }

  lemma ExistingIsAt(rows: Rows, i: nat)
    requires Unique(rows) && i < |rows|
    ensures Existing(rows, rows[i].order, rows[i].payee) == Some(rows[i])
  {
    var found := Existing(rows, rows[i].order, rows[i].payee).value;
    var j :| 0 <= j < |rows| && rows[j] == found;
    assert For(rows[i], rows[j].order, rows[j].payee);
  }

  // ---- commission ---------------------------------------------------------

  /** For a sane percentage the platform's cut is the exact rounded-down percentage, never
      wraps, and lies between nothing and the whole amount, so no payout is negative. */
  lemma CommissionIsAPercentage(amount: int64, pct: int64)
    requires 0 <= amount < NUMERIC_LIMIT && 0 <= pct <= 100
    ensures Mul(amount, pct) == amount * pct
    ensures IsFloor(Commission(amount, pct), amount * pct, 100)
    ensures 0 <= Commission(amount, pct) <= amount
  {
    ProductUpTo(amount, pct, 100);
    MulInRange(amount, pct);
    QuotientIsFloor(amount * pct, 100);
  }

  lemma FreeCommission(amount: int64)
    ensures Commission(amount, 0) == 0
  {
    assert Mul(amount, 0) == 0;
    assert Quotient(0, 100) == 0;
  }

  lemma ProductUpTo(x: int, y: int, bound: int)
    requires x >= 0 && 0 <= y <= bound
    ensures 0 <= x * y <= x * bound
  {
  }

  /** Taking the commission leg by leg never takes more than taking it once on the whole price,
      and falls short of it by less than one UZS per leg. */
  lemma CommissionPerLeg(amounts: seq<int64>, pct: int64)
    requires amounts != [] && 0 <= pct <= 100
    requires 0 <= TotalOf(amounts) < NUMERIC_LIMIT
    requires forall i :: 0 <= i < |amounts| ==> 0 <= amounts[i] < NUMERIC_LIMIT
    ensures 0 <= Commission(TotalOf(amounts), pct) - Fees(amounts, pct) <= |amounts| - 1
  {
    FeesBounded(amounts, pct);
    CommissionIsAPercentage(TotalOf(amounts), pct);
  }

  ghost function TotalOf(amounts: seq<int64>): int {
    if amounts == [] then 0 else TotalOf(amounts[..|amounts| - 1]) + amounts[|amounts| - 1]
  }

  ghost function Fees(amounts: seq<int64>, pct: int64): int {
    if amounts == [] then 0
    else Fees(amounts[..|amounts| - 1], pct) + Commission(amounts[|amounts| - 1], pct)
  }

  lemma {:induction false} FeesBounded(amounts: seq<int64>, pct: int64)
    requires 0 <= pct <= 100
    requires forall i :: 0 <= i < |amounts| ==> 0 <= amounts[i] < NUMERIC_LIMIT
    ensures Fees(amounts, pct) * 100 <= TotalOf(amounts) * pct <= Fees(amounts, pct) * 100 + 99 * |amounts|
  {
    if amounts != [] {
      var n := |amounts| - 1;
      assert forall i :: 0 <= i < n ==> amounts[..n][i] == amounts[i];
      FeesBounded(amounts[..n], pct);
      CommissionIsAPercentage(amounts[n], pct);
      assert (TotalOf(amounts[..n]) + amounts[n]) * pct == TotalOf(amounts[..n]) * pct + amounts[n] * pct;
    }
  }
}
