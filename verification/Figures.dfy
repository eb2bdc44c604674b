/** What each change of the ledger does to the money row of the dashboard (internal/wallet/store.go). */
module Figures {
  import opened Models
  import opened Ledger

  lemma EmptyFigures()
    ensures Sum([], CREDITED) == 0 == Sum([], FEES) && Sum([], HELD) == 0 == Sum([], REFUNDED)
  {
  }

  lemma {:induction false} RowChanged(rows: Rows, i: nat, t: Tx, m: Measure)
    requires i < |rows|
    ensures Sum(rows[i := t], m) == Sum(rows, m) - m.Of(rows[i]) + m.Of(t)
  {
    var n := |rows| - 1;
    if i == n {
      assert rows[i := t][..n] == rows[..n];
    } else {
      RowChanged(rows[..n], i, t, m);
      assert rows[i := t][..n] == rows[..n][i := t];
    }
  }

  /** A new row's amount is held, and nothing credited or earned. */
  lemma InsertedFigures(rows: Rows, t: Tx)
    requires t.status == Held
    ensures var rows' := rows + [t];
            && Sum(rows', HELD) == Sum(rows, HELD) + t.amount
            && Sum(rows', CREDITED) == Sum(rows, CREDITED) && Sum(rows', FEES) == Sum(rows, FEES)
            && Sum(rows', REFUNDED) == Sum(rows, REFUNDED)
  {
    assert (rows + [t])[..|rows|] == rows;
  }

  /** A release credits the amount less the commission, earns the commission, and frees the amount. */
  lemma ReleasedFigures(rows: Rows, i: nat)
    requires i < |rows| && rows[i].status == Held
    ensures var rows' := rows[i := rows[i].(status := Released)];
            && Sum(rows', CREDITED) == Sum(rows, CREDITED) + rows[i].amount - rows[i].commission
            && Sum(rows', FEES) == Sum(rows, FEES) + rows[i].commission
            && Sum(rows', HELD) == Sum(rows, HELD) - rows[i].amount
            && Sum(rows', REFUNDED) == Sum(rows, REFUNDED)
  {
    RowChanged(rows, i, rows[i].(status := Released), CREDITED);
    RowChanged(rows, i, rows[i].(status := Released), FEES);
    RowChanged(rows, i, rows[i].(status := Released), HELD);
    RowChanged(rows, i, rows[i].(status := Released), REFUNDED);
  }

  /** A refund frees the amount, and credits and earns nothing. */
  lemma RefundedFigures(rows: Rows, i: nat)
    requires i < |rows| && rows[i].status == Held
    ensures var rows' := rows[i := rows[i].(status := Refunded)];
            && Sum(rows', CREDITED) == Sum(rows, CREDITED) && Sum(rows', FEES) == Sum(rows, FEES)
            && Sum(rows', HELD) == Sum(rows, HELD) - rows[i].amount
            && Sum(rows', REFUNDED) == Sum(rows, REFUNDED) + rows[i].amount
  {
    RowChanged(rows, i, rows[i].(status := Refunded), CREDITED);
    RowChanged(rows, i, rows[i].(status := Refunded), FEES);
    RowChanged(rows, i, rows[i].(status := Refunded), HELD);
    RowChanged(rows, i, rows[i].(status := Refunded), REFUNDED);
  }

  // ---- the wallet's statements --------------------------------------------------------------

  /** With one row per pair a release is of one row, or of none. */
  lemma ReleaseIsOfOneRow(rows: Rows, order: OrderId, payee: UserId, i: nat)
    requires Unique(rows) && i < |rows| && rows[i].order == order && rows[i].payee == payee
    ensures ReleaseTo(rows, order, {payee})
         == if rows[i].status == Held then rows[i := rows[i].(status := Released)] else rows
  {
    forall j | 0 <= j < |rows| && j != i
      ensures !(rows[j].order == order && rows[j].payee == payee)
    {
      assert !For(rows[if i < j then j else i], rows[if i < j then i else j].order, rows[if i < j then i else j].payee);
    }
  }

  /** What an order has in escrow. */
  ghost function HeldFor(rows: Rows, order: OrderId): int {
    if rows == [] then 0
    else
      var t := rows[|rows| - 1];
      HeldFor(rows[..|rows| - 1], order) + if t.order == order && t.status == Held then t.amount else 0
  }

  /** A refund of an order frees exactly what it has in escrow. */
  lemma {:induction false} RefundFigures(rows: Rows, order: OrderId)
    ensures var rows' := Refund(rows, order);
            && Sum(rows', HELD) == Sum(rows, HELD) - HeldFor(rows, order)
            && Sum(rows', REFUNDED) == Sum(rows, REFUNDED) + HeldFor(rows, order)
            && Sum(rows', CREDITED) == Sum(rows, CREDITED) && Sum(rows', FEES) == Sum(rows, FEES)
            && HeldFor(rows', order) == 0
  {
    if rows != [] {
      var n := |rows| - 1;
      RefundFigures(rows[..n], order);
      assert Refund(rows, order)[..n] == Refund(rows[..n], order);
    }
  }

  predicate IsHeldAt(rows: Rows, order: OrderId, i: nat) {
    i < |rows| && rows[i].order == order && rows[i].status == Held
  }

  /** What a refund answers with: the rows it refunded, in table order, all of them and each once. */
  lemma {:induction false} RefundAnswers(rows: Rows, order: OrderId) returns (at: seq<nat>)
    ensures forall i :: i in at <==> IsHeldAt(rows, order, i)
    ensures forall j, k :: 0 <= j < k < |at| ==> at[j] < at[k]
    ensures |HeldRows(rows, order)| == |at|
    ensures forall k :: 0 <= k < |at| ==> at[k] < |rows| && HeldRows(rows, order)[k] == rows[at[k]].(status := Refunded)
  {
    if rows == [] {
      at := [];
    } else {
      var n := |rows| - 1;
      var before := RefundAnswers(rows[..n], order);
      assert forall i: nat :: IsHeldAt(rows[..n], order, i) <==> i != n && IsHeldAt(rows, order, i);
      assert forall k :: 0 <= k < |before| ==> before[k] in before;
      at := before + if IsHeldAt(rows, order, n) then [n] else [];
    }
  }
}
