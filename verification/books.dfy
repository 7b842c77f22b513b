// How rows other than orders enter and move on in a consistent database.

module Books {
  import opened Common
  import opened Ledger
  import opened Rows
  import opened Database
  import opened Orders
  import opened OrderService

  // A withdrawal, долив or payout row enters with the legs posted for it.
  lemma {:induction false} NewRowKeeps(w: World, legs: seq<Leg>, row: Row)
    requires Consistent(w) && !row.OrderRow? && RowOk(row)
    requires For(legs, Some(|w.rows|)) && PostAll(w.ledger, legs).Ok?
    requires forall a :: LegsNet(legs, a) == Effect(row, a)
    ensures Consistent(w.(ledger := PostAll(w.ledger, legs).value, rows := w.rows + [row]))
  {
    CommitNew(w.ledger, w.rows, legs, row);
    OthersLive(w.ledger, w.rows, legs, Some(|w.rows|));
    AgreeAfter(w, w.(ledger := PostAll(w.ledger, legs).value, rows := w.rows + [row]), |w.rows|);
  }

  // One of them moves on; the requisite counters may move with it.
  lemma {:induction false} RowMoveKeeps(w: World, i: nat, legs: seq<Leg>, row: Row, limits: map<nat, Limit>)
    requires Consistent(w) && i < |w.rows| && !w.rows[i].OrderRow? && !row.OrderRow? && RowOk(row)
    requires For(legs, Some(i)) && PostAll(w.ledger, legs).Ok?
    requires forall a :: LegsNet(legs, a) == Effect(row, a) - Effect(w.rows[i], a)
    ensures Consistent(w.(ledger := PostAll(w.ledger, legs).value, rows := w.rows[i := row], limits := limits))
  {
    CommitRow(w.ledger, w.rows, i, legs, row);
    OthersLive(w.ledger, w.rows, legs, Some(i));
    AgreeAfter(w, w.(ledger := PostAll(w.ledger, legs).value, rows := w.rows[i := row], limits := limits), i);
  }

  // Money that belongs to no row.
  lemma {:induction false} DirectKeeps(w: World, legs: seq<Leg>)
    requires Consistent(w)
    requires For(legs, None) && PostAll(w.ledger, legs).Ok?
    requires forall a: Account | a.kind == ESCROW :: LegsNet(legs, a) >= 0
    ensures Consistent(w.(ledger := PostAll(w.ledger, legs).value))
  {
    CommitDirect(w.ledger, w.rows, legs);
    OthersLive(w.ledger, w.rows, legs, None);
  }
}
