// orders/service.py: the single status funnel, the operations that reach it,
// and what every transition keeps.

module Database {
  import opened Common
  import opened Ledger
  import opened Rows

  datatype DisputeStatus = OPEN | RESOLVED | REJECTED

  datatype Proof = PDF | VIDEO

  datatype Dispute = Dispute(status: DisputeStatus, proof: Option<Proof>)

  // The limit row of a requisite: daily cap and the two turnover counters.
  datatype Limit = Limit(cap: nat, daily: nat, monthly: nat)

  // The tables: ledger entries, business rows by id, disputes by order id,
  // requisite limits by requisite id.
  datatype World = World(
    ledger: seq<Entry>,
    rows: seq<Row>,
    disputes: map<nat, Dispute>,
    limits: map<nat, Limit>)

  function Minus(n: nat, m: nat): nat {
    if n < m then 0 else n - m
  }

  function Bump(limits: map<nat, Limit>, requisite: Option<nat>, fiat: nat): map<nat, Limit> {
    if requisite.None? || requisite.value !in limits then limits
    else
      var x := limits[requisite.value];
      limits[requisite.value := x.(daily := x.daily + fiat, monthly := x.monthly + fiat)]
  }

  // The decrement clamps at zero.
  function Unbump(limits: map<nat, Limit>, requisite: Option<nat>, fiat: nat): map<nat, Limit> {
    if requisite.None? || requisite.value !in limits then limits
    else
      var x := limits[requisite.value];
      limits[requisite.value := x.(daily := Minus(x.daily, fiat), monthly := Minus(x.monthly, fiat))]
  }

  lemma UnbumpUndoesBump(limits: map<nat, Limit>, requisite: Option<nat>, fiat: nat)
    ensures Unbump(Bump(limits, requisite, fiat), requisite, fiat) == limits
  {
  }

  // The other way round the clamp shows: taking an amount out and putting it
  // back is nothing exactly when the counters held it, that is, when neither was
  // reset since it was counted.
  lemma BumpUndoesUnbumpExactly(limits: map<nat, Limit>, requisite: nat, fiat: nat)
    requires requisite in limits
    ensures Bump(Unbump(limits, Some(requisite), fiat), Some(requisite), fiat) == limits <==>
            fiat <= limits[requisite].daily && fiat <= limits[requisite].monthly
  {
  }

  // So it is not nothing after a reset: the amount comes back on top of zero.
  lemma ResetBetween()
    ensures Bump(Unbump(map[7 := Limit(100, 0, 60)], Some(7), 50), Some(7), 50) == map[7 := Limit(100, 50, 60)]
  {
  }
}

module Orders {
  import opened Common
  import opened Ledger
  import opened Rows
  import opened Finance
  import opened Database

  // _ALLOWED_TRANSITIONS
  predicate Allowed(from: OrderStatus, to: OrderStatus) {
    match from
    case CREATED => to.PENDING? || to.FAILED? || to.CANCELED?
    case PENDING => to.RECEIPT_UPLOADED? || to.SUCCESS? || to.FAILED? || to.CANCELED? || to.DISPUTED?
    case RECEIPT_UPLOADED => to.SUCCESS? || to.FAILED? || to.CANCELED? || to.DISPUTED?
    case DISPUTED => to.SUCCESS? || to.FAILED? || to.CANCELED?
    case SUCCESS => to.DISPUTED? || to.REFUNDED?
    case FAILED => to.DISPUTED?
    case CANCELED => to.DISPUTED?
    case REFUNDED => false
  }

  // _TERMINAL_STATUSES
  predicate IsTerminal(s: OrderStatus) {
    s.SUCCESS? || s.FAILED? || s.CANCELED? || s.REFUNDED?
  }

  predicate IsReleased(s: OrderStatus) {
    s.FAILED? || s.CANCELED? || s.REFUNDED?
  }

  predicate IsOrder(w: World, i: nat) {
    i < |w.rows| && w.rows[i].OrderRow?
  }

  function SetOrder(w: World, i: nat, o: Order): World
    requires i < |w.rows|
  {
    w.(rows := w.rows[i := OrderRow(o)])
  }

  function Reconcile(w: World, i: nat, o: Order, pre: OrderStatus): (r: Result<World, Error>)
    ensures r.Ok? ==> r.value.rows == w.rows && r.value.disputes == w.disputes
  {
    var legs :- ReconcileLegs(w.ledger, i, o, pre);
    var l :- PostAll(w.ledger, legs);
    var settled := pre.SUCCESS? && o.trader.Some? && o.amount > 0;
    Ok(w.(ledger := l, limits := if settled then Unbump(w.limits, o.requisite, o.fiat) else w.limits))
  }

  function Settle(w: World, i: nat, o: Order, rewards: seq<Reward>): (r: Result<World, Error>)
    ensures r.Ok? ==> r.value.rows == w.rows && r.value.disputes == w.disputes
  {
    var legs :- CompleteOrderLegs(i, o, rewards);
    var l :- PostAll(w.ledger, legs);
    Ok(w.(ledger := l, limits := Bump(w.limits, o.requisite, o.fiat)))
  }

  // Releasing tolerates "Insufficient funds": the status moves on without money.
  function Release(w: World, i: nat, o: Order): (r: Result<World, Error>)
    ensures r.Ok? ==> r.value.rows == w.rows && r.value.disputes == w.disputes
  {
    if o.direction == PAYIN && o.trader.None? then Ok(w)
    else
      var legs :- CancelOrderLegs(i, o);
      match PostAll(w.ledger, legs)
      case Ok(l) => Ok(w.(ledger := l))
      case Err(InsufficientFunds) => Ok(w)
      case Err(error) => Err(error)
  }

  // The breakdown on the row after a transition.
  function RewardsAfter(o: Order, to: OrderStatus, links: seq<Link>): seq<Reward> {
    if to.SUCCESS? then RewardsFor(o.amount, links)
    else if to.FAILED? || to.CANCELED? then []
    else o.rewards
  }

  // The money of one transition. A move between two terminal states first goes
  // back to the frozen state.
  function Route(w: World, i: nat, o: Order, to: OrderStatus, force: bool, links: seq<Link>): (r: Result<World, Error>)
    ensures r.Ok? ==> r.value.rows == w.rows && r.value.disputes == w.disputes
  {
    var w0 :- if force && IsTerminal(o.status) && IsTerminal(to) then Reconcile(w, i, o, o.status) else Ok(w);
    match to
    case PENDING =>
      var legs :- CreateOrderLegs(i, o);
      var l :- PostAll(w0.ledger, legs);
      Ok(w0.(ledger := l))
    case SUCCESS => Settle(w0, i, o, RewardsFor(o.amount, links))
    case FAILED | CANCELED | REFUNDED => Release(w0, i, o)
    case DISPUTED => Reconcile(w0, i, o, o.status)
    case CREATED | RECEIPT_UPLOADED => Ok(w0)
  }

  // `change_status`: the one way an order changes status and moves its money.
  function ChangeStatus(w: World, i: nat, to: OrderStatus, force: bool, links: seq<Link>): Result<World, Error>
    requires IsOrder(w, i)
  {
    var o := w.rows[i].order;
    if to == o.status then Ok(w)
    else if !force && !Allowed(o.status, to) then Err(Conflict)
    else
      var w1 :- Route(w, i, o, to, force, links);
      Ok(SetOrder(w1, i, o.(status := to, rewards := RewardsAfter(o, to, links))))
  }

  // ── What every transition keeps ─────────────────────────────────────────

  // The ledger's live teamlead rewards of an order are the ones on its row while
  // it is settled, and none otherwise.
  ghost predicate RewardsLiveAt(l: seq<Entry>, i: nat, o: Order) {
    && Reversals(l, i) <= |Payments(l, i)|
    && LivePayments(l, i) == if o.status.SUCCESS? then RewardEntries(i, o.rewards) else []
  }

  ghost predicate RewardsLive(l: seq<Entry>, rows: seq<Row>) {
    forall i | 0 <= i < |rows| && rows[i].OrderRow? :: RewardsLiveAt(l, i, rows[i].order)
  }

  predicate OrderOk(row: Row) {
    && RowOk(row)
    && (row.OrderRow? ==>
          && (row.order.status.CREATED? ==> row.order.trader.None?)
          && (row.order.status.SUCCESS? ==> row.order.amount > 0)
          && Positive(row.order.rewards))
  }

  ghost predicate Kept(w: World) {
    && Sound(w.ledger, w.rows)
    && RewardsLive(w.ledger, w.rows)
    && (forall i | 0 <= i < |w.rows| :: OrderOk(w.rows[i]))
  }

  // Everything but the row-local OrderOk, for the states inside one transition.
  ghost predicate Steady(w: World) {
    Sound(w.ledger, w.rows) && RewardsLive(w.ledger, w.rows)
  }

  lemma {:induction false} LiveAfter(l: seq<Entry>, legs: seq<Leg>, i: nat)
    requires PostAll(l, legs).Ok? && NoRewards(legs, i)
    ensures Payments(PostAll(l, legs).value, i) == Payments(l, i)
    ensures Reversals(PostAll(l, legs).value, i) == Reversals(l, i)
  {
    PostAllWrites(l, legs);
    PaymentsConcat(l, Written(legs), i);
    NoRewardsWritten(legs, i);
  }

  // Legs of one row leave the rewards of every other row alone.
  lemma {:induction false} OthersLive(l: seq<Entry>, rows: seq<Row>, legs: seq<Leg>, row: Option<nat>)
    requires RewardsLive(l, rows) && For(legs, row) && PostAll(l, legs).Ok?
    ensures forall j | 0 <= j < |rows| && rows[j].OrderRow? && Some(j) != row ::
              RewardsLiveAt(PostAll(l, legs).value, j, rows[j].order)
  {
    forall j | 0 <= j < |rows| && rows[j].OrderRow? && Some(j) != row
      ensures RewardsLiveAt(PostAll(l, legs).value, j, rows[j].order)
    {
      assert RewardsLiveAt(l, j, rows[j].order);
      LiveAfter(l, legs, j);
    }
  }

  // A step that pays and reverses no teamlead.
  lemma {:induction false} QuietStep(w: World, i: nat, legs: seq<Leg>, o': Order)
    requires Steady(w) && IsOrder(w, i)
    requires For(legs, Some(i)) && NoRewards(legs, i) && PostAll(w.ledger, legs).Ok?
    requires forall a :: LegsNet(legs, a) == OrderEffect(o', a) - OrderEffect(w.rows[i].order, a)
    requires !o'.status.SUCCESS? && !w.rows[i].order.status.SUCCESS?
    ensures Steady(SetOrder(w.(ledger := PostAll(w.ledger, legs).value), i, o'))
  {
    forall a ensures LegsNet(legs, a) == Effect(OrderRow(o'), a) - Effect(w.rows[i], a) {
    }
    CommitRow(w.ledger, w.rows, i, legs, OrderRow(o'));
    OthersLive(w.ledger, w.rows, legs, Some(i));
    assert RewardsLiveAt(w.ledger, i, w.rows[i].order);
    LiveAfter(w.ledger, legs, i);
  }

  // Freezing again: what a dispute open or an override does first.
  lemma ReconcileStep(w: World, i: nat)
    requires Steady(w) && IsOrder(w, i) && OrderOk(w.rows[i])
    requires !w.rows[i].order.status.DISPUTED? && !w.rows[i].order.status.CREATED?
    requires Reconcile(w, i, w.rows[i].order, w.rows[i].order.status).Ok?
    ensures Steady(SetOrder(Reconcile(w, i, w.rows[i].order, w.rows[i].order.status).value, i,
                            w.rows[i].order.(status := DISPUTED)))
  {
    var o := w.rows[i].order;
    var o' := o.(status := DISPUTED);
    assert RewardsLiveAt(w.ledger, i, o);
    var legs := ReconcileLegs(w.ledger, i, o, o.status).value;
    forall a ensures LegsNet(legs, a) == OrderEffect(o', a) - OrderEffect(o, a) {
      ReconcileNet(w.ledger, i, o, a);
    }
    ReconcileNet(w.ledger, i, o, SYSTEM_WORK);
    if o.status.SUCCESS? {
      forall a ensures LegsNet(legs, a) == Effect(OrderRow(o'), a) - Effect(w.rows[i], a) {
      }
      CommitRow(w.ledger, w.rows, i, legs, OrderRow(o'));
      OthersLive(w.ledger, w.rows, legs, Some(i));
      ReversedAll(w.ledger, i, o);
    } else {
      assert NoRewards(legs, i);
      QuietStep(w, i, legs, o');
    }
  }

  // `reverse_rewards` leaves no live reward behind.
  lemma {:induction false} ReversedAll(l: seq<Entry>, i: nat, o: Order)
    requires o.status.SUCCESS? && o.trader.Some? && o.amount > 0 && o.direction == PAYIN
    requires RewardsLiveAt(l, i, o)
    requires PostAll(l, ReconcileLegs(l, i, o, o.status).value).Ok?
    ensures RewardsLiveAt(PostAll(l, ReconcileLegs(l, i, o, o.status).value).value, i, o.(status := DISPUTED))
  {
    var live, tail := LivePayments(l, i), UndoLegs(i, o);
    PaymentsArePayments(l, i);
    PostAllWrites(l, ReversalLegs(live) + tail);
    ReversalsOnly(l, i, live, tail);
  }

  lemma {:induction false} ReversalsOnly(l: seq<Entry>, i: nat, live: seq<Entry>, tail: seq<Leg>)
    requires NoRewards(tail, i) && forall k | 0 <= k < |live| :: IsPayment(live[k], i)
    ensures Payments(l + Written(ReversalLegs(live) + tail), i) == Payments(l, i)
    ensures Reversals(l + Written(ReversalLegs(live) + tail), i) == Reversals(l, i) + |live|
  {
    var undo := ReversalLegs(live);
    WrittenConcat(undo, tail);
    PaymentsConcat(l, Written(undo + tail), i);
    PaymentsConcat(Written(undo), Written(tail), i);
    ReversalsWritten(i, live);
    NoRewardsWritten(tail, i);
  }

  // Settling a frozen order.
  lemma SettleStep(w: World, i: nat, o: Order, rewards: seq<Reward>)
    requires Steady(w) && IsOrder(w, i) && o.direction == PAYIN && o.trader.Some?
    requires IsFrozen(w.rows[i].order.status) && w.rows[i].order == o.(status := w.rows[i].order.status)
    requires Settle(w, i, o, rewards).Ok?
    ensures Steady(SetOrder(Settle(w, i, o, rewards).value, i, o.(status := OrderStatus.SUCCESS, rewards := rewards)))
    ensures o.amount > 0
  {
    SettleSound(w.ledger, w.rows, i, o, rewards);
    SettleRewards(w.ledger, w.rows, i, o, rewards);
    assert CompleteOrderLegs(i, o, rewards).value[0].entry.amount == o.amount;
  }

  lemma {:induction false} SettleSound(l: seq<Entry>, rows: seq<Row>, i: nat, o: Order, rewards: seq<Reward>)
    requires Sound(l, rows) && i < |rows| && rows[i].OrderRow? && o.direction == PAYIN && o.trader.Some?
    requires IsFrozen(rows[i].order.status) && rows[i].order == o.(status := rows[i].order.status)
    requires PostAll(l, CompleteOrderLegs(i, o, rewards).value).Ok?
    ensures Sound(PostAll(l, CompleteOrderLegs(i, o, rewards).value).value,
                  rows[i := OrderRow(o.(status := OrderStatus.SUCCESS, rewards := rewards))])
  {
    var legs := CompleteOrderLegs(i, o, rewards).value;
    var row := OrderRow(o.(status := OrderStatus.SUCCESS, rewards := rewards));
    forall a ensures LegsNet(legs, a) == Effect(row, a) - Effect(rows[i], a) {
      CompleteOrderNet(i, o, rewards, a);
      assert OrderEffect(rows[i].order, a) == OrderEffect(o.(status := OrderStatus.PENDING), a);
    }
    CompleteOrderNet(i, o, rewards, SYSTEM_WORK);
    CommitRow(l, rows, i, legs, row);
  }

  lemma {:induction false} SettleRewards(l: seq<Entry>, rows: seq<Row>, i: nat, o: Order, rewards: seq<Reward>)
    requires RewardsLive(l, rows) && i < |rows| && rows[i].OrderRow? && o.direction == PAYIN && o.trader.Some?
    requires IsFrozen(rows[i].order.status)
    requires PostAll(l, CompleteOrderLegs(i, o, rewards).value).Ok?
    ensures RewardsLive(PostAll(l, CompleteOrderLegs(i, o, rewards).value).value,
                        rows[i := OrderRow(o.(status := OrderStatus.SUCCESS, rewards := rewards))])
  {
    assert RewardsLiveAt(l, i, rows[i].order);
    PaidAll(l, i, o, rewards);
    CompleteOrderNet(i, o, rewards, SYSTEM_WORK);
    OthersLive(l, rows, CompleteOrderLegs(i, o, rewards).value, Some(i));
  }

  lemma {:induction false} PaidAll(l: seq<Entry>, i: nat, o: Order, rewards: seq<Reward>)
    requires o.trader.Some? && PostAll(l, CompleteOrderLegs(i, o, rewards).value).Ok?
    requires Reversals(l, i) <= |Payments(l, i)| && LivePayments(l, i) == []
    ensures RewardsLiveAt(PostAll(l, CompleteOrderLegs(i, o, rewards).value).value, i,
                          o.(status := OrderStatus.SUCCESS, rewards := rewards))
  {
    var legs := CompleteOrderLegs(i, o, rewards).value;
    var head, tail := legs[..3], RewardLegs(i, rewards);
    assert legs == head + tail;
    PostAllWrites(l, legs);
    WrittenConcat(head, tail);
    PaymentsConcat(l, Written(legs), i);
    PaymentsConcat(Written(head), Written(tail), i);
    NoRewardsWritten(head, i);
    RewardsWritten(i, rewards);
  }

  // The collateral of a frozen order is always there to be released.
  lemma {:induction false} ReleaseNeverShort(l: seq<Entry>, rows: seq<Row>, i: nat)
    requires Sound(l, rows) && i < |rows| && rows[i].OrderRow?
    requires rows[i].order.direction == PAYIN && rows[i].order.trader.Some? && IsFrozen(rows[i].order.status)
    ensures Net(l, Escrow(Trader(rows[i].order.trader.value))) >= rows[i].order.amount
    ensures PostAll(l, CancelOrderLegs(i, rows[i].order).value).Ok? <==> rows[i].order.amount > 0
  {
    HoldIsCovered(l, rows, i, Escrow(Trader(rows[i].order.trader.value)));
    PostAllOne(l, CancelOrderLegs(i, rows[i].order).value[0]);
  }

  // A frozen order can be settled exactly when it is worth something, the
  // merchant can pay the fee out of the amount received, and the system float
  // and the fee cover the trader's fee and every teamlead reward.
  lemma {:induction false} SettlesExactly(l: seq<Entry>, rows: seq<Row>, i: nat, links: seq<Link>)
    requires Sound(l, rows) && i < |rows| && rows[i].OrderRow? && IsFrozen(rows[i].order.status)
    requires rows[i].order.direction == PAYIN && rows[i].order.trader.Some?
    ensures
      var o := rows[i].order;
      var rewards := RewardsFor(o.amount, links);
      PostAll(l, CompleteOrderLegs(i, o, rewards).value).Ok? <==>
      && o.amount > 0
      && o.fee <= Net(l, Work(Merchant(o.merchant))) + o.amount
      && o.traderFee + RewardSum(rewards) <= Net(l, SYSTEM_WORK) + o.fee
  {
    var o := rows[i].order;
    var rewards := RewardsFor(o.amount, links);
    var legs := CompleteOrderLegs(i, o, rewards).value;
    var head, tail := [legs[0], legs[1]], [legs[2]] + RewardLegs(i, rewards);
    assert legs == head + tail;
    PostAllConcat(l, head, tail);
    PrincipalAndFee(l, rows, i);
    assert CompleteOrderLegs(i, o, []).value[..2] == head;
    if PostAll(l, head).Ok? {
      RewardsPositive(o.amount, links);
      FeeThenRewards(PostAll(l, head).value, i, legs[2], rewards);
    }
  }

  // The first two transfers of a settlement.
  lemma {:induction false} PrincipalAndFee(l: seq<Entry>, rows: seq<Row>, i: nat)
    requires Sound(l, rows) && i < |rows| && rows[i].OrderRow? && IsFrozen(rows[i].order.status)
    requires rows[i].order.direction == PAYIN && rows[i].order.trader.Some?
    ensures
      var o := rows[i].order;
      var r := PostAll(l, CompleteOrderLegs(i, o, []).value[..2]);
      && (r.Ok? <==> o.amount > 0 && o.fee <= Net(l, Work(Merchant(o.merchant))) + o.amount)
      && (r.Ok? ==> Net(r.value, SYSTEM_WORK) == Net(l, SYSTEM_WORK) + o.fee && Net(r.value, SYSTEM_WORK) >= 0)
  {
    var o := rows[i].order;
    var legs := CompleteOrderLegs(i, o, []).value[..2];
    var escrow, work := Escrow(Trader(o.trader.value)), Work(Merchant(o.merchant));
    HoldIsCovered(l, rows, i, escrow);
    assert Net(l, escrow) >= o.amount;
    assert !MayOverdraw(SYSTEM_WORK) && Net(l, SYSTEM_WORK) >= 0;
    assert !MayOverdraw(work) && Net(l, work) >= 0;
    assert legs == [legs[0], legs[1]];
    PostAllTwo(l, legs[0], legs[1]);
    NetAppend(l, legs[0].entry, work);
    NetAppend(l, legs[0].entry, SYSTEM_WORK);
    NetAppend(l + [legs[0].entry], legs[1].entry, SYSTEM_WORK);
  }

  // Releasing a frozen order.
  lemma ReleaseStep(w: World, i: nat, o: Order, to: OrderStatus, rewards: seq<Reward>)
    requires Steady(w) && IsOrder(w, i) && o.direction == PAYIN && IsReleased(to)
    requires IsFrozen(w.rows[i].order.status) && w.rows[i].order == o.(status := w.rows[i].order.status)
    requires Release(w, i, o).Ok?
    ensures Steady(SetOrder(Release(w, i, o).value, i, o.(status := to, rewards := rewards)))
  {
    var o' := o.(status := to, rewards := rewards);
    if o.trader.None? {
      QuietStep(w, i, [], o');
    } else {
      var legs := CancelOrderLegs(i, o).value;
      ReleaseNeverShort(w.ledger, w.rows, i);
      forall a ensures LegsNet(legs, a) == OrderEffect(o', a) - OrderEffect(w.rows[i].order, a) {
        CancelOrderNet(i, o, a);
      }
      CancelOrderNet(i, o, SYSTEM_WORK);
      assert NoRewards(legs, i);
      QuietStep(w, i, legs, o');
    }
  }

  // The transitions the service's callers make: a settled order is refunded
  // only by the override, and a dispute opens only on an assigned order.
  predicate Reachable(o: Order, to: OrderStatus, force: bool) {
    && (force ==> IsTerminal(to))
    && (o.status.SUCCESS? && to.REFUNDED? ==> force)
    && (to.DISPUTED? ==> o.trader.Some?)
    && (o.status.CREATED? && to.PENDING? ==> o.trader.Some?)
  }

  // The rows a transition starts from: an assignment writes the trader first.
  predicate StartsOk(row: Row, to: OrderStatus) {
    || OrderOk(row)
    || (&& row.OrderRow? && row.order.direction == PAYIN && row.order.status.CREATED? && to.PENDING?
        && Positive(row.order.rewards))
  }

  lemma ChangeStatusKeeps(w: World, i: nat, to: OrderStatus, force: bool, links: seq<Link>)
    requires Steady(w) && IsOrder(w, i) && StartsOk(w.rows[i], to)
    requires forall j | 0 <= j < |w.rows| && j != i :: OrderOk(w.rows[j])
    requires Reachable(w.rows[i].order, to, force)
    requires ChangeStatus(w, i, to, force, links).Ok?
    requires w.rows[i].order.status != to
    ensures Kept(ChangeStatus(w, i, to, force, links).value)
  {
    var from := w.rows[i].order.status;
    if force && IsTerminal(from) {
      OverrideKeeps(w, i, to, links);
    } else if to.DISPUTED? {
      ReconcileStep(w, i);
    } else if to.SUCCESS? || IsReleased(to) {
      ExitKeeps(w, i, to, force, links);
    } else {
      EntryKeeps(w, i, to, force, links);
    }
  }

  // CREATED -> PENDING freezes; PENDING -> RECEIPT_UPLOADED moves nothing.
  lemma EntryKeeps(w: World, i: nat, to: OrderStatus, force: bool, links: seq<Link>)
    requires Steady(w) && IsOrder(w, i) && StartsOk(w.rows[i], to)
    requires !force && (to.PENDING? || to.RECEIPT_UPLOADED? || to.CREATED?) && w.rows[i].order.status != to
    requires to.PENDING? ==> w.rows[i].order.trader.Some?
    requires ChangeStatus(w, i, to, force, links).Ok?
    ensures Steady(ChangeStatus(w, i, to, force, links).value)
    ensures OrderOk(ChangeStatus(w, i, to, force, links).value.rows[i])
  {
    var o := w.rows[i].order;
    var o' := o.(status := to);
    if to.RECEIPT_UPLOADED? {
      QuietStep(w, i, [], o');
    } else {
      var legs := CreateOrderLegs(i, o).value;
      forall a ensures LegsNet(legs, a) == OrderEffect(o', a) - OrderEffect(o, a) {
        CreateOrderNet(i, o, a);
      }
      CreateOrderNet(i, o, SYSTEM_WORK);
      assert NoRewards(legs, i);
      QuietStep(w, i, legs, o');
    }
  }

  // Exits of a live order: settle, or release.
  lemma ExitKeeps(w: World, i: nat, to: OrderStatus, force: bool, links: seq<Link>)
    requires Steady(w) && IsOrder(w, i) && OrderOk(w.rows[i])
    requires IsTerminal(to) && !IsTerminal(w.rows[i].order.status)
    requires ChangeStatus(w, i, to, force, links).Ok?
    ensures Steady(ChangeStatus(w, i, to, force, links).value)
    ensures OrderOk(ChangeStatus(w, i, to, force, links).value.rows[i])
  {
    var o := w.rows[i].order;
    var rewards := RewardsAfter(o, to, links);
    RewardsPositive(o.amount, links);
    if o.status.CREATED? {
      QuietStep(w, i, [], o.(status := to, rewards := rewards));
    } else if to.SUCCESS? {
      SettleStep(w, i, o, rewards);
    } else {
      ReleaseStep(w, i, o, to, rewards);
    }
  }

  // An override between terminal states passes through the frozen state.
  lemma OverrideKeeps(w: World, i: nat, to: OrderStatus, links: seq<Link>)
    requires Steady(w) && IsOrder(w, i) && OrderOk(w.rows[i])
    requires IsTerminal(to) && IsTerminal(w.rows[i].order.status) && w.rows[i].order.status != to
    requires ChangeStatus(w, i, to, true, links).Ok?
    ensures Steady(ChangeStatus(w, i, to, true, links).value)
    ensures OrderOk(ChangeStatus(w, i, to, true, links).value.rows[i])
  {
    var o := w.rows[i].order;
    RewardsPositive(o.amount, links);
    ReconcileStep(w, i);
    OverrideStep(Reconcile(w, i, o, o.status).value, i, o, to, RewardsAfter(o, to, links));
  }

  // The second half of an override: exit from the frozen state it went through.
  lemma OverrideStep(w0: World, i: nat, o: Order, to: OrderStatus, rewards: seq<Reward>)
    requires IsOrder(w0, i) && o.direction == PAYIN && IsTerminal(to)
    requires Steady(SetOrder(w0, i, o.(status := DISPUTED)))
    requires to.SUCCESS? ==> Settle(w0, i, o, rewards).Ok?
    requires !to.SUCCESS? ==> Release(w0, i, o).Ok?
    ensures Steady(SetOrder(if to.SUCCESS? then Settle(w0, i, o, rewards).value else Release(w0, i, o).value, i,
                            o.(status := to, rewards := rewards)))
    ensures to.SUCCESS? ==> o.amount > 0
  {
    var mid := SetOrder(w0, i, o.(status := DISPUTED));
    if to.SUCCESS? {
      SettleStep(mid, i, o, rewards);
      assert SetOrder(Settle(mid, i, o, rewards).value, i, o.(status := to, rewards := rewards)) ==
             SetOrder(Settle(w0, i, o, rewards).value, i, o.(status := to, rewards := rewards));
    } else {
      ReleaseStep(mid, i, o, to, rewards);
      assert SetOrder(Release(mid, i, o).value, i, o.(status := to, rewards := rewards)) ==
             SetOrder(Release(w0, i, o).value, i, o.(status := to, rewards := rewards));
    }
  }
}
