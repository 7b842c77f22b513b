// The operations that drive an order: creation, assignment, receipts, the
// trader's and merchant's actions, provider callbacks and the admin override.

module OrderService {
  import opened Common
  import opened Rounding
  import opened Ledger
  import opened Rows
  import opened Finance
  import opened Database
  import opened Orders

  datatype OrderOp =
    | CreateAsync(merchant: nat, fiat: nat, rate: nat, feePercent: nat)
    | CreateSync(merchant: nat, fiat: nat, rate: nat, feePercent: nat, trader: nat, requisite: nat, traderFee: nat)
    | Assign(order: nat, trader: nat, requisite: nat, traderFee: nat)
    | UploadReceipt(order: nat)
    | Complete(order: nat, trader: nat, links: seq<Link>)
    | ProviderCallback(order: nat, virtualUser: nat, links: seq<Link>)
    | SettleFailed(order: nat, trader: nat, links: seq<Link>)
    | Fail(order: nat, caller: Option<nat>)
    | Cancel(order: nat, merchant: nat)
    | AdminStatus(order: nat, to: OrderStatus, links: seq<Link>)
    | AdminAmount(order: nat, fiat: nat, feePercent: nat)

  function NewOrder(merchant: nat, fiat: nat, rate: nat, feePercent: nat): Order
    requires rate > 0
  {
    var amount := HalfEven(fiat * UNIT, rate);
    Order(PAYIN, merchant, None, None, OrderStatus.CREATED, fiat, rate, amount,
          HalfEven(amount * feePercent, PERCENT), 0, [])
  }

  function CompleteOrder(w: World, i: nat, trader: nat, links: seq<Link>): Result<World, Error>
    requires IsOrder(w, i)
  {
    var o := w.rows[i].order;
    if o.trader != Some(trader) then Err(Forbidden)
    else if o.status.SUCCESS? then Ok(w)
    else if !o.status.PENDING? && !o.status.RECEIPT_UPLOADED? then Err(Conflict)
    else ChangeStatus(w, i, OrderStatus.SUCCESS, false, links)
  }

  predicate DisputeOpen(w: World, i: nat) {
    i in w.disputes && w.disputes[i].status.OPEN?
  }

  // `change_amount`: re-project the figures and move the difference in ESCROW.
  function ChangeAmount(w: World, i: nat, fiat: nat, feePercent: nat): Result<World, Error>
    requires IsOrder(w, i)
  {
    var o := w.rows[i].order;
    if o.rate == 0 then Ok(SetOrder(w, i, o.(fiat := fiat)))
    else
      var amount := HalfEven(fiat * UNIT, o.rate);
      var o' := o.(
        fiat := fiat,
        amount := amount,
        fee := HalfEven(amount * feePercent, PERCENT),
        traderFee := if o.traderFee > 0 && o.amount > 0 then HalfEven(o.traderFee * amount, o.amount) else o.traderFee);
      var legs :- RecalculateOrderLegs(i, o', o.amount, amount);
      var l :- PostAll(w.ledger, legs);
      Ok(SetOrder(w.(ledger := l), i, o'))
  }

  function Step(w: World, op: OrderOp): Result<World, Error> {
    match op
    case CreateAsync(merchant, fiat, rate, feePercent) =>
      if rate == 0 then Err(Validation)
      else Ok(w.(rows := w.rows + [OrderRow(NewOrder(merchant, fiat, rate, feePercent))]))
    case CreateSync(merchant, fiat, rate, feePercent, trader, requisite, traderFee) =>
      if rate == 0 then Err(Validation)
      else
        var o := NewOrder(merchant, fiat, rate, feePercent).(
          status := OrderStatus.PENDING, trader := Some(trader), requisite := Some(requisite), traderFee := traderFee);
        var legs :- CreateOrderLegs(|w.rows|, o);
        var l :- PostAll(w.ledger, legs);
        Ok(w.(ledger := l, rows := w.rows + [OrderRow(o)]))
    case Assign(i, trader, requisite, traderFee) =>
      if !IsOrder(w, i) || !w.rows[i].order.status.CREATED? then Ok(w)
      else
        var o := w.rows[i].order.(trader := Some(trader), requisite := Some(requisite), traderFee := traderFee);
        ChangeStatus(SetOrder(w, i, o), i, OrderStatus.PENDING, false, [])
    case UploadReceipt(i) =>
      if !IsOrder(w, i) then Err(NotFound)
      else
        var s := w.rows[i].order.status;
        if s.PENDING? then ChangeStatus(w, i, RECEIPT_UPLOADED, false, [])
        else if s.RECEIPT_UPLOADED? || s.DISPUTED? then Ok(w)
        else Err(Conflict)
    case Complete(i, trader, links) =>
      if !IsOrder(w, i) then Err(NotFound) else CompleteOrder(w, i, trader, links)
    case ProviderCallback(i, virtualUser, links) =>
      if !IsOrder(w, i) then Ok(w)
      else if IsFrozen(w.rows[i].order.status) then CompleteOrder(w, i, virtualUser, links)
      else Ok(w)
    case SettleFailed(i, trader, links) =>
      if !IsOrder(w, i) then Err(NotFound)
      else
        var o := w.rows[i].order;
        if o.trader != Some(trader) then Err(Forbidden)
        else if !o.status.FAILED? && !o.status.CANCELED? then Err(Conflict)
        else ChangeStatus(w, i, OrderStatus.SUCCESS, true, links)
    case Fail(i, caller) =>
      if !IsOrder(w, i) then Err(NotFound)
      else
        var o := w.rows[i].order;
        if caller.Some? && o.trader != caller then Err(Forbidden)
        else if !o.status.CREATED? && !o.status.PENDING? && !o.status.RECEIPT_UPLOADED? then Err(Conflict)
        else ChangeStatus(w, i, FAILED, false, [])
    case Cancel(i, merchant) =>
      if !IsOrder(w, i) || w.rows[i].order.merchant != merchant then Err(NotFound)
      else
        var s := w.rows[i].order.status;
        if !s.CREATED? && !s.PENDING? then Err(Conflict)
        else ChangeStatus(w, i, OrderStatus.CANCELED, false, [])
    case AdminStatus(i, to, links) =>
      if !IsOrder(w, i) then Err(NotFound)
      else if to == w.rows[i].order.status then Ok(w)
      else if !IsTerminal(to) || DisputeOpen(w, i) then Err(Conflict)
      else ChangeStatus(w, i, to, true, links)
    case AdminAmount(i, fiat, feePercent) =>
      if !IsOrder(w, i) then Err(NotFound)
      else if fiat == 0 then Err(Validation)
      else if fiat == w.rows[i].order.fiat then Ok(w)
      else if !w.rows[i].order.status.DISPUTED? then Err(Conflict)
      else ChangeAmount(w, i, fiat, feePercent)
  }

  // ── Invariants ──────────────────────────────────────────────────────────

  // An order is DISPUTED exactly while its dispute is OPEN.
  ghost predicate DisputesAgree(w: World) {
    && (forall i | i in w.disputes :: IsOrder(w, i))
    && (forall i: nat | IsOrder(w, i) :: w.rows[i].order.status.DISPUTED? <==> DisputeOpen(w, i))
  }

  ghost predicate Consistent(w: World) {
    Kept(w) && DisputesAgree(w)
  }

  // A transition rewrites one row: its status and reward breakdown.
  lemma ChangeStatusShape(w: World, i: nat, to: OrderStatus, force: bool, links: seq<Link>)
    requires IsOrder(w, i) && ChangeStatus(w, i, to, force, links).Ok?
    ensures
      var w' := ChangeStatus(w, i, to, force, links).value;
      && w'.disputes == w.disputes && |w'.rows| == |w.rows| && IsOrder(w', i)
      && w'.rows == w.rows[i := w'.rows[i]]
      && w'.rows[i].order == w.rows[i].order.(status := to, rewards := w'.rows[i].order.rewards)
  {
  }

  // An appended or rewritten row that is not disputed keeps the agreement.
  lemma AgreeAfter(w: World, w': World, i: nat)
    requires DisputesAgree(w) && w'.disputes == w.disputes
    requires |w.rows| <= |w'.rows| <= |w.rows| + 1 && i < |w'.rows|
    requires forall j | 0 <= j < |w.rows| && j != i :: w'.rows[j] == w.rows[j]
    requires |w'.rows| > |w.rows| ==> i == |w.rows|
    requires i < |w.rows| ==> (IsOrder(w, i) <==> IsOrder(w', i))
    requires IsOrder(w', i) ==> (w'.rows[i].order.status.DISPUTED? <==> DisputeOpen(w, i))
    ensures DisputesAgree(w')
  {
  }

  // A new order row.
  predicate FreshOrder(w: World, o: Order, legs: seq<Leg>) {
    && o.direction == PAYIN && o.rewards == []
    && ((o.status.CREATED? && legs == [] && o.trader.None?) ||
        (o.status.PENDING? && o.trader.Some? && legs == CreateOrderLegs(|w.rows|, o).value))
  }

  lemma {:induction false} NewOrderKeeps(w: World, o: Order, legs: seq<Leg>)
    requires Consistent(w) && FreshOrder(w, o, legs) && PostAll(w.ledger, legs).Ok?
    ensures Consistent(w.(ledger := PostAll(w.ledger, legs).value, rows := w.rows + [OrderRow(o)]))
  {
    var n := |w.rows|;
    var w' := w.(ledger := PostAll(w.ledger, legs).value, rows := w.rows + [OrderRow(o)]);
    NewOrderSound(w, o, legs);
    NewOrderRewards(w, o, legs);
    AgreeAfter(w, w', n);
  }

  lemma {:induction false} NewOrderSound(w: World, o: Order, legs: seq<Leg>)
    requires Sound(w.ledger, w.rows) && FreshOrder(w, o, legs) && PostAll(w.ledger, legs).Ok?
    ensures Sound(PostAll(w.ledger, legs).value, w.rows + [OrderRow(o)])
  {
    var n := |w.rows|;
    forall a ensures LegsNet(legs, a) == Effect(OrderRow(o), a) {
      if legs != [] {
        CreateOrderNet(n, o, a);
        assert o.(status := OrderStatus.PENDING) == o;
      }
    }
    CommitNew(w.ledger, w.rows, legs, OrderRow(o));
  }

  lemma {:induction false} NewOrderRewards(w: World, o: Order, legs: seq<Leg>)
    requires Kept(w) && FreshOrder(w, o, legs) && PostAll(w.ledger, legs).Ok?
    ensures RewardsLive(PostAll(w.ledger, legs).value, w.rows + [OrderRow(o)])
  {
    var n := |w.rows|;
    OthersLive(w.ledger, w.rows, legs, Some(n));
    NoPaymentsYet(w.ledger, n);
    LiveAfter(w.ledger, legs, n);
  }

  lemma {:induction false} NoPaymentsYet(l: seq<Entry>, n: nat)
    requires RefersBelow(l, n)
    ensures Payments(l, n) == [] && Reversals(l, n) == 0
  {
    if l != [] {
      assert l[|l| - 1].reference.row.Some? ==> l[|l| - 1].reference.row.value < n;
      NoPaymentsYet(l[..|l| - 1], n);
    }
  }

  // A transition made through the funnel by any of the operations below.
  lemma FunnelKeeps(w: World, i: nat, to: OrderStatus, force: bool, links: seq<Link>)
    requires Consistent(w) && IsOrder(w, i)
    requires Reachable(w.rows[i].order, to, force) && !to.DISPUTED?
    requires !DisputeOpen(w, i)
    requires ChangeStatus(w, i, to, force, links).Ok?
    ensures Consistent(ChangeStatus(w, i, to, force, links).value)
  {
    if to != w.rows[i].order.status {
      ChangeStatusKeeps(w, i, to, force, links);
      ChangeStatusShape(w, i, to, force, links);
      AgreeAfter(w, ChangeStatus(w, i, to, force, links).value, i);
    }
  }

  lemma AssignKeeps(w: World, op: OrderOp)
    requires op.Assign? && Consistent(w) && Step(w, op).Ok?
    ensures Consistent(Step(w, op).value)
  {
    if IsOrder(w, op.order) && w.rows[op.order].order.status.CREATED? {
      var i := op.order;
      var o := w.rows[i].order;
      var o' := o.(trader := Some(op.trader), requisite := Some(op.requisite), traderFee := op.traderFee);
      var w0 := SetOrder(w, i, o');
      QuietStep(w, i, [], o');
      assert w0 == SetOrder(w.(ledger := PostAll(w.ledger, []).value), i, o');
      ChangeStatusKeeps(w0, i, OrderStatus.PENDING, false, []);
      ChangeStatusShape(w0, i, OrderStatus.PENDING, false, []);
      assert w.rows[i].order.status.DISPUTED? <==> DisputeOpen(w, i);
      AgreeAfter(w, Step(w, op).value, i);
    }
  }

  // Re-projected figures of a disputed order, and the transfer that follows them.
  lemma {:induction false} ReprojectedNet(i: nat, o: Order, o': Order)
    requires o.status.DISPUTED? && o.direction == PAYIN && o.trader.Some?
    requires o' == o.(fiat := o'.fiat, amount := o'.amount, fee := o'.fee, traderFee := o'.traderFee)
    ensures
      var legs := RecalculateOrderLegs(i, o', o.amount, o'.amount);
      && legs.Ok? && For(legs.value, Some(i)) && NoRewards(legs.value, i)
      && (forall a :: LegsNet(legs.value, a) == OrderEffect(o', a) - OrderEffect(o, a))
  {
    var legs := RecalculateOrderLegs(i, o', o.amount, o'.amount).value;
    forall a ensures LegsNet(legs, a) == OrderEffect(o', a) - OrderEffect(o, a) && For(legs, Some(i)) {
      RecalculateOrderNet(i, o', o.amount, o'.amount, a);
    }
    assert For(legs, Some(i)) by { RecalculateOrderNet(i, o', o.amount, o'.amount, SYSTEM_WORK); }
  }

  // What re-projecting does, whether or not the amount changes.
  lemma ChangeAmountShape(w: World, i: nat, fiat: nat, feePercent: nat)
    requires IsOrder(w, i) && ChangeAmount(w, i, fiat, feePercent).Ok?
    requires w.rows[i].order.direction == PAYIN && w.rows[i].order.trader.Some?
    ensures
      var w' := ChangeAmount(w, i, fiat, feePercent).value;
      && IsOrder(w', i)
      && var o, o' := w.rows[i].order, w'.rows[i].order;
      && o' == o.(fiat := o'.fiat, amount := o'.amount, fee := o'.fee, traderFee := o'.traderFee)
      && var legs := RecalculateOrderLegs(i, o', o.amount, o'.amount);
      && legs.Ok? && PostAll(w.ledger, legs.value).Ok?
      && w' == SetOrder(w.(ledger := PostAll(w.ledger, legs.value).value), i, o')
  {
  }

  // Changing the amount of a disputed order moves exactly the difference.
  lemma ChangeAmountKeeps(w: World, i: nat, fiat: nat, feePercent: nat)
    requires Consistent(w) && IsOrder(w, i) && w.rows[i].order.status.DISPUTED?
    requires ChangeAmount(w, i, fiat, feePercent).Ok?
    ensures Consistent(ChangeAmount(w, i, fiat, feePercent).value)
  {
    var o := w.rows[i].order;
    var w' := ChangeAmount(w, i, fiat, feePercent).value;
    assert OrderOk(w.rows[i]);
    ChangeAmountShape(w, i, fiat, feePercent);
    var o' := w'.rows[i].order;
    ReprojectedNet(i, o, o');
    QuietStep(w, i, RecalculateOrderLegs(i, o', o.amount, o'.amount).value, o');
    AgreeAfter(w, w', i);
  }

  lemma StepKeeps(w: World, op: OrderOp)
    requires Consistent(w) && Step(w, op).Ok?
    ensures Consistent(Step(w, op).value)
  {
    match op
    case CreateAsync(merchant, fiat, rate, feePercent) =>
      NewOrderKeeps(w, NewOrder(merchant, fiat, rate, feePercent), []);
    case CreateSync(merchant, fiat, rate, feePercent, trader, requisite, traderFee) =>
      var o := NewOrder(merchant, fiat, rate, feePercent).(
        status := OrderStatus.PENDING, trader := Some(trader), requisite := Some(requisite), traderFee := traderFee);
      NewOrderKeeps(w, o, CreateOrderLegs(|w.rows|, o).value);
    case Assign(_, _, _, _) =>
      AssignKeeps(w, op);
    case AdminAmount(i, fiat, feePercent) =>
      if fiat != w.rows[i].order.fiat {
        ChangeAmountKeeps(w, i, fiat, feePercent);
      }
    case _ =>
      TransitionKeeps(w, op);
  }

  // The operations that are a guarded transition.
  lemma TransitionKeeps(w: World, op: OrderOp)
    requires !op.CreateAsync? && !op.CreateSync? && !op.Assign? && !op.AdminAmount?
    requires Consistent(w) && Step(w, op).Ok?
    ensures Consistent(Step(w, op).value)
  {
    if IsOrder(w, op.order) {
      var i := op.order;
      assert w.rows[i].order.status.DISPUTED? <==> DisputeOpen(w, i);
      assert OrderOk(w.rows[i]);
      match op
      case UploadReceipt(_) =>
        if w.rows[i].order.status.PENDING? {
          FunnelKeeps(w, i, RECEIPT_UPLOADED, false, []);
        }
      case Complete(_, trader, links) =>
        if !w.rows[i].order.status.SUCCESS? {
          FunnelKeeps(w, i, OrderStatus.SUCCESS, false, links);
        }
      case ProviderCallback(_, virtualUser, links) =>
        if IsFrozen(w.rows[i].order.status) {
          FunnelKeeps(w, i, OrderStatus.SUCCESS, false, links);
        }
      case SettleFailed(_, trader, links) =>
        FunnelKeeps(w, i, OrderStatus.SUCCESS, true, links);
      case Fail(_, _) =>
        FunnelKeeps(w, i, FAILED, false, []);
      case Cancel(_, _) =>
        FunnelKeeps(w, i, OrderStatus.CANCELED, false, []);
      case AdminStatus(_, to, links) =>
        if to != w.rows[i].order.status {
          FunnelKeeps(w, i, to, true, links);
        }
    }
  }

  // Two confirmations settle once: the second finds SUCCESS and changes nothing.
  lemma {:induction false} ConfirmTwiceIsOnce(w: World, i: nat, trader: nat, links: seq<Link>, again: seq<Link>,
                                              w': World)
    requires Step(w, Complete(i, trader, links)) == Ok(w')
    ensures Step(w', Complete(i, trader, again)) == Ok(w')
  {
    if !w.rows[i].order.status.SUCCESS? {
      ChangeStatusShape(w, i, OrderStatus.SUCCESS, false, links);
    }
  }

  // A provider callback never settles a disputed order: the completion it asks
  // for is refused while the order is DISPUTED.
  lemma CallbackSparesDisputes(w: World, i: nat, virtualUser: nat, links: seq<Link>)
    requires IsOrder(w, i) && w.rows[i].order.status.DISPUTED?
    ensures Step(w, ProviderCallback(i, virtualUser, links)).Err?
  {
  }

  // ── Where the funnel alone would be wrong ───────────────────────────────

  // The transition graph allows SUCCESS -> REFUNDED without the override. It
  // always goes through and releases collateral the order no longer has. The
  // books agree with the row afterwards only if there was nothing in ESCROW to
  // take, and the settlement it leaves in place moved nothing between accounts:
  // the whole amount went in fees and back to the trader, and nobody else was
  // paid.
  lemma {:induction false} UnforcedRefundBreaksBooks(w: World, i: nat)
    requires Kept(w) && IsOrder(w, i) && w.rows[i].order.status.SUCCESS?
    ensures w.rows[i].order.trader.Some? && ChangeStatus(w, i, REFUNDED, false, []).Ok?
    ensures
      var o, w' := w.rows[i].order, ChangeStatus(w, i, REFUNDED, false, []).value;
      Booked(w'.ledger, w'.rows) <==>
      && Net(w.ledger, Escrow(Trader(o.trader.value))) < o.amount
      && o.fee == o.amount && o.traderFee == o.amount && o.rewards == []
  {
    var o := w.rows[i].order;
    assert OrderOk(w.rows[i]);
    var escrow, legs := Escrow(Trader(o.trader.value)), CancelOrderLegs(i, o).value;
    PostAllOne(w.ledger, legs[0]);
    if Net(w.ledger, escrow) >= o.amount {
      RefundTakesAgain(w, i);
    } else {
      NothingMoved(o);
      RefundLeavesSettlement(w, i);
    }
  }

  // With other orders' collateral in ESCROW, it takes from them.
  lemma {:induction false} RefundTakesAgain(w: World, i: nat)
    requires Kept(w) && IsOrder(w, i) && w.rows[i].order.status.SUCCESS? && w.rows[i].order.trader.Some?
    requires w.rows[i].order.direction == PAYIN && w.rows[i].order.amount > 0
    requires PostAll(w.ledger, CancelOrderLegs(i, w.rows[i].order).value).Ok?
    ensures ChangeStatus(w, i, REFUNDED, false, []).Ok?
    ensures !Booked(ChangeStatus(w, i, REFUNDED, false, []).value.ledger,
                    ChangeStatus(w, i, REFUNDED, false, []).value.rows)
  {
    var o := w.rows[i].order;
    var a, w' := Escrow(Trader(o.trader.value)), ChangeStatus(w, i, REFUNDED, false, []).value;
    RewardEffectOnEscrow(o.rewards, a);
    assert NetOn(w.ledger, Some(i), a) == Effect(w.rows[i], a) == 0;
    CancelOrderNet(i, o, a);
    PostAllNet(w.ledger, CancelOrderLegs(i, o).value, Some(i), a);
    assert NetOn(w'.ledger, Some(i), a) == 0 - o.amount && Effect(w'.rows[i], a) == 0;
  }

  // With an empty one it takes nothing, and the settled position stays booked.
  lemma {:induction false} RefundLeavesSettlement(w: World, i: nat)
    requires Kept(w) && IsOrder(w, i) && w.rows[i].order.status.SUCCESS? && w.rows[i].order.trader.Some?
    requires w.rows[i].order.direction == PAYIN && w.rows[i].order.amount > 0
    requires PostAll(w.ledger, CancelOrderLegs(i, w.rows[i].order).value) == Err(InsufficientFunds)
    ensures ChangeStatus(w, i, REFUNDED, false, []).Ok?
    ensures Booked(ChangeStatus(w, i, REFUNDED, false, []).value.ledger,
                   ChangeStatus(w, i, REFUNDED, false, []).value.rows)
            <==> forall a :: OrderEffect(w.rows[i].order, a) == 0
  {
    var w' := ChangeStatus(w, i, REFUNDED, false, []).value;
    assert w'.ledger == w.ledger && w'.rows == w.rows[i := w'.rows[i]];
    forall a ensures Effect(w'.rows[i], a) == 0 && NetOn(w.ledger, Some(i), a) == OrderEffect(w.rows[i].order, a) {
      assert NetOn(w.ledger, Some(i), a) == Effect(w.rows[i], a);
    }
    if forall a :: OrderEffect(w.rows[i].order, a) == 0 {
      forall j, a | 0 <= j < |w'.rows| ensures NetOn(w'.ledger, Some(j), a) == Effect(w'.rows[j], a) {
        if j != i {
          assert NetOn(w.ledger, Some(j), a) == Effect(w.rows[j], a);
        }
      }
    }
  }

  // A settlement that moved nothing.
  lemma {:induction false} NothingMoved(o: Order)
    requires o.status.SUCCESS? && o.trader.Some? && Positive(o.rewards)
    ensures (forall a :: OrderEffect(o, a) == 0) <==> o.fee == o.amount && o.traderFee == o.amount && o.rewards == []
  {
    var trader, merchant := Work(Trader(o.trader.value)), Work(Merchant(o.merchant));
    RewardEffectAt(o.rewards, trader);
    RewardEffectAt(o.rewards, merchant);
    RewardEffectAt(o.rewards, SYSTEM_WORK);
    assert o.rewards != [] ==> o.rewards[0].amount > 0;
    if forall a :: OrderEffect(o, a) == 0 {
      assert OrderEffect(o, trader) == 0 && OrderEffect(o, merchant) == 0 && OrderEffect(o, SYSTEM_WORK) == 0;
    }
  }

  // A release tolerates a short ESCROW: the order then ends with its collateral
  // unreturned. Whichever released status it goes to, and on all accounts, the
  // books are right afterwards exactly when the ESCROW balance covers the order;
  // with no direct debit of ESCROW it always does.
  lemma {:induction false} ReleaseRightIffCovered(w: World, i: nat, to: OrderStatus, force: bool)
    requires Booked(w.ledger, w.rows) && IsOrder(w, i) && w.rows[i].order.direction == PAYIN
    requires IsFrozen(w.rows[i].order.status) && w.rows[i].order.trader.Some? && w.rows[i].order.amount > 0
    requires IsReleased(to) && (force || !to.REFUNDED?)
    ensures ChangeStatus(w, i, to, force, []).Ok?
    ensures
      var w' := ChangeStatus(w, i, to, force, []).value;
      Booked(w'.ledger, w'.rows) <==>
      Net(w.ledger, Escrow(Trader(w.rows[i].order.trader.value))) >= w.rows[i].order.amount
  {
    TolerantRelease(w, i, to, force);
    var o, w' := w.rows[i].order, ChangeStatus(w, i, to, force, []).value;
    if Net(w.ledger, Escrow(Trader(o.trader.value))) >= o.amount {
      ReleaseBooks(w, i, CancelOrderLegs(i, o).value, w'.rows[i]);
    } else {
      ReleasedUnpaid(w, i, w'.rows);
    }
  }

  // The status always moves on; the money only when it is there.
  lemma {:induction false} TolerantRelease(w: World, i: nat, to: OrderStatus, force: bool)
    requires IsOrder(w, i) && w.rows[i].order.direction == PAYIN
    requires IsFrozen(w.rows[i].order.status) && w.rows[i].order.trader.Some? && w.rows[i].order.amount > 0
    requires IsReleased(to) && (force || !to.REFUNDED?)
    ensures ChangeStatus(w, i, to, force, []).Ok?
    ensures
      var o, w' := w.rows[i].order, ChangeStatus(w, i, to, force, []).value;
      var legs := CancelOrderLegs(i, o).value;
      && w'.rows == w.rows[i := w'.rows[i]] && w'.rows[i].OrderRow? && w'.rows[i].order.status == to
      && if Net(w.ledger, Escrow(Trader(o.trader.value))) >= o.amount
         then PostAll(w.ledger, legs) == Ok(w'.ledger)
         else w'.ledger == w.ledger
  {
    var o := w.rows[i].order;
    PostAllOne(w.ledger, CancelOrderLegs(i, o).value[0]);
    assert Release(w, i, o).Ok?;
  }

  // Left behind in ESCROW, the collateral has no row to belong to.
  lemma {:induction false} ReleasedUnpaid(w: World, i: nat, rows: seq<Row>)
    requires Booked(w.ledger, w.rows) && IsOrder(w, i) && w.rows[i].order.direction == PAYIN
    requires IsFrozen(w.rows[i].order.status) && w.rows[i].order.trader.Some? && w.rows[i].order.amount > 0
    requires |rows| == |w.rows| && rows[i].OrderRow? && IsReleased(rows[i].order.status)
    ensures !Booked(w.ledger, rows)
  {
    var a := Escrow(Trader(w.rows[i].order.trader.value));
    assert NetOn(w.ledger, Some(i), a) == Effect(w.rows[i], a) == w.rows[i].order.amount;
    assert Effect(rows[i], a) == 0;
  }

  lemma {:induction false} ReleaseBooks(w: World, i: nat, legs: seq<Leg>, row: Row)
    requires Booked(w.ledger, w.rows) && IsOrder(w, i) && w.rows[i].order.direction == PAYIN
    requires IsFrozen(w.rows[i].order.status) && w.rows[i].order.trader.Some?
    requires legs == CancelOrderLegs(i, w.rows[i].order).value && PostAll(w.ledger, legs).Ok?
    requires row.OrderRow? && IsReleased(row.order.status)
    ensures Booked(PostAll(w.ledger, legs).value, w.rows[i := row])
  {
    var l, rows := PostAll(w.ledger, legs).value, w.rows[i := row];
    CancelOrderNet(i, w.rows[i].order, SYSTEM_WORK);
    PostAllRefers(w.ledger, legs, Some(i), |w.rows|);
    forall j, a | 0 <= j < |rows| ensures NetOn(l, Some(j), a) == Effect(rows[j], a) {
      CancelOrderNet(i, w.rows[i].order, a);
      PostAllNet(w.ledger, legs, Some(i), a);
      assert NetOn(w.ledger, Some(j), a) == Effect(w.rows[j], a);
      assert Some(j) != Some(i) ==> NetOn(l, Some(j), a) == NetOn(w.ledger, Some(j), a);
    }
  }
}
