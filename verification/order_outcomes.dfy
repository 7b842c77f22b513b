// Orders: exactly when each operation is accepted, and what it leaves behind.

module OrderOutcomes {
  import opened Common
  import opened Rounding
  import opened Ledger
  import opened Rows
  import opened Finance
  import opened Database
  import opened Orders
  import opened OrderService
  import opened Outcomes
  import Disputes
  import Platform

  // Only order i and the ledger change.
  ghost predicate Rewritten(w: World, w': World, i: nat, o: Order) {
    i < |w.rows| && w' == w.(ledger := w'.ledger, rows := w.rows[i := OrderRow(o)])
  }

  // ── Creation and assignment ─────────────────────────────────────────────

  // A new order is worth its fiat at its rate, and its fee is the percentage of
  // that. It starts without a trader and without money.
  lemma CreatesAsync(w: World, merchant: nat, fiat: nat, rate: nat, feePercent: nat, amount: nat, fee: nat)
    requires IsQuotient(fiat, rate, amount) && IsShare(amount, feePercent, fee)
    ensures OrderService.Step(w, CreateAsync(merchant, fiat, rate, feePercent)) ==
            if rate == 0 then Err(Validation)
            else
              Ok(w.(rows := w.rows + [OrderRow(
                Order(PAYIN, merchant, None, None, OrderStatus.CREATED, fiat, rate, amount, fee, 0, []))]))
  {
    if rate > 0 {
      QuotientIs(fiat, rate, amount);
      ShareIs(amount, feePercent, fee);
    }
  }

  // With a trader at hand it is created exactly when that trader's WORK covers
  // it, and takes exactly its amount into the trader's ESCROW.
  lemma {:induction false} CreatesSync(w: World, merchant: nat, fiat: nat, rate: nat, feePercent: nat, trader: nat,
                                       requisite: nat, traderFee: nat, amount: nat, fee: nat)
    requires Consistent(w) && IsQuotient(fiat, rate, amount) && IsShare(amount, feePercent, fee)
    ensures
      var r := OrderService.Step(w, CreateSync(merchant, fiat, rate, feePercent, trader, requisite, traderFee));
      var t := Trader(trader);
      && (r.Ok? <==> rate > 0 && 0 < amount <= Net(w.ledger, Work(t)))
      && (r.Ok? ==>
            && r.value == w.(ledger := r.value.ledger, rows := w.rows + [OrderRow(
                 Order(PAYIN, merchant, Some(trader), Some(requisite), OrderStatus.PENDING, fiat, rate, amount, fee,
                       traderFee, []))])
            && forall a :: Net(r.value.ledger, a) == Net(w.ledger, a) + Between(a, Work(t), Escrow(t), amount))
  {
    if rate > 0 {
      var op := CreateSync(merchant, fiat, rate, feePercent, trader, requisite, traderFee);
      var o := Order(PAYIN, merchant, Some(trader), Some(requisite), OrderStatus.PENDING, fiat, rate, amount, fee,
                     traderFee, []);
      QuotientIs(fiat, rate, amount);
      ShareIs(amount, feePercent, fee);
      CreateRow(w, op, o);
      if OrderService.Step(w, op).Ok? {
        CreateLeaves(w, op, o);
      }
    }
  }

  lemma {:induction false} CreateRow(w: World, op: OrderOp, o: Order)
    requires op.CreateSync? && op.rate > 0
    requires o == NewOrder(op.merchant, op.fiat, op.rate, op.feePercent).(
               status := OrderStatus.PENDING, trader := Some(op.trader), requisite := Some(op.requisite),
               traderFee := op.traderFee)
    ensures
      var r := OrderService.Step(w, op);
      && (r.Ok? <==> 0 < o.amount <= Net(w.ledger, Work(Trader(op.trader))))
      && (r.Ok? ==> r.value == w.(ledger := r.value.ledger, rows := w.rows + [OrderRow(o)]))
  {
    PostAllOne(w.ledger, CreateOrderLegs(|w.rows|, o).value[0]);
  }

  lemma {:induction false} CreateLeaves(w: World, op: OrderOp, o: Order)
    requires Consistent(w) && OrderService.Step(w, op).Ok? && o.status == OrderStatus.PENDING && o.trader.Some?
    requires OrderService.Step(w, op).value.rows == w.rows + [OrderRow(o)]
    ensures
      var t := Trader(o.trader.value);
      forall a :: Net(OrderService.Step(w, op).value.ledger, a) ==
                  Net(w.ledger, a) + Between(a, Work(t), Escrow(t), o.amount)
  {
    Enters(w, Platform.OnOrder(op), OrderService.Step(w, op).value, OrderRow(o));
  }

  // An assignment freezes the trader's collateral, if the WORK covers it. A
  // second one, or one that comes too late, does nothing.
  lemma {:induction false} Assigns(w: World, i: nat, trader: nat, requisite: nat, traderFee: nat)
    requires Consistent(w)
    ensures
      var r := OrderService.Step(w, Assign(i, trader, requisite, traderFee));
      var t := Trader(trader);
      if !IsOrder(w, i) || !w.rows[i].order.status.CREATED? then r == Ok(w)
      else
        var o := w.rows[i].order;
        && (r.Ok? <==> 0 < o.amount <= Net(w.ledger, Work(t)))
        && (r.Ok? ==>
              && Rewritten(w, r.value, i, Assigned(o, trader, requisite, traderFee))
              && forall a :: Net(r.value.ledger, a) == Net(w.ledger, a) + Between(a, Work(t), Escrow(t), o.amount))
  {
    if IsOrder(w, i) && w.rows[i].order.status.CREATED? {
      var op := Assign(i, trader, requisite, traderFee);
      assert OrderOk(w.rows[i]);
      AssignsRow(w, i, trader, requisite, traderFee);
      if OrderService.Step(w, op).Ok? {
        Rewrites(w, Platform.OnOrder(op), OrderService.Step(w, op).value, i,
                 OrderRow(Assigned(w.rows[i].order, trader, requisite, traderFee)));
      }
    }
  }

  function Assigned(o: Order, trader: nat, requisite: nat, traderFee: nat): Order {
    o.(status := OrderStatus.PENDING, trader := Some(trader), requisite := Some(requisite), traderFee := traderFee)
  }

  lemma {:induction false} AssignsRow(w: World, i: nat, trader: nat, requisite: nat, traderFee: nat)
    requires IsOrder(w, i) && w.rows[i].order.status.CREATED? && w.rows[i].order.direction == PAYIN
    ensures
      var o, r := w.rows[i].order, OrderService.Step(w, Assign(i, trader, requisite, traderFee));
      && (r.Ok? <==> 0 < o.amount <= Net(w.ledger, Work(Trader(trader))))
      && (r.Ok? ==> Rewritten(w, r.value, i, Assigned(o, trader, requisite, traderFee)))
  {
    var o := w.rows[i].order.(trader := Some(trader), requisite := Some(requisite), traderFee := traderFee);
    PostAllOne(w.ledger, CreateOrderLegs(i, o).value[0]);
  }

  // A receipt moves a pending order on, and no money.
  lemma UploadsReceipt(w: World, i: nat)
    ensures OrderService.Step(w, UploadReceipt(i)) ==
            if !IsOrder(w, i) then Err(NotFound)
            else
              var o := w.rows[i].order;
              if o.status.PENDING? then Ok(w.(rows := w.rows[i := OrderRow(o.(status := RECEIPT_UPLOADED))]))
              else if o.status.RECEIPT_UPLOADED? || o.status.DISPUTED? then Ok(w)
              else Err(Conflict)
  {
  }

  // ── Settlement ──────────────────────────────────────────────────────────

  // The merchant can pay the fee out of the amount it receives, and the system
  // float out of the fee what it owes the trader and the teamleads.
  predicate Affordable(l: seq<Entry>, o: Order, rewards: seq<Reward>) {
    && o.amount > 0
    && o.fee <= Net(l, Work(Merchant(o.merchant))) + o.amount
    && o.traderFee + RewardSum(rewards) <= Net(l, SYSTEM_WORK) + o.fee
  }

  // Where the money of a settlement goes: the amount from the trader to the
  // merchant, the fee on to the system, the trader's fee and the rewards out of it.
  function Settlement(o: Order, rewards: seq<Reward>, from: Account, a: Account): int
    requires o.trader.Some?
  {
    var t, m := Trader(o.trader.value), Merchant(o.merchant);
    Between(a, from, Work(m), o.amount) + Between(a, Work(m), SYSTEM_WORK, o.fee)
    + Between(a, SYSTEM_WORK, Work(t), o.traderFee) + Rewarded(a, rewards)
  }

  // Order i ends in SUCCESS, paid out of `from`.
  ghost predicate PaidOut(w: World, w': World, i: nat, rewards: seq<Reward>, from: Account) {
    && IsOrder(w, i) && w.rows[i].order.trader.Some?
    && var o := w.rows[i].order;
    && w'.rows == w.rows[i := OrderRow(o.(status := OrderStatus.SUCCESS, rewards := rewards))]
    && TurnoverGrows(w.limits, w'.limits, o.requisite, o.fiat)
    && forall a :: Net(w'.ledger, a) == Net(w.ledger, a) + Settlement(o, rewards, from, a)
  }

  // The funnel into SUCCESS from a frozen status, for completions and decisions.
  lemma {:induction false} SettlesFrozen(w: World, i: nat, links: seq<Link>)
    requires Consistent(w) && IsOrder(w, i) && IsFrozen(w.rows[i].order.status)
    ensures
      var o, r := w.rows[i].order, ChangeStatus(w, i, OrderStatus.SUCCESS, false, links);
      var rewards := RewardsFor(o.amount, links);
      && (r.Ok? <==> Affordable(w.ledger, o, rewards))
      && (r.Ok? ==>
            && r.value.disputes == w.disputes
            && TurnoverGrows(w.limits, r.value.limits, o.requisite, o.fiat)
            && r.value.rows == w.rows[i := OrderRow(o.(status := OrderStatus.SUCCESS, rewards := rewards))])
  {
    assert OrderOk(w.rows[i]);
    SettlesExactly(w.ledger, w.rows, i, links);
  }

  // The trader's confirmation: on a pending order it settles exactly when that
  // is affordable; on a settled one it does nothing; anything else is refused.
  lemma {:induction false} CompletesExactly(w: World, i: nat, trader: nat, links: seq<Link>)
    requires Consistent(w) && IsOrder(w, i)
    ensures
      var o, r := w.rows[i].order, OrderService.Step(w, Complete(i, trader, links));
      var rewards := RewardsFor(o.amount, links);
      if o.trader != Some(trader) then r == Err(Forbidden)
      else if o.status.SUCCESS? then r == Ok(w)
      else if !o.status.PENDING? && !o.status.RECEIPT_UPLOADED? then r == Err(Conflict)
      else
        && (r.Ok? <==> Affordable(w.ledger, o, rewards))
        && (r.Ok? ==> PaidOut(w, r.value, i, rewards, Escrow(Trader(trader))) && r.value.disputes == w.disputes)
  {
    var o, op := w.rows[i].order, Complete(i, trader, links);
    if o.trader == Some(trader) && (o.status.PENDING? || o.status.RECEIPT_UPLOADED?) {
      SettlesFrozen(w, i, links);
      if OrderService.Step(w, op).Ok? {
        var w', rewards := OrderService.Step(w, op).value, RewardsFor(o.amount, links);
        Rewrites(w, Platform.OnOrder(op), w', i, OrderRow(o.(status := OrderStatus.SUCCESS, rewards := rewards)));
        SettledFrozen(w.ledger, w'.ledger, o, rewards);
      }
    }
  }

  // The balances of a settlement out of the frozen state.
  lemma {:induction false} SettledFrozen(l: seq<Entry>, l': seq<Entry>, o: Order, rewards: seq<Reward>)
    requires IsFrozen(o.status) && o.trader.Some?
    requires Shifted(l, l', OrderRow(o), OrderRow(o.(status := OrderStatus.SUCCESS, rewards := rewards)))
    ensures forall a :: Net(l', a) == Net(l, a) + Settlement(o, rewards, Escrow(Trader(o.trader.value)), a)
  {
    forall a ensures Net(l', a) == Net(l, a) + Settlement(o, rewards, Escrow(Trader(o.trader.value)), a) {
      RewardedIs(rewards, a);
    }
  }

  // A provider's success callback is its virtual trader's confirmation while the
  // order is live, refused during a dispute, and nothing otherwise.
  lemma ConfirmsByCallback(w: World, i: nat, virtualUser: nat, links: seq<Link>)
    ensures OrderService.Step(w, ProviderCallback(i, virtualUser, links)) ==
            if IsOrder(w, i) && (w.rows[i].order.status.PENDING? || w.rows[i].order.status.RECEIPT_UPLOADED?
                                 || w.rows[i].order.status.DISPUTED?)
            then OrderService.Step(w, Complete(i, virtualUser, links))
            else Ok(w)
  {
  }

  // ── Release ─────────────────────────────────────────────────────────────

  // Order i ends in `to` without a breakdown, and its collateral goes back.
  ghost predicate Released(w: World, w': World, i: nat, to: OrderStatus) {
    && IsOrder(w, i)
    && var o := w.rows[i].order;
    && Rewritten(w, w', i, o.(status := to, rewards := []))
    && forall a :: Net(w'.ledger, a) == Net(w.ledger, a) + Collateral(o, a)
  }

  // What giving the collateral back does.
  function Collateral(o: Order, a: Account): int {
    if o.trader.None? then 0
    else Between(a, Escrow(Trader(o.trader.value)), Work(Trader(o.trader.value)), o.amount)
  }

  predicate IsLive(s: OrderStatus) {
    s.CREATED? || s.PENDING? || s.RECEIPT_UPLOADED?
  }

  // The funnel out of a live status without settling.
  lemma {:induction false} ReleasesLive(w: World, i: nat, to: OrderStatus)
    requires Consistent(w) && IsOrder(w, i) && (to.FAILED? || to.CANCELED?)
    requires IsLive(w.rows[i].order.status) && (to.CANCELED? ==> !w.rows[i].order.status.RECEIPT_UPLOADED?)
    ensures
      var o, r := w.rows[i].order, ChangeStatus(w, i, to, false, []);
      && (r.Ok? <==> o.trader.None? || o.amount > 0)
      && (r.Ok? ==> Rewritten(w, r.value, i, o.(status := to, rewards := [])))
  {
    var o := w.rows[i].order;
    assert OrderOk(w.rows[i]);
    FunnelReleases(w, i, to);
    if o.trader.Some? {
      ReleaseAccepted(w, i, o);
    }
  }

  lemma {:induction false} FunnelReleases(w: World, i: nat, to: OrderStatus)
    requires IsOrder(w, i) && (to.FAILED? || to.CANCELED?) && w.rows[i].order.direction == PAYIN
    requires IsLive(w.rows[i].order.status) && (to.CANCELED? ==> !w.rows[i].order.status.RECEIPT_UPLOADED?)
    ensures
      var o, r := w.rows[i].order, ChangeStatus(w, i, to, false, []);
      && (r.Ok? <==> Release(w, i, o).Ok?)
      && (r.Ok? ==> Rewritten(w, r.value, i, o.(status := to, rewards := [])))
  {
  }

  // The balances of a release.
  lemma {:induction false} ReleasedBalances(l: seq<Entry>, l': seq<Entry>, o: Order, to: OrderStatus)
    requires (o.status.CREATED? && o.trader.None?) || IsFrozen(o.status)
    requires to.FAILED? || to.CANCELED?
    requires Shifted(l, l', OrderRow(o), OrderRow(o.(status := to, rewards := [])))
    ensures forall a :: Net(l', a) == Net(l, a) + Collateral(o, a)
  {
  }

  // The trader on the order, or the system, fails it while it is live.
  lemma {:induction false} FailsExactly(w: World, i: nat, caller: Option<nat>)
    requires Consistent(w) && IsOrder(w, i)
    ensures
      var o, r := w.rows[i].order, OrderService.Step(w, Fail(i, caller));
      if caller.Some? && o.trader != caller then r == Err(Forbidden)
      else if IsLive(o.status) then
        && (r.Ok? <==> o.trader.None? || o.amount > 0)
        && (r.Ok? ==> Released(w, r.value, i, FAILED))
      else r == Err(Conflict)
  {
    var o := w.rows[i].order;
    if !(caller.Some? && o.trader != caller) && IsLive(o.status) {
      ReleasesLive(w, i, FAILED);
      assert OrderOk(w.rows[i]);
      if OrderService.Step(w, Fail(i, caller)).Ok? {
        var w' := OrderService.Step(w, Fail(i, caller)).value;
        Rewrites(w, Platform.OnOrder(Fail(i, caller)), w', i, OrderRow(o.(status := FAILED, rewards := [])));
        ReleasedBalances(w.ledger, w'.ledger, o, FAILED);
      }
    }
  }

  // Its merchant cancels it as long as no receipt was uploaded.
  lemma {:induction false} CancelsExactly(w: World, i: nat, merchant: nat)
    requires Consistent(w) && IsOrder(w, i)
    ensures
      var o, r := w.rows[i].order, OrderService.Step(w, OrderOp.Cancel(i, merchant));
      if o.merchant != merchant then r == Err(NotFound)
      else if o.status.CREATED? || o.status.PENDING? then
        && (r.Ok? <==> o.trader.None? || o.amount > 0)
        && (r.Ok? ==> Released(w, r.value, i, OrderStatus.CANCELED))
      else r == Err(Conflict)
  {
    var o := w.rows[i].order;
    if o.merchant == merchant && (o.status.CREATED? || o.status.PENDING?) {
      var op := OrderOp.Cancel(i, merchant);
      ReleasesLive(w, i, OrderStatus.CANCELED);
      assert OrderOk(w.rows[i]);
      if OrderService.Step(w, op).Ok? {
        var w' := OrderService.Step(w, op).value;
        Rewrites(w, Platform.OnOrder(op), w', i, OrderRow(o.(status := OrderStatus.CANCELED, rewards := [])));
        ReleasedBalances(w.ledger, w'.ledger, o, OrderStatus.CANCELED);
      }
    }
  }

  // ── Overrides ───────────────────────────────────────────────────────────

  // What the money of an order is away from where it was before the order.
  function Standing(o: Order, a: Account): int {
    if o.trader.None? then 0
    else
      var t := Trader(o.trader.value);
      match o.status
      case PENDING | RECEIPT_UPLOADED | DISPUTED => Between(a, Work(t), Escrow(t), o.amount)
      case SUCCESS => Settlement(o, o.rewards, Work(t), a)
      case CREATED | FAILED | CANCELED | REFUNDED => 0
  }

  lemma {:induction false} StandingIs(o: Order, a: Account)
    ensures OrderEffect(o, a) == Standing(o, a)
  {
    RewardedIs(o.rewards, a);
  }

  lemma {:induction false} Stands(l: seq<Entry>, l': seq<Entry>, o: Order, o': Order)
    requires Shifted(l, l', OrderRow(o), OrderRow(o'))
    ensures forall a :: Net(l', a) == Net(l, a) + Standing(o', a) - Standing(o, a)
  {
    forall a ensures Net(l', a) == Net(l, a) + Standing(o', a) - Standing(o, a) {
      StandingIs(o, a);
      StandingIs(o', a);
    }
  }

  // A released order is frozen again, whatever its trader has left, and settled
  // then: the same condition as for a pending one.
  lemma {:induction false} Resettles(w: World, i: nat, links: seq<Link>)
    requires Consistent(w) && IsOrder(w, i) && IsReleased(w.rows[i].order.status) && w.rows[i].order.trader.Some?
    ensures
      var o := w.rows[i].order;
      ChangeStatus(w, i, OrderStatus.SUCCESS, true, links).Ok? <==>
      Affordable(w.ledger, o, RewardsFor(o.amount, links))
  {
    var o := w.rows[i].order;
    assert OrderOk(w.rows[i]);
    if o.amount > 0 {
      var w0 := Refreezes(w, i);
      SettlesExactly(w0.ledger, w0.rows, i, links);
      assert CompleteOrderLegs(i, w0.rows[i].order, RewardsFor(o.amount, links)) ==
             CompleteOrderLegs(i, o, RewardsFor(o.amount, links));
    }
  }

  // The first half of an override of a released order.
  lemma {:induction false} Refreezes(w: World, i: nat) returns (w0: World)
    requires Consistent(w) && IsOrder(w, i) && IsReleased(w.rows[i].order.status) && w.rows[i].order.trader.Some?
    requires w.rows[i].order.amount > 0
    ensures Reconcile(w, i, w.rows[i].order, w.rows[i].order.status) == Ok(w0.(rows := w.rows))
    ensures w0.rows == w.rows[i := OrderRow(w.rows[i].order.(status := DISPUTED))]
    ensures Sound(w0.ledger, w0.rows) && w.rows[i].order.direction == PAYIN
    ensures Net(w0.ledger, Work(Merchant(w.rows[i].order.merchant))) ==
            Net(w.ledger, Work(Merchant(w.rows[i].order.merchant)))
    ensures Net(w0.ledger, SYSTEM_WORK) == Net(w.ledger, SYSTEM_WORK)
  {
    var o := w.rows[i].order;
    assert OrderOk(w.rows[i]);
    var freeze := ReconcileLegs(w.ledger, i, o, o.status).value[0];
    PostAllOne(w.ledger, freeze);
    ReconcileStep(w, i);
    w0 := SetOrder(Reconcile(w, i, o, o.status).value, i, o.(status := DISPUTED));
    NetAppend(w.ledger, freeze.entry, Work(Merchant(o.merchant)));
    NetAppend(w.ledger, freeze.entry, SYSTEM_WORK);
  }

  // The late confirmation of a failed or cancelled order by its trader.
  lemma {:induction false} SettlesFailedExactly(w: World, i: nat, trader: nat, links: seq<Link>)
    requires Consistent(w) && IsOrder(w, i)
    ensures
      var o, r := w.rows[i].order, OrderService.Step(w, SettleFailed(i, trader, links));
      var rewards := RewardsFor(o.amount, links);
      if o.trader != Some(trader) then r == Err(Forbidden)
      else if !o.status.FAILED? && !o.status.CANCELED? then r == Err(Conflict)
      else
        && (r.Ok? <==> Affordable(w.ledger, o, rewards))
        && (r.Ok? ==> PaidOut(w, r.value, i, rewards, Work(Trader(trader))) && r.value.disputes == w.disputes)
  {
    var o, op := w.rows[i].order, SettleFailed(i, trader, links);
    if o.trader == Some(trader) && (o.status.FAILED? || o.status.CANCELED?) {
      Resettles(w, i, links);
      if OrderService.Step(w, op).Ok? {
        OverrideLeaves(w, op, i, OrderStatus.SUCCESS, links);
      }
    }
  }

  // The breakdown an order is left with.
  function Breakdown(o: Order, to: OrderStatus, links: seq<Link>): seq<Reward> {
    if to.SUCCESS? then RewardsFor(o.amount, links) else if to.REFUNDED? then o.rewards else []
  }

  // An override leaves order i as `o'`, its turnover counted or not, and every
  // balance where it would be had the order always stood so.
  ghost predicate Overridden(w: World, w': World, i: nat, o': Order) {
    && IsOrder(w, i)
    && var o := w.rows[i].order;
    && w'.rows == w.rows[i := OrderRow(o')] && w'.disputes == w.disputes
    && (o.status.SUCCESS? ==> TurnoverShrinks(w.limits, w'.limits, o.requisite, o.fiat))
    && (o'.status.SUCCESS? ==> TurnoverGrows(w.limits, w'.limits, o.requisite, o.fiat))
    && (!o.status.SUCCESS? && !o'.status.SUCCESS? ==> w'.limits == w.limits)
    && forall a :: Net(w'.ledger, a) == Net(w.ledger, a) + Standing(o', a) - Standing(o, a)
  }

  lemma {:induction false} OverrideLeaves(w: World, op: OrderOp, i: nat, to: OrderStatus, links: seq<Link>)
    requires Consistent(w) && IsOrder(w, i) && !w.rows[i].order.status.DISPUTED? && w.rows[i].order.status != to
    requires to.SUCCESS? || IsReleased(to)
    requires OrderService.Step(w, op).Ok? && OrderService.Step(w, op) == ChangeStatus(w, i, to, true, links)
    ensures Overridden(w, OrderService.Step(w, op).value, i,
                       w.rows[i].order.(status := to, rewards := Breakdown(w.rows[i].order, to, links)))
  {
    var w', o := ChangeStatus(w, i, to, true, links).value, w.rows[i].order;
    var o' := o.(status := to, rewards := Breakdown(o, to, links));
    OverrideRow(w, i, to, links);
    Rewrites(w, Platform.OnOrder(op), w', i, OrderRow(o'));
    Stands(w.ledger, w'.ledger, o, o');
  }

  // What an override writes besides the ledger.
  lemma {:induction false} OverrideRow(w: World, i: nat, to: OrderStatus, links: seq<Link>)
    requires Consistent(w) && IsOrder(w, i) && !w.rows[i].order.status.DISPUTED? && w.rows[i].order.status != to
    requires to.SUCCESS? || IsReleased(to)
    requires ChangeStatus(w, i, to, true, links).Ok?
    ensures
      var o, w' := w.rows[i].order, ChangeStatus(w, i, to, true, links).value;
      && w'.rows == w.rows[i := OrderRow(o.(status := to, rewards := Breakdown(o, to, links)))]
      && w'.disputes == w.disputes
      && (o.status.SUCCESS? ==> TurnoverShrinks(w.limits, w'.limits, o.requisite, o.fiat))
      && (to.SUCCESS? ==> TurnoverGrows(w.limits, w'.limits, o.requisite, o.fiat))
      && (!o.status.SUCCESS? && !to.SUCCESS? ==> w'.limits == w.limits)
  {
    var o := w.rows[i].order;
    assert OrderOk(w.rows[i]);
    if IsTerminal(o.status) {
      var w0 := Reconcile(w, i, o, o.status).value;
      ExitRow(w0, i, o, to, links);
    } else {
      ExitRow(w, i, o, to, links);
    }
  }

  // Its second half.
  lemma {:induction false} ExitRow(w0: World, i: nat, o: Order, to: OrderStatus, links: seq<Link>)
    requires if to.SUCCESS? then Settle(w0, i, o, RewardsFor(o.amount, links)).Ok? else Release(w0, i, o).Ok?
    ensures to.SUCCESS? ==>
              var w' := Settle(w0, i, o, RewardsFor(o.amount, links)).value;
              w'.rows == w0.rows && w'.disputes == w0.disputes
                  && TurnoverGrows(w0.limits, w'.limits, o.requisite, o.fiat)
    ensures !to.SUCCESS? ==> Release(w0, i, o).value == w0.(ledger := Release(w0, i, o).value.ledger)
  {
  }

  // When the administrator may set a terminal status: what was paid out must be
  // there to be taken back, and what is to be paid affordable. Nothing is asked
  // of the trader, whose WORK may go below zero.
  predicate Overridable(l: seq<Entry>, o: Order, to: OrderStatus, links: seq<Link>) {
    && (o.status.SUCCESS? ==> Disputes.CanUnsettle(l, o))
    && (if to.SUCCESS? then o.trader.Some? && Affordable(l, o, RewardsFor(o.amount, links))
        else o.trader.None? || o.amount > 0)
  }

  lemma {:induction false} OverridesTo(w: World, i: nat, to: OrderStatus, links: seq<Link>)
    requires Consistent(w) && IsOrder(w, i) && !w.rows[i].order.status.DISPUTED? && w.rows[i].order.status != to
    requires to.SUCCESS? || IsReleased(to)
    ensures ChangeStatus(w, i, to, true, links).Ok? <==> Overridable(w.ledger, w.rows[i].order, to, links)
  {
    var o := w.rows[i].order;
    assert OrderOk(w.rows[i]);
    if o.trader.Some? {
      if o.status.SUCCESS? {
        UnsettlesThenReleases(w, i, to, links);
      } else if to.SUCCESS? {
        if IsReleased(o.status) {
          Resettles(w, i, links);
        } else {
          SettlesExactly(w.ledger, w.rows, i, links);
        }
      } else {
        ReleasesAgain(w, i, to, links);
      }
    }
  }

  lemma {:induction false} UnsettlesThenReleases(w: World, i: nat, to: OrderStatus, links: seq<Link>)
    requires Consistent(w) && IsOrder(w, i) && w.rows[i].order.status.SUCCESS? && IsReleased(to)
    ensures ChangeStatus(w, i, to, true, links).Ok? <==> Disputes.CanUnsettle(w.ledger, w.rows[i].order)
  {
    var o := w.rows[i].order;
    assert OrderOk(w.rows[i]) && RewardsLiveAt(w.ledger, i, o);
    Disputes.UnsettlesExactly(w.ledger, i, o);
    OverrideReleases(w, i, to, links);
    var r := Reconcile(w, i, o, o.status);
    assert r.Ok? <==> Disputes.CanUnsettle(w.ledger, o);
    if r.Ok? {
      ReleaseAccepted(r.value, i, o);
    }
  }

  lemma {:induction false} OverrideReleases(w: World, i: nat, to: OrderStatus, links: seq<Link>)
    requires IsOrder(w, i) && IsReleased(to) && w.rows[i].order.status != to
    ensures
      var o := w.rows[i].order;
      var r := if IsTerminal(o.status) then Reconcile(w, i, o, o.status) else Ok(w);
      ChangeStatus(w, i, to, true, links).Ok? <==> r.Ok? && Release(r.value, i, o).Ok?
  {
  }

  // A release is refused only when there is nothing to release.
  lemma {:induction false} ReleaseAccepted(w: World, i: nat, o: Order)
    requires o.direction == PAYIN && o.trader.Some?
    ensures Release(w, i, o).Ok? <==> o.amount > 0
  {
    PostAllOne(w.ledger, CancelOrderLegs(i, o).value[0]);
  }

  lemma {:induction false} ReleasesAgain(w: World, i: nat, to: OrderStatus, links: seq<Link>)
    requires Consistent(w) && IsOrder(w, i) && w.rows[i].order.trader.Some? && IsReleased(to)
    requires !w.rows[i].order.status.SUCCESS? && !w.rows[i].order.status.CREATED? && w.rows[i].order.status != to
    ensures ChangeStatus(w, i, to, true, links).Ok? <==> w.rows[i].order.amount > 0
  {
    var o := w.rows[i].order;
    assert OrderOk(w.rows[i]);
    OverrideReleases(w, i, to, links);
    ReleaseAccepted(w, i, o);
    if IsReleased(o.status) && o.amount > 0 {
      var w0 := Refreezes(w, i);
      ReleaseAccepted(w0.(rows := w.rows), i, o);
    }
  }

  // The administrator's override: exactly when it goes through, and what becomes
  // of the order, the turnover and every balance.
  lemma {:induction false} OverridesExactly(w: World, i: nat, to: OrderStatus, links: seq<Link>)
    requires Consistent(w) && IsOrder(w, i)
    ensures
      var o, r := w.rows[i].order, OrderService.Step(w, AdminStatus(i, to, links));
      var o' := o.(status := to, rewards := Breakdown(o, to, links));
      if to == o.status then r == Ok(w)
      else if !(to.SUCCESS? || IsReleased(to)) || o.status.DISPUTED? then r == Err(Conflict)
      else
        && (r.Ok? <==> Overridable(w.ledger, o, to, links))
        && (r.Ok? ==> Overridden(w, r.value, i, o'))
  {
    var o, op := w.rows[i].order, AdminStatus(i, to, links);
    assert o.status.DISPUTED? <==> DisputeOpen(w, i);
    if to != o.status && (to.SUCCESS? || IsReleased(to)) && !o.status.DISPUTED? {
      OverridesTo(w, i, to, links);
      if OrderService.Step(w, op).Ok? {
        OverrideLeaves(w, op, i, to, links);
      }
    }
  }

  // ── Another amount ──────────────────────────────────────────────────────

  // The trader's fee keeps its proportion to the amount.
  predicate IsRescaled(before: nat, fee: nat, after: nat, fee': nat) {
    if fee == 0 || before == 0 then fee' == fee
    else
      && 0 - before <= 2 * (fee' * before - fee * after) <= before
      && ((2 * (fee' * before - fee * after) == before || 2 * (fee * after - fee' * before) == before) ==>
            fee' % 2 == 0)
  }

  // Re-projecting a disputed order on another fiat amount takes the difference
  // from the trader's WORK, if it is there, or gives it back.
  lemma {:induction false} ReprojectsExactly(w: World, i: nat, fiat: nat, feePercent: nat, amount: nat, fee: nat,
                                             traderFee: nat)
    requires Consistent(w) && IsOrder(w, i)
    requires IsQuotient(fiat, w.rows[i].order.rate, amount) && IsShare(amount, feePercent, fee)
    requires IsRescaled(w.rows[i].order.amount, w.rows[i].order.traderFee, amount, traderFee)
    ensures
      var o, r := w.rows[i].order, OrderService.Step(w, AdminAmount(i, fiat, feePercent));
      if fiat == 0 then r == Err(Validation)
      else if fiat == o.fiat then r == Ok(w)
      else if !o.status.DISPUTED? then r == Err(Conflict)
      else if o.rate == 0 then r == Ok(w.(rows := w.rows[i := OrderRow(o.(fiat := fiat))]))
      else
        && o.trader.Some?
        && var t := Trader(o.trader.value);
        && (r.Ok? <==> amount <= o.amount || amount - o.amount <= Net(w.ledger, Work(t)))
        && (r.Ok? ==>
              && Rewritten(w, r.value, i, o.(fiat := fiat, amount := amount, fee := fee, traderFee := traderFee))
              && forall a :: Net(r.value.ledger, a) ==
                             Net(w.ledger, a) + Between(a, Work(t), Escrow(t), amount - o.amount))
  {
    var o, op := w.rows[i].order, AdminAmount(i, fiat, feePercent);
    assert OrderOk(w.rows[i]);
    if fiat > 0 && fiat != o.fiat && o.status.DISPUTED? && o.rate > 0 {
      var o' := o.(fiat := fiat, amount := amount, fee := fee, traderFee := traderFee);
      ReprojectsRow(w, i, fiat, feePercent, o');
      assert OrderService.Step(w, op) == ChangeAmount(w, i, fiat, feePercent);
      if OrderService.Step(w, op).Ok? {
        ReprojectionLeaves(w, op, i, o');
      }
    }
  }

  lemma {:induction false} ReprojectsRow(w: World, i: nat, fiat: nat, feePercent: nat, o': Order)
    requires Consistent(w) && IsOrder(w, i) && w.rows[i].order.rate > 0 && w.rows[i].order.status.DISPUTED?
    requires w.rows[i].order.trader.Some? && w.rows[i].order.direction == PAYIN
    requires IsQuotient(fiat, w.rows[i].order.rate, o'.amount) && IsShare(o'.amount, feePercent, o'.fee)
    requires IsRescaled(w.rows[i].order.amount, w.rows[i].order.traderFee, o'.amount, o'.traderFee)
    requires o' == w.rows[i].order.(fiat := fiat, amount := o'.amount, fee := o'.fee, traderFee := o'.traderFee)
    ensures
      var o, r := w.rows[i].order, ChangeAmount(w, i, fiat, feePercent);
      && (r.Ok? <==> o'.amount <= o.amount || o'.amount - o.amount <= Net(w.ledger, Work(Trader(o.trader.value))))
      && (r.Ok? ==> Rewritten(w, r.value, i, o'))
  {
    ReprojectedFigures(w, i, fiat, feePercent, o');
    RecalculatesExactly(w, i, o');
  }

  lemma {:induction false} ReprojectionLeaves(w: World, op: OrderOp, i: nat, o': Order)
    requires Consistent(w) && IsOrder(w, i) && w.rows[i].order.status.DISPUTED? && w.rows[i].order.trader.Some?
    requires OrderService.Step(w, op).Ok? && Rewritten(w, OrderService.Step(w, op).value, i, o')
    requires o'.status.DISPUTED? && o'.trader == w.rows[i].order.trader
    ensures
      var w', o := OrderService.Step(w, op).value, w.rows[i].order;
      var t := Trader(o.trader.value);
      forall a :: Net(w'.ledger, a) == Net(w.ledger, a) + Between(a, Work(t), Escrow(t), o'.amount - o.amount)
  {
    var w', o := OrderService.Step(w, op).value, w.rows[i].order;
    Rewrites(w, Platform.OnOrder(op), w', i, OrderRow(o'));
    ReprojectedBalances(w.ledger, w'.ledger, o, o');
  }

  lemma {:induction false} ReprojectedBalances(l: seq<Entry>, l': seq<Entry>, o: Order, o': Order)
    requires Shifted(l, l', OrderRow(o), OrderRow(o')) && o.status.DISPUTED? && o.trader.Some?
    requires o'.status == o.status && o'.trader == o.trader
    ensures
      var t := Trader(o.trader.value);
      forall a :: Net(l', a) == Net(l, a) + Between(a, Work(t), Escrow(t), o'.amount - o.amount)
  {
  }

  lemma {:induction false} ReprojectedFigures(w: World, i: nat, fiat: nat, feePercent: nat, o': Order)
    requires IsOrder(w, i) && w.rows[i].order.rate > 0
    requires IsQuotient(fiat, w.rows[i].order.rate, o'.amount) && IsShare(o'.amount, feePercent, o'.fee)
    requires IsRescaled(w.rows[i].order.amount, w.rows[i].order.traderFee, o'.amount, o'.traderFee)
    requires o' == w.rows[i].order.(fiat := fiat, amount := o'.amount, fee := o'.fee, traderFee := o'.traderFee)
    ensures
      var legs := RecalculateOrderLegs(i, o', w.rows[i].order.amount, o'.amount);
      ChangeAmount(w, i, fiat, feePercent) ==
      if legs.Err? then Err(legs.error)
      else
        var l := PostAll(w.ledger, legs.value);
        if l.Err? then Err(l.error) else Ok(SetOrder(w.(ledger := l.value), i, o'))
  {
    var o := w.rows[i].order;
    QuotientIs(fiat, o.rate, o'.amount);
    ShareIs(o'.amount, feePercent, o'.fee);
    if o.traderFee > 0 && o.amount > 0 {
      HalfEvenUnique(o.traderFee * o'.amount, o.amount, o'.traderFee);
    }
  }

  lemma {:induction false} RecalculatesExactly(w: World, i: nat, o': Order)
    requires Consistent(w) && IsOrder(w, i) && w.rows[i].order.status.DISPUTED? && w.rows[i].order.trader.Some?
    requires o'.direction == PAYIN && o'.trader == w.rows[i].order.trader
    ensures
      var o := w.rows[i].order;
      var legs := RecalculateOrderLegs(i, o', o.amount, o'.amount);
      && legs.Ok?
      && (PostAll(w.ledger, legs.value).Ok? <==>
            o'.amount <= o.amount || o'.amount - o.amount <= Net(w.ledger, Work(Trader(o.trader.value))))
  {
    var o := w.rows[i].order;
    HoldIsCovered(w.ledger, w.rows, i, Escrow(Trader(o.trader.value)));
    if o.amount != o'.amount {
      PostAllOne(w.ledger, RecalculateOrderLegs(i, o', o.amount, o'.amount).value[0]);
    }
  }
}
