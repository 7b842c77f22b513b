// One database session: the stored balance rows, the ledger and the business
// rows, updated in place by finance/service.py. Every method is proved to post
// exactly the transfers listed for it in finance.dfy, and to keep each stored
// balance equal to the fold of the ledger.

module Sessions {
  import opened Common
  import opened Rounding
  import opened Ledger
  import opened Rows
  import opened Finance
  import opened Database

  // What `transfer` refuses, in its order; `keys` are the balance rows there are.
  function Refusal(keys: set<Account>, l: seq<Entry>, e: Entry, overdraft: bool): Option<Error> {
    if e.amount <= 0 then Some(AmountNotPositive)
    else if e.from.None? && e.to.None? then Some(NoBalanceGiven)
    else if (e.from.Some? && e.from.value !in keys) || (e.to.Some? && e.to.value !in keys) then Some(BalanceNotFound)
    else Check(l, e, overdraft)
  }

  // The outcome of an operation that makes a list of transfers.
  predicate Posted(before: seq<Entry>, legs: seq<Leg>, after: seq<Entry>, r: Result<(), Error>) {
    PostAll(before, legs) == if r.Ok? then Ok(after) else Err(r.error)
  }

  class Session {
    var balances: map<Account, int>
    var entries: seq<Entry>
    var rows: seq<Row>
    var disputes: map<nat, Dispute>
    var limits: map<nat, Limit>

    function Stored(a: Account): int
      reads this`balances
    {
      if a in balances then balances[a] else 0
    }

    ghost predicate Valid()
      reads this`balances, this`entries
    {
      forall a :: Stored(a) == Net(entries, a)
    }

    function Snapshot(): World
      reads this`entries, this`rows, this`disputes, this`limits
    {
      World(entries, rows, disputes, limits)
    }

    constructor ()
      ensures Valid() && Snapshot() == World([], [], map[], map[])
    {
      balances, entries, rows, disputes, limits := map[], [], [], map[], map[];
    }

    // What leaving a failed transaction does.
    method Rollback(w: World, stored: map<Account, int>)
      requires forall a :: (if a in stored then stored[a] else 0) == Net(w.ledger, a)
      modifies this
      ensures Valid() && Snapshot() == w && balances == stored
    {
      balances, entries, rows, disputes, limits := stored, w.ledger, w.rows, w.disputes, w.limits;
    }

    // ── The only writer of balances ───────────────────────────────────────

    // `transfer`. The source account is debited before the currency of the
    // target is checked, so that one refusal leaves a debit behind: its callers
    // roll the transaction back.
    method Transfer(e: Entry, overdraft: bool) returns (r: Result<(), Error>)
      requires Valid()
      modifies this`balances, this`entries
      ensures r == match Refusal(old(balances.Keys), old(entries), e, overdraft)
                   case Some(error) => Err(error)
                   case None => Ok(())
      ensures r.Ok? ==> Valid() && entries == old(entries) + [e] && balances.Keys == old(balances.Keys)
      ensures r.Err? ==> entries == old(entries)
      ensures r.Err? && r != Err(ToCurrencyMismatch) ==> balances == old(balances)
      ensures r == Err(ToCurrencyMismatch) && e.from.Some? ==>
                balances == old(balances)[e.from.value := old(balances)[e.from.value] - e.amount]
    {
      if e.amount <= 0 {
        return Err(AmountNotPositive);
      }
      if e.from.None? && e.to.None? {
        return Err(NoBalanceGiven);
      }
      if (e.from.Some? && e.from.value !in balances) || (e.to.Some? && e.to.value !in balances) {
        return Err(BalanceNotFound);
      }
      forall a ensures Net(entries + [e], a) == Net(entries, a) + Credit(e, a) {
        NetAppend(entries, e, a);
      }
      if e.from.Some? {
        var from := e.from.value;
        assert Stored(from) == Net(entries, from);
        if from.currency != e.currency {
          return Err(FromCurrencyMismatch);
        }
        if !overdraft && balances[from] < e.amount {
          return Err(InsufficientFunds);
        }
        balances := balances[from := balances[from] - e.amount];
      }
      if e.to.Some? {
        var to := e.to.value;
        if to.currency != e.currency {
          return Err(ToCurrencyMismatch);
        }
        balances := balances[to := balances[to] + e.amount];
      }
      entries := entries + [e];
      r := Ok(());
    }

    // `get_or_create_*_balance`
    method GetOrCreate(a: Account) returns (amount: int)
      requires Valid()
      modifies this`balances
      ensures Valid() && a in balances && amount == balances[a] == Net(entries, a)
      ensures old(balances.Keys) <= balances.Keys
    {
      if a !in balances {
        assert Stored(a) == 0;
        balances := balances[a := 0];
        assert forall b :: Stored(b) == old(Stored(b));
      }
      assert Stored(a) == Net(entries, a);
      amount := balances[a];
    }

    // A guarded transfer between two balances that are created when missing.
    method Move(leg: Leg) returns (r: Result<(), Error>)
      requires Valid()
      modifies this`balances, this`entries
      ensures Post(old(entries), leg) == if r.Ok? then Ok(entries) else Err(r.error)
      ensures r.Err? ==> entries == old(entries)
      ensures r != Err(ToCurrencyMismatch) ==> Valid()
    {
      if leg.optional && leg.entry.amount <= 0 {
        return Ok(());
      }
      if leg.entry.from.Some? {
        var _ := GetOrCreate(leg.entry.from.value);
      }
      if leg.entry.to.Some? {
        var _ := GetOrCreate(leg.entry.to.value);
      }
      r := Transfer(leg.entry, leg.overdraft);
    }

    // One more transfer after those already made since `before`.
    method MoveNext(ghost before: seq<Entry>, ghost made: seq<Leg>, leg: Leg) returns (r: Result<(), Error>)
      requires Valid() && PostAll(before, made) == Ok(entries)
      modifies this`balances, this`entries
      ensures r.Ok? ==> Valid()
      ensures Posted(before, made + [leg], entries, r)
    {
      PostAllConcat(before, made, [leg]);
      PostAllOne(entries, leg);
      r := Move(leg);
    }

    // ── Orders ────────────────────────────────────────────────────────────

    method CreateOrder(i: nat, o: Order) returns (r: Result<(), Error>)
      requires Valid()
      modifies this`balances, this`entries
      ensures r.Ok? ==> Valid()
      ensures CreateOrderLegs(i, o).Ok? ==> Posted(old(entries), CreateOrderLegs(i, o).value, entries, r)
      ensures CreateOrderLegs(i, o).Err? ==> r == Err(CreateOrderLegs(i, o).error)
    {
      if o.direction == PAYIN {
        if o.trader.None? {
          return Err(Validation);
        }
        var t := Trader(o.trader.value);
        PostAllOne(entries, Xfer(ORDER_PAYIN, Some(i), Plain, Work(t), Escrow(t), o.amount));
        r := Move(Xfer(ORDER_PAYIN, Some(i), Plain, Work(t), Escrow(t), o.amount));
      } else {
        var m := Merchant(o.merchant);
        PostAllOne(entries, Xfer(ORDER_PAYOUT, Some(i), Plain, Work(m), Escrow(m), o.amount));
        r := Move(Xfer(ORDER_PAYOUT, Some(i), Plain, Work(m), Escrow(m), o.amount));
      }
    }

    method CancelOrder(i: nat, o: Order) returns (r: Result<(), Error>)
      requires Valid()
      modifies this`balances, this`entries
      ensures r.Ok? ==> Valid()
      ensures CancelOrderLegs(i, o).Ok? ==> Posted(old(entries), CancelOrderLegs(i, o).value, entries, r)
      ensures CancelOrderLegs(i, o).Err? ==> r == Err(CancelOrderLegs(i, o).error)
      ensures r == Err(InsufficientFunds) ==> Valid() && entries == old(entries)
    {
      if o.direction == PAYIN {
        if o.trader.None? {
          return Err(Validation);
        }
        var t := Trader(o.trader.value);
        PostAllOne(entries, Xfer(ORDER_PAYIN, Some(i), Plain, Escrow(t), Work(t), o.amount));
        r := Move(Xfer(ORDER_PAYIN, Some(i), Plain, Escrow(t), Work(t), o.amount));
      } else {
        var m := Merchant(o.merchant);
        PostAllOne(entries, Xfer(ORDER_PAYOUT, Some(i), Plain, Escrow(m), Work(m), o.amount));
        r := Move(Xfer(ORDER_PAYOUT, Some(i), Plain, Escrow(m), Work(m), o.amount));
      }
    }

    method RecalculateOrder(i: nat, o: Order, before: nat, after: nat) returns (r: Result<(), Error>)
      requires Valid()
      modifies this`balances, this`entries
      ensures r.Ok? ==> Valid()
      ensures RecalculateOrderLegs(i, o, before, after).Ok? ==>
                Posted(old(entries), RecalculateOrderLegs(i, o, before, after).value, entries, r)
      ensures RecalculateOrderLegs(i, o, before, after).Err? ==>
                r == Err(RecalculateOrderLegs(i, o, before, after).error)
    {
      var delta := after - before;
      if delta == 0 {
        return Ok(());
      }
      if o.direction == PAYIN && o.trader.None? {
        return Err(Validation);
      }
      var p := if o.direction == PAYIN then Trader(o.trader.value) else Merchant(o.merchant);
      if delta > 0 {
        PostAllOne(entries, Xfer(OrderKind(o), Some(i), Plain, Work(p), Escrow(p), delta));
        r := Move(Xfer(OrderKind(o), Some(i), Plain, Work(p), Escrow(p), delta));
      } else {
        PostAllOne(entries, Xfer(OrderKind(o), Some(i), Plain, Escrow(p), Work(p), -delta));
        r := Move(Xfer(OrderKind(o), Some(i), Plain, Escrow(p), Work(p), -delta));
      }
    }

    // `calculate_and_pay_rewards`: compute and pay link by link.
    method PayRewards(i: nat, amount: nat, links: seq<Link>) returns (r: Result<seq<Reward>, Error>)
      requires Valid()
      modifies this`balances, this`entries
      ensures r.Ok? ==> Valid() && r.value == RewardsFor(amount, links)
      ensures PostAll(old(entries), RewardLegs(i, RewardsFor(amount, links))) ==
              if r.Ok? then Ok(entries) else Err(r.error)
    {
      var breakdown: seq<Reward> := [];
      for k := 0 to |links|
        invariant Valid()
        invariant breakdown == RewardsFor(amount, links[..k])
        invariant PostAll(old(entries), RewardLegs(i, breakdown)) == Ok(entries)
      {
        RewardsForAppend(amount, links, k);
        var reward := HalfEven(amount * links[k].percent, PERCENT);
        if reward > 0 {
          var leg := Xfer(TEAMLEAD_REWARD, Some(i), Plain, SYSTEM_WORK, Work(Teamlead(links[k].teamlead)), reward);
          RewardLegsAppend(i, breakdown, Reward(links[k].teamlead, reward));
          var paid := MoveNext(old(entries), RewardLegs(i, breakdown), leg);
          if paid.Err? {
            RewardsPrefix(old(entries), i, amount, links, k + 1);
            return Err(paid.error);
          }
          breakdown := breakdown + [Reward(links[k].teamlead, reward)];
        }
      }
      assert links[..|links|] == links;
      r := Ok(breakdown);
    }

    method CompleteOrder(i: nat, o: Order, links: seq<Link>) returns (r: Result<seq<Reward>, Error>)
      requires Valid()
      modifies this`balances, this`entries, this`limits
      ensures o.trader.None? ==> r == Err(Validation)
      ensures o.trader.Some? ==>
                PostAll(old(entries), CompleteOrderLegs(i, o, RewardsFor(o.amount, links)).value) ==
                if r.Ok? then Ok(entries) else Err(r.error)
      ensures r.Ok? ==> Valid() && r.value == RewardsFor(o.amount, links)
      ensures r.Ok? ==> limits == Bump(old(limits), o.requisite, o.fiat)
    {
      if o.trader.None? {
        return Err(Validation);
      }
      var t, m := Trader(o.trader.value), Merchant(o.merchant);
      var principal := if o.direction == PAYIN
                       then Xfer(ORDER_PAYIN, Some(i), Plain, Escrow(t), Work(m), o.amount)
                       else Xfer(ORDER_PAYOUT, Some(i), Plain, Escrow(m), Work(t), o.amount);
      var fee := Fee(SYSTEM_COMMISSION, Some(i), Plain, Work(m), SYSTEM_WORK, o.fee);
      var reward := Fee(TRADER_REWARD, Some(i), Plain, SYSTEM_WORK, Work(t), o.traderFee);
      PostAllThree(entries, principal, fee, reward);
      PostAllConcat(entries, [principal, fee, reward], RewardLegs(i, RewardsFor(o.amount, links)));
      assert CompleteOrderLegs(i, o, RewardsFor(o.amount, links)).value ==
             [principal, fee, reward] + RewardLegs(i, RewardsFor(o.amount, links));
      var _ :- Move(principal);
      var _ :- Move(fee);
      var _ :- Move(reward);
      r := PayRewards(i, o.amount, links);
      if r.Ok? {
        limits := Bump(limits, o.requisite, o.fiat);
      }
    }

    // `reverse_rewards`: skip as many payments as there are reversals, oldest
    // first, and reverse the others.
    method ReverseRewards(i: nat) returns (r: Result<(), Error>)
      requires Valid()
      modifies this`balances, this`entries
      ensures r.Ok? ==> Valid()
      ensures Posted(old(entries), ReversalLegs(LivePayments(old(entries), i)), entries, r)
    {
      var all := entries;
      var reversals := 0;
      for k := 0 to |all|
        invariant reversals == Reversals(all[..k], i)
      {
        assert all[..k + 1][..k] == all[..k];
        if IsReversal(all[k], i) {
          reversals := reversals + 1;
        }
      }
      assert all[..|all|] == all;
      ghost var undone := reversals;
      for k := 0 to |all|
        invariant Valid()
        invariant reversals == Minus(undone, |Payments(all[..k], i)|)
        invariant PostAll(all, ReversalLegs(LiveSoFar(all, i, undone, k))) == Ok(entries)
      {
        LiveStep(all, i, undone, k);
        if IsPayment(all[k], i) {
          if reversals > 0 {
            reversals := reversals - 1;
          } else {
            assert |Payments(all[..k], i)| >= undone;
            var moved := MoveNext(all, ReversalLegs(LiveSoFar(all, i, undone, k)), ReversalLeg(all[k]));
            if moved.Err? {
              LivePrefix(all, i, k + 1);
              return moved;
            }
          }
        }
      }
      assert LiveSoFar(all, i, undone, |all|) == LivePayments(all, i);
      r := Ok(());
    }

    method ReconcileForDispute(i: nat, o: Order, pre: OrderStatus) returns (r: Result<(), Error>)
      requires Valid()
      modifies this`balances, this`entries, this`limits
      ensures ReconcileLegs(old(entries), i, o, pre).Err? ==> r == Err(ReconcileLegs(old(entries), i, o, pre).error)
      ensures ReconcileLegs(old(entries), i, o, pre).Ok? ==>
                Posted(old(entries), ReconcileLegs(old(entries), i, o, pre).value, entries, r)
      ensures r.Ok? ==> Valid()
      ensures r.Ok? ==> limits == if pre.SUCCESS? && o.trader.Some? && o.amount > 0
                                  then Unbump(old(limits), o.requisite, o.fiat) else old(limits)
    {
      if o.direction != PAYIN {
        return Err(Validation);
      }
      if o.trader.None? || o.amount == 0 || pre.PENDING? || pre.RECEIPT_UPLOADED? {
        return Ok(());
      }
      var t, m := Trader(o.trader.value), Merchant(o.merchant);
      if pre.SUCCESS? {
        ghost var legs := UndoLegs(i, o);
        PostAllConcat(entries, ReversalLegs(LivePayments(entries, i)), legs);
        var _ :- ReverseRewards(i);
        limits := Unbump(limits, o.requisite, o.fiat);
        PostAllThree(entries, legs[0], legs[1], legs[2]);
        var _ :- Move(Fee(TRADER_REWARD, Some(i), DisputeReverse, Work(t), SYSTEM_WORK,
                          o.traderFee).(overdraft := true));
        var _ :- Move(Fee(SYSTEM_COMMISSION, Some(i), DisputeReverse, SYSTEM_WORK, Work(m), o.fee));
        r := Move(Xfer(ORDER_PAYIN, Some(i), DisputeReverse, Work(m), Escrow(t), o.amount));
      } else {
        var leg := Xfer(ORDER_PAYIN, Some(i), DisputeFreeze, Work(t), Escrow(t), o.amount).(overdraft := true);
        PostAllOne(entries, leg);
        r := Move(leg);
      }
    }

    // ── Withdrawals ───────────────────────────────────────────────────────

    method ApproveWithdrawal(i: nat, w: Withdrawal) returns (r: Result<(), Error>)
      requires Valid()
      modifies this`balances, this`entries
      ensures r.Ok? ==> Valid()
      ensures Posted(old(entries), ApproveWithdrawalLegs(i, w), entries, r)
    {
      var escrow := WithdrawalEscrow(w);
      var fee := Fee(SYSTEM_COMMISSION, Some(i), Plain, escrow, Account(System, WORK, w.currency), w.fee);
      PostAllTwo(entries, Outflow(WITHDRAWAL, Some(i), escrow, w.amount), fee);
      var _ :- Move(Outflow(WITHDRAWAL, Some(i), escrow, w.amount));
      r := Move(fee);
    }

    method RejectWithdrawal(i: nat, w: Withdrawal) returns (r: Result<(), Error>)
      requires Valid()
      modifies this`balances, this`entries
      ensures r.Ok? ==> Valid()
      ensures Posted(old(entries), RejectWithdrawalLegs(i, w), entries, r)
    {
      PostAllOne(entries, RejectWithdrawalLegs(i, w)[0]);
      r := Move(Xfer(WITHDRAWAL, Some(i), Plain, WithdrawalEscrow(w), WithdrawalWork(w), w.amount + w.fee));
    }

    // ── Доливы ────────────────────────────────────────────────────────────

    method FreezeDoliv(i: nat, d: Doliv) returns (r: Result<(), Error>)
      requires Valid()
      modifies this`balances, this`entries
      ensures r.Ok? ==> Valid()
      ensures Net(old(entries), Work(Trader(d.requester))) < d.amount + d.price ==> r == Err(InsufficientFunds)
      ensures Net(old(entries), Work(Trader(d.requester))) >= d.amount + d.price ==>
                Posted(old(entries), FreezeDolivLegs(i, d), entries, r)
    {
      var total := d.amount + d.price;
      var work := GetOrCreate(Work(Trader(d.requester)));
      if work < total {
        return Err(InsufficientFunds);
      }
      PostAllOne(entries, FreezeDolivLegs(i, d)[0]);
      r := Move(Xfer(DOLIV, Some(i), Plain, Work(Trader(d.requester)), Escrow(Trader(d.requester)), total));
    }

    method SettleDoliv(i: nat, d: Doliv) returns (r: Result<(), Error>)
      requires Valid() && d.executor.Some?
      modifies this`balances, this`entries
      ensures r.Ok? ==> Valid()
      ensures Posted(old(entries), SettleDolivLegs(i, d), entries, r)
    {
      var requester, executor := Trader(d.requester), Trader(d.executor.value);
      ghost var legs := SettleDolivLegs(i, d);
      PostAllThree(entries, legs[0], legs[1], legs[2]);
      var _ :- Move(Xfer(DOLIV, Some(i), Plain, Escrow(requester), Work(executor), d.amount));
      var _ :- Move(Fee(SYSTEM_COMMISSION, Some(i), Plain, Escrow(requester), SYSTEM_WORK, d.price));
      r := Move(Fee(TRADER_REWARD, Some(i), Plain, SYSTEM_WORK, Work(executor), d.reward));
    }

    method RefundDoliv(i: nat, d: Doliv) returns (r: Result<(), Error>)
      requires Valid()
      modifies this`balances, this`entries
      ensures r.Ok? ==> Valid()
      ensures Posted(old(entries), RefundDolivLegs(i, d), entries, r)
    {
      var total := d.amount + d.price;
      if total <= 0 {
        return Ok(());
      }
      PostAllOne(entries, RefundDolivLegs(i, d)[0]);
      r := Move(Xfer(DOLIV, Some(i), Plain, Escrow(Trader(d.requester)), Work(Trader(d.requester)), total));
    }

    method ReverseSettleDoliv(i: nat, d: Doliv) returns (r: Result<(), Error>)
      requires Valid()
      modifies this`balances, this`entries
      ensures r.Ok? ==> Valid()
      ensures d.executor.None? ==> r == Err(Validation)
      ensures d.executor.Some? ==> Posted(old(entries), ReverseSettleDolivLegs(i, d), entries, r)
    {
      if d.executor.None? {
        return Err(Validation);
      }
      var requester, executor := Trader(d.requester), Trader(d.executor.value);
      ghost var legs := ReverseSettleDolivLegs(i, d);
      PostAllThree(entries, legs[0], legs[1], legs[2]);
      var _ :- Move(Fee(TRADER_REWARD, Some(i), Plain, Work(executor), SYSTEM_WORK, d.reward));
      var _ :- Move(Xfer(DOLIV, Some(i), Plain, Work(executor), Escrow(requester), d.amount));
      r := Move(Fee(SYSTEM_COMMISSION, Some(i), Plain, SYSTEM_WORK, Escrow(requester), d.price));
    }

    // ── Payouts ───────────────────────────────────────────────────────────

    method FreezePayout(i: nat, p: Payout) returns (r: Result<(), Error>)
      requires Valid()
      modifies this`balances, this`entries
      ensures r.Ok? ==> Valid()
      ensures Net(old(entries), Work(PayoutTerminal(p.terminal))) < p.amount + p.merchantFee ==>
                r == Err(InsufficientFunds)
      ensures Net(old(entries), Work(PayoutTerminal(p.terminal))) >= p.amount + p.merchantFee ==>
                Posted(old(entries), FreezePayoutLegs(i, p), entries, r)
    {
      var total := p.amount + p.merchantFee;
      var work := GetOrCreate(Work(PayoutTerminal(p.terminal)));
      if work < total {
        return Err(InsufficientFunds);
      }
      PostAllOne(entries, FreezePayoutLegs(i, p)[0]);
      r := Move(Xfer(ORDER_PAYOUT, Some(i), Plain, Work(PayoutTerminal(p.terminal)),
                     Escrow(PayoutTerminal(p.terminal)), total));
    }

    method SettlePayout(i: nat, p: Payout, links: seq<Link>) returns (r: Result<seq<Reward>, Error>)
      requires Valid() && p.trader.Some?
      modifies this`balances, this`entries
      ensures r.Ok? ==> Valid() && r.value == RewardsFor(p.amount, links)
      ensures PostAll(old(entries), SettlePayoutLegs(i, p, RewardsFor(p.amount, links))) ==
              if r.Ok? then Ok(entries) else Err(r.error)
    {
      var escrow, target := Escrow(PayoutTerminal(p.terminal)), EarningsAccount(p);
      var principal := Xfer(ORDER_PAYOUT, Some(i), Plain, escrow, target, p.amount);
      var fee := Fee(SYSTEM_COMMISSION, Some(i), Plain, escrow, SYSTEM_WORK, p.merchantFee);
      var reward := Fee(TRADER_REWARD, Some(i), Plain, SYSTEM_WORK, target, p.traderFee);
      PostAllThree(entries, principal, fee, reward);
      PostAllConcat(entries, [principal, fee, reward], RewardLegs(i, RewardsFor(p.amount, links)));
      var _ :- Move(principal);
      var _ :- Move(fee);
      var _ :- Move(reward);
      r := PayRewards(i, p.amount, links);
    }

    method RefundPayout(i: nat, p: Payout) returns (r: Result<(), Error>)
      requires Valid()
      modifies this`balances, this`entries
      ensures r.Ok? ==> Valid()
      ensures Posted(old(entries), RefundPayoutLegs(i, p), entries, r)
    {
      var total := p.amount + p.merchantFee;
      if total <= 0 {
        return Ok(());
      }
      PostAllOne(entries, RefundPayoutLegs(i, p)[0]);
      r := Move(Xfer(ORDER_PAYOUT, Some(i), Plain, Escrow(PayoutTerminal(p.terminal)),
                     Work(PayoutTerminal(p.terminal)), total));
    }

    method ReleasePayoutHold(i: nat, p: Payout) returns (r: Result<(), Error>)
      requires Valid()
      modifies this`balances, this`entries
      ensures r.Ok? ==> Valid()
      ensures Posted(old(entries), ReleaseHoldLegs(i, p), entries, r)
    {
      var amount := p.amount + p.traderFee;
      if amount <= 0 || p.trader.None? {
        return Ok(());
      }
      PostAllOne(entries, ReleaseHoldLegs(i, p)[0]);
      r := Move(Xfer(ORDER_PAYOUT, Some(i), Plain, Escrow(Trader(p.trader.value)), Work(Trader(p.trader.value)),
                     amount));
    }

    method AdjustBalance(a: Account, delta: int) returns (r: Result<(), Error>)
      requires Valid()
      modifies this`balances, this`entries
      ensures r.Ok? ==> Valid()
      ensures Posted(old(entries), AdjustLegs(a, delta), entries, r)
    {
      if delta == 0 {
        return Ok(());
      }
      PostAllOne(entries, AdjustLegs(a, delta)[0]);
      if delta > 0 {
        r := Move(Inflow(DEPOSIT, None, a, delta));
      } else {
        r := Move(Outflow(WITHDRAWAL, None, a, -delta));
      }
    }
  }

  lemma {:induction false} RewardsForConcat(amount: nat, first: seq<Link>, second: seq<Link>)
    ensures RewardsFor(amount, first + second) == RewardsFor(amount, first) + RewardsFor(amount, second)
  {
    if first == [] {
      assert first + second == second;
    } else {
      assert (first + second)[1..] == first[1..] + second;
      RewardsForConcat(amount, first[1..], second);
    }
  }

  lemma {:induction false} RewardsForAppend(amount: nat, links: seq<Link>, k: nat)
    requires k < |links|
    ensures RewardsFor(amount, links[..k + 1]) == RewardsFor(amount, links[..k]) +
              var reward := HalfEven(amount * links[k].percent, PERCENT);
              if reward > 0 then [Reward(links[k].teamlead, reward)] else []
  {
    assert links[..k + 1] == links[..k] + [links[k]];
    RewardsForConcat(amount, links[..k], [links[k]]);
    assert [links[k]][1..] == [];
  }

  lemma {:induction false} RewardLegsConcat(i: nat, first: seq<Reward>, second: seq<Reward>)
    ensures RewardLegs(i, first + second) == RewardLegs(i, first) + RewardLegs(i, second)
  {
    if first == [] {
      assert first + second == second;
    } else {
      assert (first + second)[1..] == first[1..] + second;
      RewardLegsConcat(i, first[1..], second);
    }
  }

  lemma {:induction false} RewardLegsAppend(i: nat, first: seq<Reward>, reward: Reward)
    ensures RewardLegs(i, first + [reward]) == RewardLegs(i, first) +
              [Xfer(TEAMLEAD_REWARD, Some(i), Plain, SYSTEM_WORK, Work(Teamlead(reward.teamlead)), reward.amount)]
  {
    RewardLegsConcat(i, first, [reward]);
    assert [reward][1..] == [];
  }

  // If the first k links cannot be paid, neither can all of them.
  lemma {:induction false} RewardsPrefix(l: seq<Entry>, i: nat, amount: nat, links: seq<Link>, k: nat)
    requires k <= |links|
    ensures PostAll(l, RewardLegs(i, RewardsFor(amount, links[..k]))).Err? ==>
              PostAll(l, RewardLegs(i, RewardsFor(amount, links))) ==
              PostAll(l, RewardLegs(i, RewardsFor(amount, links[..k])))
  {
    assert links == links[..k] + links[k..];
    RewardsForConcat(amount, links[..k], links[k..]);
    RewardLegsConcat(i, RewardsFor(amount, links[..k]), RewardsFor(amount, links[k..]));
    PostAllConcat(l, RewardLegs(i, RewardsFor(amount, links[..k])), RewardLegs(i, RewardsFor(amount, links[k..])));
  }

  lemma {:induction false} ReversalLegsConcat(first: seq<Entry>, second: seq<Entry>)
    ensures ReversalLegs(first + second) == ReversalLegs(first) + ReversalLegs(second)
  {
    if first == [] {
      assert first + second == second;
    } else {
      assert (first + second)[1..] == first[1..] + second;
      ReversalLegsConcat(first[1..], second);
    }
  }

  // The payments among the first k entries that no reversal consumes.
  function LiveSoFar(l: seq<Entry>, i: nat, undone: nat, k: nat): seq<Entry>
    requires k <= |l|
  {
    var paid := Payments(l[..k], i);
    if |paid| <= undone then [] else paid[undone..]
  }

  lemma {:induction false} LiveStep(l: seq<Entry>, i: nat, undone: nat, k: nat)
    requires k < |l|
    ensures |Payments(l[..k + 1], i)| == |Payments(l[..k], i)| + if IsPayment(l[k], i) then 1 else 0
    ensures ReversalLegs(LiveSoFar(l, i, undone, k + 1)) ==
            if IsPayment(l[k], i) && |Payments(l[..k], i)| >= undone
            then ReversalLegs(LiveSoFar(l, i, undone, k)) + [ReversalLeg(l[k])]
            else ReversalLegs(LiveSoFar(l, i, undone, k))
  {
    var paid, paid' := Payments(l[..k], i), Payments(l[..k + 1], i);
    assert l[..k + 1][..k] == l[..k];
    assert paid' == paid + if IsPayment(l[k], i) then [l[k]] else [];
    if !IsPayment(l[k], i) {
      assert paid' == paid;
    } else if |paid| < undone {
      assert LiveSoFar(l, i, undone, k + 1) == LiveSoFar(l, i, undone, k) == [];
    } else {
      assert LiveSoFar(l, i, undone, k + 1) == LiveSoFar(l, i, undone, k) + [l[k]];
      ReversalLegsConcat(LiveSoFar(l, i, undone, k), [l[k]]);
      assert [l[k]][1..] == [];
    }
  }

  // If the live payments among the first k entries cannot be reversed, neither
  // can all of them.
  lemma {:induction false} LivePrefix(l: seq<Entry>, i: nat, k: nat)
    requires k <= |l| && Reversals(l, i) <= |Payments(l[..k], i)|
    ensures PostAll(l, ReversalLegs(LiveSoFar(l, i, Reversals(l, i), k))).Err? ==>
              PostAll(l, ReversalLegs(LivePayments(l, i))) ==
              PostAll(l, ReversalLegs(LiveSoFar(l, i, Reversals(l, i), k)))
  {
    var n := Reversals(l, i);
    assert l == l[..k] + l[k..];
    PaymentsConcat(l[..k], l[k..], i);
    var first, second := LiveSoFar(l, i, n, k), Payments(l[k..], i);
    assert Payments(l, i)[n..] == first + second;
    ReversalLegsConcat(first, second);
    PostAllConcat(l, ReversalLegs(first), ReversalLegs(second));
  }
}
