// The money of every business operation of finance/service.py, as the list of
// transfers it makes, in order. session.dfy runs the same operations transfer
// by transfer and is proved to post exactly these lists.

module Finance {
  import opened Common
  import opened Rounding
  import opened Ledger
  import opened Rows

  function Xfer(kind: ReferenceType, row: Option<nat>, tag: Tag, from: Account, to: Account, amount: int): Leg {
    Leg(Entry(Some(from), Some(to), amount, from.currency, Reference(kind, row, tag)), false, false)
  }

  // Guarded by `if amount > 0`.
  function Fee(kind: ReferenceType, row: Option<nat>, tag: Tag, from: Account, to: Account, amount: int): Leg {
    Xfer(kind, row, tag, from, to, amount).(optional := true)
  }

  function Outflow(kind: ReferenceType, row: Option<nat>, from: Account, amount: int): Leg {
    Leg(Entry(Some(from), None, amount, from.currency, Reference(kind, row, Plain)), false, false)
  }

  function Inflow(kind: ReferenceType, row: Option<nat>, to: Account, amount: int): Leg {
    Leg(Entry(None, Some(to), amount, to.currency, Reference(kind, row, Plain)), false, false)
  }

  // ── Orders ──────────────────────────────────────────────────────────────

  // Who posts the collateral of an order.
  function Principal(o: Order): Result<Owner, Error> {
    if o.direction == PAYOUT then Ok(Merchant(o.merchant))
    else if o.trader.Some? then Ok(Trader(o.trader.value))
    else Err(Validation)
  }

  function OrderKind(o: Order): ReferenceType {
    if o.direction == PAYIN then ORDER_PAYIN else ORDER_PAYOUT
  }

  function CreateOrderLegs(i: nat, o: Order): Result<seq<Leg>, Error> {
    var p :- Principal(o);
    Ok([Xfer(OrderKind(o), Some(i), Plain, Work(p), Escrow(p), o.amount)])
  }

  function CancelOrderLegs(i: nat, o: Order): Result<seq<Leg>, Error> {
    var p :- Principal(o);
    Ok([Xfer(OrderKind(o), Some(i), Plain, Escrow(p), Work(p), o.amount)])
  }

  function RecalculateOrderLegs(i: nat, o: Order, before: nat, after: nat): Result<seq<Leg>, Error> {
    if before == after then Ok([])
    else
      var p :- Principal(o);
      Ok([if after > before
          then Xfer(OrderKind(o), Some(i), Plain, Work(p), Escrow(p), after - before)
          else Xfer(OrderKind(o), Some(i), Plain, Escrow(p), Work(p), before - after)])
  }

  // Percentages are integers in units of 0.0001, so 100% is one million.
  const PERCENT := 1_000_000

  // Money and rates are integers in units of 0.0001.
  const UNIT := 10_000

  // An active teamlead link.
  datatype Link = Link(teamlead: nat, percent: nat)

  // The rewards of a settlement: amount × percent, rounded, zero rewards left out.
  function RewardsFor(amount: nat, links: seq<Link>): seq<Reward> {
    if links == [] then []
    else
      var reward := HalfEven(amount * links[0].percent, PERCENT);
      (if reward > 0 then [Reward(links[0].teamlead, reward)] else []) + RewardsFor(amount, links[1..])
  }

  function RewardLegs(i: nat, rewards: seq<Reward>): seq<Leg> {
    if rewards == [] then []
    else
      [Xfer(TEAMLEAD_REWARD, Some(i), Plain, SYSTEM_WORK, Work(Teamlead(rewards[0].teamlead)), rewards[0].amount)]
      + RewardLegs(i, rewards[1..])
  }

  // A completion needs a trader; the fee comes out of the merchant's WORK.
  function CompleteOrderLegs(i: nat, o: Order, rewards: seq<Reward>): Result<seq<Leg>, Error> {
    if o.trader.None? then Err(Validation)
    else
      var t, m := Trader(o.trader.value), Merchant(o.merchant);
      Ok([if o.direction == PAYIN
          then Xfer(ORDER_PAYIN, Some(i), Plain, Escrow(t), Work(m), o.amount)
          else Xfer(ORDER_PAYOUT, Some(i), Plain, Escrow(m), Work(t), o.amount),
          Fee(SYSTEM_COMMISSION, Some(i), Plain, Work(m), SYSTEM_WORK, o.fee),
          Fee(TRADER_REWARD, Some(i), Plain, SYSTEM_WORK, Work(t), o.traderFee)]
         + RewardLegs(i, rewards))
  }

  // ── Teamlead rewards on the ledger ──────────────────────────────────────

  predicate IsPayment(e: Entry, i: nat) {
    e.reference == Reference(TEAMLEAD_REWARD, Some(i), Plain)
  }

  predicate IsReversal(e: Entry, i: nat) {
    e.reference == Reference(TEAMLEAD_REWARD, Some(i), Reversal)
  }

  function Payments(l: seq<Entry>, i: nat): seq<Entry> {
    if l == [] then []
    else Payments(l[..|l| - 1], i) + if IsPayment(l[|l| - 1], i) then [l[|l| - 1]] else []
  }

  function Reversals(l: seq<Entry>, i: nat): nat {
    if l == [] then 0
    else Reversals(l[..|l| - 1], i) + if IsReversal(l[|l| - 1], i) then 1 else 0
  }

  // `reverse_rewards` consumes one reversal per payment, oldest first, and
  // reverses what is left.
  function LivePayments(l: seq<Entry>, i: nat): seq<Entry> {
    var paid, undone := Payments(l, i), Reversals(l, i);
    if undone <= |paid| then paid[undone..] else []
  }

  function ReversalLeg(e: Entry): Leg {
    Leg(Entry(e.to, e.from, e.amount, e.currency, Reference(TEAMLEAD_REWARD, e.reference.row, Reversal)), false, false)
  }

  function ReversalLegs(live: seq<Entry>): seq<Leg> {
    if live == [] then [] else [ReversalLeg(live[0])] + ReversalLegs(live[1..])
  }

  // ── Dispute and override ────────────────────────────────────────────────

  // The three transfers that undo a settlement, after the teamlead rewards.
  function UndoLegs(i: nat, o: Order): seq<Leg>
    requires o.trader.Some?
  {
    var t, m := Trader(o.trader.value), Merchant(o.merchant);
    [Fee(TRADER_REWARD, Some(i), DisputeReverse, Work(t), SYSTEM_WORK, o.traderFee).(overdraft := true),
     Fee(SYSTEM_COMMISSION, Some(i), DisputeReverse, SYSTEM_WORK, Work(m), o.fee),
     Xfer(ORDER_PAYIN, Some(i), DisputeReverse, Work(m), Escrow(t), o.amount)]
  }

  // `reconcile_for_dispute`: bring the money of an order back to the frozen state.
  function ReconcileLegs(l: seq<Entry>, i: nat, o: Order, pre: OrderStatus): Result<seq<Leg>, Error> {
    if o.direction != PAYIN then Err(Validation)
    else if o.trader.None? || o.amount == 0 then Ok([])
    else if pre.PENDING? || pre.RECEIPT_UPLOADED? then Ok([])
    else
      var t := Trader(o.trader.value);
      if pre.SUCCESS? then
        Ok(ReversalLegs(LivePayments(l, i)) + UndoLegs(i, o))
      else
        Ok([Xfer(ORDER_PAYIN, Some(i), DisputeFreeze, Work(t), Escrow(t), o.amount).(overdraft := true)])
  }

  // ── Withdrawals ─────────────────────────────────────────────────────────

  function WithdrawalWork(w: Withdrawal): Account {
    Account(w.owner, WORK, w.currency)
  }

  function WithdrawalEscrow(w: Withdrawal): Account {
    Account(w.owner, ESCROW, w.currency)
  }

  function FreezeWithdrawalLegs(i: nat, w: Withdrawal): seq<Leg> {
    [Xfer(WITHDRAWAL, Some(i), Plain, WithdrawalWork(w), WithdrawalEscrow(w), w.amount + w.fee)]
  }

  function SweepLegs(i: nat, w: Withdrawal, swept: seq<Sweep>): seq<Leg> {
    if swept == [] then []
    else
      [Xfer(INTERNAL_TRANSFER, Some(i), Plain,
            Account(Merchant(swept[0].merchant), WORK, w.currency), WithdrawalWork(w), swept[0].amount)]
      + SweepLegs(i, w, swept[1..])
  }

  function ApproveWithdrawalLegs(i: nat, w: Withdrawal): seq<Leg> {
    [Outflow(WITHDRAWAL, Some(i), WithdrawalEscrow(w), w.amount),
     Fee(SYSTEM_COMMISSION, Some(i), Plain, WithdrawalEscrow(w), Account(System, WORK, w.currency), w.fee)]
  }

  function RejectWithdrawalLegs(i: nat, w: Withdrawal): seq<Leg> {
    [Xfer(WITHDRAWAL, Some(i), Plain, WithdrawalEscrow(w), WithdrawalWork(w), w.amount + w.fee)]
  }

  // ── Доливы (refills) ────────────────────────────────────────────────────

  function FreezeDolivLegs(i: nat, d: Doliv): seq<Leg> {
    [Xfer(DOLIV, Some(i), Plain, Work(Trader(d.requester)), Escrow(Trader(d.requester)), d.amount + d.price)]
  }

  function SettleDolivLegs(i: nat, d: Doliv): seq<Leg>
    requires d.executor.Some?
  {
    var requester, executor := Trader(d.requester), Trader(d.executor.value);
    [Xfer(DOLIV, Some(i), Plain, Escrow(requester), Work(executor), d.amount),
     Fee(SYSTEM_COMMISSION, Some(i), Plain, Escrow(requester), SYSTEM_WORK, d.price),
     Fee(TRADER_REWARD, Some(i), Plain, SYSTEM_WORK, Work(executor), d.reward)]
  }

  function RefundDolivLegs(i: nat, d: Doliv): seq<Leg> {
    if d.amount + d.price == 0 then []
    else [Xfer(DOLIV, Some(i), Plain, Escrow(Trader(d.requester)), Work(Trader(d.requester)), d.amount + d.price)]
  }

  function ReverseSettleDolivLegs(i: nat, d: Doliv): seq<Leg>
    requires d.executor.Some?
  {
    var requester, executor := Trader(d.requester), Trader(d.executor.value);
    [Fee(TRADER_REWARD, Some(i), Plain, Work(executor), SYSTEM_WORK, d.reward),
     Xfer(DOLIV, Some(i), Plain, Work(executor), Escrow(requester), d.amount),
     Fee(SYSTEM_COMMISSION, Some(i), Plain, SYSTEM_WORK, Escrow(requester), d.price)]
  }

  // ── Payouts ─────────────────────────────────────────────────────────────

  function FreezePayoutLegs(i: nat, p: Payout): seq<Leg> {
    [Xfer(ORDER_PAYOUT, Some(i), Plain, Work(PayoutTerminal(p.terminal)), Escrow(PayoutTerminal(p.terminal)),
          p.amount + p.merchantFee)]
  }

  // `p.held` says where the earnings go.
  function SettlePayoutLegs(i: nat, p: Payout, rewards: seq<Reward>): seq<Leg>
    requires p.trader.Some?
  {
    var escrow, target := Escrow(PayoutTerminal(p.terminal)), EarningsAccount(p);
    [Xfer(ORDER_PAYOUT, Some(i), Plain, escrow, target, p.amount),
     Fee(SYSTEM_COMMISSION, Some(i), Plain, escrow, SYSTEM_WORK, p.merchantFee),
     Fee(TRADER_REWARD, Some(i), Plain, SYSTEM_WORK, target, p.traderFee)]
    + RewardLegs(i, rewards)
  }

  function RefundPayoutLegs(i: nat, p: Payout): seq<Leg> {
    if p.amount + p.merchantFee == 0 then []
    else
      [Xfer(ORDER_PAYOUT, Some(i), Plain, Escrow(PayoutTerminal(p.terminal)), Work(PayoutTerminal(p.terminal)),
            p.amount + p.merchantFee)]
  }

  function ReleaseHoldLegs(i: nat, p: Payout): seq<Leg> {
    if p.trader.None? || p.amount + p.traderFee == 0 then []
    else
      [Xfer(ORDER_PAYOUT, Some(i), Plain, Escrow(Trader(p.trader.value)), Work(Trader(p.trader.value)),
            p.amount + p.traderFee)]
  }

  // ── Direct moves ────────────────────────────────────────────────────────

  function DepositLegs(a: Account, amount: int, fee: int): seq<Leg> {
    [Inflow(DEPOSIT, None, a, amount),
     Fee(SYSTEM_COMMISSION, None, Plain, a, Account(System, WORK, a.currency), fee)]
  }

  function WithdrawLegs(a: Account, amount: int, fee: int): seq<Leg> {
    [Fee(SYSTEM_COMMISSION, None, Plain, a, Account(System, WORK, a.currency), fee),
     Outflow(WITHDRAWAL, None, a, amount)]
  }

  function AdjustLegs(a: Account, delta: int): seq<Leg> {
    if delta == 0 then []
    else if delta > 0 then [Inflow(DEPOSIT, None, a, delta)]
    else [Outflow(WITHDRAWAL, None, a, -delta)]
  }

  function ReceiptFeeLegs(trader: nat, amount: int): seq<Leg> {
    [Xfer(RECEIPT_CHECK, None, Plain, Work(Trader(trader)), SYSTEM_WORK, amount)]
  }

  function ReceiptRefundLegs(trader: nat, amount: int): seq<Leg> {
    [Xfer(RECEIPT_CHECK_REFUND, None, Plain, SYSTEM_WORK, Work(Trader(trader)), amount)]
  }

  // ── What the lists net to ───────────────────────────────────────────────

  lemma {:induction false} NetCons(leg: Leg, rest: seq<Leg>, a: Account)
    ensures LegsNet([leg] + rest, a) == LegNet(leg, a) + LegsNet(rest, a)
  {
  }

  lemma {:induction false} Net1(x: Leg, a: Account)
    ensures LegsNet([x], a) == LegNet(x, a)
  {
  }

  lemma {:induction false} Net2(x: Leg, y: Leg, a: Account)
    ensures LegsNet([x, y], a) == LegNet(x, a) + LegNet(y, a)
  {
    assert [x, y] == [x] + [y];
    NetCons(x, [y], a);
  }

  lemma {:induction false} Net3(x: Leg, y: Leg, z: Leg, a: Account)
    ensures LegsNet([x, y, z], a) == LegNet(x, a) + LegNet(y, a) + LegNet(z, a)
  {
    assert [x, y, z] == [x] + [y, z];
    NetCons(x, [y, z], a);
    Net2(y, z, a);
  }

  lemma {:induction false} RewardLegsNet(i: nat, rewards: seq<Reward>, a: Account)
    ensures LegsNet(RewardLegs(i, rewards), a) == RewardEffect(rewards, a)
    ensures For(RewardLegs(i, rewards), Some(i))
  {
    if rewards != [] {
      RewardLegsNet(i, rewards[1..], a);
      NetCons(RewardLegs(i, rewards)[0], RewardLegs(i, rewards[1..]), a);
    }
  }

  // The ledger entries that paid a list of rewards.
  function RewardEntries(i: nat, rewards: seq<Reward>): seq<Entry> {
    if rewards == [] then []
    else [RewardLegs(i, rewards)[0].entry] + RewardEntries(i, rewards[1..])
  }

  lemma {:induction false} ReversalLegsNet(i: nat, rewards: seq<Reward>, a: Account)
    ensures LegsNet(ReversalLegs(RewardEntries(i, rewards)), a) == -RewardEffect(rewards, a)
    ensures For(ReversalLegs(RewardEntries(i, rewards)), Some(i))
  {
    if rewards != [] {
      ReversalLegsNet(i, rewards[1..], a);
      assert RewardEntries(i, rewards)[1..] == RewardEntries(i, rewards[1..]);
      NetCons(ReversalLegs(RewardEntries(i, rewards))[0], ReversalLegs(RewardEntries(i, rewards[1..])), a);
    }
  }

  // Freezing an order's collateral gives the frozen position.
  lemma {:induction false} CreateOrderNet(i: nat, o: Order, a: Account)
    requires o.direction == PAYIN && o.trader.Some?
    ensures LegsNet(CreateOrderLegs(i, o).value, a) == OrderEffect(o.(status := OrderStatus.PENDING), a)
    ensures For(CreateOrderLegs(i, o).value, Some(i))
  {
  }

  // Cancelling gives it back.
  lemma {:induction false} CancelOrderNet(i: nat, o: Order, a: Account)
    requires o.direction == PAYIN && o.trader.Some?
    ensures LegsNet(CancelOrderLegs(i, o).value, a) == -OrderEffect(o.(status := OrderStatus.PENDING), a)
    ensures For(CancelOrderLegs(i, o).value, Some(i))
  {
  }

  lemma {:induction false} RecalculateOrderNet(i: nat, o: Order, before: nat, after: nat, a: Account)
    requires o.direction == PAYIN && o.trader.Some?
    ensures LegsNet(RecalculateOrderLegs(i, o, before, after).value, a) ==
            OrderEffect(o.(status := DISPUTED, amount := after), a)
            - OrderEffect(o.(status := DISPUTED, amount := before), a)
    ensures For(RecalculateOrderLegs(i, o, before, after).value, Some(i))
  {
  }

  // Completing takes the frozen position to the settled one.
  lemma {:induction false} CompleteOrderNet(i: nat, o: Order, rewards: seq<Reward>, a: Account)
    requires o.direction == PAYIN && o.trader.Some?
    ensures LegsNet(CompleteOrderLegs(i, o, rewards).value, a) ==
            OrderEffect(o.(status := OrderStatus.SUCCESS, rewards := rewards), a)
            - OrderEffect(o.(status := OrderStatus.PENDING), a)
    ensures For(CompleteOrderLegs(i, o, rewards).value, Some(i))
  {
    var legs := CompleteOrderLegs(i, o, rewards).value;
    assert legs == legs[..3] + RewardLegs(i, rewards);
    LegsNetConcat(legs[..3], RewardLegs(i, rewards), a);
    assert legs[..3] == [legs[0], legs[1], legs[2]];
    Net3(legs[0], legs[1], legs[2], a);
    RewardLegsNet(i, rewards, a);
  }

  lemma {:induction false} UndoNet(i: nat, o: Order, a: Account)
    requires o.trader.Some? && o.status.SUCCESS?
    ensures LegsNet(UndoLegs(i, o), a) ==
            OrderEffect(o.(status := DISPUTED), a) - OrderEffect(o, a) + RewardEffect(o.rewards, a)
    ensures For(UndoLegs(i, o), Some(i))
  {
    var legs := UndoLegs(i, o);
    Net3(legs[0], legs[1], legs[2], a);
  }

  // Reconciling takes the settled or released position back to the frozen one,
  // provided the live rewards on the ledger are those on the row.
  lemma {:induction false} ReconcileNet(l: seq<Entry>, i: nat, o: Order, a: Account)
    requires o.direction == PAYIN && (o.status.SUCCESS? ==> o.trader.Some? && o.amount > 0)
    requires o.status.SUCCESS? ==> LivePayments(l, i) == RewardEntries(i, o.rewards)
    requires !o.status.DISPUTED? && !o.status.CREATED?
    ensures LegsNet(ReconcileLegs(l, i, o, o.status).value, a) ==
            OrderEffect(o.(status := DISPUTED), a) - OrderEffect(o, a)
    ensures For(ReconcileLegs(l, i, o, o.status).value, Some(i))
  {
    if o.status.SUCCESS? {
      var undo := ReversalLegs(RewardEntries(i, o.rewards));
      LegsNetConcat(undo, UndoLegs(i, o), a);
      ReversalLegsNet(i, o.rewards, a);
      UndoNet(i, o, a);
    } else {
      var legs := ReconcileLegs(l, i, o, o.status).value;
      if legs != [] {
        Net1(legs[0], a);
      }
    }
  }

  lemma {:induction false} SweepLegsNet(i: nat, w: Withdrawal, swept: seq<Sweep>, a: Account)
    ensures LegsNet(SweepLegs(i, w, swept), a) == SweepEffect(w.owner, w.currency, swept, a)
    ensures For(SweepLegs(i, w, swept), Some(i))
  {
    if swept != [] {
      SweepLegsNet(i, w, swept[1..], a);
      NetCons(SweepLegs(i, w, swept)[0], SweepLegs(i, w, swept[1..]), a);
    }
  }

  lemma {:induction false} CreateWithdrawalNet(i: nat, w: Withdrawal, a: Account)
    requires w.status.PENDING?
    ensures LegsNet(SweepLegs(i, w, w.swept) + FreezeWithdrawalLegs(i, w), a) == WithdrawalEffect(w, a)
    ensures For(SweepLegs(i, w, w.swept) + FreezeWithdrawalLegs(i, w), Some(i))
  {
    LegsNetConcat(SweepLegs(i, w, w.swept), FreezeWithdrawalLegs(i, w), a);
    SweepLegsNet(i, w, w.swept, a);
    Net1(FreezeWithdrawalLegs(i, w)[0], a);
  }

  lemma {:induction false} DecideWithdrawalNet(i: nat, w: Withdrawal, a: Account)
    requires w.status.PENDING?
    ensures LegsNet(ApproveWithdrawalLegs(i, w), a) ==
            WithdrawalEffect(w.(status := WithdrawalStatus.SUCCESS), a) - WithdrawalEffect(w, a)
    ensures LegsNet(RejectWithdrawalLegs(i, w), a) ==
            WithdrawalEffect(w.(status := REJECTED), a) - WithdrawalEffect(w, a)
    ensures For(ApproveWithdrawalLegs(i, w), Some(i)) && For(RejectWithdrawalLegs(i, w), Some(i))
  {
    Net2(ApproveWithdrawalLegs(i, w)[0], ApproveWithdrawalLegs(i, w)[1], a);
    Net1(RejectWithdrawalLegs(i, w)[0], a);
  }

  lemma {:induction false} DolivNet(i: nat, d: Doliv, a: Account)
    ensures LegsNet(FreezeDolivLegs(i, d), a) == DolivEffect(d.(status := PayoutStatus.CREATED), a)
    ensures LegsNet(RefundDolivLegs(i, d), a) == -DolivEffect(d.(status := PayoutStatus.CREATED), a)
    ensures For(FreezeDolivLegs(i, d), Some(i)) && For(RefundDolivLegs(i, d), Some(i))
  {
  }

  lemma {:induction false} SettleDolivNet(i: nat, d: Doliv, a: Account)
    requires d.executor.Some?
    ensures LegsNet(SettleDolivLegs(i, d), a) ==
            DolivEffect(d.(status := COMPLETED), a) - DolivEffect(d.(status := PayoutStatus.CREATED), a)
    ensures LegsNet(ReverseSettleDolivLegs(i, d), a) ==
            DolivEffect(d.(status := PayoutStatus.CREATED), a) - DolivEffect(d.(status := COMPLETED), a)
    ensures For(SettleDolivLegs(i, d), Some(i)) && For(ReverseSettleDolivLegs(i, d), Some(i))
  {
    var s, r := SettleDolivLegs(i, d), ReverseSettleDolivLegs(i, d);
    Net3(s[0], s[1], s[2], a);
    Net3(r[0], r[1], r[2], a);
  }

  lemma {:induction false} PayoutNet(i: nat, p: Payout, a: Account)
    ensures LegsNet(FreezePayoutLegs(i, p), a) == PayoutEffect(p.(status := PayoutStatus.CREATED), a)
    ensures LegsNet(RefundPayoutLegs(i, p), a) == -PayoutEffect(p.(status := PayoutStatus.CREATED), a)
    ensures For(FreezePayoutLegs(i, p), Some(i)) && For(RefundPayoutLegs(i, p), Some(i))
  {
  }

  lemma {:induction false} SettlePayoutNet(i: nat, p: Payout, rewards: seq<Reward>, a: Account)
    requires p.trader.Some?
    ensures LegsNet(SettlePayoutLegs(i, p, rewards), a) ==
            PayoutEffect(p.(status := COMPLETED, rewards := rewards), a)
            - PayoutEffect(p.(status := PayoutStatus.CREATED), a)
    ensures For(SettlePayoutLegs(i, p, rewards), Some(i))
  {
    var legs := SettlePayoutLegs(i, p, rewards);
    assert legs == legs[..3] + RewardLegs(i, rewards);
    LegsNetConcat(legs[..3], RewardLegs(i, rewards), a);
    assert legs[..3] == [legs[0], legs[1], legs[2]];
    Net3(legs[0], legs[1], legs[2], a);
    RewardLegsNet(i, rewards, a);
  }

  lemma {:induction false} ReleaseHoldNet(i: nat, p: Payout, a: Account)
    requires p.trader.Some? && p.status.COMPLETED? && p.held && !p.released
    ensures LegsNet(ReleaseHoldLegs(i, p), a) == PayoutEffect(p.(released := true), a) - PayoutEffect(p, a)
    ensures For(ReleaseHoldLegs(i, p), Some(i))
  {
  }

  // ── When the rewards of a settlement can be paid ────────────────────────

  predicate Positive(rewards: seq<Reward>) {
    forall k | 0 <= k < |rewards| :: rewards[k].amount > 0
  }

  lemma {:induction false} RewardsPositive(amount: nat, links: seq<Link>)
    ensures Positive(RewardsFor(amount, links))
  {
    if links != [] {
      RewardsPositive(amount, links[1..]);
    }
  }

  function RewardSum(rewards: seq<Reward>): nat {
    if rewards == [] then 0 else rewards[0].amount + RewardSum(rewards[1..])
  }

  // Teamlead rewards go through exactly when the system float covers their sum.
  lemma {:induction false} RewardsPayable(l: seq<Entry>, i: nat, rewards: seq<Reward>)
    requires Positive(rewards) && Net(l, SYSTEM_WORK) >= 0
    ensures PostAll(l, RewardLegs(i, rewards)).Ok? <==> RewardSum(rewards) <= Net(l, SYSTEM_WORK)
    decreases rewards
  {
    if rewards != [] {
      var legs := RewardLegs(i, rewards);
      assert legs[1..] == RewardLegs(i, rewards[1..]);
      if Post(l, legs[0]).Ok? {
        NetAppend(l, legs[0].entry, SYSTEM_WORK);
        assert rewards[0].amount > 0;
        RewardsPayable(l + [legs[0].entry], i, rewards[1..]);
      }
    }
  }

  // What one teamlead got.
  function RewardOf(rewards: seq<Reward>, teamlead: nat): nat {
    if rewards == [] then 0
    else (if rewards[0].teamlead == teamlead then rewards[0].amount else 0) + RewardOf(rewards[1..], teamlead)
  }

  // Where rewards show: in the float that paid them, and with the teamleads.
  lemma {:induction false} RewardEffectAt(rewards: seq<Reward>, a: Account)
    ensures a == SYSTEM_WORK ==> RewardEffect(rewards, a) == 0 - RewardSum(rewards)
    ensures !a.owner.Teamlead? && a != SYSTEM_WORK ==> RewardEffect(rewards, a) == 0
    ensures a.owner.Teamlead? && a == Work(a.owner) ==> RewardEffect(rewards, a) == RewardOf(rewards, a.owner.user)
  {
    if rewards != [] {
      RewardEffectAt(rewards[1..], a);
    }
  }

  // Rewards can be taken back exactly when every teamlead still has the sum of
  // what it got.
  lemma {:induction false} RewardsReturnable(l: seq<Entry>, i: nat, rewards: seq<Reward>)
    requires Positive(rewards) && forall t: nat :: Net(l, Work(Teamlead(t))) >= 0
    ensures PostAll(l, ReversalLegs(RewardEntries(i, rewards))).Ok? <==>
            forall t: nat :: RewardOf(rewards, t) <= Net(l, Work(Teamlead(t)))
    decreases rewards
  {
    if rewards != [] {
      var legs, rest := ReversalLegs(RewardEntries(i, rewards)), rewards[1..];
      assert RewardEntries(i, rewards)[1..] == RewardEntries(i, rest);
      assert legs[1..] == ReversalLegs(RewardEntries(i, rest));
      assert rewards[0].amount > 0;
      if Post(l, legs[0]).Ok? {
        var next := l + [legs[0].entry];
        forall t: nat ensures Net(next, Work(Teamlead(t))) ==
                              Net(l, Work(Teamlead(t))) - if t == rewards[0].teamlead then rewards[0].amount else 0 {
          NetAppend(l, legs[0].entry, Work(Teamlead(t)));
        }
        RewardsReturnable(next, i, rest);
        forall t: nat ensures RewardOf(rewards, t) <= Net(l, Work(Teamlead(t))) <==>
                              RewardOf(rest, t) <= Net(next, Work(Teamlead(t))) {
        }
      } else {
        assert RewardOf(rewards, rewards[0].teamlead) > Net(l, Work(Teamlead(rewards[0].teamlead)));
      }
    }
  }

  // The trader's fee, then the teamlead rewards, out of the system float.
  lemma {:induction false} FeeThenRewards(l: seq<Entry>, i: nat, fee: Leg, rewards: seq<Reward>)
    requires Positive(rewards) && Net(l, SYSTEM_WORK) >= 0
    requires fee.optional && !fee.overdraft && fee.entry.from == Some(SYSTEM_WORK) && fee.entry.currency == USDT
    requires fee.entry.to.Some? && fee.entry.to != fee.entry.from && fee.entry.to.value.currency == USDT
    requires fee.entry.amount >= 0
    ensures PostAll(l, [fee] + RewardLegs(i, rewards)).Ok? <==>
            fee.entry.amount + RewardSum(rewards) <= Net(l, SYSTEM_WORK)
  {
    var legs := [fee] + RewardLegs(i, rewards);
    assert legs[1..] == RewardLegs(i, rewards);
    if Post(l, fee).Ok? {
      NetAppend(l, fee.entry, SYSTEM_WORK);
      RewardsPayable(Post(l, fee).value, i, rewards);
    }
  }

  // ── The live rewards of an order ────────────────────────────────────────

  lemma {:induction false} PaymentsConcat(l: seq<Entry>, m: seq<Entry>, i: nat)
    ensures Payments(l + m, i) == Payments(l, i) + Payments(m, i)
    ensures Reversals(l + m, i) == Reversals(l, i) + Reversals(m, i)
  {
    if m == [] {
      assert l + m == l;
    } else {
      assert (l + m)[..|l + m| - 1] == l + m[..|m| - 1];
      PaymentsConcat(l, m[..|m| - 1], i);
    }
  }

  // Entries of another row, or of another kind, are neither.
  predicate NoRewards(legs: seq<Leg>, i: nat) {
    forall k | 0 <= k < |legs| :: !IsPayment(legs[k].entry, i) && !IsReversal(legs[k].entry, i)
  }

  lemma {:induction false} NoRewardsWritten(legs: seq<Leg>, i: nat)
    requires NoRewards(legs, i)
    ensures Payments(Written(legs), i) == [] && Reversals(Written(legs), i) == 0
  {
    if legs != [] {
      NoRewardsWritten(legs[1..], i);
      var head := if Skipped(legs[0]) then [] else [legs[0].entry];
      PaymentsConcat(head, Written(legs[1..]), i);
    }
  }

  lemma {:induction false} RewardsWritten(i: nat, rewards: seq<Reward>)
    ensures Payments(Written(RewardLegs(i, rewards)), i) == RewardEntries(i, rewards)
    ensures Reversals(Written(RewardLegs(i, rewards)), i) == 0
  {
    if rewards != [] {
      RewardsWritten(i, rewards[1..]);
      var legs := RewardLegs(i, rewards);
      assert legs[1..] == RewardLegs(i, rewards[1..]);
      PaymentsConcat([legs[0].entry], Written(legs[1..]), i);
    }
  }

  lemma {:induction false} ReversalsWritten(i: nat, live: seq<Entry>)
    requires forall k | 0 <= k < |live| :: IsPayment(live[k], i)
    ensures Payments(Written(ReversalLegs(live)), i) == []
    ensures Reversals(Written(ReversalLegs(live)), i) == |live|
  {
    if live != [] {
      ReversalsWritten(i, live[1..]);
      var legs := ReversalLegs(live);
      assert legs[1..] == ReversalLegs(live[1..]);
      PaymentsConcat([legs[0].entry], Written(legs[1..]), i);
    }
  }

  lemma {:induction false} PaymentsArePayments(l: seq<Entry>, i: nat)
    ensures forall k | 0 <= k < |Payments(l, i)| :: IsPayment(Payments(l, i)[k], i)
  {
    if l != [] {
      PaymentsArePayments(l[..|l| - 1], i);
    }
  }
}
