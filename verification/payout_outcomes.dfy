// Payouts: exactly when each operation is accepted, and what it leaves behind.

module PayoutOutcomes {
  import opened Common
  import opened Ledger
  import opened Rows
  import opened Finance
  import opened Database
  import opened Orders
  import opened OrderService
  import opened Payouts
  import opened Outcomes
  import Platform

  // Only payout i and the ledger change.
  ghost predicate Rewritten(w: World, w': World, i: nat, p: Payout) {
    i < |w.rows| && w' == w.(ledger := w'.ledger, rows := w.rows[i := PayoutRow(p)])
  }

  lemma {:induction false} Leaves(w: World, op: PayoutOp, i: nat, p': Payout)
    requires Consistent(w) && IsPayout(w, i) && Payouts.Step(w, op).Ok?
    requires Rewritten(w, Payouts.Step(w, op).value, i, p')
    ensures Shifted(w.ledger, Payouts.Step(w, op).value.ledger, w.rows[i], PayoutRow(p'))
  {
    Rewrites(w, Platform.OnPayout(op), Payouts.Step(w, op).value, i, PayoutRow(p'));
  }

  // ── Creation and claiming ───────────────────────────────────────────────

  // A payout is accepted within the terminal's bounds when its WORK covers
  // amount and commission. It is worth its fiat at the rate, and the commission
  // is a percentage of that.
  lemma {:induction false} CreatesExactly(w: World, terminal: nat, fiat: nat, min: Option<nat>, max: Option<nat>,
                                          duplicate: bool, commission: nat, rate: nat, amount: nat, fee: nat)
    requires Consistent(w) && IsQuotient(fiat, rate, amount) && IsShare(amount, commission, fee)
    ensures
      var r := Payouts.Step(w, Create(terminal, fiat, min, max, duplicate, commission, rate));
      var t := PayoutTerminal(terminal);
      && (r.Ok? <==>
            && (min.Some? ==> min.value <= fiat) && (max.Some? ==> fiat <= max.value) && !duplicate && rate > 0
            && 0 < amount && amount + fee <= Net(w.ledger, Work(t)))
      && (r.Ok? ==>
            && r.value == w.(ledger := r.value.ledger, rows := w.rows + [PayoutRow(
                 Payout(terminal, None, fiat, [], amount, fee, 0, PayoutStatus.CREATED, false, false, []))])
            && forall a :: Net(r.value.ledger, a) == Net(w.ledger, a) + Between(a, Work(t), Escrow(t), amount + fee))
  {
    var op := Create(terminal, fiat, min, max, duplicate, commission, rate);
    if rate > 0 {
      var p := Payout(terminal, None, fiat, [], amount, fee, 0, PayoutStatus.CREATED, false, false, []);
      QuotientIs(fiat, rate, amount);
      ShareIs(amount, commission, fee);
      CreateRow(w, op, p);
      if Payouts.Step(w, op).Ok? {
        CreateLeaves(w, op, p);
      }
    }
  }

  lemma {:induction false} CreateRow(w: World, op: PayoutOp, p: Payout)
    requires op.Create? && op.rate > 0 && p == NewPayout(op.terminal, op.fiat, op.commission, op.rate)
    ensures
      var r := Payouts.Step(w, op);
      && (r.Ok? <==>
            && (op.min.Some? ==> op.min.value <= op.fiat) && (op.max.Some? ==> op.fiat <= op.max.value) && !op.duplicate
            && 0 < p.amount && p.amount + p.merchantFee <= Net(w.ledger, Work(PayoutTerminal(op.terminal))))
      && (r.Ok? ==> r.value == w.(ledger := r.value.ledger, rows := w.rows + [PayoutRow(p)]))
  {
    PostAllOne(w.ledger, FreezePayoutLegs(|w.rows|, p)[0]);
    assert p.amount == 0 ==> p.merchantFee == 0;
  }

  lemma {:induction false} CreateLeaves(w: World, op: PayoutOp, p: Payout)
    requires Consistent(w) && Payouts.Step(w, op).Ok? && p.status == PayoutStatus.CREATED
    requires Payouts.Step(w, op).value.rows == w.rows + [PayoutRow(p)]
    ensures
      var t := PayoutTerminal(p.terminal);
      forall a :: Net(Payouts.Step(w, op).value.ledger, a) ==
                  Net(w.ledger, a) + Between(a, Work(t), Escrow(t), p.amount + p.merchantFee)
  {
    Enters(w, Platform.OnPayout(op), Payouts.Step(w, op).value, PayoutRow(p));
  }

  // An active, allowed trader takes an unclaimed payout, for a percentage of its
  // amount, and nothing else changes.
  lemma {:induction false} ClaimsExactly(w: World, i: nat, trader: nat, active: bool, allowed: bool, feePercent: nat,
                                         traderFee: nat)
    requires IsPayout(w, i) ==> IsShare(w.rows[i].payout.amount, feePercent, traderFee)
    ensures Payouts.Step(w, Claim(i, trader, active, allowed, feePercent)) ==
            if !active then Err(Forbidden)
            else if !IsPayout(w, i) then Err(NotFound)
            else if !allowed then Err(Forbidden)
            else
              var p := w.rows[i].payout;
              if !p.status.CREATED? then Err(Conflict)
              else Ok(w.(rows := w.rows[i := PayoutRow(
                             p.(status := CLAIMED, trader := Some(trader), traderFee := traderFee))]))
  {
    if IsPayout(w, i) {
      ShareIs(w.rows[i].payout.amount, feePercent, traderFee);
    }
  }

  // ── Completion ──────────────────────────────────────────────────────────

  // Where the earnings of a payout go when it completes.
  function EarningsTo(trader: nat, hold: bool): Account {
    if hold then Escrow(Trader(trader)) else Work(Trader(trader))
  }

  // The amount to the trader and the commission to the system, both out of the
  // terminal's ESCROW; the trader's fee and the rewards out of the system float.
  function Settlement(p: Payout, rewards: seq<Reward>, to: Account, a: Account): int {
    var escrow := Escrow(PayoutTerminal(p.terminal));
    Between(a, escrow, to, p.amount) + Between(a, escrow, SYSTEM_WORK, p.merchantFee)
    + Between(a, SYSTEM_WORK, to, p.traderFee) + Rewarded(a, rewards)
  }

  // Payout i is COMPLETED with these receipts, and paid.
  ghost predicate PaidOut(w: World, w': World, i: nat, receipts: seq<Receipt>, hold: bool, rewards: seq<Reward>) {
    && IsPayout(w, i) && w.rows[i].payout.trader.Some?
    && var p := w.rows[i].payout;
    && Rewritten(w, w', i, p.(status := COMPLETED, receipts := receipts, held := hold, rewards := rewards))
    && forall a :: Net(w'.ledger, a) ==
                   Net(w.ledger, a) + Settlement(p, rewards, EarningsTo(p.trader.value, hold), a)
  }

  // The system float and the commission cover the trader's fee and the rewards.
  predicate Affordable(l: seq<Entry>, p: Payout, rewards: seq<Reward>) {
    p.traderFee + RewardSum(rewards) <= Net(l, SYSTEM_WORK) + p.merchantFee
  }

  lemma {:induction false} PaidBalances(l: seq<Entry>, l': seq<Entry>, p: Payout, p': Payout, hold: bool)
    requires IsLive(p.status) && p.trader.Some? && !p.released
    requires p' == p.(status := COMPLETED, receipts := p'.receipts, held := hold, rewards := p'.rewards)
    requires Shifted(l, l', PayoutRow(p), PayoutRow(p'))
    ensures forall a :: Net(l', a) == Net(l, a) + Settlement(p, p'.rewards, EarningsTo(p.trader.value, hold), a)
  {
    forall a ensures Net(l', a) == Net(l, a) + Settlement(p, p'.rewards, EarningsTo(p.trader.value, hold), a) {
      RewardedIs(p'.rewards, a);
    }
  }

  lemma {:induction false} CompletionLeaves(w: World, op: PayoutOp, i: nat, receipts: seq<Receipt>, hold: bool,
                                            rewards: seq<Reward>)
    requires Consistent(w) && IsPayout(w, i) && Payouts.Step(w, op).Ok?
    requires w.rows[i].payout.status.CLAIMED? || w.rows[i].payout.status.AWAITING_CHECK?
    requires Rewritten(w, Payouts.Step(w, op).value, i, w.rows[i].payout.(
               status := COMPLETED, receipts := receipts, held := hold, rewards := rewards))
    ensures PaidOut(w, Payouts.Step(w, op).value, i, receipts, hold, rewards)
  {
    var p, w' := w.rows[i].payout, Payouts.Step(w, op).value;
    var p' := p.(status := COMPLETED, receipts := receipts, held := hold, rewards := rewards);
    assert OrderOk(w.rows[i]);
    Leaves(w, op, i, p');
    PaidBalances(w.ledger, w'.ledger, p, p', hold);
  }

  // The administrator completes a claimed payout whatever its receipts say.
  lemma {:induction false} AdminCompletesExactly(w: World, i: nat, hold: bool, links: seq<Link>)
    requires Consistent(w) && IsPayout(w, i)
    ensures
      var p, r := w.rows[i].payout, Payouts.Step(w, AdminComplete(i, hold, links));
      var rewards := RewardsFor(p.amount, links);
      if !p.status.CLAIMED? && !p.status.AWAITING_CHECK? then r == Err(Conflict)
      else
        && (r.Ok? <==> Affordable(w.ledger, p, rewards))
        && (r.Ok? ==> PaidOut(w, r.value, i, p.receipts, hold, rewards))
  {
    var p, op := w.rows[i].payout, AdminComplete(i, hold, links);
    if p.status.CLAIMED? || p.status.AWAITING_CHECK? {
      Payouts.CompletesExactly(w, i, hold, links);
      if Payouts.Step(w, op).Ok? {
        CompletionLeaves(w, op, i, p.receipts, hold, RewardsFor(p.amount, links));
      }
    }
  }

  // ── Receipts ────────────────────────────────────────────────────────────

  // What the receipts say about a payout: paid in full with nothing left to
  // judge; something left to judge; or more to come.
  predicate NoneWaits(receipts: seq<Receipt>) {
    forall k | 0 <= k < |receipts| :: !receipts[k].state.Waiting?
  }

  predicate FullyPaid(receipts: seq<Receipt>, fiat: nat) {
    NoneWaits(receipts) && SumApproved(receipts) == fiat
  }

  lemma {:induction false} CountsWaiting(receipts: seq<Receipt>)
    ensures CountWaiting(receipts) == 0 <==> NoneWaits(receipts)
  {
    if receipts != [] {
      CountsWaiting(receipts[1..]);
      assert forall k | 0 < k < |receipts| :: receipts[k] == receipts[1..][k - 1];
    }
  }

  // Payout i has these receipts and stands as they say, and when that completes
  // it, it is paid.
  ghost predicate Judged(w: World, w': World, i: nat, receipts: seq<Receipt>, hold: bool, links: seq<Link>) {
    && IsPayout(w, i)
    && var p := w.rows[i].payout;
    && if FullyPaid(receipts, p.fiat) then PaidOut(w, w', i, receipts, hold, RewardsFor(p.amount, links))
       else MoreToCome(w, w', i, receipts)
  }

  lemma {:induction false} ReceiptedExactly(w: World, i: nat, receipts: seq<Receipt>, hold: bool, links: seq<Link>)
    requires Consistent(w) && IsPayout(w, i)
    requires w.rows[i].payout.status.CLAIMED? || w.rows[i].payout.status.AWAITING_CHECK?
    ensures
      var p, r := w.rows[i].payout, Receipted(w, i, receipts, hold, links);
      var rewards := RewardsFor(p.amount, links);
      && (r.Ok? <==> (FullyPaid(receipts, p.fiat) ==> Affordable(w.ledger, p, rewards)))
      && (r.Ok? && FullyPaid(receipts, p.fiat) ==>
            Rewritten(w, r.value, i, p.(status := COMPLETED, receipts := receipts, held := hold, rewards := rewards)))
      && (r.Ok? && !FullyPaid(receipts, p.fiat) ==> MoreToCome(w, r.value, i, receipts))
  {
    if FullyPaid(receipts, w.rows[i].payout.fiat) {
      assert OrderOk(w.rows[i]);
      PaymentPosts(w, i, receipts, hold, links);
      LastReceipt(w, i, receipts, hold, links);
    } else {
      AnotherReceipt(w, i, receipts, hold, links);
    }
  }

  ghost predicate MoreToCome(w: World, w': World, i: nat, receipts: seq<Receipt>) {
    && IsPayout(w, i)
    && var status := if NoneWaits(receipts) then CLAIMED else AWAITING_CHECK;
    && w' == w.(rows := w.rows[i := PayoutRow(w.rows[i].payout.(receipts := receipts, status := status))])
  }

  lemma {:induction false} AnotherReceipt(w: World, i: nat, receipts: seq<Receipt>, hold: bool, links: seq<Link>)
    requires IsPayout(w, i) && !FullyPaid(receipts, w.rows[i].payout.fiat)
    requires w.rows[i].payout.status.CLAIMED? || w.rows[i].payout.status.AWAITING_CHECK?
    ensures Receipted(w, i, receipts, hold, links).Ok?
    ensures MoreToCome(w, Receipted(w, i, receipts, hold, links).value, i, receipts)
  {
    CountsWaiting(receipts);
  }

  lemma {:induction false} LastReceipt(w: World, i: nat, receipts: seq<Receipt>, hold: bool, links: seq<Link>)
    requires IsPayout(w, i) && FullyPaid(receipts, w.rows[i].payout.fiat) && w.rows[i].payout.trader.Some?
    requires w.rows[i].payout.status.CLAIMED? || w.rows[i].payout.status.AWAITING_CHECK?
    ensures
      var p, r := w.rows[i].payout, Receipted(w, i, receipts, hold, links);
      var rewards := RewardsFor(p.amount, links);
      && (r.Ok? <==> PostAll(w.ledger, MoneyLegs(i, p.(receipts := receipts), COMPLETED, hold, links)).Ok?)
      && (r.Ok? ==>
            Rewritten(w, r.value, i, p.(status := COMPLETED, receipts := receipts, held := hold, rewards := rewards)))
  {
    CountsWaiting(receipts);
  }

  // The receipts do not enter the transfers.
  lemma {:induction false} PaymentPosts(w: World, i: nat, receipts: seq<Receipt>, hold: bool, links: seq<Link>)
    requires Consistent(w) && IsPayout(w, i) && w.rows[i].payout.trader.Some?
    requires w.rows[i].payout.status.CLAIMED? || w.rows[i].payout.status.AWAITING_CHECK?
    ensures
      var p := w.rows[i].payout;
      var rewards := RewardsFor(p.amount, links);
      PostAll(w.ledger, MoneyLegs(i, p.(receipts := receipts), COMPLETED, hold, links)).Ok? <==>
      Affordable(w.ledger, p, rewards)
  {
    var p := w.rows[i].payout;
    Payouts.CompletesExactly(w, i, hold, links);
    AdminCompletes(w, i, hold, links);
    assert SettlePayoutLegs(i, p.(receipts := receipts, held := hold), RewardsFor(p.amount, links)) ==
           SettlePayoutLegs(i, p.(held := hold), RewardsFor(p.amount, links));
  }

  lemma {:induction false} ReceiptLeaves(w: World, op: PayoutOp, i: nat, receipts: seq<Receipt>, hold: bool,
                                         links: seq<Link>)
    requires Consistent(w) && IsPayout(w, i)
    requires w.rows[i].payout.status.CLAIMED? || w.rows[i].payout.status.AWAITING_CHECK?
    requires Payouts.Step(w, op).Ok? && Payouts.Step(w, op) == Receipted(w, i, receipts, hold, links)
    ensures Judged(w, Payouts.Step(w, op).value, i, receipts, hold, links)
  {
    ReceiptedExactly(w, i, receipts, hold, links);
    if FullyPaid(receipts, w.rows[i].payout.fiat) {
      CompletionLeaves(w, op, i, receipts, hold, RewardsFor(w.rows[i].payout.amount, links));
    }
  }

  // The trader on the payout adds a receipt for a part of what is still open, as
  // long as the terminal allows another one. The payout then stands as its
  // receipts say; it is not accepted if that would complete it unfunded.
  lemma {:induction false} AddsReceiptExactly(w: World, i: nat, trader: nat, part: int, auto: bool, most: nat,
                                              hold: bool, links: seq<Link>)
    requires Consistent(w) && IsPayout(w, i)
    ensures
      var p, r := w.rows[i].payout, Payouts.Step(w, AddReceipt(i, trader, part, auto, most, hold, links));
      if p.trader != Some(trader) then r == Err(Forbidden)
      else if !p.status.CLAIMED? && !p.status.AWAITING_CHECK? then r == Err(Conflict)
      else if part <= 0 || SumLive(p.receipts) + part > p.fiat then r == Err(Validation)
      else if CountLive(p.receipts) >= 1 && CountLive(p.receipts) >= most then r == Err(Conflict)
      else
        var receipts := p.receipts + [Receipt(part, if auto then Approved else Waiting)];
        && (r.Ok? <==>
              (FullyPaid(receipts, p.fiat) ==> Affordable(w.ledger, p, RewardsFor(p.amount, links))))
        && (r.Ok? ==> Judged(w, r.value, i, receipts, hold, links))
  {
    var p, op := w.rows[i].payout, AddReceipt(i, trader, part, auto, most, hold, links);
    if p.trader == Some(trader) && (p.status.CLAIMED? || p.status.AWAITING_CHECK?)
       && 0 < part <= p.fiat - SumLive(p.receipts) && CountLive(p.receipts) < if most == 0 then 1 else most {
      var receipts := p.receipts + [Receipt(part, if auto then Approved else Waiting)];
      ReceiptedExactly(w, i, receipts, hold, links);
      if Payouts.Step(w, op).Ok? {
        ReceiptLeaves(w, op, i, receipts, hold, links);
      }
    }
  }

  // The administrator judges a waiting receipt. On a live payout that decides
  // as above; on a finished one it only stands if the payout is fully paid.
  lemma {:induction false} JudgesExactly(w: World, i: nat, k: nat, approve: bool, hold: bool, links: seq<Link>)
    requires Consistent(w) && IsPayout(w, i) && k < |w.rows[i].payout.receipts|
    ensures
      var p, r := w.rows[i].payout, Payouts.Step(w, JudgeReceipt(i, k, approve, hold, links));
      var receipts := p.receipts[k := Receipt(p.receipts[k].fiat, if approve then Approved else Voided)];
      if !p.receipts[k].state.Waiting? then r == Err(Conflict)
      else if p.status.CLAIMED? || p.status.AWAITING_CHECK? then
        && (r.Ok? <==>
              (FullyPaid(receipts, p.fiat) ==> Affordable(w.ledger, p, RewardsFor(p.amount, links))))
        && (r.Ok? ==> Judged(w, r.value, i, receipts, hold, links))
      else
        r == if p.status.COMPLETED? && FullyPaid(receipts, p.fiat)
             then Ok(w.(rows := w.rows[i := PayoutRow(p.(receipts := receipts))])) else Err(Conflict)
  {
    var p, op := w.rows[i].payout, JudgeReceipt(i, k, approve, hold, links);
    var receipts := p.receipts[k := Receipt(p.receipts[k].fiat, if approve then Approved else Voided)];
    assert OrderOk(w.rows[i]);
    if p.receipts[k].state.Waiting? {
      assert Payouts.Step(w, op) == Receipted(w, i, receipts, hold, links);
      if p.status.CLAIMED? || p.status.AWAITING_CHECK? {
        ReceiptedExactly(w, i, receipts, hold, links);
        if Payouts.Step(w, op).Ok? {
          ReceiptLeaves(w, op, i, receipts, hold, links);
        }
      } else {
        CountsWaiting(receipts);
      }
    }
  }

  // ── Back to the terminal, or to the pool ────────────────────────────────

  // Payout i ends in `to` with its receipts voided, and the money goes back.
  ghost predicate Refunded(w: World, w': World, i: nat, to: PayoutStatus) {
    && IsPayout(w, i)
    && var p := w.rows[i].payout;
    && var t := PayoutTerminal(p.terminal);
    && Rewritten(w, w', i, p.(status := to, receipts := Void(p.receipts)))
    && forall a :: Net(w'.ledger, a) == Net(w.ledger, a) + Between(a, Escrow(t), Work(t), p.amount + p.merchantFee)
  }

  lemma {:induction false} RefundLeaves(w: World, w': World, i: nat, to: PayoutStatus)
    requires IsPayout(w, i) && IsLive(w.rows[i].payout.status) && (to.CANCELED? || to.EXPIRED?)
    requires Rewritten(w, w', i, w.rows[i].payout.(status := to, receipts := Void(w.rows[i].payout.receipts)))
    requires Shifted(w.ledger, w'.ledger, w.rows[i], w'.rows[i])
    ensures Refunded(w, w', i, to)
  {
    RefundedBalances(w.ledger, w'.ledger, w.rows[i].payout, to);
  }

  lemma {:induction false} RefundRow(w: World, i: nat, to: PayoutStatus)
    requires IsPayout(w, i) && IsLive(w.rows[i].payout.status) && (to.CANCELED? || to.EXPIRED?)
    requires Payouts.ChangeStatus(w, i, w.rows[i].payout, to, false, []).Ok?
    ensures
      var p := w.rows[i].payout;
      Rewritten(w, Payouts.ChangeStatus(w, i, p, to, false, []).value, i,
                p.(status := to, receipts := Void(p.receipts)))
  {
  }

  lemma {:induction false} RefundedBalances(l: seq<Entry>, l': seq<Entry>, p: Payout, to: PayoutStatus)
    requires IsLive(p.status) && (to.CANCELED? || to.EXPIRED?)
    requires Shifted(l, l', PayoutRow(p), PayoutRow(p.(status := to, receipts := Void(p.receipts))))
    ensures
      var t := PayoutTerminal(p.terminal);
      forall a :: Net(l', a) == Net(l, a) + Between(a, Escrow(t), Work(t), p.amount + p.merchantFee)
  {
  }

  lemma {:induction false} EndLeaves(w: World, op: PayoutOp, i: nat, to: PayoutStatus)
    requires Consistent(w) && IsPayout(w, i) && IsLive(w.rows[i].payout.status) && (to.CANCELED? || to.EXPIRED?)
    requires Payouts.ChangeStatus(w, i, w.rows[i].payout, to, false, []).Ok?
    requires Payouts.Step(w, op) == Payouts.ChangeStatus(w, i, w.rows[i].payout, to, false, [])
    ensures Refunded(w, Payouts.Step(w, op).value, i, to)
  {
    var p := w.rows[i].payout;
    RefundRow(w, i, to);
    Leaves(w, op, i, p.(status := to, receipts := Void(p.receipts)));
    RefundLeaves(w, Payouts.Step(w, op).value, i, to);
  }

  // The terminal cancels a payout nobody has claimed, the administrator any live
  // one, and a live one may expire; each time it goes through.
  lemma {:induction false} EndsExactly(w: World, i: nat, terminal: nat)
    requires Consistent(w) && IsPayout(w, i)
    ensures
      var p := w.rows[i].payout;
      var mine, admin, expired :=
        Payouts.Step(w, CancelByMerchant(i, terminal)), Payouts.Step(w, AdminCancel(i)), Payouts.Step(w, Expire(i));
      && (if p.terminal != terminal then mine == Err(NotFound)
          else if !p.status.CREATED? then mine == Err(Conflict)
          else mine.Ok? && Refunded(w, mine.value, i, PayoutStatus.CANCELED))
      && (if !IsLive(p.status) then admin == Err(Conflict)
          else admin.Ok? && Refunded(w, admin.value, i, PayoutStatus.CANCELED))
      && (if IsLive(p.status) then expired.Ok? && Refunded(w, expired.value, i, EXPIRED)
          else expired == if p.status.EXPIRED? then Ok(w) else Err(Conflict))
  {
    var p := w.rows[i].payout;
    if IsLive(p.status) {
      Payouts.RefundNeverShort(w, i);
      EndLeaves(w, AdminCancel(i), i, PayoutStatus.CANCELED);
      EndLeaves(w, Expire(i), i, EXPIRED);
      if p.terminal == terminal && p.status.CREATED? {
        EndLeaves(w, CancelByMerchant(i, terminal), i, PayoutStatus.CANCELED);
      }
    }
  }

  // A stale claim is returned to the pool: no trader, no fee, no receipt counts,
  // and no money moves.
  lemma {:induction false} ReturnsStaleExactly(w: World, i: nat)
    requires Consistent(w) && IsPayout(w, i)
    ensures
      var p := w.rows[i].payout;
      Payouts.Step(w, ReturnStale(i)) ==
      if p.status.CREATED? then Ok(w)
      else if p.status.CLAIMED? then
        Ok(w.(rows := w.rows[i := PayoutRow(p.(status := PayoutStatus.CREATED, trader := None, traderFee := 0,
                                               receipts := Void(p.receipts)))]))
      else Err(Conflict)
  {
    var p := w.rows[i].payout;
    assert OrderOk(w.rows[i]);
    var voided := p.(receipts := Void(p.receipts));
    if p.status.CREATED? {
      assert voided.receipts == p.receipts;
      assert SetPayout(w, i, voided) == w;
    }
    assert PostAll(w.ledger, []) == Ok(w.ledger);
    var back := voided.(status := PayoutStatus.CREATED, trader := None, traderFee := 0);
    assert w.rows[i := PayoutRow(voided)][i := PayoutRow(back)] == w.rows[i := PayoutRow(back)];
  }

  // A hold is released once, and gives the trader exactly what was held.
  lemma {:induction false} ReleasesExactly(w: World, i: nat)
    requires Consistent(w) && IsPayout(w, i)
    ensures
      var p, r := w.rows[i].payout, Payouts.Step(w, ReleaseHold(i));
      if !p.held || p.released then r == Ok(w)
      else
        && p.trader.Some? && r.Ok? && Rewritten(w, r.value, i, p.(released := true))
        && var t := Trader(p.trader.value);
        && forall a :: Net(r.value.ledger, a) ==
                       Net(w.ledger, a) + Between(a, Escrow(t), Work(t), p.amount + p.traderFee)
  {
    var p := w.rows[i].payout;
    assert OrderOk(w.rows[i]);
    if p.held && !p.released {
      Payouts.ReleaseNeverShort(w, i);
      var w' := Payouts.Step(w, ReleaseHold(i)).value;
      Leaves(w, ReleaseHold(i), i, p.(released := true));
      ReleasedBalances(w.ledger, w'.ledger, p);
    }
  }

  lemma {:induction false} ReleasedBalances(l: seq<Entry>, l': seq<Entry>, p: Payout)
    requires p.status.COMPLETED? && p.trader.Some? && p.held && !p.released
    requires Shifted(l, l', PayoutRow(p), PayoutRow(p.(released := true)))
    ensures
      var t := Trader(p.trader.value);
      forall a :: Net(l', a) == Net(l, a) + Between(a, Escrow(t), Work(t), p.amount + p.traderFee)
  {
  }
}
