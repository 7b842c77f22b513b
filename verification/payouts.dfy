// payouts/service.py: payouts funded by a payout terminal. Every status change
// goes through one funnel that also moves the money.

module Payouts {
  import opened Common
  import opened Rounding
  import opened Ledger
  import opened Rows
  import opened Finance
  import opened Database
  import opened Orders
  import opened OrderService
  import opened Books

  datatype PayoutOp =
    // `bounds` are the terminal's limits, `duplicate` says that the external id
    // is taken, `rate` 0 stands for "no active rate".
    | Create(terminal: nat, fiat: nat, min: Option<nat>, max: Option<nat>, duplicate: bool, commission: nat, rate: nat)
    | CancelByMerchant(payout: nat, terminal: nat)
    | Claim(payout: nat, trader: nat, active: bool, allowed: bool, feePercent: nat)
    // `auto` is the trader's receipt mode, `most` the terminal's receipt count;
    // `hold` and `links` are what a completion would read.
    | AddReceipt(payout: nat, trader: nat, part: int, auto: bool, most: nat, hold: bool, links: seq<Link>)
    | JudgeReceipt(payout: nat, receipt: nat, approve: bool, hold: bool, links: seq<Link>)
    | AdminCancel(payout: nat)
    | AdminComplete(payout: nat, hold: bool, links: seq<Link>)
    | Expire(payout: nat)
    | ReturnStale(payout: nat)
    | ReleaseHold(payout: nat)

  predicate IsPayout(w: World, i: nat) {
    i < |w.rows| && w.rows[i].PayoutRow?
  }

  function SetPayout(w: World, i: nat, p: Payout): World
    requires i < |w.rows|
  {
    w.(rows := w.rows[i := PayoutRow(p)])
  }

  // _PAYOUT_TRANSITIONS
  predicate Allowed(from: PayoutStatus, to: PayoutStatus) {
    match from
    case CREATED => to.CLAIMED? || to.CANCELED? || to.EXPIRED?
    case CLAIMED => to.AWAITING_CHECK? || to.COMPLETED? || to.CREATED? || to.CANCELED? || to.EXPIRED?
    case AWAITING_CHECK => to.COMPLETED? || to.CLAIMED? || to.CANCELED? || to.EXPIRED?
    case _ => false
  }

  predicate IsLive(s: PayoutStatus) {
    s.CREATED? || s.CLAIMED? || s.AWAITING_CHECK?
  }

  // ── Receipts ────────────────────────────────────────────────────────────

  function Void(receipts: seq<Receipt>): (r: seq<Receipt>)
    ensures |r| == |receipts|
    ensures forall k | 0 <= k < |r| :: r[k] == receipts[k].(state := Voided)
  {
    if receipts == [] then [] else [receipts[0].(state := Voided)] + Void(receipts[1..])
  }

  predicate AllVoid(receipts: seq<Receipt>) {
    forall k | 0 <= k < |receipts| :: receipts[k].state.Voided?
  }

  function SumApproved(receipts: seq<Receipt>): nat {
    if receipts == [] then 0
    else (if receipts[0].state.Approved? then receipts[0].fiat else 0) + SumApproved(receipts[1..])
  }

  // Everything not voided counts against the payout.
  function SumLive(receipts: seq<Receipt>): nat {
    if receipts == [] then 0
    else (if receipts[0].state.Voided? then 0 else receipts[0].fiat) + SumLive(receipts[1..])
  }

  function CountLive(receipts: seq<Receipt>): nat {
    if receipts == [] then 0
    else (if receipts[0].state.Voided? then 0 else 1) + CountLive(receipts[1..])
  }

  function CountWaiting(receipts: seq<Receipt>): nat {
    if receipts == [] then 0
    else (if receipts[0].state.Waiting? then 1 else 0) + CountWaiting(receipts[1..])
  }

  // What one more receipt adds to the tallies.
  lemma {:induction false} TalliesAppend(receipts: seq<Receipt>, r: Receipt)
    ensures CountLive(receipts + [r]) == CountLive(receipts) + if r.state.Voided? then 0 else 1
    ensures CountWaiting(receipts + [r]) == CountWaiting(receipts) + if r.state.Waiting? then 1 else 0
    ensures SumLive(receipts + [r]) == SumLive(receipts) + if r.state.Voided? then 0 else r.fiat
    ensures SumApproved(receipts + [r]) == SumApproved(receipts) + if r.state.Approved? then r.fiat else 0
  {
    if receipts == [] {
      assert receipts + [r] == [r];
    } else {
      assert (receipts + [r])[1..] == receipts[1..] + [r];
      TalliesAppend(receipts[1..], r);
    }
  }

  // `_reconcile_payout`: the status the receipts imply.
  function Implied(p: Payout): PayoutStatus {
    if SumApproved(p.receipts) == p.fiat && CountWaiting(p.receipts) == 0 then COMPLETED
    else if CountWaiting(p.receipts) > 0 then AWAITING_CHECK
    else CLAIMED
  }

  // ── The funnel ──────────────────────────────────────────────────────────

  // The row after a transition; `p` already carries the caller's extra fields.
  function Moved(p: Payout, to: PayoutStatus, hold: bool, links: seq<Link>): Payout {
    if to.COMPLETED? then p.(status := to, held := hold, rewards := RewardsFor(p.amount, links))
    else if to.CANCELED? || to.EXPIRED? then p.(status := to, receipts := Void(p.receipts))
    else p.(status := to)
  }

  function MoneyLegs(i: nat, p: Payout, to: PayoutStatus, hold: bool, links: seq<Link>): seq<Leg>
    requires to.COMPLETED? ==> p.trader.Some?
  {
    if to.COMPLETED? then SettlePayoutLegs(i, p.(held := hold), RewardsFor(p.amount, links))
    else if to.CANCELED? || to.EXPIRED? then RefundPayoutLegs(i, p)
    else []
  }

  // `change_status`; the caller's extra fields are already on `p`.
  function ChangeStatus(w: World, i: nat, p: Payout, to: PayoutStatus, hold: bool, links: seq<Link>)
    : (r: Result<World, Error>)
    requires IsPayout(w, i)
    ensures r.Ok? ==> r.value.disputes == w.disputes && |r.value.rows| == |w.rows| && IsPayout(r.value, i)
    ensures r.Ok? ==> forall j | 0 <= j < |w.rows| && j != i :: r.value.rows[j] == w.rows[j]
  {
    var from := w.rows[i].payout.status;
    if to == from then Ok(w)
    else if !Allowed(from, to) then Err(Conflict)
    else if to.COMPLETED? && p.trader.None? then Err(Validation)
    else
      var l :- PostAll(w.ledger, MoneyLegs(i, p, to, hold, links));
      Ok(SetPayout(w.(ledger := l), i, Moved(p, to, hold, links)))
  }

  // Store the receipts, then move to the status they imply.
  function Receipted(w: World, i: nat, receipts: seq<Receipt>, hold: bool, links: seq<Link>): Result<World, Error>
    requires IsPayout(w, i)
  {
    var p := w.rows[i].payout.(receipts := receipts);
    ChangeStatus(SetPayout(w, i, p), i, p, Implied(p), hold, links)
  }

  function NewPayout(terminal: nat, fiat: nat, commission: nat, rate: nat): Payout
    requires rate > 0
  {
    var amount := HalfEven(fiat * UNIT, rate);
    Payout(terminal, None, fiat, [], amount, HalfEven(amount * commission, PERCENT), 0, PayoutStatus.CREATED, false,
           false, [])
  }

  function Step(w: World, op: PayoutOp): Result<World, Error> {
    match op
    case Create(terminal, fiat, min, max, duplicate, commission, rate) =>
      if min.Some? && fiat < min.value then Err(Validation)
      else if max.Some? && fiat > max.value then Err(Validation)
      else if duplicate || rate == 0 then Err(Validation)
      else
        var p := NewPayout(terminal, fiat, commission, rate);
        if Net(w.ledger, Work(PayoutTerminal(terminal))) < p.amount + p.merchantFee then Err(InsufficientFunds)
        else
          var l :- PostAll(w.ledger, FreezePayoutLegs(|w.rows|, p));
          Ok(w.(ledger := l, rows := w.rows + [PayoutRow(p)]))
    case CancelByMerchant(i, terminal) =>
      if !IsPayout(w, i) || w.rows[i].payout.terminal != terminal then Err(NotFound)
      else if !w.rows[i].payout.status.CREATED? then Err(Conflict)
      else ChangeStatus(w, i, w.rows[i].payout, PayoutStatus.CANCELED, false, [])
    case Claim(i, trader, active, allowed, feePercent) =>
      if !active then Err(Forbidden)
      else if !IsPayout(w, i) then Err(NotFound)
      else if !allowed then Err(Forbidden)
      else
        var p := w.rows[i].payout;
        if !p.status.CREATED? then Err(Conflict)
        else
          ChangeStatus(w, i, p.(trader := Some(trader), traderFee := HalfEven(p.amount * feePercent, PERCENT)),
                       CLAIMED, false, [])
    case AddReceipt(i, trader, part, auto, most, hold, links) =>
      if !IsPayout(w, i) then Err(NotFound)
      else
        var p := w.rows[i].payout;
        if p.trader != Some(trader) then Err(Forbidden)
        else if !p.status.CLAIMED? && !p.status.AWAITING_CHECK? then Err(Conflict)
        else if part <= 0 || part > p.fiat - SumLive(p.receipts) then Err(Validation)
        else if CountLive(p.receipts) >= if most == 0 then 1 else most then Err(Conflict)
        else Receipted(w, i, p.receipts + [Receipt(part, if auto then Approved else Waiting)], hold, links)
    case JudgeReceipt(i, k, approve, hold, links) =>
      if !IsPayout(w, i) || k >= |w.rows[i].payout.receipts| then Err(NotFound)
      else
        var p := w.rows[i].payout;
        if !p.receipts[k].state.Waiting? then Err(Conflict)
        else Receipted(w, i, p.receipts[k := p.receipts[k].(state := if approve then Approved else Voided)], hold,
                       links)
    case AdminCancel(i) =>
      if !IsPayout(w, i) then Err(NotFound)
      else if !IsLive(w.rows[i].payout.status) then Err(Conflict)
      else ChangeStatus(w, i, w.rows[i].payout, PayoutStatus.CANCELED, false, [])
    case AdminComplete(i, hold, links) =>
      if !IsPayout(w, i) then Err(NotFound)
      else if !w.rows[i].payout.status.CLAIMED? && !w.rows[i].payout.status.AWAITING_CHECK? then Err(Conflict)
      else ChangeStatus(w, i, w.rows[i].payout, COMPLETED, hold, links)
    case Expire(i) =>
      if !IsPayout(w, i) then Err(NotFound) else ChangeStatus(w, i, w.rows[i].payout, EXPIRED, false, [])
    case ReturnStale(i) =>
      if !IsPayout(w, i) then Err(NotFound)
      else
        var p := w.rows[i].payout.(receipts := Void(w.rows[i].payout.receipts));
        ChangeStatus(SetPayout(w, i, p), i, p.(trader := None, traderFee := 0), PayoutStatus.CREATED, false, [])
    case ReleaseHold(i) =>
      if !IsPayout(w, i) then Err(NotFound)
      else
        var p := w.rows[i].payout;
        if !p.held || p.released then Ok(w)
        else
          var l :- PostAll(w.ledger, ReleaseHoldLegs(i, p));
          Ok(SetPayout(w.(ledger := l), i, p.(released := true)))
  }

  // ── What every operation keeps ──────────────────────────────────────────

  // The extra fields a caller may write name the trader and the trader's fee.
  predicate Assigns(p: Payout, q: Payout, to: PayoutStatus) {
    && q == p.(trader := q.trader, traderFee := q.traderFee)
    && (to.CLAIMED? && p.status.CREATED? ==> q.trader.Some?)
    && (!p.status.CREATED? && !to.CREATED? ==> q == p)
    && (to.CREATED? ==> AllVoid(q.receipts))
  }

  lemma {:induction false} MoneyNet(i: nat, p: Payout, q: Payout, to: PayoutStatus, hold: bool, links: seq<Link>,
                                    a: Account)
    requires Allowed(p.status, to) && !p.held && !p.released
    requires Assigns(p, q, to) && (to.COMPLETED? ==> q.trader.Some?)
    ensures LegsNet(MoneyLegs(i, q, to, hold, links), a) ==
            PayoutEffect(Moved(q, to, hold, links), a) - PayoutEffect(p, a)
    ensures For(MoneyLegs(i, q, to, hold, links), Some(i))
  {
    PayoutNet(i, q, a);
    if to.COMPLETED? {
      SettlePayoutNet(i, q.(held := hold), RewardsFor(q.amount, links), a);
    }
  }

  lemma ChangeStatusKeeps(w: World, i: nat, q: Payout, to: PayoutStatus, hold: bool, links: seq<Link>)
    requires Consistent(w) && IsPayout(w, i) && Assigns(w.rows[i].payout, q, to)
    requires ChangeStatus(w, i, q, to, hold, links).Ok?
    ensures Consistent(ChangeStatus(w, i, q, to, hold, links).value)
  {
    var p := w.rows[i].payout;
    assert OrderOk(w.rows[i]);
    if to != p.status {
      var legs, row := MoneyLegs(i, q, to, hold, links), PayoutRow(Moved(q, to, hold, links));
      forall a ensures LegsNet(legs, a) == Effect(row, a) - Effect(w.rows[i], a) {
        MoneyNet(i, p, q, to, hold, links, a);
      }
      MoneyNet(i, p, q, to, hold, links, SYSTEM_WORK);
      RowMoveKeeps(w, i, legs, row, w.limits);
    }
  }

  lemma CreateKeeps(w: World, op: PayoutOp)
    requires Consistent(w) && op.Create? && Step(w, op).Ok?
    ensures Consistent(Step(w, op).value)
  {
    var n, p := |w.rows|, NewPayout(op.terminal, op.fiat, op.commission, op.rate);
    var legs := FreezePayoutLegs(n, p);
    forall a ensures LegsNet(legs, a) == Effect(PayoutRow(p), a) {
      PayoutNet(n, p, a);
      assert p.(status := PayoutStatus.CREATED) == p;
    }
    PayoutNet(n, p, SYSTEM_WORK);
    assert legs[0].entry.amount > 0;
    NewRowKeeps(w, legs, PayoutRow(p));
  }

  lemma ReleaseHoldKeeps(w: World, i: nat)
    requires Consistent(w) && IsPayout(w, i) && Step(w, ReleaseHold(i)).Ok?
    ensures Consistent(Step(w, ReleaseHold(i)).value)
  {
    var p := w.rows[i].payout;
    assert OrderOk(w.rows[i]);
    if p.held && !p.released {
      var legs, row := ReleaseHoldLegs(i, p), PayoutRow(p.(released := true));
      forall a ensures LegsNet(legs, a) == Effect(row, a) - Effect(w.rows[i], a) {
        ReleaseHoldNet(i, p, a);
      }
      ReleaseHoldNet(i, p, SYSTEM_WORK);
      RowMoveKeeps(w, i, legs, row, w.limits);
    }
  }

  lemma StepKeeps(w: World, op: PayoutOp)
    requires Consistent(w) && Step(w, op).Ok?
    ensures Consistent(Step(w, op).value)
  {
    match op
    case Create(_, _, _, _, _, _, _) => CreateKeeps(w, op);
    case ReleaseHold(i) => ReleaseHoldKeeps(w, i);
    case Claim(_, _, _, _, _) => ClaimKeeps(w, op);
    case ReturnStale(i) => ReturnStaleKeeps(w, i);
    case CancelByMerchant(i, _) => ChangeStatusKeeps(w, i, w.rows[i].payout, PayoutStatus.CANCELED, false, []);
    case AdminCancel(i) => ChangeStatusKeeps(w, i, w.rows[i].payout, PayoutStatus.CANCELED, false, []);
    case Expire(i) => ChangeStatusKeeps(w, i, w.rows[i].payout, EXPIRED, false, []);
    case AdminComplete(i, hold, links) => ChangeStatusKeeps(w, i, w.rows[i].payout, COMPLETED, hold, links);
    case AddReceipt(i, _, part, auto, _, hold, links) =>
      var p := w.rows[i].payout;
      ReceiptedKeeps(w, i, p.receipts + [Receipt(part, if auto then Approved else Waiting)], hold, links);
    case JudgeReceipt(i, k, approve, hold, links) =>
      var p := w.rows[i].payout;
      assert OrderOk(w.rows[i]);
      ReceiptedKeeps(w, i, p.receipts[k := p.receipts[k].(state := if approve then Approved else Voided)], hold, links);
  }

  lemma ClaimKeeps(w: World, op: PayoutOp)
    requires op.Claim? && Consistent(w) && Step(w, op).Ok?
    ensures Consistent(Step(w, op).value)
  {
    var p := w.rows[op.payout].payout;
    ChangeStatusKeeps(w, op.payout,
                      p.(trader := Some(op.trader), traderFee := HalfEven(p.amount * op.feePercent, PERCENT)),
                      CLAIMED, false, []);
  }

  lemma ReturnStaleKeeps(w: World, i: nat)
    requires Consistent(w) && Step(w, ReturnStale(i)).Ok?
    ensures Consistent(Step(w, ReturnStale(i)).value)
  {
    var p := w.rows[i].payout;
    var p' := p.(receipts := Void(p.receipts));
    ReceiptsKeep(w, i, Void(p.receipts));
    ChangeStatusKeeps(SetPayout(w, i, p'), i, p'.(trader := None, traderFee := 0), PayoutStatus.CREATED, false, []);
  }

  // Receipts move no money.
  lemma ReceiptsKeep(w: World, i: nat, receipts: seq<Receipt>)
    requires Consistent(w) && IsPayout(w, i)
    requires w.rows[i].payout.status.CREATED? ==> AllVoid(receipts)
    ensures Consistent(SetPayout(w, i, w.rows[i].payout.(receipts := receipts)))
  {
    assert OrderOk(w.rows[i]);
    RowMoveKeeps(w, i, [], PayoutRow(w.rows[i].payout.(receipts := receipts)), w.limits);
  }

  lemma ReceiptedKeeps(w: World, i: nat, receipts: seq<Receipt>, hold: bool, links: seq<Link>)
    requires Consistent(w) && IsPayout(w, i) && !w.rows[i].payout.status.CREATED?
    requires Receipted(w, i, receipts, hold, links).Ok?
    ensures Consistent(Receipted(w, i, receipts, hold, links).value)
  {
    var p := w.rows[i].payout.(receipts := receipts);
    ReceiptsKeep(w, i, receipts);
    ChangeStatusKeeps(SetPayout(w, i, p), i, p, Implied(p), hold, links);
  }

  // ── Money is moved once ─────────────────────────────────────────────────

  // A finished payout never changes status again, and its hold is released at
  // most once: afterwards only receipts waiting for a verdict can still move.
  lemma FinishedStays(w: World, op: PayoutOp, i: nat)
    requires IsPayout(w, i) && !IsLive(w.rows[i].payout.status) && Step(w, op).Ok?
    ensures IsPayout(Step(w, op).value, i)
    ensures
      var p, p' := w.rows[i].payout, Step(w, op).value.rows[i].payout;
      p' == p.(receipts := p'.receipts, released := p'.released) && (p.released ==> p'.released)
  {
    match op
    case AddReceipt(_, _, _, _, _, _, _) => ReceiptedIdle(w, op, i);
    case JudgeReceipt(_, _, _, _, _) => ReceiptedIdle(w, op, i);
    case ReturnStale(_) =>
    case Create(_, _, _, _, _, _, _) =>
    case ReleaseHold(_) =>
    case _ => PlainIdle(w, op, i);
  }

  lemma ReceiptedIdle(w: World, op: PayoutOp, i: nat)
    requires op.AddReceipt? || op.JudgeReceipt?
    requires IsPayout(w, i) && !IsLive(w.rows[i].payout.status) && Step(w, op).Ok?
    ensures IsPayout(Step(w, op).value, i)
    ensures Step(w, op).value.rows[i].payout == w.rows[i].payout.(receipts := Step(w, op).value.rows[i].payout.receipts)
  {
  }

  lemma PlainIdle(w: World, op: PayoutOp, i: nat)
    requires op.CancelByMerchant? || op.Claim? || op.AdminCancel? || op.AdminComplete? || op.Expire?
    requires IsPayout(w, i) && !IsLive(w.rows[i].payout.status) && Step(w, op).Ok?
    ensures IsPayout(Step(w, op).value, i) && Step(w, op).value.rows[i] == w.rows[i]
  {
  }

  // The receipts never add up to more than the payout.
  predicate ReceiptsFit(w: World) {
    forall i | 0 <= i < |w.rows| && w.rows[i].PayoutRow? :: SumLive(w.rows[i].payout.receipts) <= w.rows[i].payout.fiat
  }

  lemma {:induction false} SumsOfVoid(receipts: seq<Receipt>)
    ensures SumLive(Void(receipts)) == 0
  {
    if receipts != [] {
      SumsOfVoid(receipts[1..]);
    }
  }

  lemma {:induction false} SumsUpdate(receipts: seq<Receipt>, k: nat, r: Receipt)
    requires k < |receipts| && r.fiat == receipts[k].fiat && !receipts[k].state.Voided?
    ensures SumLive(receipts[k := r]) <= SumLive(receipts)
  {
    if k > 0 {
      assert receipts[k := r][1..] == receipts[1..][k - 1 := r];
      SumsUpdate(receipts[1..], k - 1, r);
    } else {
      assert receipts[k := r][1..] == receipts[1..];
    }
  }

  // What one operation can do to the receipts of one payout.
  predicate ReceiptsMove(op: PayoutOp, i: nat, p: Payout, p': Payout) {
    && p'.fiat == p.fiat
    && (|| p'.receipts == p.receipts
        || p'.receipts == Void(p.receipts)
        || (&& op.AddReceipt? && op.payout == i && 0 < op.part <= p.fiat - SumLive(p.receipts)
            && p'.receipts == p.receipts + [Receipt(op.part, if op.auto then Approved else Waiting)])
        || (&& op.JudgeReceipt? && op.payout == i && op.receipt < |p.receipts| && p.receipts[op.receipt].state.Waiting?
            && p'.receipts == p.receipts[op.receipt :=
                 p.receipts[op.receipt].(state := if op.approve then Approved else Voided)]))
  }

  // The funnel rewrites at most the one row, as `Moved` says.
  lemma FunnelRow(w: World, i: nat, q: Payout, to: PayoutStatus, hold: bool, links: seq<Link>) returns (w': World)
    requires IsPayout(w, i) && ChangeStatus(w, i, q, to, hold, links).Ok?
    ensures w' == ChangeStatus(w, i, q, to, hold, links).value
    ensures (w'.rows == w.rows && to == w.rows[i].payout.status)
            || w'.rows == w.rows[i := PayoutRow(Moved(q, to, hold, links))]
  {
    w' := ChangeStatus(w, i, q, to, hold, links).value;
  }

  lemma ReceiptedMoves(w: World, op: PayoutOp, i: nat)
    requires op.AddReceipt? || op.JudgeReceipt?
    requires Step(w, op).Ok? && IsPayout(w, i)
    ensures IsPayout(Step(w, op).value, i) && ReceiptsMove(op, i, w.rows[i].payout, Step(w, op).value.rows[i].payout)
    ensures op.payout == i ==> Step(w, op).value.rows[i].payout.status == Implied(Step(w, op).value.rows[i].payout)
                               || !IsLive(w.rows[i].payout.status)
  {
    var p := w.rows[op.payout].payout;
    if op.AddReceipt? {
      var w' := ReceiptedRow(w, op.payout, p.receipts + [Receipt(op.part, if op.auto then Approved else Waiting)],
                             op.hold, op.links);
    } else {
      var w' := ReceiptedRow(w, op.payout,
        p.receipts[op.receipt := p.receipts[op.receipt].(state := if op.approve then Approved else Voided)],
        op.hold, op.links);
    }
  }

  // Storing receipts rewrites one row: its receipts, and the status they imply.
  lemma ReceiptedRow(w: World, i: nat, receipts: seq<Receipt>, hold: bool, links: seq<Link>) returns (w': World)
    requires IsPayout(w, i) && Receipted(w, i, receipts, hold, links).Ok?
    ensures w' == Receipted(w, i, receipts, hold, links).value
    ensures |w'.rows| == |w.rows| && IsPayout(w', i) && w'.rows == w.rows[i := w'.rows[i]]
    ensures w'.rows[i].payout.receipts == receipts && w'.rows[i].payout.fiat == w.rows[i].payout.fiat
    ensures w'.rows[i].payout.status == Implied(w'.rows[i].payout)
  {
    var p := w.rows[i].payout.(receipts := receipts);
    w' := FunnelRow(SetPayout(w, i, p), i, p, Implied(p), hold, links);
  }

  lemma StepMovesReceipts(w: World, op: PayoutOp, i: nat)
    requires Step(w, op).Ok? && IsPayout(w, i)
    ensures IsPayout(Step(w, op).value, i) && ReceiptsMove(op, i, w.rows[i].payout, Step(w, op).value.rows[i].payout)
  {
    if op.AddReceipt? || op.JudgeReceipt? {
      ReceiptedMoves(w, op, i);
    } else if op.ReturnStale? {
      var p := w.rows[op.payout].payout.(receipts := Void(w.rows[op.payout].payout.receipts));
      var w' := FunnelRow(SetPayout(w, op.payout, p), op.payout, p.(trader := None, traderFee := 0),
                          PayoutStatus.CREATED, false, []);
    } else if !op.Create? && !op.ReleaseHold? {
      PlainMoves(w, op, i);
    }
  }

  // The operations that only change the status.
  lemma PlainMoves(w: World, op: PayoutOp, i: nat)
    requires op.CancelByMerchant? || op.Claim? || op.AdminCancel? || op.AdminComplete? || op.Expire?
    requires Step(w, op).Ok? && IsPayout(w, i)
    ensures IsPayout(Step(w, op).value, i)
    ensures var r, r' := w.rows[i].payout.receipts, Step(w, op).value.rows[i].payout.receipts; r' == r || r' == Void(r)
    ensures Step(w, op).value.rows[i].payout.fiat == w.rows[i].payout.fiat
    ensures Step(w, op).value.rows[i].payout.status.COMPLETED? ==>
              op.AdminComplete? || Step(w, op).value.rows[i] == w.rows[i]
  {
    var p := w.rows[op.payout].payout;
    var to := match op
      case Claim(_, _, _, _, _) => CLAIMED
      case AdminComplete(_, _, _) => COMPLETED
      case Expire(_) => EXPIRED
      case _ => PayoutStatus.CANCELED;
    var q := if op.Claim? then p.(trader := Some(op.trader), traderFee := HalfEven(p.amount * op.feePercent, PERCENT))
             else p;
    var w' := FunnelRow(w, op.payout, q, to, op.AdminComplete? && op.hold, if op.AdminComplete? then op.links else []);
    assert w' == Step(w, op).value;
  }

  // A payout that one operation adds is new and has no receipts.
  lemma StepAddsEmpty(w: World, op: PayoutOp, i: nat)
    requires Step(w, op).Ok? && IsPayout(Step(w, op).value, i) && !IsPayout(w, i)
    ensures Step(w, op).value.rows[i].payout.receipts == [] && Step(w, op).value.rows[i].payout.status.CREATED?
  {
    match op
    case Create(_, _, _, _, _, _, _) =>
    case _ =>
  }

  lemma ReceiptsStayWithin(w: World, op: PayoutOp)
    requires ReceiptsFit(w) && Step(w, op).Ok?
    ensures ReceiptsFit(Step(w, op).value)
  {
    var w' := Step(w, op).value;
    forall i: nat | IsPayout(w', i) ensures SumLive(w'.rows[i].payout.receipts) <= w'.rows[i].payout.fiat {
      if IsPayout(w, i) {
        var p, p' := w.rows[i].payout, w'.rows[i].payout;
        StepMovesReceipts(w, op, i);
        SumsOfVoid(p.receipts);
        if p'.receipts != p.receipts && p'.receipts != Void(p.receipts) {
          if op.AddReceipt? {
            TalliesAppend(p.receipts, p'.receipts[|p.receipts|]);
          } else {
            SumsUpdate(p.receipts, op.receipt, p'.receipts[op.receipt]);
          }
        }
      } else {
        StepAddsEmpty(w, op, i);
      }
    }
  }

  // Without the administrator's override a payout completes only on approved
  // receipts for exactly its amount, none of them still waiting; and that stays
  // so afterwards.
  predicate Covered(p: Payout) {
    SumApproved(p.receipts) == p.fiat && CountWaiting(p.receipts) == 0
  }

  predicate CompletedAreCovered(w: World) {
    forall i | 0 <= i < |w.rows| && w.rows[i].PayoutRow? ::
      w.rows[i].payout.status.COMPLETED? ==> Covered(w.rows[i].payout)
  }

  lemma {:induction false} WaitingIsCounted(receipts: seq<Receipt>, k: nat)
    requires k < |receipts| && receipts[k].state.Waiting?
    ensures CountWaiting(receipts) > 0
  {
    if k > 0 {
      WaitingIsCounted(receipts[1..], k - 1);
    }
  }

  lemma CompletesOnlyWhenCovered(w: World, op: PayoutOp)
    requires CompletedAreCovered(w) && !op.AdminComplete? && Step(w, op).Ok?
    ensures CompletedAreCovered(Step(w, op).value)
  {
    var w' := Step(w, op).value;
    forall i: nat | IsPayout(w', i) && w'.rows[i].payout.status.COMPLETED? ensures Covered(w'.rows[i].payout) {
      if IsPayout(w, i) {
        CompletionIsCovered(w, op, i);
      } else {
        StepAddsEmpty(w, op, i);
      }
    }
  }

  lemma CompletionIsCovered(w: World, op: PayoutOp, i: nat)
    requires !op.AdminComplete? && Step(w, op).Ok? && IsPayout(w, i)
    requires w.rows[i].payout.status.COMPLETED? ==> Covered(w.rows[i].payout)
    requires IsPayout(Step(w, op).value, i) && Step(w, op).value.rows[i].payout.status.COMPLETED?
    ensures Covered(Step(w, op).value.rows[i].payout)
  {
    if op.AddReceipt? || op.JudgeReceipt? {
      if op.JudgeReceipt? && op.payout == i && w.rows[i].payout.status.COMPLETED? {
        WaitingIsCounted(w.rows[i].payout.receipts, op.receipt);
      }
      ReceiptedMoves(w, op, i);
      if !IsLive(w.rows[op.payout].payout.status) {
        FinishedStays(w, op, op.payout);
      }
    } else if op.ReturnStale? {
      var p := w.rows[op.payout].payout.(receipts := Void(w.rows[op.payout].payout.receipts));
      var w' := FunnelRow(SetPayout(w, op.payout, p), op.payout, p.(trader := None, traderFee := 0),
                          PayoutStatus.CREATED, false, []);
    } else if !op.Create? && !op.ReleaseHold? {
      PlainMoves(w, op, i);
    }
  }

  // ── Funds ───────────────────────────────────────────────────────────────

  // A live payout can always be cancelled or expired, and a hold released: the
  // money is in ESCROW.
  lemma RefundNeverShort(w: World, i: nat)
    requires Consistent(w) && IsPayout(w, i) && IsLive(w.rows[i].payout.status)
    ensures Step(w, AdminCancel(i)).Ok? && Step(w, Expire(i)).Ok?
  {
    var p := w.rows[i].payout;
    assert OrderOk(w.rows[i]);
    HoldIsCovered(w.ledger, w.rows, i, Escrow(PayoutTerminal(p.terminal)));
    var legs := RefundPayoutLegs(i, p);
    assert Net(w.ledger, Escrow(PayoutTerminal(p.terminal))) >= p.amount + p.merchantFee > 0;
    assert legs[1..] == [];
    assert PostAll(w.ledger, legs).Ok?;
  }

  lemma ReleaseNeverShort(w: World, i: nat)
    requires Consistent(w) && IsPayout(w, i)
    ensures Step(w, ReleaseHold(i)).Ok?
  {
    var p := w.rows[i].payout;
    assert OrderOk(w.rows[i]);
    if p.held && !p.released {
      HoldIsCovered(w.ledger, w.rows, i, Escrow(Trader(p.trader.value)));
      var legs := ReleaseHoldLegs(i, p);
      assert Net(w.ledger, Escrow(Trader(p.trader.value))) >= p.amount + p.traderFee > 0;
      assert legs[1..] == [];
      assert PostAll(w.ledger, legs).Ok?;
    }
  }

  // The first two legs of a settlement are always funded by the terminal.
  lemma TerminalPays(w: World, i: nat, hold: bool) returns (next: seq<Entry>)
    requires Consistent(w) && IsPayout(w, i)
    requires w.rows[i].payout.status.CLAIMED? || w.rows[i].payout.status.AWAITING_CHECK?
    ensures w.rows[i].payout.trader.Some?
    ensures PostAll(w.ledger, SettlePayoutLegs(i, w.rows[i].payout.(held := hold), [])[..2]) == Ok(next)
    ensures Net(next, SYSTEM_WORK) == Net(w.ledger, SYSTEM_WORK) + w.rows[i].payout.merchantFee
  {
    var p, l := w.rows[i].payout.(held := hold), w.ledger;
    assert OrderOk(w.rows[i]);
    var escrow := Escrow(PayoutTerminal(p.terminal));
    HoldIsCovered(l, w.rows, i, escrow);
    assert Net(l, escrow) >= p.amount + p.merchantFee;
    var legs := SettlePayoutLegs(i, p, [])[..2];
    NetAppend(l, legs[0].entry, escrow);
    NetAppend(l, legs[0].entry, SYSTEM_WORK);
    NetAppend(l + [legs[0].entry], legs[1].entry, SYSTEM_WORK);
    assert legs[1..] == [legs[1]] && legs[1..][1..] == [];
    var l1 := l + [legs[0].entry];
    assert Post(l, legs[0]) == Ok(l1);
    assert Post(l1, legs[1]).Ok?;
    assert PostAll(l, legs) == PostAll(l1, [legs[1]]) == Post(l1, legs[1]);
    next := PostAll(l, legs).value;
  }

  lemma {:induction false} CompletionLegs(i: nat, p: Payout, rewards: seq<Reward>)
    requires p.trader.Some?
    ensures
      var legs := SettlePayoutLegs(i, p, rewards);
      legs == SettlePayoutLegs(i, p, [])[..2] + ([legs[2]] + RewardLegs(i, rewards))
  {
  }

  lemma {:induction false} AdminCompletes(w: World, i: nat, hold: bool, links: seq<Link>)
    requires IsPayout(w, i) && w.rows[i].payout.trader.Some?
    requires w.rows[i].payout.status.CLAIMED? || w.rows[i].payout.status.AWAITING_CHECK?
    ensures
      var p := w.rows[i].payout.(held := hold);
      Step(w, AdminComplete(i, hold, links)).Ok? <==>
      PostAll(w.ledger, SettlePayoutLegs(i, p, RewardsFor(p.amount, links))).Ok?
  {
  }

  // A completion goes through exactly when the system float and the commission
  // cover the trader's fee and every teamlead reward.
  lemma {:induction false} CompletesExactly(w: World, i: nat, hold: bool, links: seq<Link>)
    requires Consistent(w) && IsPayout(w, i)
    requires w.rows[i].payout.status.CLAIMED? || w.rows[i].payout.status.AWAITING_CHECK?
    ensures Step(w, AdminComplete(i, hold, links)).Ok? <==>
            w.rows[i].payout.traderFee + RewardSum(RewardsFor(w.rows[i].payout.amount, links))
            <= Net(w.ledger, SYSTEM_WORK) + w.rows[i].payout.merchantFee
  {
    var next := TerminalPays(w, i, hold);
    var p := w.rows[i].payout.(held := hold);
    var rewards := RewardsFor(p.amount, links);
    var legs := SettlePayoutLegs(i, p, rewards);
    AdminCompletes(w, i, hold, links);
    CompletionLegs(i, p, rewards);
    PostAllConcat(w.ledger, SettlePayoutLegs(i, p, [])[..2], [legs[2]] + RewardLegs(i, rewards));
    assert !MayOverdraw(SYSTEM_WORK) && Net(w.ledger, SYSTEM_WORK) >= 0;
    RewardsPositive(p.amount, links);
    FeeThenRewards(next, i, legs[2], rewards);
  }
}
