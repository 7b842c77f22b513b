// The platform as one state machine: every operation that moves money, in any
// order. What holds of every reachable state is proved here.

module Platform {
  import opened Common
  import opened Ledger
  import opened Rows
  import opened Finance
  import opened Database
  import opened Orders
  import OrderService
  import Disputes
  import Withdrawals
  import Refills
  import Payouts
  import Books

  datatype Op =
    | OnOrder(order: OrderService.OrderOp)
    | OnDispute(dispute: Disputes.DisputeOp)
    | OnWithdrawal(withdrawal: Withdrawals.WithdrawalOp)
    | OnDoliv(doliv: Refills.DolivOp)
    | OnPayout(payout: Payouts.PayoutOp)
    | Deposit(owner: Owner, currency: Currency, amount: int, fee: int)
    | Withdraw(owner: Owner, currency: Currency, amount: int, fee: int)
    | Adjust(account: Account, delta: int)
    | ReceiptFee(trader: nat, amount: int)
    | ReceiptRefund(trader: nat, amount: int)
    // A requisite's limit row is edited, or its counters are reset.
    | SetLimit(requisite: nat, limit: Limit)

  function Direct(w: World, legs: seq<Leg>): Result<World, Error> {
    var l :- PostAll(w.ledger, legs);
    Ok(w.(ledger := l))
  }

  function Step(w: World, op: Op): Result<World, Error> {
    match op
    case OnOrder(o) => OrderService.Step(w, o)
    case OnDispute(o) => Disputes.Step(w, o)
    case OnWithdrawal(o) => Withdrawals.Step(w, o)
    case OnDoliv(o) => Refills.Step(w, o)
    case OnPayout(o) => Payouts.Step(w, o)
    case SetLimit(requisite, limit) => Ok(w.(limits := w.limits[requisite := limit]))
    case ReceiptFee(trader, amount) =>
      if Net(w.ledger, Work(Trader(trader))) < amount then Err(InsufficientFunds)
      else Direct(w, DirectLegs(op))
    case _ => Direct(w, DirectLegs(op))
  }

  // The operations that belong to no row.
  predicate IsDirect(op: Op) {
    op.Deposit? || op.Withdraw? || op.Adjust? || op.ReceiptFee? || op.ReceiptRefund?
  }

  function DirectLegs(op: Op): seq<Leg>
    requires IsDirect(op)
  {
    match op
    case Deposit(owner, c, amount, fee) => DepositLegs(Account(owner, WORK, c), amount, fee)
    case Withdraw(owner, c, amount, fee) => WithdrawLegs(Account(owner, WORK, c), amount, fee)
    case Adjust(a, delta) => AdjustLegs(a, delta)
    case ReceiptFee(trader, amount) => ReceiptFeeLegs(trader, amount)
    case ReceiptRefund(trader, amount) => ReceiptRefundLegs(trader, amount)
  }

  const EMPTY := World([], [], map[], map[])

  // A refused operation rolls back.
  function Next(w: World, op: Op): World {
    if Step(w, op).Ok? then Step(w, op).value else w
  }

  function Run(w: World, ops: seq<Op>): World
    decreases ops
  {
    if ops == [] then w else Run(Next(w, ops[0]), ops[1..])
  }

  // ── Transfers are the only writer ───────────────────────────────────────

  predicate AllCareful(legs: seq<Leg>) {
    forall k | 0 <= k < |legs| :: Careful(legs[k])
  }

  // Transfers written for business rows.
  predicate OnRows(legs: seq<Leg>) {
    forall k | 0 <= k < |legs| :: Careful(legs[k]) && legs[k].entry.reference.row.Some?
  }

  // Every operation on the database is, for the ledger, a list of transfers,
  // and an overdraft is allowed on a trader's WORK alone.
  ghost predicate Posts(w: World, w': World) {
    exists legs :: AllCareful(legs) && PostAll(w.ledger, legs) == Ok(w'.ledger)
  }

  // An operation on rows writes entries for rows only.
  ghost predicate PostsOnRows(w: World, w': World) {
    exists legs :: OnRows(legs) && PostAll(w.ledger, legs) == Ok(w'.ledger)
  }

  lemma {:induction false} PostsOne(w: World, w': World, legs: seq<Leg>)
    requires OnRows(legs) && PostAll(w.ledger, legs) == Ok(w'.ledger)
    ensures PostsOnRows(w, w')
  {
  }

  lemma PostsNone(w: World, w': World)
    requires w'.ledger == w.ledger
    ensures PostsOnRows(w, w')
  {
    PostsOne(w, w', []);
  }

  lemma {:induction false} PostsDirect(w: World, w': World, legs: seq<Leg>)
    requires AllCareful(legs) && PostAll(w.ledger, legs) == Ok(w'.ledger)
    ensures Posts(w, w')
  {
  }

  lemma OnRowsPosts(w: World, w': World)
    requires PostsOnRows(w, w')
    ensures Posts(w, w')
  {
    var legs :| OnRows(legs) && PostAll(w.ledger, legs) == Ok(w'.ledger);
    PostsDirect(w, w', legs);
  }

  lemma PostsChain(w: World, mid: World, w': World)
    requires PostsOnRows(w, mid) && PostsOnRows(mid, w')
    ensures PostsOnRows(w, w')
  {
    var first :| OnRows(first) && PostAll(w.ledger, first) == Ok(mid.ledger);
    var second :| OnRows(second) && PostAll(mid.ledger, second) == Ok(w'.ledger);
    PostAllConcat(w.ledger, first, second);
    PostsOne(w, w', first + second);
  }

  lemma {:induction false} RewardLegsCareful(i: nat, rewards: seq<Reward>)
    ensures OnRows(RewardLegs(i, rewards))
  {
    if rewards != [] {
      RewardLegsCareful(i, rewards[1..]);
    }
  }

  lemma {:induction false} ReversalLegsCareful(live: seq<Entry>)
    requires forall k | 0 <= k < |live| :: live[k].reference.row.Some?
    ensures OnRows(ReversalLegs(live))
  {
    if live != [] {
      ReversalLegsCareful(live[1..]);
    }
  }

  lemma {:induction false} SweepLegsCareful(i: nat, r: Withdrawal, swept: seq<Sweep>)
    ensures OnRows(SweepLegs(i, r, swept))
  {
    if swept != [] {
      SweepLegsCareful(i, r, swept[1..]);
    }
  }

  lemma ReconcilePosts(w: World, i: nat, o: Order, pre: OrderStatus)
    requires Reconcile(w, i, o, pre).Ok?
    ensures PostsOnRows(w, Reconcile(w, i, o, pre).value)
  {
    PaymentsArePayments(w.ledger, i);
    ReversalLegsCareful(LivePayments(w.ledger, i));
    PostsOne(w, Reconcile(w, i, o, pre).value, ReconcileLegs(w.ledger, i, o, pre).value);
  }

  lemma SettlePosts(w: World, i: nat, o: Order, rewards: seq<Reward>)
    requires Settle(w, i, o, rewards).Ok?
    ensures PostsOnRows(w, Settle(w, i, o, rewards).value)
  {
    RewardLegsCareful(i, rewards);
    PostsOne(w, Settle(w, i, o, rewards).value, CompleteOrderLegs(i, o, rewards).value);
  }

  lemma ReleasePosts(w: World, i: nat, o: Order)
    requires Release(w, i, o).Ok?
    ensures PostsOnRows(w, Release(w, i, o).value)
  {
    var w' := Release(w, i, o).value;
    if w'.ledger == w.ledger {
      PostsNone(w, w');
    } else {
      PostsOne(w, w', CancelOrderLegs(i, o).value);
    }
  }

  lemma ChangeStatusPosts(w: World, i: nat, to: OrderStatus, force: bool, links: seq<Link>)
    requires IsOrder(w, i) && ChangeStatus(w, i, to, force, links).Ok?
    ensures PostsOnRows(w, ChangeStatus(w, i, to, force, links).value)
  {
    var o := w.rows[i].order;
    var w' := ChangeStatus(w, i, to, force, links).value;
    if to == o.status {
      PostsNone(w, w');
    } else {
      var overridden := force && IsTerminal(o.status) && IsTerminal(to);
      var w0 := if overridden then Reconcile(w, i, o, o.status).value else w;
      if overridden {
        ReconcilePosts(w, i, o, o.status);
      } else {
        PostsNone(w, w0);
      }
      SecondHalfPosts(w0, i, o, to, links, w');
      PostsChain(w, w0, w');
    }
  }

  // The money of the target status alone.
  lemma SecondHalfPosts(w0: World, i: nat, o: Order, to: OrderStatus, links: seq<Link>, w': World)
    requires match to {
      case PENDING => CreateOrderLegs(i, o).Ok? && PostAll(w0.ledger, CreateOrderLegs(i, o).value) == Ok(w'.ledger)
      case SUCCESS =>
        var r := Settle(w0, i, o, RewardsFor(o.amount, links));
        r.Ok? && r.value.ledger == w'.ledger
      case FAILED | CANCELED | REFUNDED => Release(w0, i, o).Ok? && Release(w0, i, o).value.ledger == w'.ledger
      case DISPUTED => Reconcile(w0, i, o, o.status).Ok? && Reconcile(w0, i, o, o.status).value.ledger == w'.ledger
      case CREATED | RECEIPT_UPLOADED => w'.ledger == w0.ledger
    }
    ensures PostsOnRows(w0, w')
  {
    match to
    case PENDING => PostsOne(w0, w', CreateOrderLegs(i, o).value);
    case SUCCESS => SettlePosts(w0, i, o, RewardsFor(o.amount, links));
    case FAILED | CANCELED | REFUNDED => ReleasePosts(w0, i, o);
    case DISPUTED => ReconcilePosts(w0, i, o, o.status);
    case CREATED | RECEIPT_UPLOADED => PostsNone(w0, w');
  }

  lemma OrderPosts(w: World, op: OrderService.OrderOp)
    requires OrderService.Step(w, op).Ok?
    ensures PostsOnRows(w, OrderService.Step(w, op).value)
  {
    var w' := OrderService.Step(w, op).value;
    if w'.ledger == w.ledger {
      PostsNone(w, w');
    } else {
      match op
      case CreateSync(merchant, fiat, rate, feePercent, trader, requisite, traderFee) =>
        var o := w'.rows[|w.rows|].order;
        PostsOne(w, w', CreateOrderLegs(|w.rows|, o).value);
      case Assign(i, trader, requisite, traderFee) =>
        var o := w.rows[i].order.(trader := Some(trader), requisite := Some(requisite), traderFee := traderFee);
        ChangeStatusPosts(SetOrder(w, i, o), i, OrderStatus.PENDING, false, []);
      case UploadReceipt(i) => ChangeStatusPosts(w, i, RECEIPT_UPLOADED, false, []);
      case Complete(i, _, links) => ChangeStatusPosts(w, i, OrderStatus.SUCCESS, false, links);
      case ProviderCallback(i, _, links) => ChangeStatusPosts(w, i, OrderStatus.SUCCESS, false, links);
      case SettleFailed(i, _, links) => ChangeStatusPosts(w, i, OrderStatus.SUCCESS, true, links);
      case Fail(i, _) => ChangeStatusPosts(w, i, FAILED, false, []);
      case Cancel(i, _) => ChangeStatusPosts(w, i, OrderStatus.CANCELED, false, []);
      case AdminStatus(i, to, links) => ChangeStatusPosts(w, i, to, true, links);
      case AdminAmount(i, fiat, feePercent) => AmountPosts(w, i, fiat, feePercent);
    }
  }

  lemma {:induction false} AmountPosts(w: World, i: nat, fiat: nat, feePercent: nat)
    requires IsOrder(w, i) && OrderService.ChangeAmount(w, i, fiat, feePercent).Ok?
    requires w.ledger != OrderService.ChangeAmount(w, i, fiat, feePercent).value.ledger
    ensures PostsOnRows(w, OrderService.ChangeAmount(w, i, fiat, feePercent).value)
  {
    var w' := OrderService.ChangeAmount(w, i, fiat, feePercent).value;
    var o, o' := w.rows[i].order, w'.rows[i].order;
    PostsOne(w, w', RecalculateOrderLegs(i, o', o.amount, o'.amount).value);
  }

  lemma DisputePosts(w: World, op: Disputes.DisputeOp)
    requires Disputes.Step(w, op).Ok?
    ensures PostsOnRows(w, Disputes.Step(w, op).value)
  {
    var i := op.order;
    var w' := Disputes.Step(w, op).value;
    if w'.ledger == w.ledger {
      PostsNone(w, w');
    } else if i !in w.disputes {
      var proof := if op.OpenByMerchant? || op.OpenByAdmin? then None else op.requested;
      ChangeStatusPosts(w.(disputes := w.disputes[i := Dispute(OPEN, proof)]), i, DISPUTED, false, []);
    } else if op.ResolveByAdmin? || op.TraderAccept? {
      ChangeStatusPosts(w.(disputes := w.disputes[i := w.disputes[i].(status := RESOLVED)]), i, OrderStatus.SUCCESS,
                        false, op.links);
    } else {
      ChangeStatusPosts(w.(disputes := w.disputes[i := w.disputes[i].(status := DisputeStatus.REJECTED)]), i, FAILED,
                        false, []);
    }
  }

  lemma WithdrawalPosts(w: World, op: Withdrawals.WithdrawalOp)
    requires Withdrawals.Step(w, op).Ok?
    ensures PostsOnRows(w, Withdrawals.Step(w, op).value)
  {
    var w' := Withdrawals.Step(w, op).value;
    match op
    case Approve(i) => PostsOne(w, w', ApproveWithdrawalLegs(i, w.rows[i].withdrawal));
    case Reject(i) => PostsOne(w, w', RejectWithdrawalLegs(i, w.rows[i].withdrawal));
    case _ =>
      var n, r := |w.rows|, w'.rows[|w.rows|].withdrawal;
      SweepLegsCareful(n, r, r.swept);
      PostsOne(w, w', SweepLegs(n, r, r.swept) + FreezeWithdrawalLegs(n, r));
  }

  lemma DolivPosts(w: World, op: Refills.DolivOp)
    requires Refills.Step(w, op).Ok?
    ensures PostsOnRows(w, Refills.Step(w, op).value)
  {
    var w' := Refills.Step(w, op).value;
    match op
    case Create(_, _, _, _, _, _) => PostsOne(w, w', FreezeDolivLegs(|w.rows|, w'.rows[|w.rows|].doliv));
    case Cancel(i, _) => PostsOne(w, w', RefundDolivLegs(i, w.rows[i].doliv));
    case Claim(_, _, _) => PostsNone(w, w');
    case Execute(i, _) => PostsOne(w, w', SettleDolivLegs(i, w.rows[i].doliv));
    case AdminChange(i, target) => AdminPosts(w, i, target);
  }

  lemma AdminPosts(w: World, i: nat, target: PayoutStatus)
    requires Refills.IsDoliv(w, i) && Refills.AdminStep(w, i, target).Ok?
    ensures PostsOnRows(w, Refills.AdminStep(w, i, target).value)
  {
    var d, w' := w.rows[i].doliv, Refills.AdminStep(w, i, target).value;
    if target == d.status {
      PostsNone(w, w');
    } else {
      var w1 := Refills.Normalise(w, i, d).value;
      PostsOne(w, w1, Refills.NormaliseLegs(i, d));
      PostsOne(w1, w', Refills.ApplyLegs(i, d, target));
      PostsChain(w, w1, w');
    }
  }

  lemma PayoutChangePosts(w: World, i: nat, p: Payout, to: PayoutStatus, hold: bool, links: seq<Link>)
    requires Payouts.IsPayout(w, i) && Payouts.ChangeStatus(w, i, p, to, hold, links).Ok?
    ensures PostsOnRows(w, Payouts.ChangeStatus(w, i, p, to, hold, links).value)
  {
    var w' := Payouts.ChangeStatus(w, i, p, to, hold, links).value;
    if to == w.rows[i].payout.status {
      PostsNone(w, w');
    } else {
      RewardLegsCareful(i, RewardsFor(p.amount, links));
      PostsOne(w, w', Payouts.MoneyLegs(i, p, to, hold, links));
    }
  }

  lemma PayoutPosts(w: World, op: Payouts.PayoutOp)
    requires Payouts.Step(w, op).Ok?
    ensures PostsOnRows(w, Payouts.Step(w, op).value)
  {
    var w' := Payouts.Step(w, op).value;
    if w'.ledger == w.ledger {
      PostsNone(w, w');
    } else if op.Create? {
      PostsOne(w, w', FreezePayoutLegs(|w.rows|, w'.rows[|w.rows|].payout));
    } else {
      var i := op.payout;
      var p := w.rows[i].payout;
      match op
      case ReleaseHold(_) => PostsOne(w, w', ReleaseHoldLegs(i, p));
      case AdminComplete(_, hold, links) => PayoutChangePosts(w, i, p, COMPLETED, hold, links);
      case Expire(_) => PayoutChangePosts(w, i, p, EXPIRED, false, []);
      case AddReceipt(_, _, part, auto, _, hold, links) =>
        ReceiptedPosts(w, i, p.receipts + [Receipt(part, if auto then Approved else Waiting)], hold, links);
      case JudgeReceipt(_, k, approve, hold, links) =>
        ReceiptedPosts(w, i, p.receipts[k := p.receipts[k].(state := if approve then Approved else Voided)], hold,
                       links);
      case _ => PayoutChangePosts(w, i, p, PayoutStatus.CANCELED, false, []);
    }
  }

  lemma ReceiptedPosts(w: World, i: nat, receipts: seq<Receipt>, hold: bool, links: seq<Link>)
    requires Payouts.IsPayout(w, i) && Payouts.Receipted(w, i, receipts, hold, links).Ok?
    ensures PostsOnRows(w, Payouts.Receipted(w, i, receipts, hold, links).value)
  {
    var p := w.rows[i].payout.(receipts := receipts);
    PayoutChangePosts(Payouts.SetPayout(w, i, p), i, p, Payouts.Implied(p), hold, links);
  }

  lemma RowStepPosts(w: World, op: Op)
    requires !IsDirect(op) && Step(w, op).Ok?
    ensures PostsOnRows(w, Step(w, op).value)
  {
    match op
    case OnOrder(o) => OrderPosts(w, o);
    case OnDispute(o) => DisputePosts(w, o);
    case OnWithdrawal(o) => WithdrawalPosts(w, o);
    case OnDoliv(o) => DolivPosts(w, o);
    case OnPayout(o) => PayoutPosts(w, o);
    case SetLimit(_, _) => PostsNone(w, Step(w, op).value);
  }

  lemma StepPosts(w: World, op: Op)
    requires Step(w, op).Ok?
    ensures Posts(w, Step(w, op).value)
  {
    if IsDirect(op) {
      PostsDirect(w, Step(w, op).value, DirectLegs(op));
    } else {
      RowStepPosts(w, op);
      OnRowsPosts(w, Step(w, op).value);
    }
  }

  // ── What an operation moves ─────────────────────────────────────────────

  lemma {:induction false} OnRowsWriteNoDirect(l: seq<Entry>, legs: seq<Leg>, a: Account)
    requires OnRows(legs) && PostAll(l, legs).Ok?
    ensures NetOn(PostAll(l, legs).value, None, a) == NetOn(l, None, a)
    decreases legs
  {
    if legs != [] {
      var next := Post(l, legs[0]).value;
      if !Skipped(legs[0]) {
        NetOnAppend(l, legs[0].entry, None, a);
      }
      OnRowsWriteNoDirect(next, legs[1..], a);
    }
  }

  lemma {:induction false} RowStepWritesNoDirect(w: World, op: Op, a: Account)
    requires !IsDirect(op) && Step(w, op).Ok?
    ensures NetOn(Step(w, op).value.ledger, None, a) == NetOn(w.ledger, None, a)
  {
    RowStepPosts(w, op);
    var legs :| OnRows(legs) && PostAll(w.ledger, legs) == Ok(Step(w, op).value.ledger);
    OnRowsWriteNoDirect(w.ledger, legs, a);
  }

  // What an operation of no row does to an ESCROW balance: nothing, unless it is
  // the administrator's adjustment of that very balance.
  function Adjusts(op: Op, a: Account): int {
    if op.Adjust? && op.account == a then op.delta else 0
  }

  lemma {:induction false} DirectNet(op: Op, a: Account)
    requires IsDirect(op)
    ensures For(DirectLegs(op), None)
    ensures a.kind == ESCROW ==> LegsNet(DirectLegs(op), a) == Adjusts(op, a)
  {
    var legs := DirectLegs(op);
    if |legs| == 1 {
      Net1(legs[0], a);
    } else if |legs| == 2 {
      Net2(legs[0], legs[1], a);
    }
  }

  lemma {:induction false} StepAdjusts(w: World, op: Op, a: Account)
    requires Step(w, op).Ok? && a.kind == ESCROW
    ensures NetOn(Step(w, op).value.ledger, None, a) == NetOn(w.ledger, None, a) + Adjusts(op, a)
  {
    if IsDirect(op) {
      DirectNet(op, a);
      PostAllNet(w.ledger, DirectLegs(op), None, a);
    } else {
      RowStepWritesNoDirect(w, op, a);
    }
  }

  // ── Laws of the ledger over every run ───────────────────────────────────

  predicate WellFormed(l: seq<Entry>) {
    forall k | 0 <= k < |l| ::
      && l[k].amount > 0
      && (l[k].from.Some? || l[k].to.Some?)
      && (l[k].from.Some? ==> l[k].from.value.currency == l[k].currency)
      && (l[k].to.Some? ==> l[k].to.value.currency == l[k].currency)
  }

  lemma {:induction false} PostAllWellFormed(l: seq<Entry>, legs: seq<Leg>)
    requires WellFormed(l) && PostAll(l, legs).Ok?
    ensures WellFormed(PostAll(l, legs).value) && l <= PostAll(l, legs).value
    decreases legs
  {
    if legs != [] {
      PostAllWellFormed(Post(l, legs[0]).value, legs[1..]);
    }
  }

  // Whatever is run, even with administrators debiting ESCROW: no balance but a
  // trader's USDT WORK ever goes below zero, the ledger only grows, and every
  // entry is a positive amount in the currency of its accounts.
  lemma {:induction false} LedgerLaws(w: World, ops: seq<Op>)
    requires Solvent(w.ledger) && WellFormed(w.ledger)
    ensures Solvent(Run(w, ops).ledger) && WellFormed(Run(w, ops).ledger)
    ensures w.ledger <= Run(w, ops).ledger
    decreases ops
  {
    if ops != [] {
      var next := Next(w, ops[0]);
      if Step(w, ops[0]).Ok? {
        StepPosts(w, ops[0]);
        var legs :| AllCareful(legs) && PostAll(w.ledger, legs) == Ok(next.ledger);
        PostAllSolvent(w.ledger, legs);
        PostAllWellFormed(w.ledger, legs);
      }
      LedgerLaws(next, ops[1..]);
    }
  }

  lemma EmptyIsSound()
    ensures Solvent(EMPTY.ledger) && WellFormed(EMPTY.ledger) && OrderService.Consistent(EMPTY)
  {
  }

  function Parties(l: seq<Entry>): set<Account> {
    if l == [] then {}
    else
      var e := l[|l| - 1];
      Parties(l[..|l| - 1]) + (if e.from.Some? then {e.from.value} else {}) + (if e.to.Some? then {e.to.value} else {})
  }

  lemma {:induction false} PartiesHold(l: seq<Entry>, accounts: set<Account>)
    requires WellFormed(l) && Parties(l) <= accounts
    ensures forall k | 0 <= k < |l| :: Within(l[k], accounts)
  {
    if l != [] {
      var init := l[..|l| - 1];
      assert forall k | 0 <= k < |init| :: init[k] == l[k];
      PartiesHold(init, accounts);
      forall k | 0 <= k < |l| ensures Within(l[k], accounts) {
        if k < |init| {
          assert Within(init[k], accounts);
        }
      }
    }
  }

  // Conservation: whatever is run, the money of all accounts together is what
  // one-sided entries (deposits, withdrawals, adjustments) brought in and took
  // out. Nothing else creates or destroys money.
  lemma {:induction false} MoneyIsConserved(ops: seq<Op>, accounts: set<Account>, c: Currency)
    requires Parties(Run(EMPTY, ops).ledger) <= accounts
    ensures Total(Run(EMPTY, ops).ledger, accounts, c) == External(Run(EMPTY, ops).ledger, c)
  {
    EmptyIsSound();
    LedgerLaws(EMPTY, ops);
    PartiesHold(Run(EMPTY, ops).ledger, accounts);
    Conservation(Run(EMPTY, ops).ledger, accounts, c);
  }

  // ── Safety over every run ───────────────────────────────────────────────

  // Direct moves touch WORK only, except an adjustment, which must not debit ESCROW.
  predicate SparesEscrow(op: Op) {
    op.Adjust? ==> op.account.kind != ESCROW || op.delta >= 0
  }

  lemma DirectStepKeeps(w: World, op: Op)
    requires OrderService.Consistent(w) && SparesEscrow(op) && Step(w, op).Ok? && IsDirect(op)
    ensures OrderService.Consistent(Step(w, op).value)
  {
    DirectNet(op, SYSTEM_WORK);
    forall a: Account | a.kind == ESCROW ensures LegsNet(DirectLegs(op), a) >= 0 {
      DirectNet(op, a);
    }
    Books.DirectKeeps(w, DirectLegs(op));
  }

  // The invariant of every operation: the books agree with the rows, the ledger
  // is solvent, the live rewards are those on settled orders, and an order is
  // DISPUTED exactly while its dispute is open.
  lemma StepKeeps(w: World, op: Op)
    requires OrderService.Consistent(w) && SparesEscrow(op) && Step(w, op).Ok?
    ensures OrderService.Consistent(Step(w, op).value)
  {
    match op
    case OnOrder(o) => OrderService.StepKeeps(w, o);
    case OnDispute(o) => Disputes.StepKeeps(w, o);
    case OnWithdrawal(o) => Withdrawals.StepKeeps(w, o);
    case OnDoliv(o) => Refills.StepKeeps(w, o);
    case OnPayout(o) => Payouts.StepKeeps(w, o);
    case SetLimit(_, _) =>
      var w' := Step(w, op).value;
      assert forall j: nat :: IsOrder(w', j) <==> IsOrder(w, j);
    case _ => DirectStepKeeps(w, op);
  }

  lemma {:induction false} RunKeeps(w: World, ops: seq<Op>)
    requires OrderService.Consistent(w)
    requires forall k | 0 <= k < |ops| :: SparesEscrow(ops[k])
    ensures OrderService.Consistent(Run(w, ops))
    decreases ops
  {
    if ops != [] {
      if Step(w, ops[0]).Ok? {
        StepKeeps(w, ops[0]);
      }
      RunKeeps(Next(w, ops[0]), ops[1..]);
    }
  }

  // A state the platform can reach with no administrator debiting ESCROW.
  ghost predicate Reached(w: World) {
    exists ops :: (forall k | 0 <= k < |ops| :: SparesEscrow(ops[k])) && w == Run(EMPTY, ops)
  }

  lemma ReachedIsConsistent(w: World)
    requires Reached(w)
    ensures OrderService.Consistent(w)
  {
    var ops: seq<Op> :| (forall k | 0 <= k < |ops| :: SparesEscrow(ops[k])) && w == Run(EMPTY, ops);
    EmptyIsSound();
    RunKeeps(EMPTY, ops);
  }

  // Escrow backing: in every reachable state each ESCROW balance is the sum of
  // the live obligations of all four families frozen in it, plus what was
  // credited to it directly.
  lemma {:induction false} EscrowIsBacked(w: World, a: Account)
    requires Reached(w) && a.kind == ESCROW
    ensures Net(w.ledger, a) == NetOn(w.ledger, None, a) + HeldIn(w.rows, a)
    ensures NetOn(w.ledger, None, a) >= 0
  {
    ReachedIsConsistent(w);
    EscrowBacking(w.ledger, w.rows, a);
  }

  // What administrators have put into a balance over a run.
  function Adjusted(w: World, ops: seq<Op>, a: Account): int
    decreases ops
  {
    if ops == [] then 0
    else (if Step(w, ops[0]).Ok? then Adjusts(ops[0], a) else 0) + Adjusted(Next(w, ops[0]), ops[1..], a)
  }

  lemma {:induction false} RunAdjusts(w: World, ops: seq<Op>, a: Account)
    requires a.kind == ESCROW
    ensures NetOn(Run(w, ops).ledger, None, a) == NetOn(w.ledger, None, a) + Adjusted(w, ops, a)
    decreases ops
  {
    if ops != [] {
      if Step(w, ops[0]).Ok? {
        StepAdjusts(w, ops[0], a);
      }
      RunAdjusts(Next(w, ops[0]), ops[1..], a);
    }
  }

  // The direct part is known exactly: it is what administrators put there.
  lemma {:induction false} EscrowIsHoldsAndAdjustments(ops: seq<Op>, a: Account)
    requires a.kind == ESCROW && forall k | 0 <= k < |ops| :: SparesEscrow(ops[k])
    ensures Net(Run(EMPTY, ops).ledger, a) == HeldIn(Run(EMPTY, ops).rows, a) + Adjusted(EMPTY, ops, a)
  {
    var w := Run(EMPTY, ops);
    assert Reached(w);
    EscrowIsBacked(w, a);
    RunAdjusts(EMPTY, ops, a);
    assert NetOn(EMPTY.ledger, None, a) == 0;
  }

  // And so, when no administrator adjusts an ESCROW row, every ESCROW balance
  // is exactly the sum of the live obligations frozen in it.
  lemma {:induction false} EscrowIsExactlyHeld(ops: seq<Op>, a: Account)
    requires a.kind == ESCROW && forall k | 0 <= k < |ops| :: ops[k].Adjust? ==> ops[k].account.kind != ESCROW
    ensures Net(Run(EMPTY, ops).ledger, a) == HeldIn(Run(EMPTY, ops).rows, a)
  {
    EscrowIsHoldsAndAdjustments(ops, a);
    NothingAdjusted(EMPTY, ops, a);
  }

  lemma {:induction false} NothingAdjusted(w: World, ops: seq<Op>, a: Account)
    requires a.kind == ESCROW && forall k | 0 <= k < |ops| :: ops[k].Adjust? ==> ops[k].account.kind != ESCROW
    ensures Adjusted(w, ops, a) == 0
    decreases ops
  {
    if ops != [] {
      NothingAdjusted(Next(w, ops[0]), ops[1..], a);
    }
  }

  // Every operation on rows, refused or not, moves each balance by exactly what
  // the positions of the rows change.
  lemma {:induction false} RowStepMoves(w: World, op: Op, a: Account)
    requires OrderService.Consistent(w) && !IsDirect(op)
    ensures Net(Next(w, op).ledger, a) - Net(w.ledger, a) == Effects(Next(w, op).rows, a) - Effects(w.rows, a)
  {
    if Step(w, op).Ok? {
      StepKeeps(w, op);
      RowStepWritesNoDirect(w, op, a);
      BalanceFromRows(w.ledger, w.rows, a);
      BalanceFromRows(Next(w, op).ledger, Next(w, op).rows, a);
    }
  }

  // What gives frozen money back never meets an empty ESCROW. In particular the
  // branch of the order funnel that tolerates "Insufficient funds" on a release
  // is never taken for a live order; only an order whose amount was changed to
  // nothing cannot be released.
  lemma FrozenMoneyComesBack(w: World, i: nat)
    requires Reached(w) && i < |w.rows|
    ensures match w.rows[i]
      case OrderRow(o) =>
        IsFrozen(o.status) ==>
          && CancelOrderLegs(i, o).Ok?
          && (PostAll(w.ledger, CancelOrderLegs(i, o).value).Ok? <==> o.amount > 0)
      case WithdrawalRow(r) =>
        r.status.PENDING? ==>
          && Withdrawals.Decide(w, i, WithdrawalStatus.SUCCESS).Ok?
          && Withdrawals.Decide(w, i, WithdrawalStatus.REJECTED).Ok?
      case DolivRow(d) =>
        && (DolivMoneyState(d.status).Frozen? ==> PostAll(w.ledger, RefundDolivLegs(i, d)).Ok?)
        && (d.status.CREATED? ==> Refills.Step(w, Refills.DolivOp.Cancel(i, d.requester)).Ok?)
      case PayoutRow(p) =>
        && (Payouts.IsLive(p.status) ==> Payouts.Step(w, Payouts.Expire(i)).Ok?)
        && Payouts.Step(w, Payouts.ReleaseHold(i)).Ok?
  {
    ReachedIsConsistent(w);
    assert OrderOk(w.rows[i]);
    match w.rows[i]
    case OrderRow(o) =>
      if IsFrozen(o.status) {
        ReleaseNeverShort(w.ledger, w.rows, i);
      }
    case WithdrawalRow(r) =>
      if r.status.PENDING? {
        Withdrawals.DecisionNeverShort(w, i);
      }
    case DolivRow(d) =>
      if DolivMoneyState(d.status).Frozen? {
        Refills.RefundNeverShort(w, i);
      }
    case PayoutRow(p) =>
      if Payouts.IsLive(p.status) {
        Payouts.RefundNeverShort(w, i);
      }
      Payouts.ReleaseNeverShort(w, i);
  }

  // ── Доливы over every run ───────────────────────────────────────────────

  // Every долив is created at a price percent no lower than its reward percent.
  predicate PricesFairly(op: Op) {
    op.OnDoliv? && op.doliv.Create? ==> op.doliv.cfg.pricePercent >= op.doliv.cfg.rewardPercent
  }

  lemma StepPriced(w: World, op: Op)
    requires Refills.Priced(w.rows) && PricesFairly(op) && Step(w, op).Ok?
    ensures Refills.Priced(Step(w, op).value.rows)
  {
    var w' := Step(w, op).value;
    match op
    case OnDoliv(o) => Refills.PricedKept(w, o);
    case OnDispute(o) => Disputes.OnlyRow(w, o);
    case OnOrder(o) => OrderTouches(w, o, w');
    case OnWithdrawal(o) => WithdrawalTouches(w, o, w');
    case OnPayout(o) => PayoutTouches(w, o, w');
    case _ =>
  }

  lemma {:induction false} RunPriced(w: World, ops: seq<Op>)
    requires Refills.Priced(w.rows) && forall k | 0 <= k < |ops| :: PricesFairly(ops[k])
    ensures Refills.Priced(Run(w, ops).rows)
    decreases ops
  {
    if ops != [] {
      if Step(w, ops[0]).Ok? {
        StepPriced(w, ops[0]);
      }
      RunPriced(Next(w, ops[0]), ops[1..]);
    }
  }

  // So in every run the executor's confirmation of a claimed долив goes through,
  // and never lowers the system float.
  lemma {:induction false} ExecuteGoesThrough(ops: seq<Op>, i: nat, executor: nat)
    requires forall k | 0 <= k < |ops| :: SparesEscrow(ops[k]) && PricesFairly(ops[k])
    requires Refills.IsDoliv(Run(EMPTY, ops), i) && Run(EMPTY, ops).rows[i].doliv.status.CLAIMED?
    requires Run(EMPTY, ops).rows[i].doliv.executor == Some(executor)
    ensures
      var w := Run(EMPTY, ops);
      && Refills.Step(w, Refills.Execute(i, executor)).Ok?
      && Net(Refills.Step(w, Refills.Execute(i, executor)).value.ledger, SYSTEM_WORK) >= Net(w.ledger, SYSTEM_WORK)
  {
    EmptyIsSound();
    RunKeeps(EMPTY, ops);
    RunPriced(EMPTY, ops);
    Refills.ExecuteNeverStuck(Run(EMPTY, ops), i, executor);
  }

  // ── Disputes over every run ─────────────────────────────────────────────

  // No other row and no dispute changes; at most one row is added.
  predicate TouchesOnly(w: World, w': World, i: nat) {
    && w'.disputes == w.disputes
    && |w.rows| <= |w'.rows| <= |w.rows| + 1
    && (|w'.rows| > |w.rows| ==> i == |w.rows|)
    && (forall j | 0 <= j < |w.rows| && j != i :: w'.rows[j] == w.rows[j])
  }

  lemma OrderTouches(w: World, op: OrderService.OrderOp, w': World)
    requires OrderService.Step(w, op) == Ok(w')
    ensures TouchesOnly(w, w', OrderTouched(w, op))
    ensures w' != w ==> IsOrder(w', OrderTouched(w, op))
  {
    if w' != w && !op.CreateAsync? && !op.CreateSync? && !op.AdminAmount? {
      var i := op.order;
      if op.Assign? {
        var o := w.rows[i].order.(trader := Some(op.trader), requisite := Some(op.requisite),
                                  traderFee := op.traderFee);
        OrderService.ChangeStatusShape(SetOrder(w, i, o), i, OrderStatus.PENDING, false, []);
      } else {
        FunnelTouches(w, op, w');
      }
    }
  }

  function OrderTouched(w: World, op: OrderService.OrderOp): nat {
    if op.CreateAsync? || op.CreateSync? then |w.rows| else op.order
  }

  lemma FunnelTouches(w: World, op: OrderService.OrderOp, w': World)
    requires !op.CreateAsync? && !op.CreateSync? && !op.Assign? && !op.AdminAmount?
    requires OrderService.Step(w, op) == Ok(w') && w' != w
    ensures TouchesOnly(w, w', op.order) && IsOrder(w', op.order)
  {
  }

  // The row a withdrawal, долив or payout operation writes is one of its own.
  function WithdrawalTouched(w: World, op: Withdrawals.WithdrawalOp): nat {
    match op case Approve(i) => i case Reject(i) => i case _ => |w.rows|
  }

  lemma WithdrawalTouches(w: World, op: Withdrawals.WithdrawalOp, w': World)
    requires Withdrawals.Step(w, op) == Ok(w')
    ensures
      var i := WithdrawalTouched(w, op);
      && TouchesOnly(w, w', i)
      && (i < |w.rows| ==> w.rows[i].WithdrawalRow?)
      && (i < |w'.rows| ==> w'.rows[i].WithdrawalRow?)
  {
  }

  function DolivTouched(w: World, op: Refills.DolivOp): nat {
    if op.Create? then |w.rows| else op.doliv
  }

  lemma DolivTouches(w: World, op: Refills.DolivOp, w': World)
    requires Refills.Step(w, op) == Ok(w')
    ensures
      var i := DolivTouched(w, op);
      TouchesOnly(w, w', i) && (i < |w.rows| ==> w.rows[i].DolivRow?) && (i < |w'.rows| ==> w'.rows[i].DolivRow?)
  {
  }

  function PayoutTouched(w: World, op: Payouts.PayoutOp): nat {
    if op.Create? then |w.rows| else op.payout
  }

  lemma PayoutTouches(w: World, op: Payouts.PayoutOp, w': World)
    requires Payouts.Step(w, op) == Ok(w')
    ensures
      var i := PayoutTouched(w, op);
      TouchesOnly(w, w', i) && (i < |w.rows| ==> w.rows[i].PayoutRow?) && (i < |w'.rows| ==> w'.rows[i].PayoutRow?)
  {
  }

  lemma StepOnlyCloses(w: World, op: Op)
    requires Step(w, op).Ok?
    ensures Disputes.DisputesOnlyClose(w, Step(w, op).value)
  {
    var w' := Step(w, op).value;
    match op
    case OnDispute(o) => Disputes.StepOnlyCloses(w, o);
    case OnOrder(o) => OrderTouches(w, o, w');
    case OnWithdrawal(o) => WithdrawalTouches(w, o, w');
    case OnDoliv(o) => DolivTouches(w, o, w');
    case OnPayout(o) => PayoutTouches(w, o, w');
    case _ =>
  }

  // One dispute and one decision per order: along any run a dispute, once there,
  // stays, and once decided never changes again.
  lemma {:induction false} OneDecision(w: World, ops: seq<Op>)
    ensures Disputes.DisputesOnlyClose(w, Run(w, ops))
    decreases ops
  {
    if ops != [] {
      if Step(w, ops[0]).Ok? {
        StepOnlyCloses(w, ops[0]);
      }
      OneDecision(Next(w, ops[0]), ops[1..]);
    }
  }

  // A settled order is unsettled only by a merchant's or administrator's
  // dispute, or by the administrator's override.
  lemma LeavesSuccessOnlyExplicitly(w: World, op: Op, w': World, i: nat)
    requires OrderService.Consistent(w) && Step(w, op) == Ok(w')
    requires IsOrder(w, i) && w.rows[i].order.status.SUCCESS?
    requires !(i < |w'.rows| && w'.rows[i] == w.rows[i])
    ensures || (op.OnDispute? && op.dispute.order == i && (op.dispute.OpenByMerchant? || op.dispute.OpenByAdmin?))
            || (op.OnOrder? && op.order.AdminStatus? && op.order.order == i)
  {
    match op
    case OnDispute(o) => Disputes.OnlyExplicitOpenUnsettles(w, o, w', i);
    case OnOrder(o) => OrdersKeepSuccess(w, o, w', i);
    case OnWithdrawal(o) => WithdrawalTouches(w, o, w');
    case OnDoliv(o) => DolivTouches(w, o, w');
    case OnPayout(o) => PayoutTouches(w, o, w');
    case _ =>
  }

  lemma OrdersKeepSuccess(w: World, op: OrderService.OrderOp, w': World, i: nat)
    requires OrderService.Step(w, op) == Ok(w')
    requires IsOrder(w, i) && w.rows[i].order.status.SUCCESS?
    requires !(i < |w'.rows| && w'.rows[i] == w.rows[i])
    ensures op.AdminStatus? && op.order == i
  {
    OrderTouches(w, op, w');
    if !op.CreateAsync? && !op.CreateSync? && op.order == i {
      SettledIsInert(w, op, w');
    }
  }

  lemma SettledIsInert(w: World, op: OrderService.OrderOp, w': World)
    requires !op.CreateAsync? && !op.CreateSync?
    requires OrderService.Step(w, op) == Ok(w') && w' != w
    requires IsOrder(w, op.order) && w.rows[op.order].order.status.SUCCESS?
    ensures op.AdminStatus?
  {
  }
}
