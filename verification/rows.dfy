// The business rows whose money the platform holds: orders, withdrawal
// requests, доливы (refills) and payouts. For each row the position it implies
// is written down once, from its current state alone; nothing here mentions how
// the row got there.

module Rows {
  import opened Common
  import opened Ledger

  datatype Direction = PAYIN | PAYOUT

  datatype OrderStatus =
    | CREATED
    | PENDING
    | RECEIPT_UPLOADED
    | SUCCESS
    | DISPUTED
    | CANCELED
    | FAILED
    | REFUNDED

  // One teamlead reward of a settled order or payout.
  datatype Reward = Reward(teamlead: nat, amount: nat)

  // `rewards` is the teamlead breakdown of the last settlement; it is kept when
  // a dispute opens and replaced by the next settlement.
  datatype Order = Order(
    direction: Direction,
    merchant: nat,
    trader: Option<nat>,
    requisite: Option<nat>,
    status: OrderStatus,
    fiat: nat,
    rate: nat,
    amount: nat,
    fee: nat,
    traderFee: nat,
    rewards: seq<Reward>)

  datatype WithdrawalStatus = PENDING | SUCCESS | REJECTED

  // What a sweep moved from one terminal to its owner.
  datatype Sweep = Sweep(merchant: nat, amount: nat)

  datatype Withdrawal = Withdrawal(
    owner: Owner,
    currency: Currency,
    amount: nat,
    fee: nat,
    status: WithdrawalStatus,
    swept: seq<Sweep>)

  datatype PayoutStatus = CREATED | CLAIMED | AWAITING_CHECK | COMPLETED | CANCELED | EXPIRED

  datatype Doliv = Doliv(
    requester: nat,
    executor: Option<nat>,
    requisite: nat,
    fiat: nat,
    amount: nat,
    price: nat,
    reward: nat,
    status: PayoutStatus)

  // One partial payment of a payout, as its receipt was judged.
  datatype ReceiptState = Waiting | Approved | Voided

  datatype Receipt = Receipt(fiat: nat, state: ReceiptState)

  // `held` says that the earnings went to ESCROW, `released` that they left it.
  datatype Payout = Payout(
    terminal: nat,
    trader: Option<nat>,
    fiat: nat,
    receipts: seq<Receipt>,
    amount: nat,
    merchantFee: nat,
    traderFee: nat,
    status: PayoutStatus,
    held: bool,
    released: bool,
    rewards: seq<Reward>)

  datatype Row =
    | OrderRow(order: Order)
    | WithdrawalRow(withdrawal: Withdrawal)
    | DolivRow(doliv: Doliv)
    | PayoutRow(payout: Payout)

  datatype MoneyState = Frozen | Settled | Refunded

  function DolivMoneyState(s: PayoutStatus): MoneyState {
    match s
    case COMPLETED => Settled
    case CANCELED | EXPIRED => Refunded
    case _ => Frozen
  }

  // An order whose collateral sits in ESCROW.
  predicate IsFrozen(s: OrderStatus) {
    s == OrderStatus.PENDING || s == RECEIPT_UPLOADED || s == DISPUTED
  }

  function Work(o: Owner): Account {
    Account(o, WORK, USDT)
  }

  function Escrow(o: Owner): Account {
    Account(o, ESCROW, USDT)
  }

  const SYSTEM_WORK := Work(System)

  function At(a: Account, b: Account, v: int): int {
    if a == b then v else 0
  }

  // ── The position each row implies ───────────────────────────────────────

  function RewardEffect(rewards: seq<Reward>, a: Account): int {
    if rewards == [] then 0
    else
      At(a, Work(Teamlead(rewards[0].teamlead)), rewards[0].amount) - At(a, SYSTEM_WORK, rewards[0].amount)
      + RewardEffect(rewards[1..], a)
  }

  function OrderEffect(o: Order, a: Account): int {
    if o.trader.None? then 0
    else
      var t := Trader(o.trader.value);
      match o.status
      case PENDING | RECEIPT_UPLOADED | DISPUTED =>
        At(a, Escrow(t), o.amount) - At(a, Work(t), o.amount)
      case SUCCESS =>
        At(a, Work(t), o.traderFee - o.amount)
        + At(a, Work(Merchant(o.merchant)), o.amount - o.fee)
        + At(a, SYSTEM_WORK, o.fee - o.traderFee)
        + RewardEffect(o.rewards, a)
      case _ => 0
  }

  function SweepEffect(owner: Owner, c: Currency, swept: seq<Sweep>, a: Account): int {
    if swept == [] then 0
    else
      At(a, Account(owner, WORK, c), swept[0].amount)
      - At(a, Account(Merchant(swept[0].merchant), WORK, c), swept[0].amount)
      + SweepEffect(owner, c, swept[1..], a)
  }

  function WithdrawalEffect(w: Withdrawal, a: Account): int {
    var gross := w.amount + w.fee;
    var work, escrow := Account(w.owner, WORK, w.currency), Account(w.owner, ESCROW, w.currency);
    SweepEffect(w.owner, w.currency, w.swept, a) +
    match w.status
    case PENDING => At(a, escrow, gross) - At(a, work, gross)
    case SUCCESS => At(a, Account(System, WORK, w.currency), w.fee) - At(a, work, gross)
    case REJECTED => 0
  }

  function DolivEffect(d: Doliv, a: Account): int {
    var total := d.amount + d.price;
    var requester := Trader(d.requester);
    match DolivMoneyState(d.status)
    case Frozen => At(a, Escrow(requester), total) - At(a, Work(requester), total)
    case Settled =>
      At(a, SYSTEM_WORK, d.price - d.reward) - At(a, Work(requester), total)
      + if d.executor.Some? then At(a, Work(Trader(d.executor.value)), d.amount + d.reward) else 0
    case Refunded => 0
  }

  function PayoutEffect(p: Payout, a: Account): int {
    var total := p.amount + p.merchantFee;
    var terminal := PayoutTerminal(p.terminal);
    match p.status
    case CREATED | CLAIMED | AWAITING_CHECK => At(a, Escrow(terminal), total) - At(a, Work(terminal), total)
    case COMPLETED =>
      At(a, SYSTEM_WORK, p.merchantFee - p.traderFee) - At(a, Work(terminal), total)
      + RewardEffect(p.rewards, a)
      + if p.trader.Some? then At(a, EarningsAccount(p), p.amount + p.traderFee) else 0
    case CANCELED | EXPIRED => 0
  }

  // Where a completed payout's earnings are now.
  function EarningsAccount(p: Payout): Account
    requires p.trader.Some?
  {
    Account(Trader(p.trader.value), if p.held && !p.released then ESCROW else WORK, USDT)
  }

  function Effect(row: Row, a: Account): int {
    match row
    case OrderRow(o) => OrderEffect(o, a)
    case WithdrawalRow(w) => WithdrawalEffect(w, a)
    case DolivRow(d) => DolivEffect(d, a)
    case PayoutRow(p) => PayoutEffect(p, a)
  }

  // ── What a row keeps in one ESCROW account ──────────────────────────────

  function Held(row: Row, a: Account): nat {
    match row
    case OrderRow(o) =>
      if o.trader.Some? && IsFrozen(o.status) && a == Escrow(Trader(o.trader.value)) then o.amount else 0
    case WithdrawalRow(w) =>
      if w.status.PENDING? && a == Account(w.owner, ESCROW, w.currency) then w.amount + w.fee else 0
    case DolivRow(d) =>
      if DolivMoneyState(d.status).Frozen? && a == Escrow(Trader(d.requester)) then d.amount + d.price else 0
    case PayoutRow(p) =>
      if (p.status.CREATED? || p.status.CLAIMED? || p.status.AWAITING_CHECK?) && a == Escrow(PayoutTerminal(p.terminal))
      then p.amount + p.merchantFee
      else if p.status.COMPLETED? && p.trader.Some? && p.held && !p.released && a == Escrow(Trader(p.trader.value))
      then p.amount + p.traderFee
      else 0
  }

  function HeldIn(rows: seq<Row>, a: Account): nat {
    if rows == [] then 0 else HeldIn(rows[..|rows| - 1], a) + Held(rows[|rows| - 1], a)
  }

  function Effects(rows: seq<Row>, a: Account): int {
    if rows == [] then 0 else Effects(rows[..|rows| - 1], a) + Effect(rows[|rows| - 1], a)
  }

  lemma {:induction false} RewardEffectOnEscrow(rewards: seq<Reward>, a: Account)
    requires a.kind == ESCROW
    ensures RewardEffect(rewards, a) == 0
  {
    if rewards != [] {
      RewardEffectOnEscrow(rewards[1..], a);
    }
  }

  lemma {:induction false} SweepEffectOnEscrow(owner: Owner, c: Currency, swept: seq<Sweep>, a: Account)
    requires a.kind == ESCROW
    ensures SweepEffect(owner, c, swept, a) == 0
  {
    if swept != [] {
      SweepEffectOnEscrow(owner, c, swept[1..], a);
    }
  }

  // On an ESCROW account a row's position is exactly what it holds there.
  lemma EffectOnEscrow(row: Row, a: Account)
    requires a.kind == ESCROW
    ensures Effect(row, a) == Held(row, a)
  {
    match row
    case OrderRow(o) => RewardEffectOnEscrow(o.rewards, a);
    case WithdrawalRow(w) => SweepEffectOnEscrow(w.owner, w.currency, w.swept, a);
    case DolivRow(d) =>
    case PayoutRow(p) => RewardEffectOnEscrow(p.rewards, a);
  }

  lemma {:induction false} EffectsOnEscrow(rows: seq<Row>, a: Account)
    requires a.kind == ESCROW
    ensures Effects(rows, a) == HeldIn(rows, a)
  {
    if rows != [] {
      EffectsOnEscrow(rows[..|rows| - 1], a);
      EffectOnEscrow(rows[|rows| - 1], a);
    }
  }

  // ── The books agree with the rows ───────────────────────────────────────

  predicate RowOk(row: Row) {
    match row
    case OrderRow(o) => o.direction == PAYIN && (IsFrozen(o.status) || o.status.SUCCESS? ==> o.trader.Some?)
    case WithdrawalRow(w) => w.status.PENDING? ==> w.amount > 0
    case DolivRow(d) =>
      && d.amount > 0
      && (d.status.CREATED? ==> d.executor.None?)
      && (d.status.CLAIMED? || d.status.COMPLETED? ==> d.executor.Some?)
    case PayoutRow(p) =>
      && p.amount > 0
      && (p.status.CLAIMED? || p.status.AWAITING_CHECK? || p.status.COMPLETED? ==> p.trader.Some?)
      && (p.released ==> p.held) && (p.held ==> p.status.COMPLETED?)
      && (p.status.CREATED? ==> forall k | 0 <= k < |p.receipts| :: p.receipts[k].state.Voided?)
  }

  // The entries written for a row net to the position its state implies.
  ghost predicate Booked(l: seq<Entry>, rows: seq<Row>) {
    && RefersBelow(l, |rows|)
    && (forall i, a | 0 <= i < |rows| :: NetOn(l, Some(i), a) == Effect(rows[i], a))
  }

  // No direct entry has taken money out of an ESCROW balance.
  ghost predicate EscrowUntouched(l: seq<Entry>) {
    forall a: Account | a.kind == ESCROW :: NetOn(l, None, a) >= 0
  }

  ghost predicate Sound(l: seq<Entry>, rows: seq<Row>) {
    Booked(l, rows) && Solvent(l) && EscrowUntouched(l)
  }

  // One row moves on: its legs are posted and net to the change of its position.
  lemma {:induction false} CommitRow(l: seq<Entry>, rows: seq<Row>, i: nat, legs: seq<Leg>, row: Row)
    requires Sound(l, rows) && i < |rows|
    requires For(legs, Some(i)) && PostAll(l, legs).Ok?
    requires forall a :: LegsNet(legs, a) == Effect(row, a) - Effect(rows[i], a)
    ensures Sound(PostAll(l, legs).value, rows[i := row])
  {
    var next, rows' := PostAll(l, legs).value, rows[i := row];
    PostAllSolvent(l, legs);
    PostAllRefers(l, legs, Some(i), |rows|);
    forall j, a | 0 <= j < |rows'| ensures NetOn(next, Some(j), a) == Effect(rows'[j], a) {
      PostAllNet(l, legs, Some(i), a);
      assert NetOn(l, Some(j), a) == Effect(rows[j], a);
      assert Some(j) != Some(i) ==> NetOn(next, Some(j), a) == NetOn(l, Some(j), a);
    }
    forall a: Account | a.kind == ESCROW ensures NetOn(next, None, a) >= 0 {
      PostAllNet(l, legs, Some(i), a);
      assert NetOn(next, None, a) == NetOn(l, None, a);
    }
  }

  // A new row enters with the legs posted for it.
  lemma {:induction false} CommitNew(l: seq<Entry>, rows: seq<Row>, legs: seq<Leg>, row: Row)
    requires Sound(l, rows)
    requires For(legs, Some(|rows|)) && PostAll(l, legs).Ok?
    requires forall a :: LegsNet(legs, a) == Effect(row, a)
    ensures Sound(PostAll(l, legs).value, rows + [row])
  {
    var n, next, rows' := |rows|, PostAll(l, legs).value, rows + [row];
    PostAllSolvent(l, legs);
    PostAllRefers(l, legs, Some(n), n + 1);
    forall j, a | 0 <= j < |rows'| ensures NetOn(next, Some(j), a) == Effect(rows'[j], a) {
      PostAllNet(l, legs, Some(n), a);
      if j < n {
        assert NetOn(l, Some(j), a) == Effect(rows[j], a);
        assert Some(j) != Some(n) ==> NetOn(next, Some(j), a) == NetOn(l, Some(j), a);
      } else {
        NoEntriesYet(l, n, a);
      }
    }
    forall a: Account | a.kind == ESCROW ensures NetOn(next, None, a) >= 0 {
      PostAllNet(l, legs, Some(n), a);
      assert NetOn(next, None, a) == NetOn(l, None, a);
    }
  }

  // Direct moves leave every row's part of the books alone.
  lemma {:induction false} DirectBooked(l: seq<Entry>, rows: seq<Row>, legs: seq<Leg>)
    requires Booked(l, rows) && For(legs, None) && PostAll(l, legs).Ok?
    ensures Booked(PostAll(l, legs).value, rows)
  {
    var next := PostAll(l, legs).value;
    PostAllRefers(l, legs, None, |rows|);
    forall j, a | 0 <= j < |rows| ensures NetOn(next, Some(j), a) == Effect(rows[j], a) {
      PostAllNet(l, legs, None, a);
      assert Some(j) != None ==> NetOn(next, Some(j), a) == NetOn(l, Some(j), a);
    }
  }

  lemma {:induction false} CommitDirect(l: seq<Entry>, rows: seq<Row>, legs: seq<Leg>)
    requires Sound(l, rows)
    requires For(legs, None) && PostAll(l, legs).Ok?
    requires forall a: Account | a.kind == ESCROW :: LegsNet(legs, a) >= 0
    ensures Sound(PostAll(l, legs).value, rows)
  {
    var next := PostAll(l, legs).value;
    PostAllSolvent(l, legs);
    DirectBooked(l, rows, legs);
    forall a: Account | a.kind == ESCROW ensures NetOn(next, None, a) >= 0 {
      PostAllNet(l, legs, None, a);
    }
  }

  lemma {:induction false} PostAllRefers(l: seq<Entry>, legs: seq<Leg>, row: Option<nat>, n: nat)
    requires For(legs, row) && PostAll(l, legs).Ok?
    requires forall k | 0 <= k < |l| :: l[k].reference.row.Some? ==> l[k].reference.row.value < n
    requires row.Some? ==> row.value < n
    ensures RefersBelow(PostAll(l, legs).value, n)
    decreases legs
  {
    if legs != [] {
      PostAllRefers(Post(l, legs[0]).value, legs[1..], row, n);
    }
  }

  lemma {:induction false} NoEntriesYet(l: seq<Entry>, n: nat, a: Account)
    requires RefersBelow(l, n)
    ensures NetOn(l, Some(n), a) == 0
  {
    if l != [] {
      assert l[|l| - 1].reference.row.Some? ==> l[|l| - 1].reference.row.value < n;
      NoEntriesYet(l[..|l| - 1], n, a);
    }
  }

  // Every balance is its direct part plus the positions of all rows.
  lemma {:induction false} BalanceFromRows(l: seq<Entry>, rows: seq<Row>, a: Account)
    requires Booked(l, rows)
    ensures Net(l, a) == NetOn(l, None, a) + Effects(rows, a)
  {
    Partition(l, |rows|, a);
    RowsNetIsEffects(l, rows, a);
  }

  lemma {:induction false} RowsNetIsEffects(l: seq<Entry>, rows: seq<Row>, a: Account)
    requires forall i | 0 <= i < |rows| :: NetOn(l, Some(i), a) == Effect(rows[i], a)
    ensures RowsNet(l, |rows|, a) == Effects(rows, a)
  {
    if rows != [] {
      RowsNetIsEffects(l, rows[..|rows| - 1], a);
    }
  }

  // Escrow backing: an ESCROW balance is its direct part plus the sum of the
  // live obligations frozen in it.
  lemma {:induction false} EscrowBacking(l: seq<Entry>, rows: seq<Row>, a: Account)
    requires Booked(l, rows) && a.kind == ESCROW
    ensures Net(l, a) == NetOn(l, None, a) + HeldIn(rows, a)
  {
    BalanceFromRows(l, rows, a);
    EffectsOnEscrow(rows, a);
  }

  // What a row holds in ESCROW is always there to be taken out again.
  lemma {:induction false} HoldIsCovered(l: seq<Entry>, rows: seq<Row>, i: nat, a: Account)
    requires Sound(l, rows) && i < |rows| && a.kind == ESCROW
    ensures Net(l, a) >= Held(rows[i], a)
  {
    forall j | 0 <= j < |rows| ensures NetOn(l, Some(j), a) == Held(rows[j], a) {
      assert NetOn(l, Some(j), a) == Effect(rows[j], a);
      EffectOnEscrow(rows[j], a);
    }
    Covered(l, |rows|, a, i);
  }
}
