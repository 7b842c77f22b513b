// doliv/service.py: requisite refills (доливы). A requester freezes the amount
// plus a price, an executor makes the transfer and is reimbursed with a reward,
// and an administrator can move a долив from any status to any other.

module Refills {
  import opened Common
  import opened Rounding
  import opened Ledger
  import opened Rows
  import opened Finance
  import opened Database
  import opened Orders
  import opened OrderService
  import opened Books

  // Settings, read afresh by every create; 0 means "no bound".
  datatype Config = Config(min: nat, max: nat, pricePercent: nat, rewardPercent: nat)

  datatype DolivOp =
    // `owner` is the trader a requisite belongs to, or None when there is none;
    // `rate` 0 stands for "no active rate".
    | Create(requester: nat, requisite: nat, owner: Option<nat>, fiat: int, cfg: Config, rate: nat)
    | Cancel(doliv: nat, requester: nat)
    | Claim(doliv: nat, executor: nat, authorised: bool)
    | Execute(doliv: nat, executor: nat)
    | AdminChange(doliv: nat, target: PayoutStatus)

  predicate IsDoliv(w: World, i: nat) {
    i < |w.rows| && w.rows[i].DolivRow?
  }

  function SetDoliv(w: World, i: nat, d: Doliv): World
    requires i < |w.rows|
  {
    w.(rows := w.rows[i := DolivRow(d)])
  }

  // CREATED and CLAIMED доливы count against the daily limit before they settle.
  predicate IsPending(s: PayoutStatus) {
    s.CREATED? || s.CLAIMED?
  }

  function PendingOf(row: Row, requisite: nat): nat {
    if row.DolivRow? && row.doliv.requisite == requisite && IsPending(row.doliv.status) then row.doliv.fiat else 0
  }

  function Pending(rows: seq<Row>, requisite: nat): nat {
    if rows == [] then 0 else Pending(rows[..|rows| - 1], requisite) + PendingOf(rows[|rows| - 1], requisite)
  }

  // ── Money steps ─────────────────────────────────────────────────────────

  // `freeze_doliv` has its own funds check before the transfer's.
  function Freeze(l: seq<Entry>, i: nat, d: Doliv): Result<seq<Entry>, Error> {
    if Net(l, Work(Trader(d.requester))) < d.amount + d.price then Err(InsufficientFunds)
    else PostAll(l, FreezeDolivLegs(i, d))
  }

  // Bring the money of a долив back to the frozen baseline.
  function Normalise(w: World, i: nat, d: Doliv): (r: Result<World, Error>)
    ensures r.Ok? ==> r.value.rows == w.rows && r.value.disputes == w.disputes
  {
    match DolivMoneyState(d.status)
    case Settled =>
      if d.executor.None? then Err(Validation)
      else
        var l :- PostAll(w.ledger, ReverseSettleDolivLegs(i, d));
        Ok(w.(ledger := l, limits := Unbump(w.limits, Some(d.requisite), d.fiat)))
    case Refunded =>
      var l :- Freeze(w.ledger, i, d);
      Ok(w.(ledger := l))
    case Frozen => Ok(w)
  }

  // From the frozen baseline to the money of the target.
  function Apply(w: World, i: nat, d: Doliv, target: PayoutStatus): (r: Result<World, Error>)
    ensures r.Ok? ==> r.value.rows == w.rows && r.value.disputes == w.disputes
  {
    match DolivMoneyState(target)
    case Settled =>
      if d.executor.None? then Err(Validation)
      else
        var l :- PostAll(w.ledger, SettleDolivLegs(i, d));
        Ok(w.(ledger := l, limits := Bump(w.limits, Some(d.requisite), d.fiat)))
    case Refunded =>
      var l :- PostAll(w.ledger, RefundDolivLegs(i, d));
      Ok(w.(ledger := l))
    case Frozen => Ok(w)
  }

  // _NEEDS_EXECUTOR
  predicate NeedsExecutor(s: PayoutStatus) {
    s.CLAIMED? || s.COMPLETED?
  }

  function Moved(d: Doliv, target: PayoutStatus): Doliv {
    d.(status := target, executor := if target.CREATED? then None else d.executor)
  }

  function AdminStep(w: World, i: nat, target: PayoutStatus): Result<World, Error>
    requires IsDoliv(w, i)
  {
    var d := w.rows[i].doliv;
    if target == d.status then Ok(w)
    else if NeedsExecutor(target) && d.executor.None? then Err(Conflict)
    else
      var w1 :- Normalise(w, i, d);
      var w2 :- Apply(w1, i, d, target);
      Ok(SetDoliv(w2, i, Moved(d, target)))
  }

  // What is left of the daily limit for one more долив.
  function Room(w: World, requisite: nat): int
    requires requisite in w.limits
  {
    w.limits[requisite].cap - w.limits[requisite].daily - Pending(w.rows, requisite)
  }

  function NewDoliv(requester: nat, requisite: nat, fiat: nat, cfg: Config, rate: nat): Doliv
    requires rate > 0
  {
    var amount := HalfEven(fiat * UNIT, rate);
    Doliv(requester, None, requisite, fiat, amount,
          HalfEven(amount * cfg.pricePercent, PERCENT), HalfEven(amount * cfg.rewardPercent, PERCENT),
          PayoutStatus.CREATED)
  }

  function Step(w: World, op: DolivOp): Result<World, Error> {
    match op
    case Create(requester, requisite, owner, fiat, cfg, rate) =>
      if owner.None? then Err(NotFound)
      else if owner != Some(requester) then Err(Forbidden)
      else if fiat <= 0 then Err(Validation)
      else if cfg.min > 0 && fiat < cfg.min then Err(Validation)
      else if cfg.max > 0 && fiat > cfg.max then Err(Validation)
      else if requisite in w.limits && (Room(w, requisite) <= 0 || fiat > Room(w, requisite)) then Err(Validation)
      else if rate == 0 then Err(Validation)
      else
        var d := NewDoliv(requester, requisite, fiat, cfg, rate);
        var l :- Freeze(w.ledger, |w.rows|, d);
        Ok(w.(ledger := l, rows := w.rows + [DolivRow(d)]))
    case Cancel(i, requester) =>
      if !IsDoliv(w, i) then Err(NotFound)
      else
        var d := w.rows[i].doliv;
        if d.requester != requester then Err(Forbidden)
        else if !d.status.CREATED? then Err(Conflict)
        else
          var l :- PostAll(w.ledger, RefundDolivLegs(i, d));
          Ok(SetDoliv(w.(ledger := l), i, d.(status := PayoutStatus.CANCELED)))
    case Claim(i, executor, authorised) =>
      if !authorised then Err(Forbidden)
      else if !IsDoliv(w, i) then Err(NotFound)
      else if !w.rows[i].doliv.status.CREATED? then Err(Conflict)
      else Ok(SetDoliv(w, i, w.rows[i].doliv.(status := CLAIMED, executor := Some(executor))))
    case Execute(i, executor) =>
      if !IsDoliv(w, i) then Err(NotFound)
      else
        var d := w.rows[i].doliv;
        if !d.status.CLAIMED? then Err(Conflict)
        else if d.executor != Some(executor) then Err(Forbidden)
        else
          var l :- PostAll(w.ledger, SettleDolivLegs(i, d));
          Ok(SetDoliv(w.(ledger := l, limits := Bump(w.limits, Some(d.requisite), d.fiat)), i, d.(status := COMPLETED)))
    case AdminChange(i, target) =>
      if !IsDoliv(w, i) then Err(NotFound) else AdminStep(w, i, target)
  }

  // ── What every operation keeps ──────────────────────────────────────────

  function NormaliseLegs(i: nat, d: Doliv): seq<Leg>
    requires DolivMoneyState(d.status).Settled? ==> d.executor.Some?
  {
    match DolivMoneyState(d.status)
    case Settled => ReverseSettleDolivLegs(i, d)
    case Refunded => FreezeDolivLegs(i, d)
    case Frozen => []
  }

  function ApplyLegs(i: nat, d: Doliv, target: PayoutStatus): seq<Leg>
    requires DolivMoneyState(target).Settled? ==> d.executor.Some?
  {
    match DolivMoneyState(target)
    case Settled => SettleDolivLegs(i, d)
    case Refunded => RefundDolivLegs(i, d)
    case Frozen => []
  }

  lemma {:induction false} NormaliseNet(i: nat, d: Doliv, a: Account)
    requires DolivMoneyState(d.status).Settled? ==> d.executor.Some?
    ensures LegsNet(NormaliseLegs(i, d), a) == DolivEffect(d.(status := PayoutStatus.CREATED), a) - DolivEffect(d, a)
    ensures For(NormaliseLegs(i, d), Some(i))
  {
    DolivNet(i, d, a);
    if d.executor.Some? {
      SettleDolivNet(i, d, a);
    }
  }

  lemma {:induction false} ApplyNet(i: nat, d: Doliv, target: PayoutStatus, a: Account)
    requires DolivMoneyState(target).Settled? ==> d.executor.Some?
    ensures LegsNet(ApplyLegs(i, d, target), a) ==
            DolivEffect(d.(status := target), a) - DolivEffect(d.(status := PayoutStatus.CREATED), a)
    ensures For(ApplyLegs(i, d, target), Some(i))
  {
    DolivNet(i, d, a);
    if d.executor.Some? {
      SettleDolivNet(i, d, a);
    }
  }

  // The administrator's move is one list of legs: back to the baseline, then on
  // to the target.
  lemma AdminPosts(w: World, i: nat, target: PayoutStatus)
    requires IsDoliv(w, i) && RowOk(w.rows[i])
    requires AdminStep(w, i, target).Ok? && target != w.rows[i].doliv.status
    ensures PostAll(w.ledger, NormaliseLegs(i, w.rows[i].doliv) + ApplyLegs(i, w.rows[i].doliv, target)) ==
            Ok(AdminStep(w, i, target).value.ledger)
  {
    var d := w.rows[i].doliv;
    PostAllConcat(w.ledger, NormaliseLegs(i, d), ApplyLegs(i, d, target));
  }

  lemma {:induction false} AdminNet(i: nat, d: Doliv, target: PayoutStatus, a: Account)
    requires (DolivMoneyState(d.status).Settled? || DolivMoneyState(target).Settled?) ==> d.executor.Some?
    ensures LegsNet(NormaliseLegs(i, d) + ApplyLegs(i, d, target), a) ==
            DolivEffect(Moved(d, target), a) - DolivEffect(d, a)
    ensures For(NormaliseLegs(i, d) + ApplyLegs(i, d, target), Some(i))
  {
    LegsNetConcat(NormaliseLegs(i, d), ApplyLegs(i, d, target), a);
    NormaliseNet(i, d, a);
    ApplyNet(i, d, target, a);
  }

  lemma AdminKeeps(w: World, i: nat, target: PayoutStatus)
    requires Consistent(w) && IsDoliv(w, i) && AdminStep(w, i, target).Ok?
    ensures Consistent(AdminStep(w, i, target).value)
  {
    var d := w.rows[i].doliv;
    assert OrderOk(w.rows[i]);
    if target != d.status {
      var w' := AdminStep(w, i, target).value;
      var legs := NormaliseLegs(i, d) + ApplyLegs(i, d, target);
      var row := DolivRow(Moved(d, target));
      AdminPosts(w, i, target);
      forall a ensures LegsNet(legs, a) == Effect(row, a) - Effect(w.rows[i], a) {
        AdminNet(i, d, target, a);
      }
      AdminNet(i, d, target, SYSTEM_WORK);
      RowMoveKeeps(w, i, legs, row, w'.limits);
      assert w' == w.(ledger := PostAll(w.ledger, legs).value, rows := w.rows[i := row], limits := w'.limits);
    }
  }

  lemma CreateKeeps(w: World, op: DolivOp)
    requires Consistent(w) && op.Create? && Step(w, op).Ok?
    ensures Consistent(Step(w, op).value)
  {
    var n := |w.rows|;
    var d := NewDoliv(op.requester, op.requisite, op.fiat, op.cfg, op.rate);
    var legs := FreezeDolivLegs(n, d);
    forall a ensures LegsNet(legs, a) == Effect(DolivRow(d), a) {
      DolivNet(n, d, a);
      assert d.(status := PayoutStatus.CREATED) == d;
    }
    DolivNet(n, d, SYSTEM_WORK);
    // A долив worth nothing cannot be frozen, so it cannot be created.
    assert legs[0].entry.amount > 0;
    NothingForNothing(d, op);
    NewRowKeeps(w, legs, DolivRow(d));
  }

  lemma NothingForNothing(d: Doliv, op: DolivOp)
    requires op.Create? && op.fiat > 0 && op.rate > 0
    requires d == NewDoliv(op.requester, op.requisite, op.fiat, op.cfg, op.rate)
    ensures d.amount == 0 ==> d.price == 0
  {
  }

  lemma StepKeeps(w: World, op: DolivOp)
    requires Consistent(w) && Step(w, op).Ok?
    ensures Consistent(Step(w, op).value)
  {
    match op
    case Create(_, _, _, _, _, _) => CreateKeeps(w, op);
    case AdminChange(i, target) => AdminKeeps(w, i, target);
    case Claim(i, executor, _) =>
      var d := w.rows[i].doliv;
      assert OrderOk(w.rows[i]);
      RowMoveKeeps(w, i, [], DolivRow(d.(status := CLAIMED, executor := Some(executor))), w.limits);
    case Cancel(i, _) => UserMoveKeeps(w, i, PayoutStatus.CANCELED, w.limits);
    case Execute(i, _) =>
      UserMoveKeeps(w, i, COMPLETED, Bump(w.limits, Some(w.rows[i].doliv.requisite), w.rows[i].doliv.fiat));
  }

  // Out of the frozen state, by the requester or the executor.
  lemma UserMoveKeeps(w: World, i: nat, target: PayoutStatus, limits: map<nat, Limit>)
    requires Consistent(w) && IsDoliv(w, i) && DolivMoneyState(w.rows[i].doliv.status).Frozen?
    requires target.COMPLETED? ==> w.rows[i].doliv.executor.Some?
    requires !target.CREATED? && (target.CLAIMED? ==> w.rows[i].doliv.executor.Some?)
    requires PostAll(w.ledger, ApplyLegs(i, w.rows[i].doliv, target)).Ok?
    ensures Consistent(SetDoliv(w.(ledger := PostAll(w.ledger, ApplyLegs(i, w.rows[i].doliv, target)).value,
                                   limits := limits),
                                i, w.rows[i].doliv.(status := target)))
  {
    var d := w.rows[i].doliv;
    assert OrderOk(w.rows[i]);
    var row := DolivRow(d.(status := target));
    forall a ensures LegsNet(ApplyLegs(i, d, target), a) == Effect(row, a) - Effect(w.rows[i], a) {
      ApplyNet(i, d, target, a);
    }
    ApplyNet(i, d, target, SYSTEM_WORK);
    RowMoveKeeps(w, i, ApplyLegs(i, d, target), row, limits);
  }

  // ── Path independence ───────────────────────────────────────────────────

  // A refused operation leaves everything as it was.
  function Run(w: World, ops: seq<DolivOp>): World
    decreases ops
  {
    if ops == [] then w
    else Run(if Step(w, ops[0]).Ok? then Step(w, ops[0]).value else w, ops[1..])
  }

  lemma {:induction false} StepWritesNoDirect(w: World, op: DolivOp, a: Account)
    requires Consistent(w) && Step(w, op).Ok?
    ensures NetOn(Step(w, op).value.ledger, None, a) == NetOn(w.ledger, None, a)
  {
    var l := w.ledger;
    match op
    case Create(requester, requisite, _, fiat, cfg, rate) =>
      var n, d := |w.rows|, NewDoliv(requester, requisite, fiat, cfg, rate);
      DolivNet(n, d, a);
      PostAllNet(l, FreezeDolivLegs(n, d), Some(n), a);
    case Cancel(i, _) =>
      DolivNet(i, w.rows[i].doliv, a);
      PostAllNet(l, RefundDolivLegs(i, w.rows[i].doliv), Some(i), a);
    case Claim(_, _, _) =>
    case Execute(i, _) =>
      SettleDolivNet(i, w.rows[i].doliv, a);
      PostAllNet(l, SettleDolivLegs(i, w.rows[i].doliv), Some(i), a);
    case AdminChange(i, target) =>
      var d := w.rows[i].doliv;
      assert OrderOk(w.rows[i]);
      if target != d.status {
        AdminPosts(w, i, target);
        AdminNet(i, d, target, a);
        PostAllNet(l, NormaliseLegs(i, d) + ApplyLegs(i, d, target), Some(i), a);
      }
  }

  lemma {:induction false} StepBalances(w: World, op: DolivOp, a: Account)
    requires Consistent(w) && Step(w, op).Ok?
    ensures Net(Step(w, op).value.ledger, a) - Effects(Step(w, op).value.rows, a) ==
            Net(w.ledger, a) - Effects(w.rows, a)
  {
    StepKeeps(w, op);
    StepWritesNoDirect(w, op, a);
    BalanceFromRows(w.ledger, w.rows, a);
    BalanceFromRows(Step(w, op).value.ledger, Step(w, op).value.rows, a);
  }

  // However a run of create, cancel, claim, execute and administrator moves is
  // interleaved, each balance ends at its base plus the positions of the rows
  // as they stand at the end: nothing else of the history matters.
  lemma {:induction false} RunBalances(w: World, ops: seq<DolivOp>, a: Account)
    requires Consistent(w)
    ensures Consistent(Run(w, ops))
    ensures Net(Run(w, ops).ledger, a) == Net(w.ledger, a) - Effects(w.rows, a) + Effects(Run(w, ops).rows, a)
    decreases ops
  {
    if ops != [] {
      if Step(w, ops[0]).Ok? {
        StepKeeps(w, ops[0]);
        StepBalances(w, ops[0], a);
        RunBalances(Step(w, ops[0]).value, ops[1..], a);
      } else {
        RunBalances(w, ops[1..], a);
      }
    }
  }

  // Of a долив only its money state counts, and the executor once it is settled.
  predicate SameMoney(r: Row, s: Row) {
    r == s ||
    (r.DolivRow? && s.DolivRow? &&
     var d, e := r.doliv, s.doliv;
     && DolivMoneyState(d.status) == DolivMoneyState(e.status)
     && (d.requester, d.amount, d.price, d.reward) == (e.requester, e.amount, e.price, e.reward)
     && (DolivMoneyState(d.status).Settled? ==> d.executor == e.executor))
  }

  // Two runs from one start that end in the same money states end with the same
  // balances, whatever statuses each went through.
  lemma {:induction false} PathIndependence(w: World, ops: seq<DolivOp>, other: seq<DolivOp>, a: Account)
    requires Consistent(w)
    requires |Run(w, ops).rows| == |Run(w, other).rows|
    requires forall i | 0 <= i < |Run(w, ops).rows| :: SameMoney(Run(w, ops).rows[i], Run(w, other).rows[i])
    ensures Net(Run(w, ops).ledger, a) == Net(Run(w, other).ledger, a)
  {
    RunBalances(w, ops, a);
    RunBalances(w, other, a);
    SameEffects(Run(w, ops).rows, Run(w, other).rows, a);
  }

  lemma {:induction false} SameEffects(rows: seq<Row>, other: seq<Row>, a: Account)
    requires |rows| == |other|
    requires forall i | 0 <= i < |rows| :: SameMoney(rows[i], other[i])
    ensures Effects(rows, a) == Effects(other, a)
  {
    if rows != [] {
      var n := |rows| - 1;
      assert SameMoney(rows[n], other[n]);
      SameEffects(rows[..n], other[..n], a);
    }
  }

  lemma AdminRows(w: World, i: nat, target: PayoutStatus)
    requires IsDoliv(w, i) && AdminStep(w, i, target).Ok?
    ensures target != w.rows[i].doliv.status ==>
              AdminStep(w, i, target).value.rows == w.rows[i := DolivRow(Moved(w.rows[i].doliv, target))]
    ensures target == w.rows[i].doliv.status ==> AdminStep(w, i, target).value.rows == w.rows
    ensures target.COMPLETED? && target != w.rows[i].doliv.status ==> w.rows[i].doliv.executor.Some?
  {
  }

  // What one admin move does to the balances, as a row operation.
  lemma {:induction false} AdminBalances(w: World, w': World, i: nat, target: PayoutStatus, a: Account)
    requires Consistent(w) && IsDoliv(w, i) && AdminStep(w, i, target) == Ok(w')
    ensures Consistent(w')
    ensures Net(w'.ledger, a) - Effects(w'.rows, a) == Net(w.ledger, a) - Effects(w.rows, a)
  {
    assert Step(w, AdminChange(i, target)) == Ok(w');
    StepKeeps(w, AdminChange(i, target));
    StepBalances(w, AdminChange(i, target), a);
  }

  // Any move and back restores every balance, whenever both are accepted.
  lemma {:induction false} AdminRoundTrip(w: World, w1: World, w2: World, i: nat, target: PayoutStatus, a: Account)
    requires Consistent(w) && IsDoliv(w, i) && AdminStep(w, i, target) == Ok(w1)
    requires IsDoliv(w1, i) && AdminStep(w1, i, w.rows[i].doliv.status) == Ok(w2)
    ensures Net(w2.ledger, a) == Net(w.ledger, a)
  {
    assert OrderOk(w.rows[i]);
    AdminBalances(w, w1, i, target, a);
    AdminBalances(w1, w2, i, w.rows[i].doliv.status, a);
    AdminRows(w, i, target);
    AdminRows(w1, i, w.rows[i].doliv.status);
    assert SameMoney(w.rows[i], w2.rows[i]);
    SameEffects(w.rows, w2.rows, a);
  }

  // ── Settlement is never stuck ───────────────────────────────────────────

  // Every долив was priced at no less than the reward it promises.
  predicate Priced(rows: seq<Row>) {
    forall i | 0 <= i < |rows| && rows[i].DolivRow? :: rows[i].doliv.price >= rows[i].doliv.reward
  }

  // Rounding cannot reverse the order of the two percentages.
  lemma PricedKept(w: World, op: DolivOp)
    requires Priced(w.rows) && Step(w, op).Ok?
    requires op.Create? ==> op.cfg.pricePercent >= op.cfg.rewardPercent
    ensures Priced(Step(w, op).value.rows)
  {
    match op
    case Create(requester, requisite, _, fiat, cfg, rate) => RewardWithinPrice(requester, requisite, fiat, cfg, rate);
    case _ =>
  }

  lemma RewardWithinPrice(requester: nat, requisite: nat, fiat: nat, cfg: Config, rate: nat)
    requires rate > 0 && cfg.rewardPercent <= cfg.pricePercent
    ensures NewDoliv(requester, requisite, fiat, cfg, rate).reward <=
            NewDoliv(requester, requisite, fiat, cfg, rate).price
  {
    var amount := HalfEven(fiat * UNIT, rate);
    Scale(cfg.rewardPercent, cfg.pricePercent, amount);
    assert amount * cfg.rewardPercent == cfg.rewardPercent * amount
           && amount * cfg.pricePercent == cfg.pricePercent * amount;
    HalfEvenMonotone(amount * cfg.rewardPercent, amount * cfg.pricePercent, PERCENT);
  }

  // A claimed долив settles exactly when the system float and the price
  // together cover the reward; the requester's frozen funds are always there.
  lemma SettlesExactly(w: World, i: nat)
    requires Consistent(w) && IsDoliv(w, i)
    requires DolivMoneyState(w.rows[i].doliv.status).Frozen? && w.rows[i].doliv.executor.Some?
    ensures PostAll(w.ledger, SettleDolivLegs(i, w.rows[i].doliv)).Ok? <==>
            w.rows[i].doliv.reward <= Net(w.ledger, SYSTEM_WORK) + w.rows[i].doliv.price
  {
    var d, l := w.rows[i].doliv, w.ledger;
    assert OrderOk(w.rows[i]);
    var escrow := Escrow(Trader(d.requester));
    HoldIsCovered(l, w.rows, i, escrow);
    assert Net(l, escrow) >= d.amount + d.price;
    assert !MayOverdraw(SYSTEM_WORK) && Net(l, SYSTEM_WORK) >= 0;
    var legs := SettleDolivLegs(i, d);
    var l1 := l + [legs[0].entry];
    NetAppend(l, legs[0].entry, escrow);
    NetAppend(l, legs[0].entry, SYSTEM_WORK);
    assert Post(l, legs[0]) == Ok(l1);
    assert legs[1..] == [legs[1], legs[2]];
    var l2 := if d.price > 0 then l1 + [legs[1].entry] else l1;
    NetAppend(l1, legs[1].entry, SYSTEM_WORK);
    assert Post(l1, legs[1]) == Ok(l2);
    assert legs[1..][1..] == [legs[2]];
    assert PostAll(l, legs) == PostAll(l2, [legs[2]]);
    assert [legs[2]][1..] == [];
    assert Net(l2, SYSTEM_WORK) == Net(l, SYSTEM_WORK) + d.price;
    assert Post(l2, legs[2]).Ok? <==> d.reward <= Net(l2, SYSTEM_WORK);
    assert PostAll(l2, [legs[2]]).Ok? <==> Post(l2, legs[2]).Ok?;
  }

  // With price at least reward, the executor's confirmation always goes through
  // and the system float does not shrink.
  lemma ExecuteNeverStuck(w: World, i: nat, executor: nat)
    requires Consistent(w) && Priced(w.rows) && IsDoliv(w, i)
    requires w.rows[i].doliv.status.CLAIMED? && w.rows[i].doliv.executor == Some(executor)
    ensures Step(w, Execute(i, executor)).Ok?
    ensures Net(Step(w, Execute(i, executor)).value.ledger, SYSTEM_WORK) >= Net(w.ledger, SYSTEM_WORK)
  {
    var d := w.rows[i].doliv;
    assert !MayOverdraw(SYSTEM_WORK) && Net(w.ledger, SYSTEM_WORK) >= 0;
    SettlesExactly(w, i);
    SettleDolivNet(i, d, SYSTEM_WORK);
    PostAllNet(w.ledger, SettleDolivLegs(i, d), Some(i), SYSTEM_WORK);
  }

  // The freeze of a долив can always be given back: it is still in ESCROW.
  lemma {:induction false} RefundNeverShort(w: World, i: nat)
    requires Consistent(w) && IsDoliv(w, i) && DolivMoneyState(w.rows[i].doliv.status).Frozen?
    ensures PostAll(w.ledger, RefundDolivLegs(i, w.rows[i].doliv)).Ok?
  {
    var d := w.rows[i].doliv;
    HoldIsCovered(w.ledger, w.rows, i, Escrow(Trader(d.requester)));
    assert OrderOk(w.rows[i]);
    assert Net(w.ledger, Escrow(Trader(d.requester))) >= d.amount + d.price > 0;
    PostAllOne(w.ledger, RefundDolivLegs(i, d)[0]);
  }

  // So an administrator can cancel or expire it from any frozen status.
  lemma {:induction false} AdminRefundNeverShort(w: World, i: nat, target: PayoutStatus)
    requires Consistent(w) && IsDoliv(w, i) && DolivMoneyState(w.rows[i].doliv.status).Frozen?
    requires DolivMoneyState(target).Refunded?
    ensures Step(w, AdminChange(i, target)).Ok?
  {
    RefundNeverShort(w, i);
  }

  // A долив still in the pool can always be withdrawn.
  lemma CancelNeverShort(w: World, i: nat)
    requires Consistent(w) && IsDoliv(w, i) && w.rows[i].doliv.status.CREATED?
    ensures Step(w, DolivOp.Cancel(i, w.rows[i].doliv.requester)).Ok?
  {
    RefundNeverShort(w, i);
  }

  // A settlement can be reversed exactly when the executor still has what it
  // paid, and the system float can return the price.
  lemma {:induction false} ReversesExactly(l: seq<Entry>, i: nat, d: Doliv)
    requires d.executor.Some? && d.amount > 0 && Net(l, SYSTEM_WORK) >= 0
    ensures PostAll(l, ReverseSettleDolivLegs(i, d)).Ok? <==>
            && Net(l, Work(Trader(d.executor.value))) >= d.amount + d.reward
            && Net(l, SYSTEM_WORK) + d.reward >= d.price
  {
    var legs := ReverseSettleDolivLegs(i, d);
    var work := Work(Trader(d.executor.value));
    assert legs[1..] == [legs[1], legs[2]] && legs[1..][1..] == [legs[2]] && [legs[2]][1..] == [];
    if Post(l, legs[0]).Ok? {
      var l1 := Post(l, legs[0]).value;
      NetAppend(l, legs[0].entry, work);
      NetAppend(l, legs[0].entry, SYSTEM_WORK);
      assert PostAll(l, legs) == PostAll(l1, [legs[1], legs[2]]);
      assert Net(l1, work) == Net(l, work) - d.reward && Net(l1, SYSTEM_WORK) == Net(l, SYSTEM_WORK) + d.reward;
      if Post(l1, legs[1]).Ok? {
        var l2 := Post(l1, legs[1]).value;
        NetAppend(l1, legs[1].entry, SYSTEM_WORK);
        assert PostAll(l, legs) == PostAll(l2, [legs[2]]);
        assert [legs[2]][1..] == [];
        assert Net(l2, SYSTEM_WORK) == Net(l, SYSTEM_WORK) + d.reward;
        assert Post(l2, legs[2]).Ok? <==> Net(l2, SYSTEM_WORK) >= d.price;
        assert PostAll(l2, [legs[2]]).Ok? <==> Post(l2, legs[2]).Ok?;
        assert Net(l, work) >= d.amount + d.reward;
      } else {
        assert Net(l1, work) < d.amount;
      }
    }
  }

  // Reversing right after settling is always possible if the executor was not
  // in debt before.
  lemma ReverseRightAfter(w: World, i: nat)
    requires Consistent(w) && IsDoliv(w, i)
    requires DolivMoneyState(w.rows[i].doliv.status).Frozen? && w.rows[i].doliv.executor.Some?
    requires PostAll(w.ledger, SettleDolivLegs(i, w.rows[i].doliv)).Ok?
    requires Net(w.ledger, Work(Trader(w.rows[i].doliv.executor.value))) >= 0
    ensures PostAll(PostAll(w.ledger, SettleDolivLegs(i, w.rows[i].doliv)).value,
                    ReverseSettleDolivLegs(i, w.rows[i].doliv)).Ok?
  {
    var d := w.rows[i].doliv;
    assert OrderOk(w.rows[i]);
    var legs, work := SettleDolivLegs(i, d), Work(Trader(d.executor.value));
    var l := PostAll(w.ledger, legs).value;
    assert !MayOverdraw(SYSTEM_WORK) && Net(w.ledger, SYSTEM_WORK) >= 0;
    PostAllSolvent(w.ledger, legs);
    assert Net(l, SYSTEM_WORK) >= 0;
    forall a ensures Net(l, a) == Net(w.ledger, a) + LegsNet(legs, a) {
      SettleDolivNet(i, d, a);
      PostAllNet(w.ledger, legs, Some(i), a);
    }
    SettleDolivNet(i, d, work);
    SettleDolivNet(i, d, SYSTEM_WORK);
    ReversesExactly(l, i, d);
  }

  // ── The daily limit ─────────────────────────────────────────────────────

  // Turnover already booked plus what доливы have claimed on it.
  function Committed(w: World, requisite: nat): nat
    requires requisite in w.limits
  {
    w.limits[requisite].daily + Pending(w.rows, requisite)
  }

  predicate WithinCap(w: World, requisite: nat) {
    requisite in w.limits ==> Committed(w, requisite) <= w.limits[requisite].cap
  }

  lemma {:induction false} PendingUpdate(rows: seq<Row>, i: nat, row: Row, requisite: nat)
    requires i < |rows|
    ensures Pending(rows[i := row], requisite) ==
            Pending(rows, requisite) - PendingOf(rows[i], requisite) + PendingOf(row, requisite)
  {
    var n := |rows| - 1;
    if i < n {
      assert rows[i := row][..n] == rows[..n][i := row];
      PendingUpdate(rows[..n], i, row, requisite);
    } else {
      assert rows[i := row][..n] == rows[..n];
    }
  }

  lemma {:induction false} PendingCovers(rows: seq<Row>, i: nat, requisite: nat)
    requires i < |rows|
    ensures PendingOf(rows[i], requisite) <= Pending(rows, requisite)
  {
    if i < |rows| - 1 {
      PendingCovers(rows[..|rows| - 1], i, requisite);
    }
  }

  // Requesters and executors never over-commit a requisite: a create takes room
  // that was free, a cancel gives it back, and an execute moves exactly its
  // amount from pending to turnover.
  lemma UsersKeepCap(w: World, op: DolivOp, requisite: nat)
    requires !op.AdminChange? && Step(w, op).Ok? && requisite in w.limits
    ensures
      var w' := Step(w, op).value;
      && requisite in w'.limits && w'.limits[requisite].cap == w.limits[requisite].cap
      && (WithinCap(w, requisite) ==> WithinCap(w', requisite))
      && (op.Execute? || op.Claim? ==> Committed(w', requisite) == Committed(w, requisite))
      && (op.Create? ==> Committed(w', requisite) ==
                         Committed(w, requisite) + if op.requisite == requisite then op.fiat else 0)
      && (op.Cancel? ==> Committed(w', requisite) ==
                         Committed(w, requisite) - PendingOf(w.rows[op.doliv], requisite))
  {
    var w' := Step(w, op).value;
    if op.Create? {
      var row := w'.rows[|w.rows|];
      assert w'.rows[..|w.rows|] == w.rows;
    } else {
      PendingUpdate(w.rows, op.doliv, w'.rows[op.doliv], requisite);
      PendingCovers(w.rows, op.doliv, requisite);
      assert w'.rows == w.rows[op.doliv := w'.rows[op.doliv]];
    }
  }

  lemma {:induction false} UserRunsKeepCap(w: World, ops: seq<DolivOp>, requisite: nat)
    requires WithinCap(w, requisite)
    requires forall k | 0 <= k < |ops| :: !ops[k].AdminChange?
    ensures WithinCap(Run(w, ops), requisite)
    decreases ops
  {
    if ops != [] {
      if Step(w, ops[0]).Ok? {
        if requisite in w.limits {
          UsersKeepCap(w, ops[0], requisite);
        }
        UserRunsKeepCap(Step(w, ops[0]).value, ops[1..], requisite);
      } else {
        UserRunsKeepCap(w, ops[1..], requisite);
      }
    }
  }

  // The administrator's move does not look at the limit. What it adds to the
  // commitment: nothing out of the counted statuses or between two of them, the
  // whole amount into them from outside; and a settled долив that is re-opened
  // after the counter was reset adds the part the reset had already forgotten.
  function Adds(w: World, d: Doliv, target: PayoutStatus): nat
    requires d.requisite in w.limits
  {
    if !IsPending(target) && !target.COMPLETED? then 0
    else if d.status.COMPLETED? then Minus(d.fiat, w.limits[d.requisite].daily)
    else if IsPending(d.status) then 0
    else d.fiat
  }

  // So it stays within the limit exactly when what it adds fits the room left.
  lemma AdminKeepsCapExactly(w: World, i: nat, target: PayoutStatus)
    requires IsDoliv(w, i) && w.rows[i].doliv.requisite in w.limits
    requires AdminStep(w, i, target).Ok? && target != w.rows[i].doliv.status
    requires WithinCap(w, w.rows[i].doliv.requisite)
    ensures WithinCap(AdminStep(w, i, target).value, w.rows[i].doliv.requisite) <==>
            Adds(w, w.rows[i].doliv, target) <= Room(w, w.rows[i].doliv.requisite)
  {
    var d := w.rows[i].doliv;
    PendingUpdate(w.rows, i, DolivRow(Moved(d, target)), d.requisite);
    PendingCovers(w.rows, i, d.requisite);
  }

  // A cancelled долив re-opened on a full requisite goes over its limit.
  lemma ReopenedOverCap()
    ensures exists w, i: nat ::
              && IsDoliv(w, i) && w.rows[i].doliv.requisite in w.limits
              && WithinCap(w, w.rows[i].doliv.requisite)
              && AdminStep(w, i, PayoutStatus.CREATED).Ok?
              && !WithinCap(AdminStep(w, i, PayoutStatus.CREATED).value, w.rows[i].doliv.requisite)
  {
    var d := Doliv(1, None, 7, 50, 5, 0, 0, PayoutStatus.CANCELED);
    var deposit := Entry(None, Some(Work(Trader(1))), 10, USDT, Reference(DEPOSIT, None, Plain));
    var w := World([deposit], [DolivRow(d)], map[], map[7 := Limit(100, 100, 100)]);
    NetAppend([], deposit, Work(Trader(1)));
    assert [] + [deposit] == [deposit];
    assert Net(w.ledger, Work(Trader(1))) == 10;
    assert FreezeDolivLegs(0, d)[1..] == [];
    assert AdminStep(w, 0, PayoutStatus.CREATED).Ok?;
    assert Pending(w.rows, 7) == Pending(w.rows[..0], 7) == 0;
    AdminKeepsCapExactly(w, 0, PayoutStatus.CREATED);
  }
}
