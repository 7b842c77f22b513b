// Доливы: exactly when each operation is accepted, and what it leaves behind.

module RefillOutcomes {
  import opened Common
  import opened Ledger
  import opened Rows
  import opened Finance
  import opened Database
  import opened Orders
  import opened OrderService
  import opened Refills
  import opened Outcomes
  import Platform

  // Only долив i and the ledger change.
  ghost predicate Rewritten(w: World, w': World, i: nat, d: Doliv) {
    i < |w.rows| && w' == w.(ledger := w'.ledger, rows := w.rows[i := DolivRow(d)])
  }

  // ── Creation ────────────────────────────────────────────────────────────

  predicate WithinBounds(cfg: Config, fiat: int) {
    0 < fiat && (cfg.min > 0 ==> cfg.min <= fiat) && (cfg.max > 0 ==> fiat <= cfg.max)
  }

  // A долив is accepted on one's own requisite, within the bounds and the daily
  // limit, and when the WORK covers amount and price. It is worth its fiat at its
  // rate; price and reward are percentages of that.
  lemma {:induction false} CreatesExactly(w: World, requester: nat, requisite: nat, owner: Option<nat>, fiat: nat,
                                          cfg: Config, rate: nat, amount: nat, price: nat, reward: nat)
    requires Consistent(w) && IsQuotient(fiat, rate, amount)
    requires IsShare(amount, cfg.pricePercent, price) && IsShare(amount, cfg.rewardPercent, reward)
    ensures
      var r := Refills.Step(w, Create(requester, requisite, owner, fiat, cfg, rate));
      var t := Trader(requester);
      && (r.Ok? <==>
            && owner == Some(requester) && WithinBounds(cfg, fiat) && rate > 0
            && (requisite in w.limits ==>
                  w.limits[requisite].daily + Pending(w.rows, requisite) + fiat <= w.limits[requisite].cap)
            && 0 < amount && amount + price <= Net(w.ledger, Work(t)))
      && (r.Ok? ==>
            && r.value == w.(ledger := r.value.ledger, rows := w.rows + [DolivRow(
                 Doliv(requester, None, requisite, fiat, amount, price, reward, PayoutStatus.CREATED))])
            && forall a :: Net(r.value.ledger, a) == Net(w.ledger, a) + Between(a, Work(t), Escrow(t), amount + price))
  {
    var op := Create(requester, requisite, owner, fiat, cfg, rate);
    if rate > 0 {
      var d := Doliv(requester, None, requisite, fiat, amount, price, reward, PayoutStatus.CREATED);
      NewDolivIs(cfg, rate, d);
      CreateRow(w, op, d);
      if Refills.Step(w, op).Ok? {
        CreateLeaves(w, op, d);
      }
    }
  }

  lemma {:induction false} NewDolivIs(cfg: Config, rate: nat, d: Doliv)
    requires rate > 0 && d.executor.None? && d.status == PayoutStatus.CREATED && IsQuotient(d.fiat, rate, d.amount)
    requires IsShare(d.amount, cfg.pricePercent, d.price) && IsShare(d.amount, cfg.rewardPercent, d.reward)
    ensures NewDoliv(d.requester, d.requisite, d.fiat, cfg, rate) == d
    ensures d.amount == 0 ==> d.price == 0
  {
    QuotientIs(d.fiat, rate, d.amount);
    ShareIs(d.amount, cfg.pricePercent, d.price);
    ShareIs(d.amount, cfg.rewardPercent, d.reward);
  }

  lemma {:induction false} CreateRow(w: World, op: DolivOp, d: Doliv)
    requires op.Create? && op.fiat >= 0 && op.rate > 0
    requires d == NewDoliv(op.requester, op.requisite, op.fiat, op.cfg, op.rate)
    requires d.amount == 0 ==> d.price == 0
    ensures
      var r := Refills.Step(w, op);
      && (r.Ok? <==>
            && op.owner == Some(op.requester) && WithinBounds(op.cfg, op.fiat)
            && (op.requisite in w.limits ==>
                  w.limits[op.requisite].daily + Pending(w.rows, op.requisite) + op.fiat <= w.limits[op.requisite].cap)
            && 0 < d.amount && d.amount + d.price <= Net(w.ledger, Work(Trader(op.requester))))
      && (r.Ok? ==> r.value == w.(ledger := r.value.ledger, rows := w.rows + [DolivRow(d)]))
  {
    PostAllOne(w.ledger, FreezeDolivLegs(|w.rows|, d)[0]);
  }

  lemma {:induction false} CreateLeaves(w: World, op: DolivOp, d: Doliv)
    requires Consistent(w) && Refills.Step(w, op).Ok? && d.status == PayoutStatus.CREATED
    requires Refills.Step(w, op).value.rows == w.rows + [DolivRow(d)]
    ensures
      var t := Trader(d.requester);
      forall a :: Net(Refills.Step(w, op).value.ledger, a) ==
                  Net(w.ledger, a) + Between(a, Work(t), Escrow(t), d.amount + d.price)
  {
    Enters(w, Platform.OnDoliv(op), Refills.Step(w, op).value, DolivRow(d));
  }

  // ── Standing ────────────────────────────────────────────────────────────

  // What the money of a долив is away from where it was before it.
  function Standing(d: Doliv, a: Account): int
    requires d.status.COMPLETED? ==> d.executor.Some?
  {
    var t := Trader(d.requester);
    match d.status
    case CREATED | CLAIMED | AWAITING_CHECK => Between(a, Work(t), Escrow(t), d.amount + d.price)
    case COMPLETED => Settlement(d, Work(t), d.executor.value, a)
    case CANCELED | EXPIRED => 0
  }

  // Where the money of a settlement goes: the amount to the executor, the price
  // to the system, and the reward from the system to the executor.
  function Settlement(d: Doliv, from: Account, executor: nat, a: Account): int {
    Between(a, from, Work(Trader(executor)), d.amount) + Between(a, from, SYSTEM_WORK, d.price)
    + Between(a, SYSTEM_WORK, Work(Trader(executor)), d.reward)
  }

  lemma {:induction false} Stands(l: seq<Entry>, l': seq<Entry>, d: Doliv, d': Doliv)
    requires Shifted(l, l', DolivRow(d), DolivRow(d'))
    requires (d.status.COMPLETED? ==> d.executor.Some?) && (d'.status.COMPLETED? ==> d'.executor.Some?)
    ensures forall a :: Net(l', a) == Net(l, a) + Standing(d', a) - Standing(d, a)
  {
    forall a ensures DolivEffect(d, a) == Standing(d, a) && DolivEffect(d', a) == Standing(d', a) {
    }
  }

  lemma {:induction false} Leaves(w: World, op: DolivOp, i: nat, d': Doliv)
    requires Consistent(w) && IsDoliv(w, i) && Refills.Step(w, op).Ok?
    requires Refills.Step(w, op).value.rows == w.rows[i := DolivRow(d')] && RowOk(DolivRow(d'))
    ensures w.rows[i].doliv.status.COMPLETED? ==> w.rows[i].doliv.executor.Some?
    ensures forall a :: Net(Refills.Step(w, op).value.ledger, a) ==
                        Net(w.ledger, a) + Standing(d', a) - Standing(w.rows[i].doliv, a)
    ensures Consistent(Refills.Step(w, op).value)
  {
    var w' := Refills.Step(w, op).value;
    assert OrderOk(w.rows[i]);
    Rewrites(w, Platform.OnDoliv(op), w', i, DolivRow(d'));
    Stands(w.ledger, w'.ledger, w.rows[i].doliv, d');
  }

  // ── Cancelling and claiming ─────────────────────────────────────────────

  // Its requester withdraws a долив that is still in the pool, always.
  lemma {:induction false} CancelsExactly(w: World, i: nat, requester: nat)
    requires Consistent(w) && IsDoliv(w, i)
    ensures
      var d, r := w.rows[i].doliv, Refills.Step(w, DolivOp.Cancel(i, requester));
      var t := Trader(d.requester);
      if d.requester != requester then r == Err(Forbidden)
      else if !d.status.CREATED? then r == Err(Conflict)
      else
        && r.Ok? && Rewritten(w, r.value, i, d.(status := PayoutStatus.CANCELED))
        && forall a :: Net(r.value.ledger, a) == Net(w.ledger, a) + Between(a, Escrow(t), Work(t), d.amount + d.price)
  {
    var d, op := w.rows[i].doliv, DolivOp.Cancel(i, requester);
    if d.requester == requester && d.status.CREATED? {
      CancelNeverShort(w, i);
      Leaves(w, op, i, d.(status := PayoutStatus.CANCELED));
    }
  }

  // An authorised executor takes an unclaimed долив, as its executor, and
  // nothing else changes.
  lemma ClaimsExactly(w: World, i: nat, executor: nat, authorised: bool)
    ensures Refills.Step(w, Claim(i, executor, authorised)) ==
            if !authorised then Err(Forbidden)
            else if !IsDoliv(w, i) then Err(NotFound)
            else if !w.rows[i].doliv.status.CREATED? then Err(Conflict)
            else
              Ok(w.(rows := w.rows[i := DolivRow(w.rows[i].doliv.(status := CLAIMED, executor := Some(executor)))]))
  {
  }

  // ── Settlement ──────────────────────────────────────────────────────────

  // Only its executor confirms a claimed долив, exactly when the float and the
  // price cover the reward. The turnover of the requisite grows by its fiat.
  lemma {:induction false} ExecutesExactly(w: World, i: nat, executor: nat)
    requires Consistent(w) && IsDoliv(w, i)
    ensures
      var d, r := w.rows[i].doliv, Refills.Step(w, Execute(i, executor));
      if !d.status.CLAIMED? then r == Err(Conflict)
      else if d.executor != Some(executor) then r == Err(Forbidden)
      else
        && (r.Ok? <==> d.reward <= Net(w.ledger, SYSTEM_WORK) + d.price)
        && (r.Ok? ==> Executed(w, r.value, i, executor))
  {
    var d, op := w.rows[i].doliv, Execute(i, executor);
    if d.status.CLAIMED? && d.executor == Some(executor) {
      Refills.SettlesExactly(w, i);
      if Refills.Step(w, op).Ok? {
        ExecuteLeaves(w, i, executor);
      }
    }
  }

  ghost predicate Executed(w: World, w': World, i: nat, executor: nat) {
    && IsDoliv(w, i)
    && var d := w.rows[i].doliv;
    && w'.rows == w.rows[i := DolivRow(d.(status := COMPLETED))] && w'.disputes == w.disputes
    && TurnoverGrows(w.limits, w'.limits, Some(d.requisite), d.fiat)
    && forall a :: Net(w'.ledger, a) == Net(w.ledger, a) + Settlement(d, Escrow(Trader(d.requester)), executor, a)
  }

  lemma {:induction false} ExecuteLeaves(w: World, i: nat, executor: nat)
    requires Consistent(w) && IsDoliv(w, i) && w.rows[i].doliv.status.CLAIMED?
    requires Refills.Step(w, Execute(i, executor)).Ok?
    ensures Executed(w, Refills.Step(w, Execute(i, executor)).value, i, executor)
  {
    Leaves(w, Execute(i, executor), i, w.rows[i].doliv.(status := COMPLETED));
  }

  // Whoever claims a долив, and nobody else, executes it: in a priced database
  // that goes through right away, and pays that executor amount and reward.
  lemma {:induction false} ClaimantExecutes(w: World, i: nat, executor: nat, other: nat)
    requires Consistent(w) && Priced(w.rows) && IsDoliv(w, i) && w.rows[i].doliv.status.CREATED?
    requires executor != other
    ensures
      var d, claimed := w.rows[i].doliv, Refills.Step(w, Claim(i, executor, true));
      && claimed.Ok?
      && Refills.Step(claimed.value, Execute(i, other)) == Err(Forbidden)
      && var r := Refills.Step(claimed.value, Execute(i, executor));
      && r.Ok?
      && Net(r.value.ledger, Work(Trader(executor))) == Net(w.ledger, Work(Trader(executor))) + d.amount + d.reward
      && Net(r.value.ledger, Escrow(Trader(d.requester))) ==
         Net(w.ledger, Escrow(Trader(d.requester))) - d.amount - d.price
  {
    var d := w.rows[i].doliv;
    var w1 := Refills.Step(w, Claim(i, executor, true)).value;
    Refills.StepKeeps(w, Claim(i, executor, true));
    assert !MayOverdraw(SYSTEM_WORK) && Net(w1.ledger, SYSTEM_WORK) >= 0;
    ExecutesExactly(w1, i, executor);
  }

  // ── The administrator's move ────────────────────────────────────────────

  // What stands in the way of a move: an executor where one is needed; the
  // executor's money and the float to take a settlement back; the requester's
  // WORK to freeze a refunded one again; and the float to settle.
  predicate Movable(l: seq<Entry>, d: Doliv, target: PayoutStatus) {
    && (target.CLAIMED? || target.COMPLETED? ==> d.executor.Some?)
    && (d.status.COMPLETED? && d.executor.Some? ==>
          && d.amount + d.reward <= Net(l, Work(Trader(d.executor.value)))
          && d.price <= Net(l, SYSTEM_WORK) + d.reward)
    && (d.status.CANCELED? || d.status.EXPIRED? ==> d.amount + d.price <= Net(l, Work(Trader(d.requester))))
    && (target.COMPLETED? ==> d.reward <= Net(l, SYSTEM_WORK) + d.price)
  }

  // From any status to any other, exactly when that allows it.
  lemma {:induction false} AdminMovesExactly(w: World, i: nat, target: PayoutStatus)
    requires Consistent(w) && IsDoliv(w, i)
    ensures
      var d, r := w.rows[i].doliv, Refills.Step(w, AdminChange(i, target));
      var d' := d.(status := target, executor := if target.CREATED? then None else d.executor);
      if target == d.status then r == Ok(w)
      else
        && (r.Ok? <==> Movable(w.ledger, d, target))
        && (r.Ok? ==>
              && r.value.rows == w.rows[i := DolivRow(d')] && r.value.disputes == w.disputes
              && (d.status.COMPLETED? ==> TurnoverShrinks(w.limits, r.value.limits, Some(d.requisite), d.fiat))
              && (target.COMPLETED? ==> TurnoverGrows(w.limits, r.value.limits, Some(d.requisite), d.fiat))
              && (!d.status.COMPLETED? && !target.COMPLETED? ==> r.value.limits == w.limits)
              && forall a :: Net(r.value.ledger, a) == Net(w.ledger, a) + Standing(d', a) - Standing(d, a))
  {
    var d, op := w.rows[i].doliv, AdminChange(i, target);
    var d' := d.(status := target, executor := if target.CREATED? then None else d.executor);
    if target != d.status {
      AdminMovable(w, i, target);
      if Refills.Step(w, op).Ok? {
        AdminRow(w, i, target);
        Leaves(w, op, i, d');
      }
    }
  }

  lemma {:induction false} AdminRow(w: World, i: nat, target: PayoutStatus)
    requires IsDoliv(w, i) && target != w.rows[i].doliv.status && AdminStep(w, i, target).Ok?
    ensures
      var d, w' := w.rows[i].doliv, AdminStep(w, i, target).value;
      && w'.rows == w.rows[i := DolivRow(d.(status := target, executor := if target.CREATED? then None
                                            else d.executor))]
      && w'.disputes == w.disputes
      && (d.status.COMPLETED? ==> TurnoverShrinks(w.limits, w'.limits, Some(d.requisite), d.fiat))
      && (target.COMPLETED? ==> TurnoverGrows(w.limits, w'.limits, Some(d.requisite), d.fiat))
      && (!d.status.COMPLETED? && !target.COMPLETED? ==> w'.limits == w.limits)
  {
  }

  // Back to the frozen state.
  lemma {:induction false} NormalisesExactly(w: World, i: nat)
    requires Consistent(w) && IsDoliv(w, i)
    ensures
      var d, l := w.rows[i].doliv, w.ledger;
      Normalise(w, i, d).Ok? <==>
      && (d.status.COMPLETED? && d.executor.Some? ==>
            && d.amount + d.reward <= Net(l, Work(Trader(d.executor.value)))
            && d.price <= Net(l, SYSTEM_WORK) + d.reward)
      && (d.status.CANCELED? || d.status.EXPIRED? ==> d.amount + d.price <= Net(l, Work(Trader(d.requester))))
  {
    var d := w.rows[i].doliv;
    assert OrderOk(w.rows[i]) && !MayOverdraw(SYSTEM_WORK) && Net(w.ledger, SYSTEM_WORK) >= 0;
    if d.status.COMPLETED? {
      ReversesExactly(w.ledger, i, d);
    }
    PostAllOne(w.ledger, FreezeDolivLegs(i, d)[0]);
  }

  // There it stands as if it were waiting for its check.
  lemma {:induction false} Halfway(w: World, i: nat) returns (w1: World)
    requires Consistent(w) && IsDoliv(w, i) && Normalise(w, i, w.rows[i].doliv).Ok?
    ensures Consistent(w1) && w1.rows == w.rows[i := DolivRow(w.rows[i].doliv.(status := AWAITING_CHECK))]
    ensures w1.ledger == Normalise(w, i, w.rows[i].doliv).value.ledger
    ensures !w.rows[i].doliv.status.COMPLETED? ==> Net(w1.ledger, SYSTEM_WORK) == Net(w.ledger, SYSTEM_WORK)
  {
    var d := w.rows[i].doliv;
    if d.status.AWAITING_CHECK? {
      w1 := w;
    } else {
      w1 := AdminStep(w, i, AWAITING_CHECK).value;
      assert Refills.Step(w, AdminChange(i, AWAITING_CHECK)) == Ok(w1);
      Leaves(w, AdminChange(i, AWAITING_CHECK), i, d.(status := AWAITING_CHECK));
    }
  }

  lemma {:induction false} AdminMovable(w: World, i: nat, target: PayoutStatus)
    requires Consistent(w) && IsDoliv(w, i) && target != w.rows[i].doliv.status
    ensures AdminStep(w, i, target).Ok? <==> Movable(w.ledger, w.rows[i].doliv, target)
  {
    var d := w.rows[i].doliv;
    NormalisesExactly(w, i);
    if Normalise(w, i, d).Ok? {
      var w1 := Halfway(w, i);
      AppliesExactly(w, w1, i, target);
    }
  }

  lemma {:induction false} AppliesExactly(w: World, w1: World, i: nat, target: PayoutStatus)
    requires Consistent(w1) && IsDoliv(w, i) && Normalise(w, i, w.rows[i].doliv).Ok?
    requires w1.rows == w.rows[i := DolivRow(w.rows[i].doliv.(status := AWAITING_CHECK))]
    requires w1.ledger == Normalise(w, i, w.rows[i].doliv).value.ledger
    requires target.COMPLETED? ==> Net(w1.ledger, SYSTEM_WORK) == Net(w.ledger, SYSTEM_WORK)
    ensures
      var d := w.rows[i].doliv;
      Apply(Normalise(w, i, d).value, i, d, target).Ok? <==>
      (target.COMPLETED? ==> d.executor.Some? && d.reward <= Net(w.ledger, SYSTEM_WORK) + d.price)
  {
    var d, d1 := w.rows[i].doliv, w1.rows[i].doliv;
    if DolivMoneyState(target).Refunded? {
      RefundNeverShort(w1, i);
      assert RefundDolivLegs(i, d1) == RefundDolivLegs(i, d);
    } else if target.COMPLETED? && d.executor.Some? {
      Refills.SettlesExactly(w1, i);
      assert SettleDolivLegs(i, d1) == SettleDolivLegs(i, d);
    }
  }
}
