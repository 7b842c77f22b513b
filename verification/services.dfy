// The service methods, on the session they update in place. Each one runs in a
// transaction: it either makes exactly the step proved safe on values, or
// raises and leaves no trace.

module Services {
  import opened Common
  import opened Ledger
  import opened Rows
  import opened Finance
  import opened Database
  import opened Orders
  import opened Sessions
  import Disputes
  import Withdrawals
  import Refills

  // The step succeeded and was committed, or it raised and was rolled back.
  predicate Ran(spec: Result<World, Error>, before: World, after: World, r: Result<(), Error>) {
    match spec
    case Ok(w) => r.Ok? && after == w
    case Err(error) => r == Err(error) && after == before
  }

  // ── Orders ──────────────────────────────────────────────────────────────

  // The money of a transition, through one finance operation (two on an
  // override). Returns the reward breakdown of a settlement.
  method RouteMoney(s: Session, i: nat, o: Order, to: OrderStatus, force: bool, links: seq<Link>)
    returns (r: Result<seq<Reward>, Error>)
    requires s.Valid()
    modifies s`balances, s`entries, s`limits
    ensures r.Ok? ==> s.Valid() && (to.SUCCESS? ==> r.value == RewardsFor(o.amount, links))
    ensures match Route(old(s.Snapshot()), i, o, to, force, links)
            case Ok(w) => r.Ok? && s.Snapshot() == w
            case Err(error) => r == Err(error)
  {
    if force && IsTerminal(o.status) && IsTerminal(to) {
      var _ :- s.ReconcileForDispute(i, o, o.status);
    }
    match to
    case PENDING =>
      var _ :- s.CreateOrder(i, o);
      r := Ok([]);
    case SUCCESS =>
      r := s.CompleteOrder(i, o, links);
    case FAILED | CANCELED | REFUNDED =>
      var _ :- ReleaseMoney(s, i, o);
      r := Ok([]);
    case DISPUTED =>
      var _ :- s.ReconcileForDispute(i, o, o.status);
      r := Ok([]);
    case CREATED | RECEIPT_UPLOADED =>
      r := Ok([]);
  }

  // A release that finds the ESCROW short is tolerated.
  method ReleaseMoney(s: Session, i: nat, o: Order) returns (r: Result<(), Error>)
    requires s.Valid()
    modifies s`balances, s`entries
    ensures r.Ok? ==> s.Valid() && Release(old(s.Snapshot()), i, o) == Ok(s.Snapshot())
    ensures r.Err? ==> Release(old(s.Snapshot()), i, o) == Err(r.error)
  {
    if o.direction == PAYOUT || o.trader.Some? {
      r := s.CancelOrder(i, o);
      if r.Err? && !r.error.InsufficientFunds? {
        return;
      }
    }
    r := Ok(());
  }

  method ChangeStatus(s: Session, i: nat, to: OrderStatus, force: bool, links: seq<Link>) returns (r: Result<(), Error>)
    requires s.Valid() && IsOrder(s.Snapshot(), i)
    modifies s
    ensures s.Valid()
    ensures Ran(Orders.ChangeStatus(old(s.Snapshot()), i, to, force, links), old(s.Snapshot()), s.Snapshot(), r)
  {
    var before, stored := s.Snapshot(), s.balances;
    var o := s.rows[i].order;
    if to == o.status {
      return Ok(());
    }
    if !force && !Allowed(o.status, to) {
      return Err(Conflict);
    }
    var paid := RouteMoney(s, i, o, to, force, links);
    if paid.Err? {
      s.Rollback(before, stored);
      return Err(paid.error);
    }
    var breakdown := if to.SUCCESS? then paid.value else if to.FAILED? || to.CANCELED? then [] else o.rewards;
    s.rows := s.rows[i := OrderRow(o.(status := to, rewards := breakdown))];
    r := Ok(());
  }

  // ── Disputes ────────────────────────────────────────────────────────────

  // `_open_dispute_for_order`: the dispute row, then the order into DISPUTED.
  method OpenDispute(s: Session, i: nat, proof: Option<Proof>) returns (r: Result<(), Error>)
    requires s.Valid() && IsOrder(s.Snapshot(), i)
    modifies s
    ensures s.Valid()
    ensures Ran(Disputes.Open(old(s.Snapshot()), i, proof), old(s.Snapshot()), s.Snapshot(), r)
  {
    var before, stored := s.Snapshot(), s.balances;
    s.disputes := s.disputes[i := Dispute(OPEN, proof)];
    r := ChangeStatus(s, i, DISPUTED, false, []);
    if r.Err? {
      s.Rollback(before, stored);
    }
  }

  method OpenByMerchant(s: Session, i: nat, merchant: nat) returns (r: Result<(), Error>)
    requires s.Valid()
    modifies s
    ensures s.Valid()
    ensures Ran(Disputes.OpenByMerchantStep(old(s.Snapshot()), i, merchant), old(s.Snapshot()), s.Snapshot(), r)
  {
    if !(i < |s.rows| && s.rows[i].OrderRow?) || s.rows[i].order.merchant != merchant {
      return Err(NotFound);
    }
    if i in s.disputes {
      return if s.disputes[i].status.OPEN? then Ok(()) else Err(Validation);
    }
    if !Disputes.Disputable(s.rows[i].order.status) || s.rows[i].order.trader.None? {
      return Err(Validation);
    }
    r := OpenDispute(s, i, None);
  }

  method OpenByAdmin(s: Session, i: nat) returns (r: Result<(), Error>)
    requires s.Valid()
    modifies s
    ensures s.Valid()
    ensures Ran(Disputes.OpenByAdminStep(old(s.Snapshot()), i), old(s.Snapshot()), s.Snapshot(), r)
  {
    if !(i < |s.rows| && s.rows[i].OrderRow?) {
      return Err(NotFound);
    }
    if !Disputes.Disputable(s.rows[i].order.status) || s.rows[i].order.trader.None? || i in s.disputes {
      return Err(Validation);
    }
    r := OpenDispute(s, i, None);
  }

  // `_apply_resolve_merchant_favor`: the decision, then the settlement.
  method Resolve(s: Session, i: nat, links: seq<Link>) returns (r: Result<(), Error>)
    requires s.Valid()
    modifies s
    ensures s.Valid()
    ensures Ran(Disputes.Resolve(old(s.Snapshot()), i, links), old(s.Snapshot()), s.Snapshot(), r)
  {
    r := Decide(s, i, RESOLVED, OrderStatus.SUCCESS, links);
  }

  // `_apply_reject`: the decision, then the release.
  method Reject(s: Session, i: nat) returns (r: Result<(), Error>)
    requires s.Valid()
    modifies s
    ensures s.Valid()
    ensures Ran(Disputes.Reject(old(s.Snapshot()), i), old(s.Snapshot()), s.Snapshot(), r)
  {
    r := Decide(s, i, DisputeStatus.REJECTED, FAILED, []);
  }

  method Decide(s: Session, i: nat, status: DisputeStatus, to: OrderStatus, links: seq<Link>)
    returns (r: Result<(), Error>)
    requires s.Valid()
    requires (status.RESOLVED? && to.SUCCESS?) || (status.REJECTED? && to.FAILED? && links == [])
    modifies s
    ensures s.Valid()
    ensures Ran(if status.RESOLVED? then Disputes.Resolve(old(s.Snapshot()), i, links)
                else Disputes.Reject(old(s.Snapshot()), i),
                old(s.Snapshot()), s.Snapshot(), r)
  {
    if i !in s.disputes || !(i < |s.rows| && s.rows[i].OrderRow?) {
      return Err(NotFound);
    }
    if !s.disputes[i].status.OPEN? || s.rows[i].order.trader.None? {
      return Err(Validation);
    }
    var before, stored := s.Snapshot(), s.balances;
    s.disputes := s.disputes[i := s.disputes[i].(status := status)];
    r := ChangeStatus(s, i, to, false, links);
    if r.Err? {
      s.Rollback(before, stored);
    }
  }

  // ── Доливы ──────────────────────────────────────────────────────────────

  method CreateDoliv(s: Session, op: Refills.DolivOp) returns (r: Result<(), Error>)
    requires s.Valid() && op.Create?
    modifies s
    ensures s.Valid()
    ensures Ran(Refills.Step(old(s.Snapshot()), op), old(s.Snapshot()), s.Snapshot(), r)
  {
    if op.owner.None? {
      return Err(NotFound);
    }
    if op.owner != Some(op.requester) {
      return Err(Forbidden);
    }
    if op.fiat <= 0 || (op.cfg.min > 0 && op.fiat < op.cfg.min) || (op.cfg.max > 0 && op.fiat > op.cfg.max) {
      return Err(Validation);
    }
    if op.requisite in s.limits {
      var limit := s.limits[op.requisite];
      var remaining := limit.cap - limit.daily - Refills.Pending(s.rows, op.requisite);
      if remaining <= 0 || op.fiat > remaining {
        return Err(Validation);
      }
    }
    if op.rate == 0 {
      return Err(Validation);
    }
    var before, stored := s.Snapshot(), s.balances;
    var d := Refills.NewDoliv(op.requester, op.requisite, op.fiat, op.cfg, op.rate);
    s.rows := s.rows + [DolivRow(d)];
    r := s.FreezeDoliv(|s.rows| - 1, d);
    if r.Err? {
      s.Rollback(before, stored);
    }
  }

  method CancelDoliv(s: Session, i: nat, requester: nat) returns (r: Result<(), Error>)
    requires s.Valid()
    modifies s
    ensures s.Valid()
    ensures Ran(Refills.Step(old(s.Snapshot()), Refills.DolivOp.Cancel(i, requester)), old(s.Snapshot()), s.Snapshot(),
                r)
  {
    if !(i < |s.rows| && s.rows[i].DolivRow?) {
      return Err(NotFound);
    }
    var d := s.rows[i].doliv;
    if d.requester != requester {
      return Err(Forbidden);
    }
    if !d.status.CREATED? {
      return Err(Conflict);
    }
    var before, stored := s.Snapshot(), s.balances;
    r := s.RefundDoliv(i, d);
    if r.Err? {
      s.Rollback(before, stored);
    } else {
      s.rows := s.rows[i := DolivRow(d.(status := PayoutStatus.CANCELED))];
    }
  }

  method ClaimDoliv(s: Session, i: nat, executor: nat, authorised: bool) returns (r: Result<(), Error>)
    requires s.Valid()
    modifies s`rows
    ensures s.Valid()
    ensures Ran(Refills.Step(old(s.Snapshot()), Refills.DolivOp.Claim(i, executor, authorised)), old(s.Snapshot()),
                s.Snapshot(), r)
  {
    if !authorised {
      return Err(Forbidden);
    }
    if !(i < |s.rows| && s.rows[i].DolivRow?) {
      return Err(NotFound);
    }
    if !s.rows[i].doliv.status.CREATED? {
      return Err(Conflict);
    }
    s.rows := s.rows[i := DolivRow(s.rows[i].doliv.(status := CLAIMED, executor := Some(executor)))];
    r := Ok(());
  }

  method ExecuteDoliv(s: Session, i: nat, executor: nat) returns (r: Result<(), Error>)
    requires s.Valid()
    modifies s
    ensures s.Valid()
    ensures Ran(Refills.Step(old(s.Snapshot()), Refills.DolivOp.Execute(i, executor)), old(s.Snapshot()), s.Snapshot(),
                r)
  {
    if !(i < |s.rows| && s.rows[i].DolivRow?) {
      return Err(NotFound);
    }
    var d := s.rows[i].doliv;
    if !d.status.CLAIMED? {
      return Err(Conflict);
    }
    if d.executor != Some(executor) {
      return Err(Forbidden);
    }
    var before, stored := s.Snapshot(), s.balances;
    r := s.SettleDoliv(i, d);
    if r.Err? {
      s.Rollback(before, stored);
    } else {
      s.limits := Bump(s.limits, Some(d.requisite), d.fiat);
      s.rows := s.rows[i := DolivRow(d.(status := COMPLETED))];
    }
  }

  // Back to the frozen baseline.
  method NormaliseDoliv(s: Session, i: nat, d: Doliv) returns (r: Result<(), Error>)
    requires s.Valid()
    modifies s`balances, s`entries, s`limits
    ensures r.Ok? ==> s.Valid() && Refills.Normalise(old(s.Snapshot()), i, d) == Ok(s.Snapshot())
    ensures r.Err? ==> Refills.Normalise(old(s.Snapshot()), i, d) == Err(r.error)
  {
    match DolivMoneyState(d.status)
    case Settled =>
      r := s.ReverseSettleDoliv(i, d);
      if r.Ok? {
        s.limits := Unbump(s.limits, Some(d.requisite), d.fiat);
      }
    case Refunded => r := s.FreezeDoliv(i, d);
    case Frozen => r := Ok(());
  }

  // From the frozen baseline to the target.
  method ApplyDoliv(s: Session, i: nat, d: Doliv, target: PayoutStatus) returns (r: Result<(), Error>)
    requires s.Valid()
    modifies s`balances, s`entries, s`limits
    ensures r.Ok? ==> s.Valid() && Refills.Apply(old(s.Snapshot()), i, d, target) == Ok(s.Snapshot())
    ensures r.Err? ==> Refills.Apply(old(s.Snapshot()), i, d, target) == Err(r.error)
  {
    match DolivMoneyState(target)
    case Settled =>
      if d.executor.None? {
        return Err(Validation);
      }
      r := s.SettleDoliv(i, d);
      if r.Ok? {
        s.limits := Bump(s.limits, Some(d.requisite), d.fiat);
      }
    case Refunded => r := s.RefundDoliv(i, d);
    case Frozen => r := Ok(());
  }

  method AdminChangeDoliv(s: Session, i: nat, target: PayoutStatus) returns (r: Result<(), Error>)
    requires s.Valid()
    modifies s
    ensures s.Valid()
    ensures Ran(Refills.Step(old(s.Snapshot()), Refills.DolivOp.AdminChange(i, target)), old(s.Snapshot()),
                s.Snapshot(), r)
  {
    if !(i < |s.rows| && s.rows[i].DolivRow?) {
      return Err(NotFound);
    }
    var d := s.rows[i].doliv;
    if target == d.status {
      return Ok(());
    }
    if Refills.NeedsExecutor(target) && d.executor.None? {
      return Err(Conflict);
    }
    var before, stored := s.Snapshot(), s.balances;
    r := NormaliseDoliv(s, i, d);
    if r.Ok? {
      r := ApplyDoliv(s, i, d, target);
    }
    if r.Err? {
      s.Rollback(before, stored);
    } else {
      s.rows := s.rows[i := DolivRow(Refills.Moved(d, target))];
    }
  }

  // ── Withdrawals ─────────────────────────────────────────────────────────

  method RequestWithdrawal(s: Session, owner: Owner, c: Currency, gross: nat, fixedFee: nat)
    returns (r: Result<(), Error>)
    requires s.Valid()
    modifies s
    ensures s.Valid()
    ensures Ran(Withdrawals.Step(old(s.Snapshot()), Withdrawals.Request(owner, c, gross, fixedFee)),
                old(s.Snapshot()), s.Snapshot(), r)
  {
    if owner.System? || owner.PayoutTerminal? {
      return Err(Validation);
    }
    var fee := if owner.Merchant? || owner.Trader? then fixedFee else 0;
    if gross <= fee {
      return Err(Validation);
    }
    var before, stored := s.Snapshot(), s.balances;
    var request := Withdrawal(owner, c, gross - fee, fee, WithdrawalStatus.PENDING, []);
    var i := |s.rows|;
    s.rows := s.rows + [WithdrawalRow(request)];
    assert SweepLegs(i, request, []) + FreezeWithdrawalLegs(i, request) == FreezeWithdrawalLegs(i, request);
    PostAllOne(s.entries, FreezeWithdrawalLegs(i, request)[0]);
    r := s.Move(Xfer(WITHDRAWAL, Some(i), Plain, WithdrawalWork(request), WithdrawalEscrow(request), gross));
    if r.Err? {
      s.Rollback(before, stored);
    }
  }

  // `create_merchant_sweep_withdrawal`: plan greedily over the terminals, then
  // make the planned transfers and freeze the total.
  method SweepWithdrawal(s: Session, user: nat, c: Currency, amount: nat, terminals: seq<Withdrawals.Terminal>)
    returns (r: Result<(), Error>)
    requires s.Valid()
    modifies s
    ensures s.Valid()
    ensures Ran(Withdrawals.Step(old(s.Snapshot()), Withdrawals.SweepAll(user, c, amount, terminals)),
                old(s.Snapshot()), s.Snapshot(), r)
  {
    SweepUnfolds(s.Snapshot(), user, c, amount, terminals);
    if terminals == [] {
      return Err(Validation);
    }
    var taken := TakeFromOwner(s, user, c, amount);
    var remaining := amount - taken;
    var plan := PlanSweep(s, c, terminals, remaining);
    if remaining > Withdrawals.Taken(plan) {
      return Err(InsufficientFunds);
    }
    r := CommitSweep(s, Withdrawals.SweepRequest(s.entries, user, c, amount, plan), plan);
  }

  // What a sweep comes down to.
  lemma {:induction false} SweepUnfolds(w: World, user: nat, c: Currency, amount: nat,
                                        terminals: seq<Withdrawals.Terminal>)
    ensures
      var remaining := amount - Withdrawals.FromOwner(w.ledger, c, user, amount);
      var plan := Withdrawals.Plan(w.ledger, c, terminals, remaining);
      Withdrawals.Step(w, Withdrawals.SweepAll(user, c, amount, terminals)) ==
      if terminals == [] then Err(Validation)
      else if remaining > Withdrawals.Taken(plan) then Err(InsufficientFunds)
      else Withdrawals.Create(w, Withdrawals.SweepRequest(w.ledger, user, c, amount, plan))
  {
  }

  // The transaction of a planned sweep.
  method CommitSweep(s: Session, request: Withdrawal, plan: seq<Withdrawals.Take>) returns (r: Result<(), Error>)
    requires s.Valid() && request.swept == Withdrawals.Swept(plan)
    modifies s
    ensures s.Valid()
    ensures Ran(Withdrawals.Create(old(s.Snapshot()), request), old(s.Snapshot()), s.Snapshot(), r)
  {
    var before, stored := s.Snapshot(), s.balances;
    var i := |s.rows|;
    s.rows := s.rows + [WithdrawalRow(request)];
    r := SweepAndFreeze(s, i, request, plan);
    if r.Err? {
      s.Rollback(before, stored);
    }
  }

  // The owner's own WORK comes first.
  method TakeFromOwner(s: Session, user: nat, c: Currency, amount: nat) returns (taken: nat)
    requires s.Valid()
    modifies s`balances
    ensures s.Valid()
    ensures taken == Withdrawals.FromOwner(s.entries, c, user, amount)
  {
    var own := s.GetOrCreate(Account(MerchantOwner(user), WORK, c));
    taken := 0;
    if own > 0 {
      taken := Withdrawals.Min(own, amount);
    }
  }

  // The planning loop.
  method PlanSweep(s: Session, c: Currency, terminals: seq<Withdrawals.Terminal>, wanted: nat)
    returns (plan: seq<Withdrawals.Take>)
    requires s.Valid()
    modifies s`balances
    ensures s.Valid()
    ensures plan == Withdrawals.Plan(s.entries, c, terminals, wanted)
  {
    plan := [];
    var remaining: nat := wanted;
    var k := 0;
    while k < |terminals| && remaining > 0
      invariant s.Valid() && k <= |terminals|
      invariant PlannedSoFar(s.entries, c, terminals, wanted, plan, k, remaining)
    {
      var available := s.GetOrCreate(Account(Merchant(terminals[k].merchant), WORK, c));
      PlanAdvances(s.entries, c, terminals, wanted, plan, k, remaining);
      var spendable := available - terminals[k].fee;
      if spendable > 0 {
        var take := Withdrawals.Min(spendable, remaining);
        plan := plan + [Withdrawals.Take(terminals[k].merchant, take, terminals[k].fee)];
        remaining := remaining - take;
      }
      k := k + 1;
    }
  }

  // The whole plan is what is planned already and the plan of the rest.
  predicate PlannedSoFar(l: seq<Entry>, c: Currency, terminals: seq<Withdrawals.Terminal>, wanted: nat,
                         plan: seq<Withdrawals.Take>, k: nat, remaining: nat)
    requires k <= |terminals|
  {
    Withdrawals.Plan(l, c, terminals, wanted) == plan + Withdrawals.Plan(l, c, terminals[k..], remaining)
  }

  lemma {:induction false} PlanAdvances(l: seq<Entry>, c: Currency, terminals: seq<Withdrawals.Terminal>, wanted: nat,
                                        plan: seq<Withdrawals.Take>, k: nat, remaining: nat)
    requires k < |terminals| && remaining > 0 && PlannedSoFar(l, c, terminals, wanted, plan, k, remaining)
    ensures
      var t := terminals[k];
      var spendable := Withdrawals.Available(l, c, t.merchant) - t.fee;
      var take := Withdrawals.Min(spendable, remaining);
      if spendable <= 0 then PlannedSoFar(l, c, terminals, wanted, plan, k + 1, remaining)
      else
        PlannedSoFar(l, c, terminals, wanted, plan + [Withdrawals.Take(t.merchant, take, t.fee)], k + 1,
                     remaining - take)
  {
    assert terminals[k..][1..] == terminals[k + 1..];
    var t := terminals[k];
    var spendable := Withdrawals.Available(l, c, t.merchant) - t.fee;
    if spendable > 0 {
      var take := Withdrawals.Min(spendable, remaining);
      var next := Withdrawals.Take(t.merchant, take, t.fee);
      var rest := Withdrawals.Plan(l, c, terminals[k + 1..], remaining - take);
      assert plan + ([next] + rest) == (plan + [next]) + rest;
    }
  }

  // The planned transfers, then the freeze of the amount plus all fees.
  method SweepAndFreeze(s: Session, i: nat, request: Withdrawal, plan: seq<Withdrawals.Take>)
    returns (r: Result<(), Error>)
    requires s.Valid()
    modifies s`balances, s`entries
    ensures r.Ok? ==> s.Valid()
    ensures Posted(old(s.entries), SweepLegs(i, request, Withdrawals.Swept(plan)) + FreezeWithdrawalLegs(i, request),
                   s.entries, r)
  {
    PostAllConcat(s.entries, SweepLegs(i, request, Withdrawals.Swept(plan)), FreezeWithdrawalLegs(i, request));
    r := TransferSweep(s, i, request, plan);
    if r.Ok? {
      PostAllOne(s.entries, FreezeWithdrawalLegs(i, request)[0]);
      r := s.Move(Xfer(WITHDRAWAL, Some(i), Plain, WithdrawalWork(request), WithdrawalEscrow(request),
                       request.amount + request.fee));
    }
  }

  // The planned transfers into the owner's WORK.
  method TransferSweep(s: Session, i: nat, request: Withdrawal, plan: seq<Withdrawals.Take>)
    returns (r: Result<(), Error>)
    requires s.Valid()
    modifies s`balances, s`entries
    ensures r.Ok? ==> s.Valid()
    ensures Posted(old(s.entries), SweepLegs(i, request, Withdrawals.Swept(plan)), s.entries, r)
  {
    for k := 0 to |plan|
      invariant s.Valid()
      invariant PostAll(old(s.entries), SweepLegs(i, request, Withdrawals.Swept(plan[..k]))) == Ok(s.entries)
    {
      SweepLegsSplit(i, request, plan, k);
      var leg := Xfer(INTERNAL_TRANSFER, Some(i), Plain, Account(Merchant(plan[k].merchant), WORK, request.currency),
                      WithdrawalWork(request), plan[k].take + plan[k].fee);
      r := s.MoveNext(old(s.entries), SweepLegs(i, request, Withdrawals.Swept(plan[..k])), leg);
      if r.Err? {
        SweepFailsAt(old(s.entries), i, request, plan, k + 1);
        return;
      }
    }
    assert plan[..|plan|] == plan;
    r := Ok(());
  }

  lemma {:induction false} SweepLegsConcat(i: nat, w: Withdrawal, first: seq<Withdrawals.Take>,
                                           second: seq<Withdrawals.Take>)
    ensures SweepLegs(i, w, Withdrawals.Swept(first + second)) ==
            SweepLegs(i, w, Withdrawals.Swept(first)) + SweepLegs(i, w, Withdrawals.Swept(second))
  {
    if first == [] {
      assert first + second == second;
    } else {
      assert (first + second)[1..] == first[1..] + second;
      SweepLegsConcat(i, w, first[1..], second);
    }
  }

  lemma {:induction false} SweepLegsSplit(i: nat, w: Withdrawal, plan: seq<Withdrawals.Take>, k: nat)
    requires k < |plan|
    ensures SweepLegs(i, w, Withdrawals.Swept(plan[..k + 1])) ==
            SweepLegs(i, w, Withdrawals.Swept(plan[..k])) +
            [Xfer(INTERNAL_TRANSFER, Some(i), Plain, Account(Merchant(plan[k].merchant), WORK, w.currency),
                  WithdrawalWork(w), plan[k].take + plan[k].fee)]
  {
    assert plan[..k + 1] == plan[..k] + [plan[k]] && [plan[k]][1..] == [];
    SweepLegsConcat(i, w, plan[..k], [plan[k]]);
  }

  // A sweep that fails at one terminal fails as a whole.
  lemma {:induction false} SweepFailsAt(l: seq<Entry>, i: nat, w: Withdrawal, plan: seq<Withdrawals.Take>, k: nat)
    requires k <= |plan|
    ensures PostAll(l, SweepLegs(i, w, Withdrawals.Swept(plan[..k]))).Err? ==>
              PostAll(l, SweepLegs(i, w, Withdrawals.Swept(plan))) ==
              PostAll(l, SweepLegs(i, w, Withdrawals.Swept(plan[..k])))
  {
    assert plan == plan[..k] + plan[k..];
    SweepLegsConcat(i, w, plan[..k], plan[k..]);
    PostAllConcat(l, SweepLegs(i, w, Withdrawals.Swept(plan[..k])), SweepLegs(i, w, Withdrawals.Swept(plan[k..])));
  }

  method DecideWithdrawal(s: Session, i: nat, to: WithdrawalStatus) returns (r: Result<(), Error>)
    requires s.Valid() && !to.PENDING?
    modifies s
    ensures s.Valid()
    ensures Ran(Withdrawals.Decide(old(s.Snapshot()), i, to), old(s.Snapshot()), s.Snapshot(), r)
  {
    if !(i < |s.rows| && s.rows[i].WithdrawalRow?) {
      return Err(NotFound);
    }
    var request := s.rows[i].withdrawal;
    if !request.status.PENDING? {
      return Err(Conflict);
    }
    var before, stored := s.Snapshot(), s.balances;
    if to.SUCCESS? {
      r := s.ApproveWithdrawal(i, request);
    } else {
      r := s.RejectWithdrawal(i, request);
    }
    if r.Err? {
      s.Rollback(before, stored);
    } else {
      s.rows := s.rows[i := WithdrawalRow(request.(status := to))];
    }
  }
}
