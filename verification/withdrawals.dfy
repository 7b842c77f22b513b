// Withdrawal requests: a single balance, or a sweep over every terminal of a
// merchant owner.

module Withdrawals {
  import opened Common
  import opened Ledger
  import opened Rows
  import opened Finance
  import opened Database
  import opened Orders
  import opened OrderService
  import opened Books

  // A terminal of a merchant owner and its fixed withdrawal fee.
  datatype Terminal = Terminal(merchant: nat, fee: nat)

  datatype WithdrawalOp =
    | Request(owner: Owner, currency: Currency, gross: nat, fixedFee: nat)
    | SweepAll(user: nat, currency: Currency, amount: nat, terminals: seq<Terminal>)
    | Approve(request: nat)
    | Reject(request: nat)

  // ── The greedy plan of a sweep ──────────────────────────────────────────

  datatype Take = Take(merchant: nat, take: nat, fee: nat)

  function Available(l: seq<Entry>, c: Currency, merchant: nat): int {
    Net(l, Account(Merchant(merchant), WORK, c))
  }

  function Min(a: int, b: int): int {
    if a < b then a else b
  }

  // Terminals in order; one with nothing to give beyond its fee is passed over.
  function Plan(l: seq<Entry>, c: Currency, terminals: seq<Terminal>, remaining: nat): seq<Take> {
    if remaining == 0 || terminals == [] then []
    else
      var t := terminals[0];
      var spendable := Available(l, c, t.merchant) - t.fee;
      if spendable <= 0 then Plan(l, c, terminals[1..], remaining)
      else
        var take := Min(spendable, remaining);
        [Take(t.merchant, take, t.fee)] + Plan(l, c, terminals[1..], remaining - take)
  }

  function Taken(plan: seq<Take>): nat {
    if plan == [] then 0 else plan[0].take + Taken(plan[1..])
  }

  function Fees(plan: seq<Take>): nat {
    if plan == [] then 0 else plan[0].fee + Fees(plan[1..])
  }

  function Swept(plan: seq<Take>): seq<Sweep> {
    if plan == [] then [] else [Sweep(plan[0].merchant, plan[0].take + plan[0].fee)] + Swept(plan[1..])
  }

  // What the owner's own WORK contributes first.
  function FromOwner(l: seq<Entry>, c: Currency, user: nat, amount: nat): nat {
    var own := Net(l, Account(MerchantOwner(user), WORK, c));
    if own > 0 then Min(own, amount) else 0
  }

  function Create(w: World, request: Withdrawal): Result<World, Error> {
    var legs := SweepLegs(|w.rows|, request, request.swept) + FreezeWithdrawalLegs(|w.rows|, request);
    var l :- PostAll(w.ledger, legs);
    Ok(w.(ledger := l, rows := w.rows + [WithdrawalRow(request)]))
  }

  // Only terminals and traders have a withdrawal fee.
  function FeeOf(owner: Owner, fixedFee: nat): nat {
    if owner.Merchant? || owner.Trader? then fixedFee else 0
  }

  function SweepRequest(l: seq<Entry>, user: nat, c: Currency, amount: nat, plan: seq<Take>): Withdrawal {
    Withdrawal(MerchantOwner(user), c, amount, Fees(plan), WithdrawalStatus.PENDING, Swept(plan))
  }

  function Step(w: World, op: WithdrawalOp): Result<World, Error> {
    match op
    case Request(owner, c, gross, fixedFee) =>
      if owner.System? || owner.PayoutTerminal? then Err(Validation)
      else
        var fee := FeeOf(owner, fixedFee);
        if gross <= fee then Err(Validation)
        else Create(w, Withdrawal(owner, c, gross - fee, fee, WithdrawalStatus.PENDING, []))
    case SweepAll(user, c, amount, terminals) =>
      if terminals == [] then Err(Validation)
      else
        var remaining := amount - FromOwner(w.ledger, c, user, amount);
        var plan := Plan(w.ledger, c, terminals, remaining);
        if remaining > Taken(plan) then Err(InsufficientFunds)
        else Create(w, SweepRequest(w.ledger, user, c, amount, plan))
    case Approve(i) => Decide(w, i, WithdrawalStatus.SUCCESS)
    case Reject(i) => Decide(w, i, WithdrawalStatus.REJECTED)
  }

  predicate IsWithdrawal(w: World, i: nat) {
    i < |w.rows| && w.rows[i].WithdrawalRow?
  }

  function Decide(w: World, i: nat, to: WithdrawalStatus): Result<World, Error>
    requires !to.PENDING?
  {
    if !IsWithdrawal(w, i) then Err(NotFound)
    else
      var r := w.rows[i].withdrawal;
      if !r.status.PENDING? then Err(Conflict)
      else
        var l :- PostAll(w.ledger, if to.SUCCESS? then ApproveWithdrawalLegs(i, r) else RejectWithdrawalLegs(i, r));
        Ok(w.(ledger := l, rows := w.rows[i := WithdrawalRow(r.(status := to))]))
  }

  // ── What every operation keeps ──────────────────────────────────────────

  lemma CreateKeeps(w: World, request: Withdrawal)
    requires Consistent(w) && request.status.PENDING? && request.amount > 0 && Create(w, request).Ok?
    ensures Consistent(Create(w, request).value)
  {
    var n := |w.rows|;
    var legs := SweepLegs(n, request, request.swept) + FreezeWithdrawalLegs(n, request);
    forall a ensures LegsNet(legs, a) == Effect(WithdrawalRow(request), a) {
      CreateWithdrawalNet(n, request, a);
    }
    CreateWithdrawalNet(n, request, SYSTEM_WORK);
    NewRowKeeps(w, legs, WithdrawalRow(request));
  }

  // A sweep for nothing plans nothing, and freezing nothing is refused.
  lemma NothingIsRefused(w: World, user: nat, c: Currency, plan: seq<Take>)
    ensures plan == [] ==> Create(w, SweepRequest(w.ledger, user, c, 0, plan)).Err?
  {
    if plan == [] {
      var r := SweepRequest(w.ledger, user, c, 0, plan);
      var freeze := FreezeWithdrawalLegs(|w.rows|, r);
      assert SweepLegs(|w.rows|, r, r.swept) + freeze == freeze;
    }
  }

  lemma DecideKeeps(w: World, i: nat, to: WithdrawalStatus)
    requires Consistent(w) && !to.PENDING? && Decide(w, i, to).Ok?
    ensures Consistent(Decide(w, i, to).value)
  {
    var r := w.rows[i].withdrawal;
    var legs := if to.SUCCESS? then ApproveWithdrawalLegs(i, r) else RejectWithdrawalLegs(i, r);
    var row := WithdrawalRow(r.(status := to));
    forall a ensures LegsNet(legs, a) == Effect(row, a) - Effect(w.rows[i], a) {
      DecideWithdrawalNet(i, r, a);
    }
    DecideWithdrawalNet(i, r, SYSTEM_WORK);
    RowMoveKeeps(w, i, legs, row, w.limits);
  }

  lemma StepKeeps(w: World, op: WithdrawalOp)
    requires Consistent(w) && Step(w, op).Ok?
    ensures Consistent(Step(w, op).value)
  {
    match op
    case Request(owner, c, gross, fixedFee) =>
      var fee := FeeOf(owner, fixedFee);
      CreateKeeps(w, Withdrawal(owner, c, gross - fee, fee, WithdrawalStatus.PENDING, []));
    case SweepAll(user, c, amount, terminals) =>
      var plan := Plan(w.ledger, c, terminals, amount - FromOwner(w.ledger, c, user, amount));
      NothingIsRefused(w, user, c, plan);
      CreateKeeps(w, SweepRequest(w.ledger, user, c, amount, plan));
    case Approve(i) => DecideKeeps(w, i, WithdrawalStatus.SUCCESS);
    case Reject(i) => DecideKeeps(w, i, WithdrawalStatus.REJECTED);
  }

  // A pending request can always be decided, either way: the frozen gross is
  // still in ESCROW whatever else ran in between.
  lemma DecisionNeverShort(w: World, i: nat)
    requires Consistent(w) && IsWithdrawal(w, i) && w.rows[i].withdrawal.status.PENDING?
    ensures Decide(w, i, WithdrawalStatus.SUCCESS).Ok?
    ensures Decide(w, i, WithdrawalStatus.REJECTED).Ok?
  {
    var r := w.rows[i].withdrawal;
    var escrow := WithdrawalEscrow(r);
    assert OrderOk(w.rows[i]);
    HoldIsCovered(w.ledger, w.rows, i, escrow);
    var approve := ApproveWithdrawalLegs(i, r);
    var l1 := w.ledger + [approve[0].entry];
    NetAppend(w.ledger, approve[0].entry, escrow);
    assert PostAll(w.ledger, approve) == PostAll(l1, approve[1..]);
    assert approve[1..] == [approve[1]] && approve[1..][1..] == [];
    assert RejectWithdrawalLegs(i, r)[1..] == [];
    assert Net(w.ledger, escrow) >= r.amount + r.fee;
    assert Post(w.ledger, approve[0]) == Ok(l1);
    assert PostAll(l1, approve[1..]).Ok?;
    assert PostAll(w.ledger, RejectWithdrawalLegs(i, r)).Ok?;
  }

  // And only once: a decided request is refused whatever is decided next.
  lemma {:induction false} DecidedOnce(w: World, i: nat, to: WithdrawalStatus, next: WithdrawalStatus, w': World)
    requires !to.PENDING? && !next.PENDING? && Decide(w, i, to) == Ok(w')
    ensures Decide(w', i, next) == Err(Conflict)
  {
  }

  // A single request takes exactly the gross from WORK into ESCROW; what it will
  // pay out and the fee add up to that gross.
  lemma {:induction false} RequestFreezesGross(w: World, owner: Owner, c: Currency, gross: nat, fixedFee: nat,
                                               w': World)
    requires Step(w, Request(owner, c, gross, fixedFee)) == Ok(w')
    ensures
      var r := w'.rows[|w.rows|].withdrawal;
      && |w'.rows| == |w.rows| + 1 && r.owner == owner && r.status.PENDING?
      && 0 < r.amount && r.amount + r.fee == gross
      && Net(w'.ledger, Account(owner, WORK, c)) == Net(w.ledger, Account(owner, WORK, c)) - gross
      && Net(w'.ledger, Account(owner, ESCROW, c)) == Net(w.ledger, Account(owner, ESCROW, c)) + gross
  {
    var r := w'.rows[|w.rows|].withdrawal;
    CreateMoves(w, r, Account(owner, WORK, c));
    CreateMoves(w, r, Account(owner, ESCROW, c));
  }

  // ── The sweep ───────────────────────────────────────────────────────────

  // What the terminals can give: each its balance beyond its fee.
  function Capacity(l: seq<Entry>, c: Currency, terminals: seq<Terminal>): nat {
    if terminals == [] then 0
    else
      var spendable := Available(l, c, terminals[0].merchant) - terminals[0].fee;
      (if spendable > 0 then spendable else 0) + Capacity(l, c, terminals[1..])
  }

  lemma {:induction false} PlanTakes(l: seq<Entry>, c: Currency, terminals: seq<Terminal>, remaining: nat)
    ensures Taken(Plan(l, c, terminals, remaining)) == Min(remaining, Capacity(l, c, terminals))
  {
    if remaining > 0 && terminals != [] {
      var spendable := Available(l, c, terminals[0].merchant) - terminals[0].fee;
      PlanTakes(l, c, terminals[1..], if spendable <= 0 then remaining else remaining - Min(spendable, remaining));
    }
  }

  predicate Distinct(terminals: seq<Terminal>) {
    forall j, k | 0 <= j < k < |terminals| :: terminals[j].merchant != terminals[k].merchant
  }

  // No planned terminal goes negative, and every one but the last is emptied.
  ghost predicate PlanOk(l: seq<Entry>, c: Currency, plan: seq<Take>) {
    && (forall j, k | 0 <= j < k < |plan| :: plan[j].merchant != plan[k].merchant)
    && (forall k | 0 <= k < |plan| ::
          plan[k].take > 0 && plan[k].take + plan[k].fee <= Available(l, c, plan[k].merchant))
    && (forall k | 0 <= k < |plan| - 1 :: plan[k].take + plan[k].fee == Available(l, c, plan[k].merchant))
  }

  predicate Names(plan: seq<Take>, terminals: seq<Terminal>) {
    forall k | 0 <= k < |plan| :: Listed(plan[k].merchant, terminals)
  }

  predicate Listed(merchant: nat, terminals: seq<Terminal>) {
    exists j :: 0 <= j < |terminals| && terminals[j].merchant == merchant
  }

  lemma {:induction false} PlanIsOk(l: seq<Entry>, c: Currency, terminals: seq<Terminal>, remaining: nat)
    requires Distinct(terminals)
    ensures PlanOk(l, c, Plan(l, c, terminals, remaining))
    ensures Names(Plan(l, c, terminals, remaining), terminals)
  {
    if remaining > 0 && terminals != [] {
      var t, rest := terminals[0], terminals[1..];
      var spendable := Available(l, c, t.merchant) - t.fee;
      var plan := Plan(l, c, terminals, remaining);
      if spendable <= 0 {
        PlanIsOk(l, c, rest, remaining);
        NamesMore(plan, terminals);
      } else {
        var take := Min(spendable, remaining);
        PlanIsOk(l, c, rest, remaining - take);
        var tail := Plan(l, c, rest, remaining - take);
        assert plan == [Take(t.merchant, take, t.fee)] + tail;
        NamesMore(tail, terminals);
        assert plan[0].merchant == terminals[0].merchant;
        forall k | 0 < k < |plan| ensures plan[0].merchant != plan[k].merchant {
          assert plan[k] == tail[k - 1] && Listed(tail[k - 1].merchant, rest);
          var j :| 0 <= j < |rest| && rest[j].merchant == tail[k - 1].merchant;
          assert rest[j] == terminals[j + 1];
        }
        // A tail exists only if this terminal did not cover the rest by itself.
        assert |plan| > 1 ==> remaining - take > 0;
      }
    }
  }

  lemma NamesMore(plan: seq<Take>, terminals: seq<Terminal>)
    requires terminals != [] && Names(plan, terminals[1..])
    ensures Names(plan, terminals)
  {
  }

  predicate Planned(plan: seq<Take>, merchant: nat) {
    exists k :: 0 <= k < |plan| && plan[k].merchant == merchant
  }

  lemma PlannedCons(plan: seq<Take>, merchant: nat)
    requires plan != []
    ensures Planned(plan, merchant) <==> plan[0].merchant == merchant || Planned(plan[1..], merchant)
  {
  }

  // What a sweep does to one balance.
  lemma {:induction false} SweepMoves(plan: seq<Take>, l: seq<Entry>, c: Currency, user: nat)
    requires PlanOk(l, c, plan)
    ensures SweepEffect(MerchantOwner(user), c, Swept(plan), Account(MerchantOwner(user), WORK, c)) ==
            Taken(plan) + Fees(plan)
    ensures forall k | 0 <= k < |plan| ::
              SweepEffect(MerchantOwner(user), c, Swept(plan), Account(Merchant(plan[k].merchant), WORK, c))
              == -(plan[k].take + plan[k].fee)
    ensures forall a: Account | a != Account(MerchantOwner(user), WORK, c)
                                && (a.owner.Merchant? ==> !Planned(plan, a.owner.merchant)) ::
              SweepEffect(MerchantOwner(user), c, Swept(plan), a) == 0
  {
    if plan != [] {
      var tail := plan[1..];
      SweepMoves(tail, l, c, user);
      assert !Planned(tail, plan[0].merchant);
      forall k | 0 < k < |plan| ensures
          SweepEffect(MerchantOwner(user), c, Swept(plan), Account(Merchant(plan[k].merchant), WORK, c))
          == -(plan[k].take + plan[k].fee) {
        assert plan[k] == tail[k - 1];
      }
      forall a: Account | a != Account(MerchantOwner(user), WORK, c)
                          && (a.owner.Merchant? ==> !Planned(plan, a.owner.merchant))
        ensures SweepEffect(MerchantOwner(user), c, Swept(plan), a) == 0
      {
        if a.owner.Merchant? {
          PlannedCons(plan, a.owner.merchant);
        }
      }
    }
  }

  // Every planned leg posts.
  lemma {:induction false} SweepPosts(l: seq<Entry>, i: nat, w: Withdrawal, plan: seq<Take>)
    requires w.owner.MerchantOwner?
    requires forall j, k | 0 <= j < k < |plan| :: plan[j].merchant != plan[k].merchant
    requires forall k | 0 <= k < |plan| ::
               0 < plan[k].take + plan[k].fee <= Available(l, w.currency, plan[k].merchant)
    ensures PostAll(l, SweepLegs(i, w, Swept(plan))).Ok?
    decreases plan
  {
    if plan != [] {
      var tail := plan[1..];
      var legs := SweepLegs(i, w, Swept(plan));
      assert legs[1..] == SweepLegs(i, w, Swept(tail));
      var next := l + [legs[0].entry];
      assert Post(l, legs[0]) == Ok(next);
      forall k | 0 <= k < |tail| ensures
          0 < tail[k].take + tail[k].fee <= Available(next, w.currency, tail[k].merchant) {
        assert tail[k] == plan[k + 1];
        NetAppend(l, legs[0].entry, Account(Merchant(tail[k].merchant), WORK, w.currency));
      }
      SweepPosts(next, i, w, tail);
    }
  }

  // All of them post, and the owner's WORK holds the takings and the fees.
  lemma {:induction false} SweepCollects(l: seq<Entry>, i: nat, user: nat, c: Currency, amount: nat, plan: seq<Take>)
    requires PlanOk(l, c, plan)
    ensures
      var r := SweepRequest(l, user, c, amount, plan);
      && PostAll(l, SweepLegs(i, r, r.swept)).Ok?
      && Net(PostAll(l, SweepLegs(i, r, r.swept)).value, WithdrawalWork(r))
         == Net(l, WithdrawalWork(r)) + Taken(plan) + Fees(plan)
  {
    var r := SweepRequest(l, user, c, amount, plan);
    SweepPosts(l, i, r, plan);
    SweepLegsNet(i, r, r.swept, WithdrawalWork(r));
    PostAllNet(l, SweepLegs(i, r, r.swept), Some(i), WithdrawalWork(r));
    SweepMoves(plan, l, c, user);
  }

  // A request is funded exactly when the owner's WORK covers it after the sweep.
  lemma {:induction false} FreezeFunded(w: World, user: nat, c: Currency, amount: nat, plan: seq<Take>)
    requires PlanOk(w.ledger, c, plan)
    ensures Create(w, SweepRequest(w.ledger, user, c, amount, plan)).Ok? <==>
            && amount + Fees(plan) > 0
            && amount <= Net(w.ledger, Account(MerchantOwner(user), WORK, c)) + Taken(plan)
  {
    var l, n := w.ledger, |w.rows|;
    var r := SweepRequest(l, user, c, amount, plan);
    var freeze := FreezeWithdrawalLegs(n, r);
    SweepCollects(l, n, user, c, amount, plan);
    PostAllConcat(l, SweepLegs(n, r, r.swept), freeze);
    assert freeze[1..] == [];
  }

  // A sweep succeeds exactly when the owner's own WORK and what the terminals
  // can give beyond their fees cover the amount; the freeze of the amount plus
  // the collected fees is then always funded.
  lemma {:induction false} SweepSucceedsExactly(w: World, user: nat, c: Currency, amount: nat, terminals: seq<Terminal>)
    requires Solvent(w.ledger) && Distinct(terminals)
    ensures Step(w, SweepAll(user, c, amount, terminals)).Ok? <==>
            && terminals != [] && amount > 0
            && amount <= Net(w.ledger, Account(MerchantOwner(user), WORK, c)) + Capacity(w.ledger, c, terminals)
  {
    var l := w.ledger;
    var work := Account(MerchantOwner(user), WORK, c);
    assert !MayOverdraw(work) && Net(l, work) >= 0;
    var remaining := amount - FromOwner(l, c, user, amount);
    var plan := Plan(l, c, terminals, remaining);
    PlanTakes(l, c, terminals, remaining);
    PlanIsOk(l, c, terminals, remaining);
    FreezeFunded(w, user, c, amount, plan);
  }

  // A successful sweep is one request, created from a sound plan.
  lemma SweepIsCreate(w: World, user: nat, c: Currency, amount: nat, terminals: seq<Terminal>, w': World)
    returns (plan: seq<Take>, r: Withdrawal)
    requires Distinct(terminals) && Step(w, SweepAll(user, c, amount, terminals)) == Ok(w')
    ensures plan == Plan(w.ledger, c, terminals, amount - FromOwner(w.ledger, c, user, amount))
    ensures PlanOk(w.ledger, c, plan) && Taken(plan) == amount - FromOwner(w.ledger, c, user, amount)
    ensures r == SweepRequest(w.ledger, user, c, amount, plan)
    ensures forall a :: Net(w'.ledger, a) == Net(w.ledger, a) + WithdrawalEffect(r, a)
  {
    var remaining := amount - FromOwner(w.ledger, c, user, amount);
    plan := Plan(w.ledger, c, terminals, remaining);
    r := SweepRequest(w.ledger, user, c, amount, plan);
    PlanTakes(w.ledger, c, terminals, remaining);
    PlanIsOk(w.ledger, c, terminals, remaining);
    forall a ensures Net(w'.ledger, a) == Net(w.ledger, a) + WithdrawalEffect(r, a) {
      CreateMoves(w, r, a);
    }
  }

  // The balances a successful sweep leaves behind: the owner pays what came from
  // the owner's own WORK and the whole request is frozen;
  lemma {:induction false} SweepOwnerBalances(w: World, user: nat, c: Currency, amount: nat, terminals: seq<Terminal>,
                                              w': World)
    requires Distinct(terminals) && Step(w, SweepAll(user, c, amount, terminals)) == Ok(w')
    ensures
      var l, l' := w.ledger, w'.ledger;
      var plan := Plan(l, c, terminals, amount - FromOwner(l, c, user, amount));
      var work, escrow := Account(MerchantOwner(user), WORK, c), Account(MerchantOwner(user), ESCROW, c);
      && Net(l', work) == Net(l, work) - FromOwner(l, c, user, amount)
      && Net(l', escrow) == Net(l, escrow) + amount + Fees(plan)
  {
    var plan, r := SweepIsCreate(w, user, c, amount, terminals, w');
    SweepMoves(plan, w.ledger, c, user);
    SweepEffectOnEscrow(MerchantOwner(user), c, r.swept, WithdrawalEscrow(r));
  }

  // no terminal is negative, every planned one but the last is emptied, and the
  // others are untouched.
  lemma {:induction false} SweepTerminalBalances(w: World, user: nat, c: Currency, amount: nat,
                                                 terminals: seq<Terminal>, w': World)
    requires Distinct(terminals) && Step(w, SweepAll(user, c, amount, terminals)) == Ok(w')
    ensures
      var plan := Plan(w.ledger, c, terminals, amount - FromOwner(w.ledger, c, user, amount));
      && (forall k | 0 <= k < |plan| :: Available(w'.ledger, c, plan[k].merchant) >= 0)
      && (forall k | 0 <= k < |plan| - 1 :: Available(w'.ledger, c, plan[k].merchant) == 0)
      && (forall m: nat | !Planned(plan, m) :: Available(w'.ledger, c, m) == Available(w.ledger, c, m))
  {
    var plan, r := SweepIsCreate(w, user, c, amount, terminals, w');
    SweepMoves(plan, w.ledger, c, user);
    forall k | 0 <= k < |plan|
      ensures Available(w'.ledger, c, plan[k].merchant) ==
              Available(w.ledger, c, plan[k].merchant) - plan[k].take - plan[k].fee
    {
    }
    forall m: nat | !Planned(plan, m) ensures Available(w'.ledger, c, m) == Available(w.ledger, c, m) {
      assert SweepEffect(MerchantOwner(user), c, Swept(plan), Account(Merchant(m), WORK, c)) == 0;
    }
  }

  lemma {:induction false} CreateMoves(w: World, r: Withdrawal, a: Account)
    requires r.status.PENDING? && Create(w, r).Ok?
    ensures Net(Create(w, r).value.ledger, a) == Net(w.ledger, a) + WithdrawalEffect(r, a)
  {
    var n := |w.rows|;
    CreateWithdrawalNet(n, r, a);
    PostAllNet(w.ledger, SweepLegs(n, r, r.swept) + FreezeWithdrawalLegs(n, r), Some(n), a);
  }
}
