// Withdrawals: exactly when a request is accepted and decided, and what that
// leaves behind.

module WithdrawalOutcomes {
  import opened Common
  import opened Ledger
  import opened Rows
  import opened Finance
  import opened Database
  import opened Orders
  import opened OrderService
  import opened Withdrawals
  import opened Outcomes
  import Platform

  // ── A single balance ────────────────────────────────────────────────────

  // Terminals and traders pay their fixed fee out of what they ask for, other
  // users none; the administrator and payout terminals cannot ask. The request
  // is accepted exactly when something is left and the WORK covers it, and the
  // whole of it is frozen.
  lemma {:induction false} RequestsExactly(w: World, owner: Owner, c: Currency, gross: nat, fixedFee: nat)
    requires Consistent(w)
    ensures
      var r := Withdrawals.Step(w, Request(owner, c, gross, fixedFee));
      var work, escrow := Account(owner, WORK, c), Account(owner, ESCROW, c);
      var fee := match owner
        case Merchant(_) => fixedFee
        case Trader(_) => fixedFee
        case Teamlead(_) => 0
        case MerchantOwner(_) => 0
        case PayoutTerminal(_) => gross
        case System => gross;
      && (r.Ok? <==> fee < gross <= Net(w.ledger, work))
      && (gross <= fee ==> r == Err(Validation))
      && (r.Ok? ==>
            && r.value == w.(ledger := r.value.ledger, rows := w.rows + [WithdrawalRow(
                 Withdrawal(owner, c, gross - fee, fee, WithdrawalStatus.PENDING, []))])
            && forall a :: Net(r.value.ledger, a) == Net(w.ledger, a) + Between(a, work, escrow, gross))
  {
    var op := Request(owner, c, gross, fixedFee);
    var fee := FeeOf(owner, fixedFee);
    if !owner.System? && !owner.PayoutTerminal? && gross > fee {
      var request := Withdrawal(owner, c, gross - fee, fee, WithdrawalStatus.PENDING, []);
      RequestRow(w, request);
      assert Withdrawals.Step(w, op) == Create(w, request);
      if Create(w, request).Ok? {
        RequestLeaves(w, op, request);
      }
    }
  }

  lemma {:induction false} RequestRow(w: World, request: Withdrawal)
    requires request.swept == [] && request.amount > 0
    ensures
      var r := Create(w, request);
      && (r.Ok? <==> request.amount + request.fee <= Net(w.ledger, WithdrawalWork(request)))
      && (r.Ok? ==> r.value == w.(ledger := r.value.ledger, rows := w.rows + [WithdrawalRow(request)]))
  {
    var freeze := FreezeWithdrawalLegs(|w.rows|, request);
    assert SweepLegs(|w.rows|, request, []) + freeze == freeze == [freeze[0]];
    PostAllOne(w.ledger, freeze[0]);
  }

  lemma {:induction false} RequestLeaves(w: World, op: WithdrawalOp, request: Withdrawal)
    requires Consistent(w) && request.swept == [] && request.status.PENDING?
    requires Withdrawals.Step(w, op) == Create(w, request) && Create(w, request).Ok?
    ensures forall a :: Net(Create(w, request).value.ledger, a) ==
              Net(w.ledger, a)
              + Between(a, WithdrawalWork(request), WithdrawalEscrow(request), request.amount + request.fee)
  {
    Enters(w, Platform.OnWithdrawal(op), Create(w, request).value, WithdrawalRow(request));
  }

  // ── Decisions ───────────────────────────────────────────────────────────

  // Only a pending request is decided, and it always can be. Approving pays the
  // amount out of the platform and the fee to the system; rejecting gives both
  // back to the owner.
  lemma {:induction false} DecidesExactly(w: World, i: nat)
    requires Consistent(w) && IsWithdrawal(w, i)
    ensures
      var r := w.rows[i].withdrawal;
      var work, escrow := Account(r.owner, WORK, r.currency), Account(r.owner, ESCROW, r.currency);
      var yes, no := Withdrawals.Step(w, Approve(i)), Withdrawals.Step(w, Reject(i));
      if !r.status.PENDING? then yes == Err(Conflict) && no == Err(Conflict)
      else
        && yes.Ok? && no.Ok?
        && yes.value == w.(ledger := yes.value.ledger,
                           rows := w.rows[i := WithdrawalRow(r.(status := WithdrawalStatus.SUCCESS))])
        && no.value == w.(ledger := no.value.ledger,
                          rows := w.rows[i := WithdrawalRow(r.(status := WithdrawalStatus.REJECTED))])
        && (forall a :: Net(yes.value.ledger, a) ==
                        Net(w.ledger, a) - At(a, escrow, r.amount)
                        + Between(a, escrow, Account(System, WORK, r.currency), r.fee))
        && (forall a :: Net(no.value.ledger, a) == Net(w.ledger, a) + Between(a, escrow, work, r.amount + r.fee))
  {
    var r := w.rows[i].withdrawal;
    if r.status.PENDING? {
      DecisionNeverShort(w, i);
      DecisionLeaves(w, Approve(i), i, WithdrawalStatus.SUCCESS);
      DecisionLeaves(w, Reject(i), i, WithdrawalStatus.REJECTED);
    }
  }

  lemma {:induction false} DecisionLeaves(w: World, op: WithdrawalOp, i: nat, to: WithdrawalStatus)
    requires Consistent(w) && IsWithdrawal(w, i) && w.rows[i].withdrawal.status.PENDING? && !to.PENDING?
    requires Withdrawals.Step(w, op) == Decide(w, i, to) && Decide(w, i, to).Ok?
    ensures
      var r, w' := w.rows[i].withdrawal, Decide(w, i, to).value;
      var work, escrow := Account(r.owner, WORK, r.currency), Account(r.owner, ESCROW, r.currency);
      forall a :: Net(w'.ledger, a) == Net(w.ledger, a) +
        if to.SUCCESS? then Between(a, escrow, Account(System, WORK, r.currency), r.fee) - At(a, escrow, r.amount)
        else Between(a, escrow, work, r.amount + r.fee)
  {
    var r, w' := w.rows[i].withdrawal, Decide(w, i, to).value;
    Rewrites(w, Platform.OnWithdrawal(op), w', i, WithdrawalRow(r.(status := to)));
    DecidedBalances(w.ledger, w'.ledger, r, to);
  }

  lemma {:induction false} DecidedBalances(l: seq<Entry>, l': seq<Entry>, r: Withdrawal, to: WithdrawalStatus)
    requires r.status.PENDING? && !to.PENDING?
    requires Shifted(l, l', WithdrawalRow(r), WithdrawalRow(r.(status := to)))
    ensures
      var work, escrow := Account(r.owner, WORK, r.currency), Account(r.owner, ESCROW, r.currency);
      forall a :: Net(l', a) == Net(l, a) +
        if to.SUCCESS? then Between(a, escrow, Account(System, WORK, r.currency), r.fee) - At(a, escrow, r.amount)
        else Between(a, escrow, work, r.amount + r.fee)
  {
  }

  // ── The sweep ───────────────────────────────────────────────────────────

  // The terminals that have something to give beyond their fee, in their order.
  function Givers(l: seq<Entry>, c: Currency, terminals: seq<Terminal>): seq<Terminal> {
    if terminals == [] then []
    else
      (if Available(l, c, terminals[0].merchant) > terminals[0].fee then [terminals[0]] else [])
      + Givers(l, c, terminals[1..])
  }

  function Asked(plan: seq<Take>): seq<Terminal> {
    if plan == [] then [] else [Terminal(plan[0].merchant, plan[0].fee)] + Asked(plan[1..])
  }

  // The plan asks them one after the other, each at its own fee, and skips none.
  lemma {:induction false} PlanFollowsTheList(l: seq<Entry>, c: Currency, terminals: seq<Terminal>, remaining: nat)
    ensures Asked(Plan(l, c, terminals, remaining)) <= Givers(l, c, terminals)
  {
    if remaining > 0 && terminals != [] {
      var t, rest := terminals[0], terminals[1..];
      var spendable := Available(l, c, t.merchant) - t.fee;
      if spendable <= 0 {
        PlanFollowsTheList(l, c, rest, remaining);
      } else {
        var take := Min(spendable, remaining);
        var tail := Plan(l, c, rest, remaining - take);
        PlanFollowsTheList(l, c, rest, remaining - take);
        assert Plan(l, c, terminals, remaining) == [Take(t.merchant, take, t.fee)] + tail;
        AskedCons(t, take, tail);
        assert Givers(l, c, terminals) == [t] + Givers(l, c, rest);
      }
    }
  }

  lemma {:induction false} AskedCons(t: Terminal, take: nat, tail: seq<Take>)
    ensures Asked([Take(t.merchant, take, t.fee)] + tail) == [t] + Asked(tail)
  {
    assert ([Take(t.merchant, take, t.fee)] + tail)[1..] == tail;
  }

  // What the terminals after the owner's own WORK have to bring.
  function Wanted(l: seq<Entry>, user: nat, c: Currency, amount: nat): nat {
    var own := Net(l, Account(MerchantOwner(user), WORK, c));
    if own >= amount then 0 else if own > 0 then amount - own else amount
  }

  // A successful sweep records the amount asked for, one take of amount and fee
  // for each terminal in its turn, and the sum of their fees.
  lemma {:induction false} SweepRecords(w: World, user: nat, c: Currency, amount: nat, terminals: seq<Terminal>,
                                        w': World)
    requires Withdrawals.Distinct(terminals)
    requires Withdrawals.Step(w, SweepAll(user, c, amount, terminals)) == Ok(w')
    ensures
      var plan := Plan(w.ledger, c, terminals, Wanted(w.ledger, user, c, amount));
      && w' == w.(ledger := w'.ledger, rows := w.rows + [WithdrawalRow(
           Withdrawal(MerchantOwner(user), c, amount, Fees(plan), WithdrawalStatus.PENDING, Swept(plan)))])
      && Taken(plan) == Wanted(w.ledger, user, c, amount)
      && PlanOk(w.ledger, c, plan)
      && Asked(plan) <= Givers(w.ledger, c, terminals)
  {
    var wanted := Wanted(w.ledger, user, c, amount);
    PlanTakes(w.ledger, c, terminals, wanted);
    PlanIsOk(w.ledger, c, terminals, wanted);
    PlanFollowsTheList(w.ledger, c, terminals, wanted);
  }
}
