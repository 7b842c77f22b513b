// Money that belongs to no row: exactly when it moves, and what it moves.

module DirectOutcomes {
  import opened Common
  import opened Ledger
  import opened Rows
  import opened Finance
  import opened Database
  import opened Outcomes
  import opened Platform

  function Paid(fee: int): nat {
    if fee > 0 then fee else 0
  }

  lemma {:induction false} TwoMove(l: seq<Entry>, x: Leg, y: Leg)
    requires For([x, y], None) && PostAll(l, [x, y]).Ok?
    ensures forall a :: Net(PostAll(l, [x, y]).value, a) == Net(l, a) + LegNet(x, a) + LegNet(y, a)
  {
    forall a ensures Net(PostAll(l, [x, y]).value, a) == Net(l, a) + LegNet(x, a) + LegNet(y, a) {
      PostAllNet(l, [x, y], None, a);
      Net2(x, y, a);
    }
  }

  // A deposit credits its whole amount and then pays its fee out of the balance.
  lemma {:induction false} DepositsExactly(w: World, owner: Owner, c: Currency, amount: int, fee: int)
    ensures
      var r := Platform.Step(w, Deposit(owner, c, amount, fee));
      var work, system := Account(owner, WORK, c), Account(System, WORK, c);
      && (r.Ok? <==> amount > 0 && (fee > 0 ==> fee <= Net(w.ledger, work) + amount))
      && (r.Ok? ==>
            && r.value == w.(ledger := r.value.ledger)
            && forall a :: Net(r.value.ledger, a) ==
                           Net(w.ledger, a) + At(a, work, amount) + Between(a, work, system, Paid(fee)))
  {
    var legs := DepositLegs(Account(owner, WORK, c), amount, fee);
    DepositAccepted(w.ledger, Account(owner, WORK, c), amount, fee);
    if PostAll(w.ledger, legs).Ok? {
      TwoMove(w.ledger, legs[0], legs[1]);
    }
  }

  lemma {:induction false} DepositAccepted(l: seq<Entry>, work: Account, amount: int, fee: int)
    ensures PostAll(l, DepositLegs(work, amount, fee)).Ok? <==>
            amount > 0 && (fee > 0 ==> fee <= Net(l, work) + amount)
    ensures DepositLegs(work, amount, fee) == [DepositLegs(work, amount, fee)[0], DepositLegs(work, amount, fee)[1]]
  {
    var legs := DepositLegs(work, amount, fee);
    PostAllTwo(l, legs[0], legs[1]);
    NetAppend(l, legs[0].entry, work);
  }

  // A withdrawal pays its fee first, and then goes out if the balance still
  // covers it.
  lemma {:induction false} WithdrawsExactly(w: World, owner: Owner, c: Currency, amount: int, fee: int)
    ensures
      var r := Platform.Step(w, Withdraw(owner, c, amount, fee));
      var work, system := Account(owner, WORK, c), Account(System, WORK, c);
      && (r.Ok? <==>
            && amount > 0 && (fee > 0 ==> fee <= Net(w.ledger, work))
            && amount + (if owner.System? then 0 else Paid(fee)) <= Net(w.ledger, work))
      && (r.Ok? ==>
            && r.value == w.(ledger := r.value.ledger)
            && forall a :: Net(r.value.ledger, a) ==
                           Net(w.ledger, a) - At(a, work, amount) + Between(a, work, system, Paid(fee)))
  {
    var legs := WithdrawLegs(Account(owner, WORK, c), amount, fee);
    WithdrawalAccepted(w.ledger, Account(owner, WORK, c), amount, fee);
    if PostAll(w.ledger, legs).Ok? {
      TwoMove(w.ledger, legs[0], legs[1]);
    }
  }

  lemma {:induction false} WithdrawalAccepted(l: seq<Entry>, work: Account, amount: int, fee: int)
    requires work.kind == WORK
    ensures PostAll(l, WithdrawLegs(work, amount, fee)).Ok? <==>
            && amount > 0 && (fee > 0 ==> fee <= Net(l, work))
            && amount + (if work.owner.System? then 0 else Paid(fee)) <= Net(l, work)
    ensures WithdrawLegs(work, amount, fee) == [WithdrawLegs(work, amount, fee)[0], WithdrawLegs(work, amount, fee)[1]]
  {
    var legs := WithdrawLegs(work, amount, fee);
    PostAllTwo(l, legs[0], legs[1]);
    NetAppend(l, legs[0].entry, work);
  }

  // An adjustment is a one-sided entry; a debit beyond the balance is refused.
  lemma {:induction false} AdjustsExactly(w: World, account: Account, delta: int)
    ensures
      var r := Platform.Step(w, Adjust(account, delta));
      && (r.Ok? <==> delta >= 0 || 0 - delta <= Net(w.ledger, account))
      && (r.Ok? ==>
            && r.value == w.(ledger := r.value.ledger)
            && forall a :: Net(r.value.ledger, a) == Net(w.ledger, a) + At(a, account, delta))
  {
    if delta != 0 {
      var leg := AdjustLegs(account, delta)[0];
      PostAllOne(w.ledger, leg);
      forall a ensures Net(w.ledger + [leg.entry], a) == Net(w.ledger, a) + At(a, account, delta) {
        NetAppend(w.ledger, leg.entry, a);
      }
    }
  }

  // The fee of a receipt check goes from the trader to the system,
  lemma {:induction false} ReceiptFeeExactly(w: World, trader: nat, amount: int)
    ensures
      var r := Platform.Step(w, ReceiptFee(trader, amount));
      && (r.Ok? <==> 0 < amount <= Net(w.ledger, Work(Trader(trader))))
      && (r.Ok? ==>
            && r.value == w.(ledger := r.value.ledger)
            && forall a :: Net(r.value.ledger, a) ==
                           Net(w.ledger, a) + Between(a, Work(Trader(trader)), SYSTEM_WORK, amount))
  {
    Transfers(w.ledger, ReceiptFeeLegs(trader, amount)[0], Work(Trader(trader)), SYSTEM_WORK);
  }

  // and back.
  lemma {:induction false} ReceiptRefundExactly(w: World, trader: nat, amount: int)
    ensures
      var r := Platform.Step(w, ReceiptRefund(trader, amount));
      && (r.Ok? <==> 0 < amount <= Net(w.ledger, SYSTEM_WORK))
      && (r.Ok? ==>
            && r.value == w.(ledger := r.value.ledger)
            && forall a :: Net(r.value.ledger, a) ==
                           Net(w.ledger, a) + Between(a, SYSTEM_WORK, Work(Trader(trader)), amount))
  {
    Transfers(w.ledger, ReceiptRefundLegs(trader, amount)[0], SYSTEM_WORK, Work(Trader(trader)));
  }

  // One plain transfer.
  lemma {:induction false} Transfers(l: seq<Entry>, x: Leg, from: Account, to: Account)
    requires !x.optional && !x.overdraft && x.entry.from == Some(from) && x.entry.to == Some(to)
    requires from.currency == to.currency == x.entry.currency
    ensures PostAll(l, [x]).Ok? <==> 0 < x.entry.amount <= Net(l, from)
    ensures PostAll(l, [x]).Ok? ==>
              forall a :: Net(PostAll(l, [x]).value, a) == Net(l, a) + Between(a, from, to, x.entry.amount)
  {
    PostAllOne(l, x);
    forall a ensures Net(l + [x.entry], a) == Net(l, a) + Credit(x.entry, a) {
      NetAppend(l, x.entry, a);
    }
  }
}
