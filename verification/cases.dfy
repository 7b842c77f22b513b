// Concrete histories at which the exact conditions of the other modules fail.

module Cases {
  import opened Common
  import opened Rounding
  import opened Ledger
  import opened Rows
  import opened Finance
  import opened Database
  import opened Orders
  import OrderService
  import Disputes
  import Platform

  // A trader deposits, takes an order of that size without fees, and completes it.
  const DEPOSIT_100 := Platform.Deposit(Trader(1), USDT, 100, 0)
  const CREATE_100 := Platform.OnOrder(OrderService.CreateSync(2, 100, UNIT, 0, 1, 7, 0))
  const COMPLETE := Platform.OnOrder(OrderService.Complete(0, 1, []))

  // Then the merchant withdraws what it was paid.
  const SPEND := Platform.Withdraw(Merchant(2), USDT, 100, 0)

  // Or the order is still open, and an administrator empties the trader's ESCROW.
  const SEIZE := Platform.Adjust(Escrow(Trader(1)), -100)

  const ORDER := Order(PAYIN, 2, Some(1), Some(7), OrderStatus.PENDING, 100, UNIT, 100, 0, 0, [])

  const DEPOSITED := Inflow(DEPOSIT, None, Work(Trader(1)), 100).entry
  const FROZEN := Xfer(ORDER_PAYIN, Some(0), Plain, Work(Trader(1)), Escrow(Trader(1)), 100).entry
  const PAID := Xfer(ORDER_PAYIN, Some(0), Plain, Escrow(Trader(1)), Work(Merchant(2)), 100).entry
  const SPENT := Outflow(WITHDRAWAL, None, Work(Merchant(2)), 100).entry
  const SEIZED := Outflow(WITHDRAWAL, None, Escrow(Trader(1)), 100).entry

  const W1 := World([DEPOSITED], [], map[], map[])
  const W2 := World([DEPOSITED, FROZEN], [OrderRow(ORDER)], map[], map[])
  const W3 := World([DEPOSITED, FROZEN, PAID], [OrderRow(ORDER.(status := OrderStatus.SUCCESS))], map[], map[])
  const W4 := W3.(ledger := [DEPOSITED, FROZEN, PAID, SPENT])
  const W2_SEIZED := W2.(ledger := [DEPOSITED, FROZEN, SEIZED])

  // The balances that decide each step.
  lemma {:induction false} Balances(a: Account)
    ensures Net([DEPOSITED], a) == Credit(DEPOSITED, a)
    ensures Net([DEPOSITED, FROZEN], a) == Credit(DEPOSITED, a) + Credit(FROZEN, a)
    ensures Net([DEPOSITED, FROZEN, PAID], a) == Credit(DEPOSITED, a) + Credit(FROZEN, a) + Credit(PAID, a)
    ensures Net([DEPOSITED, FROZEN, PAID, SPENT], a) ==
            Credit(DEPOSITED, a) + Credit(FROZEN, a) + Credit(PAID, a) + Credit(SPENT, a)
    ensures Net([DEPOSITED, FROZEN, SEIZED], a) == Credit(DEPOSITED, a) + Credit(FROZEN, a) + Credit(SEIZED, a)
  {
    NetAppend([], DEPOSITED, a);
    NetAppend([DEPOSITED], FROZEN, a);
    NetAppend([DEPOSITED, FROZEN], PAID, a);
    NetAppend([DEPOSITED, FROZEN, PAID], SPENT, a);
    NetAppend([DEPOSITED, FROZEN], SEIZED, a);
    assert [] + [DEPOSITED] == [DEPOSITED] && [DEPOSITED] + [FROZEN] == [DEPOSITED, FROZEN];
    assert [DEPOSITED, FROZEN] + [PAID] == [DEPOSITED, FROZEN, PAID];
    assert [DEPOSITED, FROZEN, PAID] + [SPENT] == [DEPOSITED, FROZEN, PAID, SPENT];
    assert [DEPOSITED, FROZEN] + [SEIZED] == [DEPOSITED, FROZEN, SEIZED];
  }

  lemma {:induction false} Deposits()
    ensures Platform.Step(Platform.EMPTY, DEPOSIT_100) == Ok(W1)
  {
    var legs := DepositLegs(Work(Trader(1)), 100, 0);
    PostAllTwo([], legs[0], legs[1]);
    assert legs == [legs[0], legs[1]] && [] + [DEPOSITED] == [DEPOSITED];
  }

  lemma {:induction false} Creates()
    ensures Platform.Step(W1, CREATE_100) == Ok(W2)
  {
    Balances(Work(Trader(1)));
    HalfEvenUnique(100 * UNIT, UNIT, 100);
    HalfEvenUnique(100 * 0, PERCENT, 0);
    assert OrderService.NewOrder(2, 100, UNIT, 0) ==
           ORDER.(status := OrderStatus.CREATED, trader := None, requisite := None);
    var legs := CreateOrderLegs(0, ORDER).value;
    assert legs == [legs[0]];
    PostAllOne(W1.ledger, legs[0]);
    assert [DEPOSITED] + [FROZEN] == [DEPOSITED, FROZEN] && [] + [OrderRow(ORDER)] == [OrderRow(ORDER)];
    assert OrderService.Step(W1, CREATE_100.order) == Ok(W2);
  }

  lemma {:induction false} Completes()
    ensures Platform.Step(W2, COMPLETE) == Ok(W3)
  {
    Balances(Escrow(Trader(1)));
    assert RewardsFor(100, []) == [] && RewardLegs(0, []) == [];
    var legs := CompleteOrderLegs(0, ORDER, []).value;
    assert legs == [legs[0], legs[1], legs[2]];
    PostAllThree(W2.ledger, legs[0], legs[1], legs[2]);
    assert [DEPOSITED, FROZEN] + [PAID] == [DEPOSITED, FROZEN, PAID];
    assert Settle(W2, 0, ORDER, []) == Ok(W3.(rows := W2.rows));
    assert W2.rows[0 := W3.rows[0]] == W3.rows;
    assert ChangeStatus(W2, 0, OrderStatus.SUCCESS, false, []) == Ok(W3);
  }

  lemma {:induction false} Spends()
    ensures Platform.Step(W3, SPEND) == Ok(W4)
  {
    Balances(Work(Merchant(2)));
    var legs := WithdrawLegs(Work(Merchant(2)), 100, 0);
    assert legs == [legs[0], legs[1]];
    PostAllTwo(W3.ledger, legs[0], legs[1]);
    assert [DEPOSITED, FROZEN, PAID] + [SPENT] == [DEPOSITED, FROZEN, PAID, SPENT];
  }

  lemma {:induction false} Seizes()
    ensures Platform.Step(W2, SEIZE) == Ok(W2_SEIZED)
  {
    Balances(Escrow(Trader(1)));
    var legs := AdjustLegs(Escrow(Trader(1)), -100);
    assert legs == [legs[0]];
    PostAllOne(W2.ledger, legs[0]);
    assert [DEPOSITED, FROZEN] + [SEIZED] == [DEPOSITED, FROZEN, SEIZED];
  }

  lemma {:induction false} AllConsistent()
    ensures OrderService.Consistent(W2) && OrderService.Consistent(W3) && OrderService.Consistent(W4)
  {
    Platform.EmptyIsSound();
    Deposits();
    Platform.StepKeeps(Platform.EMPTY, DEPOSIT_100);
    Creates();
    Platform.StepKeeps(W1, CREATE_100);
    Completes();
    Platform.StepKeeps(W2, COMPLETE);
    Spends();
    Platform.StepKeeps(W3, SPEND);
  }

  // Four operations after which a settled order cannot be disputed: the merchant
  // has spent the money.
  lemma {:induction false} SpentOrderCannotBeDisputed()
    ensures
      var w := Platform.Run(Platform.EMPTY, [DEPOSIT_100, CREATE_100, COMPLETE, SPEND]);
      && w == W4 && w.rows[0].order.status.SUCCESS? && 0 !in w.disputes
      && Disputes.OpenByAdminStep(w, 0).Err? && Disputes.OpenByMerchantStep(w, 0, 2).Err?
  {
    Deposits();
    Creates();
    Completes();
    Spends();
    RunOfFour();
    AllConsistent();
    Balances(Work(Merchant(2)));
    Disputes.OpensExactlyFromDisputable(W4, 0);
  }

  lemma {:induction false} RunOfFour()
    requires Platform.Step(Platform.EMPTY, DEPOSIT_100) == Ok(W1) && Platform.Step(W1, CREATE_100) == Ok(W2)
    requires Platform.Step(W2, COMPLETE) == Ok(W3) && Platform.Step(W3, SPEND) == Ok(W4)
    ensures Platform.Run(Platform.EMPTY, [DEPOSIT_100, CREATE_100, COMPLETE, SPEND]) == W4
  {
    assert [DEPOSIT_100, CREATE_100, COMPLETE, SPEND][1..] == [CREATE_100, COMPLETE, SPEND];
    assert [CREATE_100, COMPLETE, SPEND][1..] == [COMPLETE, SPEND];
    assert [COMPLETE, SPEND][1..] == [SPEND] && [SPEND][1..] == [];
    assert Platform.Run(W3, [SPEND]) == Platform.Run(W4, []) == W4;
    assert Platform.Run(W2, [COMPLETE, SPEND]) == Platform.Run(W3, [SPEND]);
    assert Platform.Run(W1, [CREATE_100, COMPLETE, SPEND]) == Platform.Run(W2, [COMPLETE, SPEND]);
  }

  // Refunding the settled order without the override breaks its books.
  lemma {:induction false} UnforcedRefundExample()
    ensures ChangeStatus(W3, 0, REFUNDED, false, []).Ok?
    ensures !Booked(ChangeStatus(W3, 0, REFUNDED, false, []).value.ledger,
                    ChangeStatus(W3, 0, REFUNDED, false, []).value.rows)
  {
    AllConsistent();
    OrderService.UnforcedRefundBreaksBooks(W3, 0);
  }

  // With its ESCROW seized, the open order fails without its collateral.
  lemma {:induction false} SeizedReleaseExample()
    ensures Platform.Step(W2, SEIZE) == Ok(W2_SEIZED) && ChangeStatus(W2_SEIZED, 0, FAILED, false, []).Ok?
    ensures !Booked(ChangeStatus(W2_SEIZED, 0, FAILED, false, []).value.ledger,
                    ChangeStatus(W2_SEIZED, 0, FAILED, false, []).value.rows)
  {
    AllConsistent();
    Seizes();
    Platform.DirectNet(SEIZE, SYSTEM_WORK);
    DirectBooked(W2.ledger, W2.rows, Platform.DirectLegs(SEIZE));
    Balances(Escrow(Trader(1)));
    OrderService.ReleaseRightIffCovered(W2_SEIZED, 0, FAILED, false);
  }
}
