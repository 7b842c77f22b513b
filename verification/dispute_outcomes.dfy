// Disputes: exactly when one is opened and decided, and what that leaves behind.

module DisputeOutcomes {
  import opened Common
  import opened Ledger
  import opened Rows
  import opened Finance
  import opened Database
  import opened Orders
  import opened OrderService
  import opened Disputes
  import opened Outcomes
  import opened OrderOutcomes
  import Platform

  // ── Opening ─────────────────────────────────────────────────────────────

  // A fresh dispute stands on order i, and the order's money is back where it
  // was frozen, whatever status it came from; a settled one gives its turnover
  // back.
  ghost predicate OpensOn(w: World, w': World, i: nat, proof: Option<Proof>) {
    && IsOrder(w, i)
    && var o := w.rows[i].order;
    && w'.rows == w.rows[i := OrderRow(o.(status := DISPUTED))]
    && w'.disputes == w.disputes[i := Dispute(OPEN, proof)]
    && (if o.status.SUCCESS? then TurnoverShrinks(w.limits, w'.limits, o.requisite, o.fiat) else w'.limits == w.limits)
    && forall a :: Net(w'.ledger, a) == Net(w.ledger, a) + Standing(o.(status := DISPUTED), a) - Standing(o, a)
  }

  lemma {:induction false} OpenRow(w: World, i: nat, proof: Option<Proof>)
    requires Consistent(w) && IsOrder(w, i) && Disputable(w.rows[i].order.status) && w.rows[i].order.trader.Some?
    requires Open(w, i, proof).Ok?
    ensures
      var o, w' := w.rows[i].order, Open(w, i, proof).value;
      && w'.rows == w.rows[i := OrderRow(o.(status := DISPUTED))]
      && w'.disputes == w.disputes[i := Dispute(OPEN, proof)]
      && (if o.status.SUCCESS? then TurnoverShrinks(w.limits, w'.limits, o.requisite, o.fiat)
          else w'.limits == w.limits)
  {
    assert OrderOk(w.rows[i]);
  }

  lemma {:induction false} OpenLeaves(w: World, op: DisputeOp, i: nat, proof: Option<Proof>)
    requires Consistent(w) && IsOrder(w, i) && Disputable(w.rows[i].order.status) && w.rows[i].order.trader.Some?
    requires Disputes.Step(w, op).Ok? && Disputes.Step(w, op) == Open(w, i, proof)
    ensures OpensOn(w, Open(w, i, proof).value, i, proof)
  {
    var o, w' := w.rows[i].order, Open(w, i, proof).value;
    OpenRow(w, i, proof);
    Rewrites(w, Platform.OnDispute(op), w', i, OrderRow(o.(status := DISPUTED)));
    Stands(w.ledger, w'.ledger, o, o.(status := DISPUTED));
  }

  // Which orders may be disputed, and when what they paid out is still there.
  predicate CanOpen(l: seq<Entry>, o: Order) {
    && o.trader.Some?
    && (|| o.status.PENDING? || o.status.RECEIPT_UPLOADED? || o.status.FAILED? || o.status.CANCELED?
        || (o.status.SUCCESS? && CanUnsettle(l, o)))
  }

  lemma {:induction false} AdminOpens(w: World, i: nat)
    requires Consistent(w) && IsOrder(w, i)
    ensures
      var r := Disputes.Step(w, OpenByAdmin(i));
      && (r.Ok? <==> i !in w.disputes && CanOpen(w.ledger, w.rows[i].order))
      && (r.Ok? ==> OpensOn(w, r.value, i, None))
  {
    if i !in w.disputes && w.rows[i].order.trader.Some? {
      OpensExactlyFromDisputable(w, i);
      if Disputes.Step(w, OpenByAdmin(i)).Ok? {
        OpenLeaves(w, OpenByAdmin(i), i, None);
      }
    }
  }

  // The merchant opens on the same terms, on its own orders; asked again while
  // the dispute is open it gets the one there is.
  lemma {:induction false} MerchantOpens(w: World, i: nat, merchant: nat)
    requires Consistent(w) && IsOrder(w, i)
    ensures
      var r := Disputes.Step(w, OpenByMerchant(i, merchant));
      if w.rows[i].order.merchant != merchant then r == Err(NotFound)
      else if i in w.disputes then r == if w.disputes[i].status.OPEN? then Ok(w) else Err(Validation)
      else
        && (r.Ok? <==> CanOpen(w.ledger, w.rows[i].order))
        && (r.Ok? ==> OpensOn(w, r.value, i, None))
  {
    if i !in w.disputes && w.rows[i].order.merchant == merchant && w.rows[i].order.trader.Some? {
      OpensExactlyFromDisputable(w, i);
      if Disputes.Step(w, OpenByMerchant(i, merchant)).Ok? {
        OpenLeaves(w, OpenByMerchant(i, merchant), i, None);
      }
    }
  }

  // Asking for proof opens a dispute only on a live order with a trader; while
  // one is open it changes the request; otherwise it does nothing.
  lemma {:induction false} PremoderationOpens(w: World, i: nat, proof: Option<Proof>)
    requires Consistent(w) && IsOrder(w, i)
    ensures
      var o, r := w.rows[i].order, Disputes.Step(w, OpenFromPremoderation(i, proof));
      if proof.None? || o.trader.None? then r == Ok(w)
      else if DisputeOpen(w, i) then r == Ok(w.(disputes := w.disputes[i := Dispute(OPEN, proof)]))
      else if i in w.disputes || !(o.status.PENDING? || o.status.RECEIPT_UPLOADED?) then r == Ok(w)
      else r.Ok? && OpensOn(w, r.value, i, proof)
  {
    var o, op := w.rows[i].order, OpenFromPremoderation(i, proof);
    if proof.Some? && o.trader.Some? && i !in w.disputes && (o.status.PENDING? || o.status.RECEIPT_UPLOADED?) {
      assert OrderOk(w.rows[i]);
      RefreezesAlways(w.ledger, i, o);
      OpenLeaves(w, op, i, proof);
    }
  }

  // The same request from a trader's group, which must reach an open dispute.
  lemma {:induction false} GroupProofOpens(w: World, i: nat, proof: Option<Proof>)
    requires Consistent(w) && IsOrder(w, i)
    ensures
      var o, r := w.rows[i].order, Disputes.Step(w, ProofFromTraderGroup(i, proof));
      if proof.None? then r == Err(Validation)
      else if o.trader.None? then r == Err(Conflict)
      else if DisputeOpen(w, i) then r == Ok(w.(disputes := w.disputes[i := Dispute(OPEN, proof)]))
      else if i in w.disputes || !(o.status.PENDING? || o.status.RECEIPT_UPLOADED?) then r == Err(Validation)
      else r.Ok? && OpensOn(w, r.value, i, proof)
  {
    var o, op := w.rows[i].order, ProofFromTraderGroup(i, proof);
    if proof.Some? && o.trader.Some? && i !in w.disputes && (o.status.PENDING? || o.status.RECEIPT_UPLOADED?) {
      assert OrderOk(w.rows[i]);
      RefreezesAlways(w.ledger, i, o);
      OpenLeaves(w, op, i, proof);
    }
  }

  // ── Deciding ────────────────────────────────────────────────────────────

  // Order i ends in SUCCESS, paid out of its collateral, and the dispute is closed.
  ghost predicate ResolvedOn(w: World, w': World, i: nat, rewards: seq<Reward>) {
    && IsOrder(w, i) && w.rows[i].order.trader.Some? && i in w.disputes
    && PaidOut(w, w', i, rewards, Escrow(Trader(w.rows[i].order.trader.value)))
    && w'.disputes == w.disputes[i := Dispute(RESOLVED, w.disputes[i].proof)]
  }

  // An open dispute is decided for the merchant exactly when the order can be
  // paid for.
  lemma {:induction false} ResolvesExactly(w: World, i: nat, links: seq<Link>)
    requires Consistent(w) && IsOrder(w, i)
    ensures
      var o, r := w.rows[i].order, Disputes.Step(w, ResolveByAdmin(i, links));
      if i !in w.disputes then r == Err(NotFound)
      else if !w.disputes[i].status.OPEN? then r == Err(Validation)
      else o.trader.Some? && (r.Ok? <==> Affordable(w.ledger, o, RewardsFor(o.amount, links)))
  {
    if DisputeOpen(w, i) {
      assert w.rows[i].order.status.DISPUTED? && OrderOk(w.rows[i]);
      SettlesExactly(w.ledger, w.rows, i, links);
      ResolveFunnel(w, i, links);
    }
  }

  // The order is settled out of its collateral then, and the dispute closed,
  // keeping the proof it asked for.
  lemma {:induction false} ResolvesTo(w: World, i: nat, links: seq<Link>, w': World)
    requires Consistent(w) && IsOrder(w, i) && DisputeOpen(w, i)
    requires Disputes.Step(w, ResolveByAdmin(i, links)) == Ok(w')
    ensures ResolvedOn(w, w', i, RewardsFor(w.rows[i].order.amount, links))
  {
    assert w.rows[i].order.status.DISPUTED? && OrderOk(w.rows[i]);
    ResolveFunnel(w, i, links);
    ResolveLeaves(w, w', ResolveByAdmin(i, links), i, RewardsFor(w.rows[i].order.amount, links));
  }

  lemma {:induction false} ResolveFunnel(w: World, i: nat, links: seq<Link>)
    requires IsOrder(w, i) && DisputeOpen(w, i)
    requires w.rows[i].order.status.DISPUTED? && w.rows[i].order.trader.Some?
    ensures
      var o, r := w.rows[i].order, Resolve(w, i, links);
      var rewards := RewardsFor(o.amount, links);
      && (r.Ok? <==> PostAll(w.ledger, CompleteOrderLegs(i, o, rewards).value).Ok?)
      && (r.Ok? ==>
            && r.value.rows == w.rows[i := OrderRow(o.(status := OrderStatus.SUCCESS, rewards := rewards))]
            && TurnoverGrows(w.limits, r.value.limits, o.requisite, o.fiat)
            && r.value.disputes == w.disputes[i := Dispute(RESOLVED, w.disputes[i].proof)])
  {
  }

  lemma {:induction false} ResolveLeaves(w: World, w': World, op: DisputeOp, i: nat, rewards: seq<Reward>)
    requires Consistent(w) && IsOrder(w, i) && DisputeOpen(w, i) && Disputes.Step(w, op) == Ok(w')
    requires w.rows[i].order.status.DISPUTED? && w.rows[i].order.trader.Some?
    requires w'.rows == w.rows[i := OrderRow(w.rows[i].order.(status := OrderStatus.SUCCESS, rewards := rewards))]
    requires TurnoverGrows(w.limits, w'.limits, w.rows[i].order.requisite, w.rows[i].order.fiat)
    requires w'.disputes == w.disputes[i := Dispute(RESOLVED, w.disputes[i].proof)]
    ensures ResolvedOn(w, w', i, rewards)
  {
    var o := w.rows[i].order;
    Rewrites(w, Platform.OnDispute(op), w', i, OrderRow(o.(status := OrderStatus.SUCCESS, rewards := rewards)));
    SettledFrozen(w.ledger, w'.ledger, o, rewards);
  }

  // Order i ends FAILED, its collateral goes back, and the dispute is closed.
  ghost predicate RejectedOn(w: World, w': World, i: nat) {
    && IsOrder(w, i) && i in w.disputes
    && var o := w.rows[i].order;
    && w' == w.(ledger := w'.ledger,
                rows := w.rows[i := OrderRow(o.(status := FAILED, rewards := []))],
                disputes := w.disputes[i := Dispute(DisputeStatus.REJECTED, w.disputes[i].proof)])
    && forall a :: Net(w'.ledger, a) == Net(w.ledger, a) + Collateral(o, a)
  }

  // It is decided against the merchant whenever there is an amount to release.
  lemma {:induction false} RejectsExactly(w: World, i: nat)
    requires Consistent(w) && IsOrder(w, i)
    ensures
      var r := Disputes.Step(w, RejectByAdmin(i));
      if i !in w.disputes then r == Err(NotFound)
      else if !w.disputes[i].status.OPEN? then r == Err(Validation)
      else
        && (r.Ok? <==> w.rows[i].order.amount > 0)
        && (r.Ok? ==> RejectedOn(w, r.value, i))
  {
    if DisputeOpen(w, i) {
      RejectRow(w, i);
      if Disputes.Step(w, RejectByAdmin(i)).Ok? {
        RejectLeaves(w, RejectByAdmin(i), i);
      }
    }
  }

  lemma {:induction false} RejectRow(w: World, i: nat)
    requires Consistent(w) && IsOrder(w, i) && DisputeOpen(w, i)
    ensures
      var o, r := w.rows[i].order, Reject(w, i);
      && o.status.DISPUTED? && o.trader.Some?
      && (r.Ok? <==> o.amount > 0)
      && (r.Ok? ==>
            r.value == w.(ledger := r.value.ledger,
                          rows := w.rows[i := OrderRow(o.(status := FAILED, rewards := []))],
                          disputes := w.disputes[i := Dispute(DisputeStatus.REJECTED, w.disputes[i].proof)]))
  {
    assert w.rows[i].order.status.DISPUTED? && OrderOk(w.rows[i]);
    RejectFunnel(w, i);
    ReleaseAccepted(w.(disputes := w.disputes[i := w.disputes[i].(status := DisputeStatus.REJECTED)]), i,
                    w.rows[i].order);
  }

  lemma {:induction false} RejectFunnel(w: World, i: nat)
    requires IsOrder(w, i) && DisputeOpen(w, i)
    requires w.rows[i].order.status.DISPUTED? && w.rows[i].order.trader.Some?
    ensures
      var o, r := w.rows[i].order, Reject(w, i);
      var disputes := w.disputes[i := w.disputes[i].(status := DisputeStatus.REJECTED)];
      && (r.Ok? <==> Release(w.(disputes := disputes), i, o).Ok?)
      && (r.Ok? ==> r.value == w.(ledger := r.value.ledger,
                                  rows := w.rows[i := OrderRow(o.(status := FAILED, rewards := []))],
                                  disputes := disputes))
  {
  }

  lemma {:induction false} RejectLeaves(w: World, op: DisputeOp, i: nat)
    requires Consistent(w) && IsOrder(w, i) && DisputeOpen(w, i)
    requires Disputes.Step(w, op).Ok? && Disputes.Step(w, op) == Reject(w, i)
    ensures RejectedOn(w, Reject(w, i).value, i)
  {
    var o, w' := w.rows[i].order, Reject(w, i).value;
    RejectRow(w, i);
    Rewrites(w, Platform.OnDispute(op), w', i, OrderRow(o.(status := FAILED, rewards := [])));
    ReleasedBalances(w.ledger, w'.ledger, o, FAILED);
  }

  // The trader decides only disputes on orders assigned to them, and then just
  // as the administrator would; a request for proof changes nothing else.
  lemma TraderDecides(w: World, i: nat, trader: nat, links: seq<Link>, proof: Option<Proof>)
    ensures
      var own := i in w.disputes && IsOrder(w, i) && w.rows[i].order.trader == Some(trader);
      && Disputes.Step(w, TraderAccept(i, trader, links)) ==
         (if own then Disputes.Step(w, ResolveByAdmin(i, links)) else Err(NotFound))
      && Disputes.Step(w, TraderReject(i, trader)) ==
         (if own then Disputes.Step(w, RejectByAdmin(i)) else Err(NotFound))
      && Disputes.Step(w, TraderRequestProof(i, trader, proof)) ==
         if proof.None? then Err(Validation)
         else if !own then Err(NotFound)
         else if !w.disputes[i].status.OPEN? then Err(Validation)
         else Ok(w.(disputes := w.disputes[i := Dispute(OPEN, proof)]))
  {
  }

  // ── Decisions and direct histories ──────────────────────────────────────

  // Two ways of being frozen are the same for the money.
  lemma {:induction false} FrozenAlike(l: seq<Entry>, rows: seq<Row>, m: seq<Entry>, others: seq<Row>, i: nat,
                                       a: Account)
    requires Booked(l, rows) && Booked(m, others) && i < |rows| == |others| && others == rows[i := others[i]]
    requires Effect(rows[i], a) == Effect(others[i], a) && NetOn(l, None, a) == NetOn(m, None, a)
    ensures Net(l, a) == Net(m, a)
  {
    BalanceFromRows(l, rows, a);
    BalanceFromRows(m, others, a);
    EffectsUpdate(rows, i, others[i], a);
  }

  // Compared with any history in which the order is simply pending, an open
  // dispute can be decided either way exactly when that order could be completed
  // by its trader and cancelled by its merchant.
  lemma {:induction false} DecidedAsDirectly(w: World, u: World, i: nat, before: seq<Reward>, links: seq<Link>)
    requires Consistent(w) && Consistent(u) && IsOrder(w, i) && DisputeOpen(w, i) && w.rows[i].order.trader.Some?
    requires u.rows == w.rows[i := OrderRow(w.rows[i].order.(status := OrderStatus.PENDING, rewards := before))]
    requires forall a :: NetOn(w.ledger, None, a) == NetOn(u.ledger, None, a)
    ensures
      var o := w.rows[i].order;
      && (Disputes.Step(w, ResolveByAdmin(i, links)).Ok? <==>
          OrderService.Step(u, Complete(i, o.trader.value, links)).Ok?)
      && (Disputes.Step(w, RejectByAdmin(i)).Ok? <==>
          OrderService.Step(u, OrderOp.Cancel(i, o.merchant)).Ok?)
  {
    var o := w.rows[i].order;
    assert o.status.DISPUTED?;
    FrozenAlike(w.ledger, w.rows, u.ledger, u.rows, i, SYSTEM_WORK);
    FrozenAlike(w.ledger, w.rows, u.ledger, u.rows, i, Work(Merchant(o.merchant)));
    ResolvesExactly(w, i, links);
    RejectsExactly(w, i);
    CompletesExactly(u, i, o.trader.value, links);
    CancelsExactly(u, i, o.merchant);
  }

  // A settled order that could be disputed can always be settled again with the
  // same rewards: what was taken back is there.
  lemma {:induction false} DisputedSettlementResolves(w: World, i: nat, links: seq<Link>)
    requires Consistent(w) && IsOrder(w, i) && w.rows[i].order.status.SUCCESS?
    requires w.rows[i].order.rewards == RewardsFor(w.rows[i].order.amount, links)
    requires Disputes.Step(w, OpenByAdmin(i)).Ok?
    ensures Disputes.Step(Disputes.Step(w, OpenByAdmin(i)).value, ResolveByAdmin(i, links)).Ok?
  {
    var o, w1 := w.rows[i].order, Disputes.Step(w, OpenByAdmin(i)).value;
    var merchant := Work(Merchant(o.merchant));
    assert OrderOk(w.rows[i]);
    assert !MayOverdraw(merchant) && Net(w.ledger, merchant) >= 0;
    assert !MayOverdraw(SYSTEM_WORK) && Net(w.ledger, SYSTEM_WORK) >= 0;
    AdminOpens(w, i);
    Disputes.StepKeeps(w, OpenByAdmin(i));
    assert Net(w1.ledger, merchant) == Net(w.ledger, merchant) - o.amount + o.fee;
    assert Net(w1.ledger, SYSTEM_WORK) ==
           Net(w.ledger, SYSTEM_WORK) - o.fee + o.traderFee + RewardSum(o.rewards);
    ResolvesExactly(w1, i, links);
  }
}
