// disputes/service.py: opening, deciding and nudging disputes.

module Disputes {
  import opened Common
  import opened Ledger
  import opened Rows
  import opened Finance
  import opened Database
  import opened Orders
  import opened OrderService

  datatype DisputeOp =
    | OpenByMerchant(order: nat, merchant: nat)
    | OpenByAdmin(order: nat)
    | OpenFromPremoderation(order: nat, requested: Option<Proof>)
    | ProofFromTraderGroup(order: nat, requested: Option<Proof>)
    | ResolveByAdmin(order: nat, links: seq<Link>)
    | RejectByAdmin(order: nat)
    | TraderAccept(order: nat, trader: nat, links: seq<Link>)
    | TraderReject(order: nat, trader: nat)
    | TraderRequestProof(order: nat, trader: nat, requested: Option<Proof>)

  // _DISPUTABLE_STATUSES
  predicate Disputable(s: OrderStatus) {
    s.SUCCESS? || s.FAILED? || s.CANCELED? || s.PENDING? || s.RECEIPT_UPLOADED?
  }

  // _PREMODERATION_OPENABLE_STATUSES
  predicate Openable(s: OrderStatus) {
    s.PENDING? || s.RECEIPT_UPLOADED?
  }

  // `_open_dispute_for_order`: the dispute row, then the order into DISPUTED.
  function Open(w: World, i: nat, proof: Option<Proof>): Result<World, Error>
    requires IsOrder(w, i)
  {
    ChangeStatus(w.(disputes := w.disputes[i := Dispute(OPEN, proof)]), i, DISPUTED, false, [])
  }

  function OpenByAdminStep(w: World, i: nat): Result<World, Error> {
    if !IsOrder(w, i) then Err(NotFound)
    else
      var o := w.rows[i].order;
      if !Disputable(o.status) then Err(Validation)
      else if o.trader.None? then Err(Validation)
      else if i in w.disputes then Err(Validation)
      else Open(w, i, None)
  }

  function OpenByMerchantStep(w: World, i: nat, merchant: nat): Result<World, Error> {
    if !IsOrder(w, i) || w.rows[i].order.merchant != merchant then Err(NotFound)
    else if i in w.disputes then
      if w.disputes[i].status.OPEN? then Ok(w) else Err(Validation)
    else
      var o := w.rows[i].order;
      if !Disputable(o.status) then Err(Validation)
      else if o.trader.None? then Err(Validation)
      else Open(w, i, None)
  }

  // `open_dispute_from_premoderation`; the flag says whether a dispute came back.
  function Premoderate(w: World, i: nat, requested: Option<Proof>): Result<(World, bool), Error>
    requires IsOrder(w, i)
  {
    var o := w.rows[i].order;
    if requested.None? || o.trader.None? then Ok((w, false))
    else if i in w.disputes then
      if !w.disputes[i].status.OPEN? then Ok((w, false))
      else Ok((w.(disputes := w.disputes[i := w.disputes[i].(proof := requested)]), true))
    else if !Openable(o.status) then Ok((w, false))
    else
      var w' :- Open(w, i, requested);
      Ok((w', true))
  }

  predicate Closed(w: World, i: nat) {
    i in w.disputes && !w.disputes[i].status.OPEN?
  }

  function Decide(w: World, i: nat, status: DisputeStatus, to: OrderStatus, links: seq<Link>): Result<World, Error>
    requires IsOrder(w, i) && i in w.disputes
  {
    ChangeStatus(w.(disputes := w.disputes[i := w.disputes[i].(status := status)]), i, to, false, links)
  }

  // `_apply_resolve_merchant_favor`
  function Resolve(w: World, i: nat, links: seq<Link>): Result<World, Error> {
    if i !in w.disputes || !IsOrder(w, i) then Err(NotFound)
    else if Closed(w, i) then Err(Validation)
    else if w.rows[i].order.trader.None? then Err(Validation)
    else Decide(w, i, RESOLVED, OrderStatus.SUCCESS, links)
  }

  // `_apply_reject`
  function Reject(w: World, i: nat): Result<World, Error> {
    if i !in w.disputes || !IsOrder(w, i) then Err(NotFound)
    else if Closed(w, i) then Err(Validation)
    else if w.rows[i].order.trader.None? then Err(Validation)
    else Decide(w, i, DisputeStatus.REJECTED, FAILED, [])
  }

  // A trader reaches only disputes on the orders assigned to them.
  predicate OwnDispute(w: World, i: nat, trader: nat) {
    i in w.disputes && IsOrder(w, i) && w.rows[i].order.trader == Some(trader)
  }

  function Step(w: World, op: DisputeOp): Result<World, Error> {
    match op
    case OpenByMerchant(i, merchant) => OpenByMerchantStep(w, i, merchant)
    case OpenByAdmin(i) => OpenByAdminStep(w, i)
    case OpenFromPremoderation(i, requested) =>
      if !IsOrder(w, i) then Err(NotFound)
      else
        var r :- Premoderate(w, i, requested);
        Ok(r.0)
    case ProofFromTraderGroup(i, requested) =>
      if requested.None? then Err(Validation)
      else if !IsOrder(w, i) then Err(NotFound)
      else if w.rows[i].order.trader.None? then Err(Conflict)
      else
        var r :- Premoderate(w, i, requested);
        if r.1 then Ok(r.0) else Err(Validation)
    case ResolveByAdmin(i, links) => Resolve(w, i, links)
    case RejectByAdmin(i) => Reject(w, i)
    case TraderAccept(i, trader, links) => if OwnDispute(w, i, trader) then Resolve(w, i, links) else Err(NotFound)
    case TraderReject(i, trader) => if OwnDispute(w, i, trader) then Reject(w, i) else Err(NotFound)
    case TraderRequestProof(i, trader, requested) =>
      if requested.None? then Err(Validation)
      else if !OwnDispute(w, i, trader) then Err(NotFound)
      else if Closed(w, i) then Err(Validation)
      else Ok(w.(disputes := w.disputes[i := w.disputes[i].(proof := requested)]))
  }

  // ── Safety ──────────────────────────────────────────────────────────────

  lemma OpenKeeps(w: World, i: nat, proof: Option<Proof>)
    requires Consistent(w) && IsOrder(w, i) && i !in w.disputes
    requires Disputable(w.rows[i].order.status) && w.rows[i].order.trader.Some?
    requires Open(w, i, proof).Ok?
    ensures Consistent(Open(w, i, proof).value)
  {
    var w0 := w.(disputes := w.disputes[i := Dispute(OPEN, proof)]);
    ChangeStatusKeeps(w0, i, DISPUTED, false, []);
    ChangeStatusShape(w0, i, DISPUTED, false, []);
    AgreeElsewhere(w, Open(w, i, proof).value, i);
  }

  lemma DecideKeeps(w: World, i: nat, status: DisputeStatus, to: OrderStatus, links: seq<Link>)
    requires Consistent(w) && IsOrder(w, i) && DisputeOpen(w, i) && !status.OPEN?
    requires to.SUCCESS? || to.FAILED?
    requires Decide(w, i, status, to, links).Ok?
    ensures Consistent(Decide(w, i, status, to, links).value)
  {
    var w0 := w.(disputes := w.disputes[i := w.disputes[i].(status := status)]);
    assert w.rows[i].order.status.DISPUTED?;
    ChangeStatusKeeps(w0, i, to, false, links);
    ChangeStatusShape(w0, i, to, false, links);
    AgreeElsewhere(w, Decide(w, i, status, to, links).value, i);
  }

  // Only order i and its dispute changed, and they agree.
  lemma AgreeElsewhere(w: World, w': World, i: nat)
    requires DisputesAgree(w) && IsOrder(w, i) && IsOrder(w', i) && i in w'.disputes
    requires |w'.rows| == |w.rows| && w'.rows == w.rows[i := w'.rows[i]]
    requires w'.disputes == w.disputes[i := w'.disputes[i]]
    requires w'.rows[i].order.status.DISPUTED? <==> w'.disputes[i].status.OPEN?
    ensures DisputesAgree(w')
  {
  }

  lemma StepKeeps(w: World, op: DisputeOp)
    requires Consistent(w) && Step(w, op).Ok?
    ensures Consistent(Step(w, op).value)
  {
    var i := op.order;
    assert IsOrder(w, i);
    var w' := Step(w, op).value;
    if i !in w.disputes {
      if w' != w {
        OpeningKeeps(w, op);
      }
    } else if op.ResolveByAdmin? || op.TraderAccept? {
      DecideKeeps(w, i, RESOLVED, OrderStatus.SUCCESS, op.links);
    } else if op.RejectByAdmin? || op.TraderReject? {
      DecideKeeps(w, i, DisputeStatus.REJECTED, FAILED, []);
    } else if w' != w {
      NudgeKeeps(w, op);
    }
  }

  // The operations on an order without a dispute that change something open one.
  lemma OpeningKeeps(w: World, op: DisputeOp)
    requires Consistent(w) && Step(w, op).Ok? && IsOrder(w, op.order)
    requires op.order !in w.disputes && Step(w, op).value != w
    ensures Consistent(Step(w, op).value)
  {
    OpenKeeps(w, op.order, if op.OpenByMerchant? || op.OpenByAdmin? then None else op.requested);
  }

  // A request for proof touches only the dispute row.
  lemma NudgeKeeps(w: World, op: DisputeOp)
    requires Consistent(w) && Step(w, op).Ok? && IsOrder(w, op.order)
    requires op.order in w.disputes && Step(w, op).value != w
    requires op.OpenFromPremoderation? || op.ProofFromTraderGroup? || op.TraderRequestProof? || op.OpenByMerchant?
             || op.OpenByAdmin?
    ensures Consistent(Step(w, op).value)
  {
    AgreeElsewhere(w, Step(w, op).value, op.order);
  }

  // The history of one dispute is OPEN and then at most one decision: a dispute
  // row is never replaced, and a closed one never changes again.
  ghost predicate DisputesOnlyClose(w: World, w': World) {
    forall i | i in w.disputes ::
      && i in w'.disputes
      && (!w.disputes[i].status.OPEN? ==> w'.disputes[i] == w.disputes[i])
  }

  lemma StepOnlyCloses(w: World, op: DisputeOp)
    requires Step(w, op).Ok?
    ensures DisputesOnlyClose(w, Step(w, op).value)
  {
  }

  // A settled order is pulled back only by a merchant or admin open, never by
  // anything a trader or a proof request can do.
  lemma OnlyExplicitOpenUnsettles(w: World, op: DisputeOp, w': World, i: nat)
    requires Consistent(w) && Step(w, op) == Ok(w')
    requires IsOrder(w, i) && w.rows[i].order.status.SUCCESS?
    requires !(i < |w'.rows| && w'.rows[i] == w.rows[i])
    ensures op.order == i && (op.OpenByMerchant? || op.OpenByAdmin?)
    ensures IsOrder(w', i) && w'.rows[i].order.status.DISPUTED?
  {
    assert w.rows[i].order.status.DISPUTED? <==> DisputeOpen(w, i);
    assert IsOrder(w, op.order);
    OnlyRow(w, op);
    if i in w.disputes {
      ClosedIsInert(w, op);
    } else {
      OpensExplicitly(w, op);
    }
  }

  // A decided dispute is inert.
  lemma ClosedIsInert(w: World, op: DisputeOp)
    requires Step(w, op).Ok? && IsOrder(w, op.order) && Closed(w, op.order)
    ensures Step(w, op).value == w
  {
  }

  // Only the merchant's and the administrator's open reach a settled order.
  lemma OpensExplicitly(w: World, op: DisputeOp)
    requires Step(w, op).Ok? && IsOrder(w, op.order) && op.order !in w.disputes
    requires w.rows[op.order].order.status.SUCCESS? && Step(w, op).value != w
    ensures op.OpenByMerchant? || op.OpenByAdmin?
    ensures IsOrder(Step(w, op).value, op.order) && Step(w, op).value.rows[op.order].order.status.DISPUTED?
  {
  }

  // An operation on a dispute rewrites no order but its own.
  lemma OnlyRow(w: World, op: DisputeOp)
    requires Step(w, op).Ok? && IsOrder(w, op.order)
    ensures |Step(w, op).value.rows| == |w.rows|
    ensures Step(w, op).value.rows == w.rows[op.order := Step(w, op).value.rows[op.order]]
    ensures IsOrder(Step(w, op).value, op.order)
  {
  }

  // ── Confluence ──────────────────────────────────────────────────────────

  // Balances are a function of the rows and the direct entries.
  lemma {:induction false} SameRowsSameBalances(w: World, u: World, a: Account)
    requires Booked(w.ledger, w.rows) && Booked(u.ledger, u.rows) && w.rows == u.rows
    requires NetOn(w.ledger, None, a) == NetOn(u.ledger, None, a)
    ensures Net(w.ledger, a) == Net(u.ledger, a)
  {
    BalanceFromRows(w.ledger, w.rows, a);
    BalanceFromRows(u.ledger, u.rows, a);
  }

  // An order operation writes no direct entry.
  lemma {:induction false} FunnelWritesNoDirect(w: World, i: nat, to: OrderStatus, force: bool, links: seq<Link>,
                                                a: Account)
    requires Steady(w) && IsOrder(w, i) && OrderOk(w.rows[i])
    requires Reachable(w.rows[i].order, to, force) && !(force && IsTerminal(w.rows[i].order.status))
    requires !to.PENDING?
    requires ChangeStatus(w, i, to, force, links).Ok?
    ensures NetOn(ChangeStatus(w, i, to, force, links).value.ledger, None, a) == NetOn(w.ledger, None, a)
  {
    var o := w.rows[i].order;
    assert RewardsLiveAt(w.ledger, i, o);
    if to == o.status || o.trader.None? || to.RECEIPT_UPLOADED? {
    } else if to.DISPUTED? {
      ReconcileNet(w.ledger, i, o, a);
      PostAllNet(w.ledger, ReconcileLegs(w.ledger, i, o, o.status).value, Some(i), a);
    } else if to.SUCCESS? {
      CompleteOrderNet(i, o, RewardsFor(o.amount, links), a);
      PostAllNet(w.ledger, CompleteOrderLegs(i, o, RewardsFor(o.amount, links)).value, Some(i), a);
    } else {
      CancelOrderNet(i, o, a);
      if PostAll(w.ledger, CancelOrderLegs(i, o).value).Ok? {
        PostAllNet(w.ledger, CancelOrderLegs(i, o).value, Some(i), a);
      }
    }
  }

  // The status the order was disputed from leaves no trace in the money: `u` is
  // any history in which the same order is simply PENDING, with whatever reward
  // breakdown it had then. Opening and resolving in `w` gives every account the
  // balance of completing directly in `u`.
  lemma {:induction false} OpenResolveIsComplete(
      w: World, u: World, i: nat, before: seq<Reward>, proof: Option<Proof>, links: seq<Link>,
      w1: World, w2: World, u2: World, a: Account)
    requires Consistent(w) && Consistent(u) && IsOrder(w, i) && i !in w.disputes
    requires Disputable(w.rows[i].order.status) && w.rows[i].order.trader.Some?
    requires u.rows == w.rows[i := OrderRow(w.rows[i].order.(status := OrderStatus.PENDING, rewards := before))]
    requires NetOn(w.ledger, None, a) == NetOn(u.ledger, None, a)
    requires Open(w, i, proof) == Ok(w1) && Resolve(w1, i, links) == Ok(w2)
    requires ChangeStatus(u, i, OrderStatus.SUCCESS, false, links) == Ok(u2)
    ensures Net(w2.ledger, a) == Net(u2.ledger, a)
  {
    OpenedResolved(w, i, proof, links, w1, w2, a);
    CompletedFrom(u, i, links, u2, a);
    SameRowsSameBalances(w2, u2, a);
  }

  // Opening and rejecting gives every account the balance of a cancelled order.
  lemma {:induction false} OpenRejectIsCancel(
      w: World, u: World, i: nat, before: seq<Reward>, proof: Option<Proof>,
      w1: World, w2: World, u2: World, a: Account)
    requires Consistent(w) && Consistent(u) && IsOrder(w, i) && i !in w.disputes
    requires Disputable(w.rows[i].order.status) && w.rows[i].order.trader.Some?
    requires u.rows == w.rows[i := OrderRow(w.rows[i].order.(status := OrderStatus.PENDING, rewards := before))]
    requires NetOn(w.ledger, None, a) == NetOn(u.ledger, None, a)
    requires Open(w, i, proof) == Ok(w1) && Reject(w1, i) == Ok(w2)
    requires ChangeStatus(u, i, OrderStatus.CANCELED, false, []) == Ok(u2)
    ensures Net(w2.ledger, a) == Net(u2.ledger, a)
  {
    OpenedRejected(w, i, proof, w1, w2, a);
    ReleasedFrom(u, i, u2, a);
    ReleasedAlike(w2, u2, i, a);
  }

  lemma {:induction false} OpenedResolved(
      w: World, i: nat, proof: Option<Proof>, links: seq<Link>, w1: World, w2: World, a: Account)
    requires Consistent(w) && IsOrder(w, i) && i !in w.disputes
    requires Disputable(w.rows[i].order.status) && w.rows[i].order.trader.Some?
    requires Open(w, i, proof) == Ok(w1) && Resolve(w1, i, links) == Ok(w2)
    ensures Booked(w2.ledger, w2.rows) && NetOn(w2.ledger, None, a) == NetOn(w.ledger, None, a)
    ensures w2.rows == w.rows[i := OrderRow(w.rows[i].order.(status := OrderStatus.SUCCESS,
                                                            rewards := RewardsFor(w.rows[i].order.amount, links)))]
  {
    var v1 := Opened(w, i, proof, a);
    var v2 := Completed(w1.(disputes := w1.disputes[i := w1.disputes[i].(status := RESOLVED)]), i, links, a);
  }

  lemma {:induction false} OpenedRejected(w: World, i: nat, proof: Option<Proof>, w1: World, w2: World, a: Account)
    requires Consistent(w) && IsOrder(w, i) && i !in w.disputes
    requires Disputable(w.rows[i].order.status) && w.rows[i].order.trader.Some?
    requires Open(w, i, proof) == Ok(w1) && Reject(w1, i) == Ok(w2)
    ensures Booked(w2.ledger, w2.rows) && NetOn(w2.ledger, None, a) == NetOn(w.ledger, None, a)
    ensures w2.rows == w.rows[i := OrderRow(w.rows[i].order.(status := FAILED, rewards := []))]
  {
    var v1 := Opened(w, i, proof, a);
    var v2 := Released(w1.(disputes := w1.disputes[i := w1.disputes[i].(status := DisputeStatus.REJECTED)]), i, FAILED,
                       a);
  }

  lemma {:induction false} CompletedFrom(u: World, i: nat, links: seq<Link>, u2: World, a: Account)
    requires Kept(u) && IsOrder(u, i) && u.rows[i].order.status.PENDING?
    requires ChangeStatus(u, i, OrderStatus.SUCCESS, false, links) == Ok(u2)
    ensures Booked(u2.ledger, u2.rows) && NetOn(u2.ledger, None, a) == NetOn(u.ledger, None, a)
    ensures u2.rows == u.rows[i := OrderRow(u.rows[i].order.(status := OrderStatus.SUCCESS,
                                                            rewards := RewardsFor(u.rows[i].order.amount, links)))]
  {
    var v2 := Completed(u, i, links, a);
  }

  lemma {:induction false} ReleasedFrom(u: World, i: nat, u2: World, a: Account)
    requires Kept(u) && IsOrder(u, i) && u.rows[i].order.status.PENDING?
    requires ChangeStatus(u, i, OrderStatus.CANCELED, false, []) == Ok(u2)
    ensures Booked(u2.ledger, u2.rows) && NetOn(u2.ledger, None, a) == NetOn(u.ledger, None, a)
    ensures u2.rows == u.rows[i := OrderRow(u.rows[i].order.(status := OrderStatus.CANCELED, rewards := []))]
  {
    var v2 := Released(u, i, OrderStatus.CANCELED, a);
  }

  // Two ways of being released are the same for the money.
  lemma {:induction false} ReleasedAlike(w: World, u: World, i: nat, a: Account)
    requires Booked(w.ledger, w.rows) && Booked(u.ledger, u.rows) && |w.rows| == |u.rows|
    requires IsOrder(w, i) && IsOrder(u, i) && u.rows == w.rows[i := u.rows[i]]
    requires IsReleased(w.rows[i].order.status) && IsReleased(u.rows[i].order.status)
    requires NetOn(w.ledger, None, a) == NetOn(u.ledger, None, a)
    ensures Net(w.ledger, a) == Net(u.ledger, a)
  {
    BalanceFromRows(w.ledger, w.rows, a);
    BalanceFromRows(u.ledger, u.rows, a);
    EffectsDifferOnlyAt(w.rows, u.rows, i, a);
  }

  // Releasing a frozen order.
  lemma {:induction false} Released(w: World, i: nat, to: OrderStatus, a: Account) returns (w1: World)
    requires Kept(w) && IsOrder(w, i) && IsFrozen(w.rows[i].order.status) && (to.FAILED? || to.CANCELED?)
    requires ChangeStatus(w, i, to, false, []).Ok?
    ensures w1 == ChangeStatus(w, i, to, false, []).value && Kept(w1)
    ensures w1.rows == w.rows[i := OrderRow(w.rows[i].order.(status := to, rewards := []))]
    ensures NetOn(w1.ledger, None, a) == NetOn(w.ledger, None, a)
  {
    w1 := ChangeStatus(w, i, to, false, []).value;
    assert OrderOk(w.rows[i]);
    ChangeStatusKeeps(w, i, to, false, []);
    FunnelWritesNoDirect(w, i, to, false, [], a);
  }

  lemma Opened(w: World, i: nat, proof: Option<Proof>, a: Account) returns (w1: World)
    requires Consistent(w) && IsOrder(w, i) && i !in w.disputes
    requires Disputable(w.rows[i].order.status) && w.rows[i].order.trader.Some?
    requires Open(w, i, proof).Ok?
    ensures w1 == Open(w, i, proof).value && Consistent(w1)
    ensures w1.rows == w.rows[i := OrderRow(w.rows[i].order.(status := DISPUTED))]
    ensures i in w1.disputes && w1.disputes[i].status.OPEN? && IsOrder(w1, i)
    ensures NetOn(w1.ledger, None, a) == NetOn(w.ledger, None, a)
  {
    w1 := Open(w, i, proof).value;
    OpenKeeps(w, i, proof);
    var w0 := w.(disputes := w.disputes[i := Dispute(OPEN, proof)]);
    FunnelWritesNoDirect(w0, i, DISPUTED, false, [], a);
    ChangeStatusShape(w0, i, DISPUTED, false, []);
  }

  lemma {:induction false} SettledRow(w: World, i: nat, links: seq<Link>)
    requires IsOrder(w, i) && !w.rows[i].order.status.SUCCESS?
    requires ChangeStatus(w, i, OrderStatus.SUCCESS, false, links).Ok?
    ensures ChangeStatus(w, i, OrderStatus.SUCCESS, false, links).value.rows ==
            w.rows[i := OrderRow(w.rows[i].order.(status := OrderStatus.SUCCESS,
                                                  rewards := RewardsFor(w.rows[i].order.amount, links)))]
  {
  }

  lemma {:induction false} EffectsDifferOnlyAt(rows: seq<Row>, other: seq<Row>, i: nat, a: Account)
    requires |rows| == |other| && i < |rows|
    requires forall j | 0 <= j < |rows| && j != i :: rows[j] == other[j]
    requires Effect(rows[i], a) == Effect(other[i], a)
    ensures Effects(rows, a) == Effects(other, a)
  {
    if i < |rows| - 1 {
      EffectsDifferOnlyAt(rows[..|rows| - 1], other[..|rows| - 1], i, a);
    } else {
      assert rows[..|rows| - 1] == other[..|rows| - 1];
    }
  }

  lemma Completed(w: World, i: nat, links: seq<Link>, a: Account) returns (w1: World)
    requires Kept(w) && IsOrder(w, i) && IsFrozen(w.rows[i].order.status)
    requires ChangeStatus(w, i, OrderStatus.SUCCESS, false, links).Ok?
    ensures w1 == ChangeStatus(w, i, OrderStatus.SUCCESS, false, links).value && Kept(w1)
    ensures w1.rows == w.rows[i := OrderRow(w.rows[i].order.(status := OrderStatus.SUCCESS,
                                                            rewards := RewardsFor(w.rows[i].order.amount, links)))]
    ensures NetOn(w1.ledger, None, a) == NetOn(w.ledger, None, a)
    ensures w1.limits == Bump(w.limits, w.rows[i].order.requisite, w.rows[i].order.fiat)
  {
    w1 := ChangeStatus(w, i, OrderStatus.SUCCESS, false, links).value;
    assert OrderOk(w.rows[i]);
    ChangeStatusKeeps(w, i, OrderStatus.SUCCESS, false, links);
    FunnelWritesNoDirect(w, i, OrderStatus.SUCCESS, false, links, a);
    SettledRow(w, i, links);
  }

  lemma PulledBack(w: World, i: nat, a: Account) returns (w1: World)
    requires Kept(w) && IsOrder(w, i) && w.rows[i].order.status.SUCCESS?
    requires ChangeStatus(w, i, DISPUTED, false, []).Ok?
    ensures w1 == ChangeStatus(w, i, DISPUTED, false, []).value && Kept(w1)
    ensures w1.rows == w.rows[i := OrderRow(w.rows[i].order.(status := DISPUTED))]
    ensures NetOn(w1.ledger, None, a) == NetOn(w.ledger, None, a)
    ensures w1.limits == Unbump(w.limits, w.rows[i].order.requisite, w.rows[i].order.fiat)
  {
    w1 := ChangeStatus(w, i, DISPUTED, false, []).value;
    assert OrderOk(w.rows[i]);
    ChangeStatusKeeps(w, i, DISPUTED, false, []);
    FunnelWritesNoDirect(w, i, DISPUTED, false, [], a);
  }

  // `reconcile_for_dispute` is the inverse of `complete_order`: settling a frozen
  // order and disputing it restores every balance and both turnover counters.
  lemma {:induction false} DisputeUndoesCompletion(w: World, i: nat, links: seq<Link>, a: Account)
    requires Kept(w) && IsOrder(w, i) && Openable(w.rows[i].order.status)
    requires ChangeStatus(w, i, OrderStatus.SUCCESS, false, links).Ok?
    requires ChangeStatus(ChangeStatus(w, i, OrderStatus.SUCCESS, false, links).value, i, DISPUTED, false, []).Ok?
    ensures
      var w2 := ChangeStatus(ChangeStatus(w, i, OrderStatus.SUCCESS, false, links).value, i, DISPUTED, false, []).value;
      Net(w2.ledger, a) == Net(w.ledger, a) && w2.limits == w.limits
  {
    var o := w.rows[i].order;
    var w1 := Completed(w, i, links, a);
    var w2 := PulledBack(w1, i, a);
    BalanceFromRows(w.ledger, w.rows, a);
    BalanceFromRows(w2.ledger, w2.rows, a);
    EffectsDifferOnlyAt(w.rows, w2.rows, i, a);
    UnbumpUndoesBump(w.limits, o.requisite, o.fiat);
  }

  // A dispute that is resolved for the merchant on an order that was settled all
  // along changes no balance; the turnover goes out and comes back.
  lemma {:induction false} DisputeThenResolveIsNothing(
      w: World, w1: World, w2: World, i: nat, proof: Option<Proof>, links: seq<Link>, a: Account)
    requires Consistent(w) && IsOrder(w, i) && i !in w.disputes && w.rows[i].order.status.SUCCESS?
    requires w.rows[i].order.rewards == RewardsFor(w.rows[i].order.amount, links)
    requires Open(w, i, proof) == Ok(w1) && Resolve(w1, i, links) == Ok(w2)
    ensures Net(w2.ledger, a) == Net(w.ledger, a) && w2.rows == w.rows
    ensures w2.limits == Bump(Unbump(w.limits, w.rows[i].order.requisite, w.rows[i].order.fiat),
                              w.rows[i].order.requisite, w.rows[i].order.fiat)
  {
    assert OrderOk(w.rows[i]);
    OpenedResolved(w, i, proof, links, w1, w2, a);
    SameRowsSameBalances(w, w2, a);
    TurnoverGoesOut(w, i, proof, w1);
    TurnoverComesBack(w1, i, links, w2);
  }

  lemma {:induction false} TurnoverGoesOut(w: World, i: nat, proof: Option<Proof>, w1: World)
    requires IsOrder(w, i) && w.rows[i].order.status.SUCCESS? && OrderOk(w.rows[i]) && Open(w, i, proof) == Ok(w1)
    ensures w1.limits == Unbump(w.limits, w.rows[i].order.requisite, w.rows[i].order.fiat)
    ensures IsOrder(w1, i) && w1.rows[i].order == w.rows[i].order.(status := DISPUTED)
  {
  }

  lemma {:induction false} TurnoverComesBack(w1: World, i: nat, links: seq<Link>, w2: World)
    requires IsOrder(w1, i) && w1.rows[i].order.status.DISPUTED? && Resolve(w1, i, links) == Ok(w2)
    ensures w2.limits == Bump(w1.limits, w1.rows[i].order.requisite, w1.rows[i].order.fiat)
  {
  }

  // ── When a dispute opens ────────────────────────────────────────────────

  // What opening a dispute on a settled order has to take back is still there:
  // every teamlead has its rewards, the system float can return the fee once the
  // rewards and the trader's fee are back in it, and the merchant has the amount
  // once it has the fee.
  predicate CanUnsettle(l: seq<Entry>, o: Order) {
    && (forall t: nat | t in Paid(o.rewards) :: RewardOf(o.rewards, t) <= Net(l, Work(Teamlead(t))))
    && o.fee <= Net(l, SYSTEM_WORK) + RewardSum(o.rewards) + o.traderFee
    && o.amount <= Net(l, Work(Merchant(o.merchant))) + o.fee
  }

  function Paid(rewards: seq<Reward>): set<nat> {
    set k | 0 <= k < |rewards| :: rewards[k].teamlead
  }

  // A dispute opens on an assigned order that has none exactly from the five
  // disputable statuses and, if the order is settled, exactly when what was paid
  // out can still be taken back. The administrator and the merchant are on the
  // same terms.
  lemma {:induction false} OpensExactlyFromDisputable(w: World, i: nat)
    requires Consistent(w) && IsOrder(w, i) && i !in w.disputes && w.rows[i].order.trader.Some?
    ensures OpenByAdminStep(w, i).Ok? <==>
            && Disputable(w.rows[i].order.status)
            && (w.rows[i].order.status.SUCCESS? ==> CanUnsettle(w.ledger, w.rows[i].order))
    ensures OpenByMerchantStep(w, i, w.rows[i].order.merchant).Ok? <==> OpenByAdminStep(w, i).Ok?
  {
    var o := w.rows[i].order;
    assert OrderOk(w.rows[i]);
    assert RewardsLiveAt(w.ledger, i, o);
    if o.status.SUCCESS? {
      UnsettlesExactly(w.ledger, i, o);
    } else if Disputable(o.status) {
      RefreezesAlways(w.ledger, i, o);
    }
  }

  // The freeze of an unsettled order may overdraw the trader's WORK.
  lemma {:induction false} RefreezesAlways(l: seq<Entry>, i: nat, o: Order)
    requires Disputable(o.status) && !o.status.SUCCESS? && o.trader.Some? && o.direction == PAYIN
    ensures ReconcileLegs(l, i, o, o.status).Ok? && PostAll(l, ReconcileLegs(l, i, o, o.status).value).Ok?
  {
    var legs := ReconcileLegs(l, i, o, o.status).value;
    if legs != [] {
      PostAllOne(l, legs[0]);
    }
  }

  // The rewards, then the three transfers of the settlement, backwards.
  lemma {:induction false} UnsettlesExactly(l: seq<Entry>, i: nat, o: Order)
    requires Solvent(l) && LivePayments(l, i) == RewardEntries(i, o.rewards) && Positive(o.rewards)
    requires o.trader.Some? && o.direction == PAYIN && o.amount > 0
    ensures PostAll(l, ReconcileLegs(l, i, o, OrderStatus.SUCCESS).value).Ok? <==> CanUnsettle(l, o)
  {
    var undo := ReversalLegs(RewardEntries(i, o.rewards));
    assert ReconcileLegs(l, i, o, OrderStatus.SUCCESS).value == undo + UndoLegs(i, o);
    PostAllConcat(l, undo, UndoLegs(i, o));
    TeamleadsCover(l, o.rewards);
    RewardsReturnable(l, i, o.rewards);
    if PostAll(l, undo).Ok? {
      RewardsBack(l, i, o.rewards, SYSTEM_WORK);
      RewardsBack(l, i, o.rewards, Work(Merchant(o.merchant)));
      PostAllSolvent(l, undo);
      UndoExactly(PostAll(l, undo).value, i, o);
    }
  }

  // Only teamleads that were paid matter.
  lemma {:induction false} TeamleadsCover(l: seq<Entry>, rewards: seq<Reward>)
    requires Solvent(l)
    ensures forall t: nat :: Net(l, Work(Teamlead(t))) >= 0
    ensures (forall t: nat :: RewardOf(rewards, t) <= Net(l, Work(Teamlead(t)))) <==>
            (forall t: nat | t in Paid(rewards) :: RewardOf(rewards, t) <= Net(l, Work(Teamlead(t))))
  {
    forall t: nat ensures Net(l, Work(Teamlead(t))) >= 0 && (t !in Paid(rewards) ==> RewardOf(rewards, t) == 0) {
      assert !MayOverdraw(Work(Teamlead(t)));
      UnpaidHasNone(rewards, t);
    }
  }

  lemma {:induction false} UnpaidHasNone(rewards: seq<Reward>, t: nat)
    ensures t !in Paid(rewards) ==> RewardOf(rewards, t) == 0
  {
    if rewards != [] && t !in Paid(rewards) {
      assert rewards[0].teamlead in Paid(rewards);
      forall k | 0 <= k < |rewards[1..]| ensures rewards[1..][k].teamlead != t {
        assert rewards[k + 1].teamlead in Paid(rewards);
      }
      UnpaidHasNone(rewards[1..], t);
    }
  }

  // Reversing the rewards brings them back into the float and nowhere else.
  lemma {:induction false} RewardsBack(l: seq<Entry>, i: nat, rewards: seq<Reward>, a: Account)
    requires PostAll(l, ReversalLegs(RewardEntries(i, rewards))).Ok? && !a.owner.Teamlead?
    ensures Net(PostAll(l, ReversalLegs(RewardEntries(i, rewards))).value, a) ==
            Net(l, a) + if a == SYSTEM_WORK then RewardSum(rewards) else 0
    ensures For(ReversalLegs(RewardEntries(i, rewards)), Some(i))
  {
    ReversalLegsNet(i, rewards, a);
    RewardEffectAt(rewards, a);
    PostAllNet(l, ReversalLegs(RewardEntries(i, rewards)), Some(i), a);
  }

  lemma {:induction false} UndoExactly(l: seq<Entry>, i: nat, o: Order)
    requires o.trader.Some? && o.amount > 0 && Net(l, SYSTEM_WORK) >= 0
    ensures PostAll(l, UndoLegs(i, o)).Ok? <==>
            && o.fee <= Net(l, SYSTEM_WORK) + o.traderFee
            && o.amount <= Net(l, Work(Merchant(o.merchant))) + o.fee
  {
    var legs, work := UndoLegs(i, o), Work(Merchant(o.merchant));
    PostAllThree(l, legs[0], legs[1], legs[2]);
    var l1 := Post(l, legs[0]).value;
    NetAppend(l, legs[0].entry, SYSTEM_WORK);
    NetAppend(l, legs[0].entry, work);
    assert Net(l1, SYSTEM_WORK) == Net(l, SYSTEM_WORK) + o.traderFee && Net(l1, work) == Net(l, work);
    if Post(l1, legs[1]).Ok? {
      NetAppend(l1, legs[1].entry, work);
      assert Net(Post(l1, legs[1]).value, work) == Net(l, work) + o.fee;
    }
  }

  // A dispute on an order that is not settled always opens: the collateral is
  // re-frozen even if the trader has already spent it.
  lemma {:induction false} UnsettledAlwaysOpens(w: World, i: nat)
    requires Consistent(w) && IsOrder(w, i) && i !in w.disputes && w.rows[i].order.trader.Some?
    requires Disputable(w.rows[i].order.status) && !w.rows[i].order.status.SUCCESS?
    ensures OpenByAdminStep(w, i).Ok?
  {
    OpensExactlyFromDisputable(w, i);
  }
}
