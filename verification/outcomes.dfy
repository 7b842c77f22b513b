// What the operations mean to their callers: when each is accepted, which row it
// leaves, and what every balance becomes. Nothing here refers to the transition
// tables, the transfer lists or the positions the operations are defined with.

module Outcomes {
  import opened Common
  import opened Rounding
  import opened Ledger
  import opened Rows
  import opened Finance
  import opened Database
  import opened OrderService
  import Platform

  // ── Figures ─────────────────────────────────────────────────────────────

  // `amount` is the nearest 0.0001 to fiat / rate, the even one of two.
  predicate IsQuotient(fiat: nat, rate: nat, amount: nat) {
    && 0 - rate <= 2 * (amount * rate - fiat * 10_000) <= rate
    && ((2 * (amount * rate - fiat * 10_000) == rate || 2 * (fiat * 10_000 - amount * rate) == rate) ==>
          amount % 2 == 0)
  }

  // `share` is the nearest 0.0001 to `percent` of `amount`, the even one of two.
  predicate IsShare(amount: nat, percent: nat, share: nat) {
    && -1_000_000 <= 2 * (share * 1_000_000 - amount * percent) <= 1_000_000
    && ((2 * (share * 1_000_000 - amount * percent) == 1_000_000
         || 2 * (amount * percent - share * 1_000_000) == 1_000_000) ==> share % 2 == 0)
  }

  lemma QuotientIs(fiat: nat, rate: nat, amount: nat)
    requires rate > 0
    ensures IsQuotient(fiat, rate, amount) <==> amount == HalfEven(fiat * UNIT, rate)
  {
    if IsQuotient(fiat, rate, amount) {
      HalfEvenUnique(fiat * UNIT, rate, amount);
    }
  }

  lemma ShareIs(amount: nat, percent: nat, share: nat)
    ensures IsShare(amount, percent, share) <==> share == HalfEven(amount * percent, PERCENT)
  {
    if IsShare(amount, percent, share) {
      HalfEvenUnique(amount * percent, PERCENT, share);
    }
  }

  // One share per link, and what they come to for one teamlead.
  predicate AreShares(amount: nat, links: seq<Link>, shares: seq<nat>) {
    |shares| == |links| && forall k | 0 <= k < |links| :: IsShare(amount, links[k].percent, shares[k])
  }

  function SharesOf(links: seq<Link>, shares: seq<nat>, teamlead: nat): nat
    requires |shares| == |links|
  {
    if links == [] then 0
    else (if links[0].teamlead == teamlead then shares[0] else 0) + SharesOf(links[1..], shares[1..], teamlead)
  }

  function SumOf(shares: seq<nat>): nat {
    if shares == [] then 0 else shares[0] + SumOf(shares[1..])
  }

  // The rewards of a settlement pay every link its share of the amount.
  lemma {:induction false} RewardsAreShares(amount: nat, links: seq<Link>, shares: seq<nat>, teamlead: nat)
    requires AreShares(amount, links, shares)
    ensures RewardSum(RewardsFor(amount, links)) == SumOf(shares)
    ensures RewardOf(RewardsFor(amount, links), teamlead) == SharesOf(links, shares, teamlead)
  {
    if links != [] {
      ShareIs(amount, links[0].percent, shares[0]);
      var rest := RewardsFor(amount, links[1..]);
      RewardsAreShares(amount, links[1..], shares[1..], teamlead);
      if shares[0] > 0 {
        assert RewardsFor(amount, links)[1..] == rest;
      } else {
        assert RewardsFor(amount, links) == rest;
      }
    }
  }

  // ── Turnover ────────────────────────────────────────────────────────────

  // The counters of one requisite grow by an amount of fiat; nothing else changes.
  predicate TurnoverGrows(limits: map<nat, Limit>, limits': map<nat, Limit>, requisite: Option<nat>, fiat: nat) {
    && limits'.Keys == limits.Keys
    && forall k | k in limits :: limits'[k] ==
         if requisite == Some(k) then Limit(limits[k].cap, limits[k].daily + fiat, limits[k].monthly + fiat)
         else limits[k]
  }

  // They shrink by it, to zero at the least.
  predicate TurnoverShrinks(limits: map<nat, Limit>, limits': map<nat, Limit>, requisite: Option<nat>, fiat: nat) {
    && limits'.Keys == limits.Keys
    && forall k | k in limits :: limits'[k] ==
         if requisite == Some(k)
         then Limit(limits[k].cap,
                    if limits[k].daily < fiat then 0 else limits[k].daily - fiat,
                    if limits[k].monthly < fiat then 0 else limits[k].monthly - fiat)
         else limits[k]
  }

  // ── Balances ────────────────────────────────────────────────────────────

  // What moving an amount from one account to another does to a third.
  function Between(a: Account, from: Account, to: Account, amount: int): int {
    At(a, to, amount) - At(a, from, amount)
  }

  // What paying rewards out of the system float does.
  function Rewarded(a: Account, rewards: seq<Reward>): int {
    (if a.owner.Teamlead? && a == Work(a.owner) then RewardOf(rewards, a.owner.user) else 0)
    - At(a, SYSTEM_WORK, RewardSum(rewards))
  }

  lemma {:induction false} RewardedIs(rewards: seq<Reward>, a: Account)
    ensures RewardEffect(rewards, a) == Rewarded(a, rewards)
  {
    if rewards != [] {
      RewardedIs(rewards[1..], a);
    }
  }

  lemma {:induction false} EffectsUpdate(rows: seq<Row>, i: nat, row: Row, a: Account)
    requires i < |rows|
    ensures Effects(rows[i := row], a) == Effects(rows, a) - Effect(rows[i], a) + Effect(row, a)
  {
    var n := |rows| - 1;
    if i < n {
      assert rows[i := row][..n] == rows[..n][i := row];
      EffectsUpdate(rows[..n], i, row, a);
    } else {
      assert rows[i := row][..n] == rows[..n];
    }
  }

  // The balances moved by what one row's position changed.
  ghost predicate Shifted(l: seq<Entry>, l': seq<Entry>, before: Row, after: Row) {
    forall a :: Net(l', a) == Net(l, a) + Effect(after, a) - Effect(before, a)
  }

  ghost predicate Entered(l: seq<Entry>, l': seq<Entry>, row: Row) {
    forall a :: Net(l', a) == Net(l, a) + Effect(row, a)
  }

  // An operation that rewrites one row moves what that row's position changes.
  lemma {:induction false} Rewrites(w: World, op: Platform.Op, w': World, i: nat, row: Row)
    requires Consistent(w) && !Platform.IsDirect(op) && Platform.Step(w, op) == Ok(w')
    requires i < |w.rows| && w'.rows == w.rows[i := row]
    ensures Consistent(w') && Shifted(w.ledger, w'.ledger, w.rows[i], row)
  {
    Platform.StepKeeps(w, op);
    forall a ensures Net(w'.ledger, a) == Net(w.ledger, a) + Effect(row, a) - Effect(w.rows[i], a) {
      Platform.RowStepMoves(w, op, a);
      EffectsUpdate(w.rows, i, row, a);
    }
  }

  // An operation that adds one row moves that row's position.
  lemma {:induction false} Enters(w: World, op: Platform.Op, w': World, row: Row)
    requires Consistent(w) && !Platform.IsDirect(op) && Platform.Step(w, op) == Ok(w')
    requires w'.rows == w.rows + [row]
    ensures Consistent(w') && Entered(w.ledger, w'.ledger, row)
  {
    Platform.StepKeeps(w, op);
    forall a ensures Net(w'.ledger, a) == Net(w.ledger, a) + Effect(row, a) {
      Platform.RowStepMoves(w, op, a);
      assert w'.rows[..|w.rows|] == w.rows;
    }
  }
}
