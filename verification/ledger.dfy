// The double-entry ledger of finance/service.py: `transfer` and what follows
// from it alone. The ledger is the append-only sequence of entries; the balance
// of an account is what its entries net to. The stored balance column is a
// cache of that number, kept by the class in session.dfy.

module Ledger {
  import opened Common

  datatype Currency = RUB | AZN | USDT

  datatype BalanceType = WORK | ESCROW | SAFE_DEPOSIT

  // A user has exactly one role; merchants and payout terminals own balances too.
  datatype Owner =
    | Trader(user: nat)
    | Teamlead(user: nat)
    | MerchantOwner(user: nat)
    | Merchant(merchant: nat)
    | PayoutTerminal(terminal: nat)
    | System

  datatype Account = Account(owner: Owner, kind: BalanceType, currency: Currency)

  datatype ReferenceType =
    | ORDER_PAYIN
    | ORDER_PAYOUT
    | SYSTEM_COMMISSION
    | DEPOSIT
    | WITHDRAWAL
    | INTERNAL_TRANSFER
    | TEAMLEAD_REWARD
    | TRADER_REWARD
    | RECEIPT_CHECK
    | RECEIPT_CHECK_REFUND
    | DOLIV

  // The suffix of a reference id: "5", "5_reversal", "5_dispute_reverse", "5_dispute_freeze".
  datatype Tag = Plain | Reversal | DisputeReverse | DisputeFreeze

  // `row` is the business row an entry was written for; direct deposits,
  // withdrawals and adjustments have none.
  datatype Reference = Reference(kind: ReferenceType, row: Option<nat>, tag: Tag)

  datatype Entry = Entry(
    from: Option<Account>,
    to: Option<Account>,
    amount: int,
    currency: Currency,
    reference: Reference)

  // One call of `transfer`. `overdraft` is `allow_negative`; `optional` is the
  // `if fee > 0:` that guards some calls.
  datatype Leg = Leg(entry: Entry, overdraft: bool, optional: bool)

  datatype Error =
    | AmountNotPositive
    | NoBalanceGiven
    | BalanceNotFound
    | FromCurrencyMismatch
    | InsufficientFunds
    | ToCurrencyMismatch
    | Validation
    | Conflict
    | NotFound
    | Forbidden

  // What one entry adds to an account.
  function Credit(e: Entry, a: Account): int {
    (if e.to == Some(a) then e.amount else 0) - (if e.from == Some(a) then e.amount else 0)
  }

  // The balance of an account: the fold of the whole ledger.
  function Net(l: seq<Entry>, a: Account): int {
    if l == [] then 0 else Net(l[..|l| - 1], a) + Credit(l[|l| - 1], a)
  }

  // The same fold over the entries written for one row (or for none).
  function NetOn(l: seq<Entry>, row: Option<nat>, a: Account): int {
    if l == [] then 0
    else
      NetOn(l[..|l| - 1], row, a) +
      if l[|l| - 1].reference.row == row then Credit(l[|l| - 1], a) else 0
  }

  // The checks of `transfer` in their order.
  function Check(l: seq<Entry>, e: Entry, overdraft: bool): Option<Error> {
    if e.amount <= 0 then Some(AmountNotPositive)
    else if e.from.None? && e.to.None? then Some(NoBalanceGiven)
    else if e.from.Some? && e.from.value.currency != e.currency then Some(FromCurrencyMismatch)
    else if e.from.Some? && !overdraft && Net(l, e.from.value) < e.amount then Some(InsufficientFunds)
    else if e.to.Some? && e.to.value.currency != e.currency then Some(ToCurrencyMismatch)
    else None
  }

  predicate Skipped(leg: Leg) {
    leg.optional && leg.entry.amount <= 0
  }

  function Post(l: seq<Entry>, leg: Leg): Result<seq<Entry>, Error> {
    if Skipped(leg) then Ok(l)
    else
      match Check(l, leg.entry, leg.overdraft)
      case Some(error) => Err(error)
      case None => Ok(l + [leg.entry])
  }

  // Several transfers inside one transaction: all of them, or none.
  function PostAll(l: seq<Entry>, legs: seq<Leg>): Result<seq<Entry>, Error>
    decreases legs
  {
    if legs == [] then Ok(l)
    else
      match Post(l, legs[0])
      case Err(error) => Err(error)
      case Ok(next) => PostAll(next, legs[1..])
  }

  // What a list of legs adds to an account when all of them are posted.
  function LegNet(leg: Leg, a: Account): int {
    if Skipped(leg) then 0 else Credit(leg.entry, a)
  }

  function LegsNet(legs: seq<Leg>, a: Account): int {
    if legs == [] then 0 else LegNet(legs[0], a) + LegsNet(legs[1..], a)
  }

  // The entries a list of legs writes.
  function Written(legs: seq<Leg>): seq<Entry> {
    if legs == [] then []
    else (if Skipped(legs[0]) then [] else [legs[0].entry]) + Written(legs[1..])
  }

  // `allow_negative` is passed only for a trader's USDT WORK balance.
  predicate MayOverdraw(a: Account) {
    a.owner.Trader? && a.kind == WORK && a.currency == USDT
  }

  ghost predicate Solvent(l: seq<Entry>) {
    forall a :: !MayOverdraw(a) ==> Net(l, a) >= 0
  }

  predicate Careful(leg: Leg) {
    leg.overdraft ==> leg.entry.from.Some? && MayOverdraw(leg.entry.from.value)
  }

  // Legs written for one row.
  predicate For(legs: seq<Leg>, row: Option<nat>) {
    forall k | 0 <= k < |legs| :: legs[k].entry.reference.row == row && Careful(legs[k])
  }

  lemma {:induction false} NetAppend(l: seq<Entry>, e: Entry, a: Account)
    ensures Net(l + [e], a) == Net(l, a) + Credit(e, a)
  {
  }

  lemma {:induction false} NetOnAppend(l: seq<Entry>, e: Entry, row: Option<nat>, a: Account)
    ensures NetOn(l + [e], row, a) == NetOn(l, row, a) + if e.reference.row == row then Credit(e, a) else 0
  {
  }

  lemma {:induction false} PostAllWrites(l: seq<Entry>, legs: seq<Leg>)
    requires PostAll(l, legs).Ok?
    ensures PostAll(l, legs).value == l + Written(legs)
    decreases legs
  {
    if legs != [] {
      var next := Post(l, legs[0]).value;
      PostAllWrites(next, legs[1..]);
      assert next + Written(legs[1..]) == l + Written(legs);
    }
  }

  // Posting legs of one row moves every balance by their net, and touches the
  // account of no other row.
  lemma {:induction false} PostAllNet(l: seq<Entry>, legs: seq<Leg>, row: Option<nat>, a: Account)
    requires PostAll(l, legs).Ok?
    requires For(legs, row)
    ensures Net(PostAll(l, legs).value, a) == Net(l, a) + LegsNet(legs, a)
    ensures NetOn(PostAll(l, legs).value, row, a) == NetOn(l, row, a) + LegsNet(legs, a)
    ensures forall other :: other != row ==> NetOn(PostAll(l, legs).value, other, a) == NetOn(l, other, a)
    decreases legs
  {
    if legs != [] {
      var next := Post(l, legs[0]).value;
      PostAllNet(next, legs[1..], row, a);
      if !Skipped(legs[0]) {
        NetAppend(l, legs[0].entry, a);
        NetOnAppend(l, legs[0].entry, row, a);
        forall other | other != row ensures NetOn(next, other, a) == NetOn(l, other, a) {
          NetOnAppend(l, legs[0].entry, other, a);
        }
      }
    }
  }

  // No balance other than a trader's WORK can be driven below zero.
  lemma {:induction false} PostAllSolvent(l: seq<Entry>, legs: seq<Leg>)
    requires Solvent(l)
    requires PostAll(l, legs).Ok?
    requires forall k | 0 <= k < |legs| :: Careful(legs[k])
    ensures Solvent(PostAll(l, legs).value)
    decreases legs
  {
    if legs != [] {
      var next := Post(l, legs[0]).value;
      forall a | !MayOverdraw(a) ensures Net(next, a) >= 0 {
        if !Skipped(legs[0]) {
          NetAppend(l, legs[0].entry, a);
        }
      }
      PostAllSolvent(next, legs[1..]);
    }
  }

  // Posting is sequential: two lists one after the other are one list.
  lemma {:induction false} PostAllConcat(l: seq<Entry>, first: seq<Leg>, second: seq<Leg>)
    ensures PostAll(l, first + second) ==
            match PostAll(l, first)
            case Err(error) => Err(error)
            case Ok(next) => PostAll(next, second)
    decreases first
  {
    if first == [] {
      assert first + second == second;
    } else {
      assert (first + second)[1..] == first[1..] + second;
      if Post(l, first[0]).Ok? {
        PostAllConcat(Post(l, first[0]).value, first[1..], second);
      }
    }
  }

  function Then(r: Result<seq<Entry>, Error>, leg: Leg): Result<seq<Entry>, Error> {
    if r.Ok? then Post(r.value, leg) else r
  }

  // Short lists, transfer by transfer.
  lemma {:induction false} PostAllOne(l: seq<Entry>, x: Leg)
    ensures PostAll(l, [x]) == Post(l, x)
  {
  }

  lemma {:induction false} PostAllTwo(l: seq<Entry>, x: Leg, y: Leg)
    ensures PostAll(l, [x, y]) == Then(Post(l, x), y)
  {
    assert [x, y] == [x] + [y];
    PostAllConcat(l, [x], [y]);
    PostAllOne(l, x);
    if Post(l, x).Ok? {
      PostAllOne(Post(l, x).value, y);
    }
  }

  lemma {:induction false} PostAllThree(l: seq<Entry>, x: Leg, y: Leg, z: Leg)
    ensures PostAll(l, [x, y, z]) == Then(Then(Post(l, x), y), z)
  {
    assert [x, y, z] == [x, y] + [z];
    PostAllConcat(l, [x, y], [z]);
    PostAllTwo(l, x, y);
    if PostAll(l, [x, y]).Ok? {
      PostAllOne(PostAll(l, [x, y]).value, z);
    }
  }

  lemma {:induction false} LegsNetConcat(first: seq<Leg>, second: seq<Leg>, a: Account)
    ensures LegsNet(first + second, a) == LegsNet(first, a) + LegsNet(second, a)
  {
    if first == [] {
      assert first + second == second;
    } else {
      assert (first + second)[1..] == first[1..] + second;
      LegsNetConcat(first[1..], second, a);
    }
  }

  lemma {:induction false} WrittenConcat(first: seq<Leg>, second: seq<Leg>)
    ensures Written(first + second) == Written(first) + Written(second)
  {
    if first == [] {
      assert first + second == second;
    } else {
      assert (first + second)[1..] == first[1..] + second;
      WrittenConcat(first[1..], second);
    }
  }

  // Every entry belongs to exactly one row or to none, so a balance splits into
  // the direct part and one part per row.
  function RowsNet(l: seq<Entry>, n: nat, a: Account): int {
    if n == 0 then 0 else RowsNet(l, n - 1, a) + NetOn(l, Some(n - 1), a)
  }

  ghost predicate RefersBelow(l: seq<Entry>, n: nat) {
    forall k | 0 <= k < |l| :: l[k].reference.row.Some? ==> l[k].reference.row.value < n
  }

  lemma {:induction false} RowsNetAppend(l: seq<Entry>, e: Entry, n: nat, a: Account)
    ensures RowsNet(l + [e], n, a) ==
            RowsNet(l, n, a) + if e.reference.row.Some? && e.reference.row.value < n then Credit(e, a) else 0
  {
    if n > 0 {
      RowsNetAppend(l, e, n - 1, a);
      NetOnAppend(l, e, Some(n - 1), a);
    }
  }

  lemma {:induction false} Partition(l: seq<Entry>, n: nat, a: Account)
    requires RefersBelow(l, n)
    ensures Net(l, a) == NetOn(l, None, a) + RowsNet(l, n, a)
  {
    if l == [] {
      RowsNetEmpty(n, a);
    } else {
      var init, e := l[..|l| - 1], l[|l| - 1];
      assert l == init + [e];
      assert l[|l| - 1].reference.row.Some? ==> l[|l| - 1].reference.row.value < n;
      Partition(init, n, a);
      RowsNetAppend(init, e, n, a);
      NetOnAppend(init, e, None, a);
    }
  }

  lemma {:induction false} RowsNetEmpty(n: nat, a: Account)
    ensures RowsNet([], n, a) == 0
  {
    if n > 0 {
      RowsNetEmpty(n - 1, a);
    }
  }

  // If no part of a balance is negative, each part is covered by the balance.
  lemma {:induction false} Covered(l: seq<Entry>, n: nat, a: Account, i: nat)
    requires RefersBelow(l, n) && i < n
    requires NetOn(l, None, a) >= 0
    requires forall j | 0 <= j < n && j != i :: NetOn(l, Some(j), a) >= 0
    ensures Net(l, a) >= NetOn(l, Some(i), a)
  {
    Partition(l, n, a);
    CoveredRows(l, n, a, i);
  }

  lemma {:induction false} CoveredRows(l: seq<Entry>, n: nat, a: Account, i: nat)
    requires forall j | 0 <= j < n && j != i :: NetOn(l, Some(j), a) >= 0
    ensures RowsNet(l, n, a) >= if i < n then NetOn(l, Some(i), a) else 0
  {
    if n > 0 {
      CoveredRows(l, n - 1, a, i);
      if n - 1 != i {
        assert NetOn(l, Some(n - 1), a) >= 0;
      }
    }
  }

  // ── Conservation ────────────────────────────────────────────────────────

  // The platform total in one currency over a set of accounts.
  ghost function Total(l: seq<Entry>, accounts: set<Account>, c: Currency): int {
    if accounts == {} then 0
    else
      var a :| a in accounts;
      (if a.currency == c then Net(l, a) else 0) + Total(l, accounts - {a}, c)
  }

  // Money that entered or left through one-sided entries.
  function External(l: seq<Entry>, c: Currency): int {
    if l == [] then 0
    else External(l[..|l| - 1], c) + OneSided(l[|l| - 1], c)
  }

  function OneSided(e: Entry, c: Currency): int {
    if e.currency != c then 0
    else (if e.from.None? then e.amount else 0) - (if e.to.None? then e.amount else 0)
  }

  // Both accounts of an entry are known and in the currency of the entry.
  predicate Within(e: Entry, accounts: set<Account>) {
    && (e.from.Some? ==> e.from.value in accounts && e.from.value.currency == e.currency)
    && (e.to.Some? ==> e.to.value in accounts && e.to.value.currency == e.currency)
    && (e.from.Some? || e.to.Some?)
  }

  ghost function TotalCredit(e: Entry, accounts: set<Account>, c: Currency): int {
    if accounts == {} then 0
    else
      var a :| a in accounts;
      (if a.currency == c then Credit(e, a) else 0) + TotalCredit(e, accounts - {a}, c)
  }

  lemma {:induction false} TotalAppend(l: seq<Entry>, e: Entry, accounts: set<Account>, c: Currency)
    ensures Total(l + [e], accounts, c) == Total(l, accounts, c) + TotalCredit(e, accounts, c)
  {
    if accounts != {} {
      var a :| a in accounts && Total(l + [e], accounts, c) ==
        (if a.currency == c then Net(l + [e], a) else 0) + Total(l + [e], accounts - {a}, c);
      TotalPick(l, accounts, a, c);
      TotalCreditPick(e, accounts, a, c);
      TotalAppend(l, e, accounts - {a}, c);
      NetAppend(l, e, a);
    }
  }

  // A finite sum may start with any element.
  lemma {:induction false} TotalPick(l: seq<Entry>, accounts: set<Account>, a: Account, c: Currency)
    requires a in accounts
    ensures Total(l, accounts, c) == (if a.currency == c then Net(l, a) else 0) + Total(l, accounts - {a}, c)
    decreases accounts
  {
    var b :| b in accounts && Total(l, accounts, c) ==
      (if b.currency == c then Net(l, b) else 0) + Total(l, accounts - {b}, c);
    if b != a {
      TotalPick(l, accounts - {b}, a, c);
      TotalPick(l, accounts - {a}, b, c);
      assert accounts - {b} - {a} == accounts - {a} - {b};
    }
  }

  lemma {:induction false} TotalCreditPick(e: Entry, accounts: set<Account>, a: Account, c: Currency)
    requires a in accounts
    ensures TotalCredit(e, accounts, c) ==
            (if a.currency == c then Credit(e, a) else 0) + TotalCredit(e, accounts - {a}, c)
    decreases accounts
  {
    var b :| b in accounts && TotalCredit(e, accounts, c) ==
      (if b.currency == c then Credit(e, b) else 0) + TotalCredit(e, accounts - {b}, c);
    if b != a {
      TotalCreditPick(e, accounts - {b}, a, c);
      TotalCreditPick(e, accounts - {a}, b, c);
      assert accounts - {b} - {a} == accounts - {a} - {b};
    }
  }

  lemma {:induction false} TotalCreditZero(e: Entry, accounts: set<Account>, c: Currency)
    requires e.from.Some? ==> e.from.value !in accounts
    requires e.to.Some? ==> e.to.value !in accounts
    ensures TotalCredit(e, accounts, c) == 0
    decreases accounts
  {
    if accounts != {} {
      var a :| a in accounts && TotalCredit(e, accounts, c) ==
        (if a.currency == c then Credit(e, a) else 0) + TotalCredit(e, accounts - {a}, c);
      assert Credit(e, a) == 0;
      TotalCreditZero(e, accounts - {a}, c);
    }
  }

  lemma {:induction false} EntryConserves(e: Entry, accounts: set<Account>, c: Currency)
    requires Within(e, accounts)
    ensures TotalCredit(e, accounts, c) == OneSided(e, c)
  {
    var rest := accounts;
    if e.from.Some? {
      TotalCreditPick(e, rest, e.from.value, c);
      rest := rest - {e.from.value};
    }
    if e.to.Some? && e.to != e.from {
      TotalCreditPick(e, rest, e.to.value, c);
      rest := rest - {e.to.value};
    }
    TotalCreditZero(e, rest, c);
  }

  // Value conservation: the platform total per currency is what one-sided
  // entries brought in minus what they took out; no two-sided move changes it.
  lemma {:induction false} Conservation(l: seq<Entry>, accounts: set<Account>, c: Currency)
    requires forall k | 0 <= k < |l| :: Within(l[k], accounts)
    ensures Total(l, accounts, c) == External(l, c)
  {
    if l == [] {
      TotalEmpty(accounts, c);
    } else {
      var init, e := l[..|l| - 1], l[|l| - 1];
      assert l == init + [e] && Within(l[|l| - 1], accounts);
      Conservation(init, accounts, c);
      TotalAppend(init, e, accounts, c);
      EntryConserves(e, accounts, c);
    }
  }

  lemma {:induction false} TotalEmpty(accounts: set<Account>, c: Currency)
    ensures Total([], accounts, c) == 0
    decreases accounts
  {
    if accounts != {} {
      var a :| a in accounts && Total([], accounts, c) ==
        (if a.currency == c then Net([], a) else 0) + Total([], accounts - {a}, c);
      assert Net([], a) == 0;
      TotalEmpty(accounts - {a}, c);
    }
  }
}
