# Verified model of the payment platform's money and protocol core

A Dafny model of the parts of the backend whose mistakes cost money: the
double-entry ledger and everything built on it (orders, disputes, withdrawals,
доливы, payouts), the provider cascade with its circuit breaker, Base58Check
addresses, and the counters, caches and buffers that have to agree with
something simple. `dafny verify dfyconfig.toml` checks the whole project.

## How the model is laid out

| file | what it is |
|---|---|
| `common.dfy` | `Option`, `Result`, and half-even rounding (roundTiesToEven, section 4.3.1 of IEEE 754-2008) |
| `ledger.dfy` | accounts, entries, `transfer` as a function on the ledger, conservation |
| `rows.dfy` | orders, withdrawals, доливы and payouts, and the position each one implies in every account |
| `finance.dfy` | the transfers every finance operation makes, in order, and what they net to |
| `orders.dfy`, `order_service.dfy`, `disputes.dfy` | the order status funnel, the operations that reach it, disputes |
| `books.dfy`, `withdrawals.dfy`, `doliv.dfy`, `payouts.dfy` | the other families of operation |
| `platform.dfy` | all of them as one state machine, and what holds of every reachable state |
| `outcomes.dfy`, `*_outcomes.dfy` | what each operation means to its caller: exactly when it is accepted, the row it leaves, every balance afterwards |
| `cases.dfy` | concrete histories at which the exact conditions fail |
| `session.dfy`, `services.dfy` | the same operations as methods that update stored balances in place, with rollback |
| `cascade.dfy`, `breaker.dfy` | the provider race, escalation, and the sliding-window breaker |
| `base58.dfy` | Base58Check and TRON addresses |
| `blocked.dfy`, `auth_cache.dfy`, `sink.dfy` | blocked-attempt counters, the two-tier auth cache, the batching sink |
| `achievements.dfy` | streak, tier and bonus rules, and their materialisation |

Amounts, rates and percentages are integers in units of 0.0001 (percentages of
achievement bonuses in units of 0.01). A balance is the fold of the ledger's
entries for its account; `Sessions.Session` also stores it, as the source does,
and every method is proved to keep the stored number equal to the fold. A
service method is one atomic step: it runs in a nested transaction with row
locks, so it either happens or leaves no trace. What the environment decides
(which calls of a race finish first, which Redis commands fail, which links and
settings are read, what the clock says) is a parameter, and the theorems hold
for every choice.

The central idea of the money part is that each business row implies a position
in every account, read off its current state alone (`Rows.Effect`). One
invariant says that the entries written for a row net to that position. Escrow
backing, path independence of доливы, confluence of disputes and the guarantee
that frozen money can always be given back are consequences of it. Rows of all
four families share one id space here; the source keeps them apart by prefixing
reference ids.

## Where the code and its documentation disagree

The model follows the code.

- `backend-py/app/modules/disputes/service.py:394-398` says that opening a
  dispute does not touch turnover and teamlead rewards; opening runs
  `reconcile_for_dispute`, which reverses both
  (`backend-py/app/modules/finance/service.py:1346-1354`).
- `backend-py/app/modules/finance/service.py:1109-1115` recommends reversing a
  settled order with `change_status(order, REFUNDED)`. Without `force` that
  transition is allowed by the graph but does not reverse the settlement
  (`OrderService.UnforcedRefundBreaksBooks` says when the books survive it). The
  only caller passes `force`.
- `backend-py/app/modules/finance/service.py:362-368` and `:1366-1371` say that
  a dispute must open even if a participant has spent the money. That holds for
  the trader, whose WORK may go negative; from SUCCESS the open is refused once
  the merchant or a teamlead has spent what it was paid
  (`Disputes.OpensExactlyFromDisputable`, `Cases.SpentOrderCannotBeDisputed`).
- `backend-py/app/modules/orders/service.py:1322-1324` says an administrator
  cannot revert a finalised order; the code lets it move between terminal states.
- `backend-py/app/modules/cascading/service.py:1649-1655` asks for the
  completion of a DISPUTED order on a provider's success callback;
  `complete_order` refuses it, so a callback never settles a disputed order
  (`OrderService.CallbackSparesDisputes`).
- `backend-py/app/modules/doliv/service.py:70-74` announces expiry sweeps for
  доливы; the payout workers leave доливы out and nothing else sweeps them.
- `backend-py/app/infrastructure/tron/client.py:55-59` promises a `T...` address;
  `bytes.fromhex` skips white space, and with white space among the digits the
  result is shorter (`Base58.AddressShape` says exactly when).
- `backend-py/app/modules/achievements/service.py:141-146` returns "the number of
  traders whose bonus changed"; it also counts, on every run, ids with volume
  and a bonus but no trader row (`Achievements.RecomputeTwice`).
- `backend-py/app/modules/doliv/service.py:448-459` says that any admin move is
  correct; it is for money, but it does not recheck the daily limit
  (`Refills.AdminKeepsCapExactly` says when it stays within it).

## Model

| member | source | states |
|---|---|---|
| Rounding.HalfEven | backend-py/app/modules/doliv/service.py:86-88 | quantising gives a nearest whole unit, the even one on a tie |
| Rounding.HalfEvenUnique | backend-py/app/modules/doliv/service.py:86-88 | that description determines the result |
| Rounding.HalfEvenMonotone | backend-py/app/modules/doliv/service.py:156-159 | rounding never reverses an order |
| Outcomes.QuotientIs | backend-py/app/modules/doliv/service.py:86-88 | figures in fiat over a rate are the nearest 0.0001 of the quotient, the even one of two |
| Outcomes.ShareIs | backend-py/app/modules/doliv/service.py:86-88 | fees, prices and rewards are the nearest 0.0001 of the percentage, the even one of two |
| Outcomes.RewardsAreShares | backend-py/app/modules/teamleaders/service.py:177-221 | a settlement pays every link its share of the amount, so each teamlead the sum of the shares of its links |
| Ledger.PostAllNet | backend-py/app/modules/finance/service.py:348-420 | transfers of one row move every balance by their net and touch no other row's part of it |
| Ledger.PostAllSolvent | backend-py/app/modules/finance/service.py:357-371 | no transfer drives a balance below zero unless it is a trader's WORK passed with allow_negative |
| Ledger.PostAllConcat | backend-py/app/modules/finance/service.py:348-420 | a sequence of transfers fails at its first failing transfer and otherwise composes |
| Ledger.Partition | backend-py/app/modules/finance/service.py:406-420 | every balance splits into its direct entries and one part per business row |
| Ledger.Conservation | backend-py/app/modules/finance/service.py:385-420 | the total over all accounts of a currency is what one-sided entries brought in minus what they took out |
| Finance.CreateOrderNet | backend-py/app/modules/finance/service.py:858-897 | freezing an order's collateral gives exactly the frozen position |
| Finance.CancelOrderNet | backend-py/app/modules/finance/service.py:899-936 | a cancel is the inverse of the freeze on every account |
| Finance.RecalculateOrderNet | backend-py/app/modules/finance/service.py:938-988 | an amount change moves exactly the difference of the two frozen positions |
| Finance.CompleteOrderNet | backend-py/app/modules/finance/service.py:990-1107 | completing takes the frozen position to the settled one: merchant, fee, trader reward, teamleads |
| Finance.ReconcileNet | backend-py/app/modules/finance/service.py:1273-1406 | reconciling takes a settled or released position back to the frozen one, from any earlier status |
| Finance.RewardLegsNet | backend-py/app/modules/teamleaders/service.py:177-221 | paying rewards moves each from the system float to its teamlead |
| Finance.ReversalLegsNet | backend-py/app/modules/teamleaders/service.py:263-316 | reversing the live rewards undoes their payment on every account |
| Finance.RewardsPayable | backend-py/app/modules/teamleaders/service.py:396-421 | a list of rewards can be paid exactly when the system float covers its sum |
| Finance.CreateWithdrawalNet | backend-py/app/modules/finance/service.py:785-811 | sweeping and freezing gives exactly the position of a pending request |
| Finance.DecideWithdrawalNet | backend-py/app/modules/finance/service.py:1156-1248 | approving and rejecting move exactly the difference to the paid and to the returned position |
| Finance.DolivNet | backend-py/app/modules/finance/service.py:1583-1651 | freeze and refund are inverse on every account |
| Finance.SettleDolivNet | backend-py/app/modules/finance/service.py:1601-1690 | settle and reverse_settle move exactly between the frozen and the settled position, in opposite directions |
| Finance.PayoutNet | backend-py/app/modules/finance/service.py:1503-1579 | freeze and refund of a payout are inverse on every account |
| Finance.SettlePayoutNet | backend-py/app/modules/finance/service.py:1521-1563 | settling a payout takes the frozen position to the settled one, earnings in WORK or held in ESCROW |
| Finance.ReleaseHoldNet | backend-py/app/modules/finance/service.py:1692-1706 | releasing a hold moves exactly the held earnings |
| Rows.EffectOnEscrow | backend-py/app/modules/finance/service.py:858-1706 | on an ESCROW account a row's position is what it holds there, never negative |
| Rows.BalanceFromRows | backend-py/app/modules/finance/service.py:348-420 | every balance is its direct entries plus the positions of the rows as they stand |
| Rows.EscrowBacking | backend-py/app/modules/finance/service.py:858-1706 | an ESCROW balance is its direct entries plus the live obligations frozen in it |
| Rows.HoldIsCovered | backend-py/app/modules/finance/service.py:899-936 | what one row holds in ESCROW is there to be taken out |
| Rows.CommitRow | backend-py/app/modules/finance/service.py:348-420 | transfers that net to the change of one row's position keep the books in agreement with all rows |
| Database.UnbumpUndoesBump | backend-py/app/modules/requisites/repository.py:250-296 | taking turnover back restores both counters |
| Database.BumpUndoesUnbumpExactly | backend-py/app/modules/requisites/repository.py:298-320 | the clamped decrement followed by the increment is nothing exactly when neither counter was below the amount |
| Database.ResetBetween | backend-py/app/modules/requisites/repository.py:298-320 | after a reset in between it is not nothing: a concrete case |
| Orders.ChangeStatusKeeps | backend-py/app/modules/orders/service.py:857-1024 | every transition, including the override through the frozen state, keeps books, solvency and live rewards |
| Orders.ReversedAll | backend-py/app/modules/teamleaders/service.py:263-316 | after a reversal no live reward is left, however often the order was settled before |
| Orders.PaidAll | backend-py/app/modules/finance/service.py:1096-1107 | after a settlement the live rewards on the ledger are those stored on the order |
| Orders.ReleaseNeverShort | backend-py/app/modules/orders/service.py:977-987 | the collateral of a frozen order is always there: its release posts if and only if it has an amount |
| Orders.SettlesExactly | backend-py/app/modules/finance/service.py:990-1107 | a frozen order settles if and only if it has an amount, the merchant can pay the fee and the float covers trader fee and rewards |
| OrderService.StepKeeps | backend-py/app/modules/orders/service.py:375-1443 | create, assign, receipt, complete, callback, settle-failed, fail, cancel, admin status and admin amount all keep the invariant |
| OrderOutcomes.CreatesAsync | backend-py/app/modules/orders/service.py:375-609 | a new order is worth its fiat over the rate, its fee the percentage of that; refused only without a rate |
| OrderOutcomes.CreatesSync | backend-py/app/modules/orders/service.py:375-609 | with a trader at hand it is accepted if and only if the trader's WORK covers the amount, which goes to ESCROW; nothing else moves |
| OrderOutcomes.Assigns | backend-py/app/modules/orders/service.py:611-705 | an assignment goes through if and only if the WORK covers the amount, freezes exactly that, and does nothing on an order no longer CREATED |
| OrderOutcomes.UploadsReceipt | backend-py/app/modules/orders/service.py:765-809 | a receipt moves a pending order on and no money |
| OrderOutcomes.CompletesExactly | backend-py/app/modules/orders/service.py:1062-1092 | a trader's confirmation settles a pending order if and only if the merchant can pay the fee and the float trader fee and rewards; row, turnover and every balance afterwards |
| OrderOutcomes.ConfirmsByCallback | backend-py/app/modules/cascading/service.py:1649-1655 | a success callback is that confirmation while the order is live, refused in a dispute, nothing otherwise |
| OrderOutcomes.SettlesFailedExactly | backend-py/app/modules/orders/service.py:1140-1166 | a failed or cancelled order is settled late if and only if that is affordable, out of the trader's WORK |
| OrderOutcomes.FailsExactly | backend-py/app/modules/orders/service.py:1168-1190 | a live order is failed by its trader or the system, and its collateral goes back |
| OrderOutcomes.CancelsExactly | backend-py/app/modules/orders/service.py:716-754 | its merchant cancels it before a receipt, and its collateral goes back |
| OrderOutcomes.OverridesExactly | backend-py/app/modules/orders/service.py:1303-1443 | the administrator's override goes through if and only if what was paid out can be taken back and what is to be paid is affordable; row, turnover and every balance afterwards |
| OrderOutcomes.ReprojectsExactly | backend-py/app/modules/orders/service.py:1192-1301 | another amount for a disputed order is accepted if and only if the trader's WORK covers the increase; amount, fee and trader fee are the nearest figures, and the difference moves |
| OrderService.ChangeAmountKeeps | backend-py/app/modules/orders/service.py:1192-1301 | re-projecting a disputed order's amount moves exactly the escrow difference |
| OrderService.ConfirmTwiceIsOnce | backend-py/app/modules/orders/service.py:1062-1092 | a second confirmation of an order succeeds and changes nothing |
| OrderService.CallbackSparesDisputes | backend-py/app/modules/cascading/service.py:1649-1655 | a success callback on a disputed order is refused |
| OrderService.UnforcedRefundBreaksBooks | backend-py/app/modules/orders/service.py:120-120 | SUCCESS to REFUNDED without force always goes through, and leaves the row at odds with its entries unless the ESCROW is short and the settlement moved nothing: fee and trader fee the whole amount, no reward (if and only if) |
| Cases.UnforcedRefundExample | backend-py/app/modules/orders/service.py:120-120 | a concrete settled order whose books break |
| OrderService.ReleaseRightIffCovered | backend-py/app/modules/orders/service.py:977-987 | a tolerated release, to whichever released status, leaves every account and row in agreement if and only if the ESCROW balance covered the order |
| Cases.SeizedReleaseExample | backend-py/app/modules/orders/service.py:977-987 | after an administrator empties the ESCROW, the open order fails and its books are wrong: a concrete case |
| Disputes.StepKeeps | backend-py/app/modules/disputes/service.py:219-1042 | every dispute operation keeps the books and keeps an order DISPUTED exactly while its dispute is open |
| Disputes.StepOnlyCloses | backend-py/app/modules/disputes/service.py:346-436 | a dispute is never replaced, and a decided one never changes |
| Disputes.ClosedIsInert | backend-py/app/modules/disputes/service.py:712-731 | an operation that succeeds on a decided dispute changes nothing |
| Disputes.OnlyExplicitOpenUnsettles | backend-py/app/modules/disputes/service.py:28-39 | an order in SUCCESS is pulled back only by a merchant's or administrator's open, never by a trader or a proof request |
| Disputes.OpensExactlyFromDisputable | backend-py/app/modules/disputes/service.py:20-26 | a dispute opens on an order without one if and only if its status is one of the five disputable ones and, when it is SUCCESS, every teamlead still has its rewards, the float with them and the trader fee covers the fee, and the merchant with the fee covers the amount; for administrator and merchant alike |
| Disputes.UnsettlesExactly | backend-py/app/modules/finance/service.py:1335-1388 | the transfers that take a settlement back post if and only if those three hold |
| Finance.RewardsReturnable | backend-py/app/modules/teamleaders/service.py:263-316 | rewards can be taken back if and only if each teamlead's balance covers the sum of its own |
| Cases.SpentOrderCannotBeDisputed | backend-py/app/modules/finance/service.py:362-371 | deposit, create, complete, withdraw: a settled order whose dispute neither the merchant nor an administrator can open |
| Disputes.UnsettledAlwaysOpens | backend-py/app/modules/finance/service.py:1389-1406 | a dispute on an unsettled order opens even if the trader spent the collateral |
| DisputeOutcomes.AdminOpens | backend-py/app/modules/disputes/service.py:298-436 | an administrator's open: exactly when, the dispute row, the order, the turnover and every balance afterwards |
| DisputeOutcomes.MerchantOpens | backend-py/app/modules/disputes/service.py:219-296 | the merchant's open on its own order, on the same terms; an open dispute is returned as it is |
| DisputeOutcomes.PremoderationOpens | backend-py/app/modules/disputes/service.py:437-560 | a proof request opens a dispute on a live assigned order only, always, and otherwise changes at most the proof asked for |
| DisputeOutcomes.GroupProofOpens | backend-py/app/modules/disputes/service.py:562-601 | the same from a trader's group, refused where no open dispute results |
| DisputeOutcomes.ResolvesExactly | backend-py/app/modules/disputes/service.py:693-779 | an open dispute is decided for the merchant if and only if the order is worth something, the merchant can pay the fee and the float trader fee and rewards |
| DisputeOutcomes.ResolvesTo | backend-py/app/modules/disputes/service.py:712-779 | the order is then SUCCESS, paid out of its collateral, the turnover counted, the dispute RESOLVED |
| DisputeOutcomes.RejectsExactly | backend-py/app/modules/disputes/service.py:781-870 | an open dispute is decided for the trader if and only if there is an amount; the order is then FAILED, the collateral back, the dispute REJECTED |
| DisputeOutcomes.TraderDecides | backend-py/app/modules/disputes/service.py:951-1050 | a trader decides disputes on its own orders, just as the administrator would, and only asks for proof on open ones |
| DisputeOutcomes.DecidedAsDirectly | backend-py/app/modules/disputes/service.py:712-870 | a dispute can be resolved and rejected exactly when the order could be completed and cancelled had it stayed pending |
| DisputeOutcomes.DisputedSettlementResolves | backend-py/app/modules/disputes/service.py:712-779 | a settled order that could be disputed can always be resolved again with the same rewards |
| Disputes.OpenResolveIsComplete | backend-py/app/modules/disputes/service.py:712-779 | opening from any of the five statuses, a settled one with its rewards included, and resolving leaves every balance as the history in which the pending order was completed directly |
| Disputes.OpenRejectIsCancel | backend-py/app/modules/disputes/service.py:803-870 | opening from any of the five statuses, a settled one with its rewards included, and rejecting leaves every balance as the history in which the pending order was cancelled |
| Disputes.DisputeUndoesCompletion | backend-py/app/modules/finance/service.py:1335-1388 | disputing a just settled order restores every balance and both turnover counters |
| Disputes.DisputeThenResolveIsNothing | backend-py/app/modules/disputes/service.py:712-779 | a dispute on a settled order that is resolved for the merchant changes no balance |
| Withdrawals.StepKeeps | backend-py/app/modules/finance/service.py:594-1269 | requests, sweeps, approvals and rejections keep the invariant |
| Withdrawals.DecisionNeverShort | backend-py/app/modules/finance/service.py:1117-1269 | a pending request can always be approved and always be rejected |
| Withdrawals.DecidedOnce | backend-py/app/modules/finance/service.py:1127-1133 | a decided request cannot be decided again |
| Withdrawals.RequestFreezesGross | backend-py/app/modules/finance/service.py:635-671 | exactly the entered amount is frozen, and payout plus fee add up to it |
| Withdrawals.PlanTakes | backend-py/app/modules/finance/service.py:747-772 | the greedy plan takes as much as the terminals can give, up to what is wanted |
| Withdrawals.PlanIsOk | backend-py/app/modules/finance/service.py:756-767 | no planned terminal is overdrawn, every one but the last is drained to its fee, none is planned twice |
| Withdrawals.SweepSucceedsExactly | backend-py/app/modules/finance/service.py:717-814 | a sweep succeeds if and only if there are terminals, an amount, and own WORK plus what terminals hold beyond their fees covers it |
| Withdrawals.SweepOwnerBalances | backend-py/app/modules/finance/service.py:747-811 | the owner's WORK falls by its own share only, and ESCROW grows by amount plus collected fees |
| Withdrawals.SweepTerminalBalances | backend-py/app/modules/finance/service.py:786-798 | no terminal ends negative, every planned one but the last ends at zero, the others are untouched |
| WithdrawalOutcomes.RequestsExactly | backend-py/app/modules/finance/service.py:594-671 | terminals and traders pay their fixed fee out of the amount, others none; accepted if and only if something is left and the WORK covers it; the row and every balance |
| WithdrawalOutcomes.DecidesExactly | backend-py/app/modules/finance/service.py:1117-1269 | only a pending request is decided, always; the row and every balance for either decision |
| WithdrawalOutcomes.PlanFollowsTheList | backend-py/app/modules/finance/service.py:747-772 | terminals are asked in their order, each at its own fee, none with something to give is skipped |
| WithdrawalOutcomes.SweepRecords | backend-py/app/modules/finance/service.py:717-814 | the request of a sweep: amount, sum of the fees, one take a terminal |
| Refills.StepKeeps | backend-py/app/modules/doliv/service.py:110-516 | every долив operation keeps the books; CREATED has no executor, CLAIMED and COMPLETED have one |
| Refills.RunBalances | backend-py/app/modules/doliv/service.py:46-67 | after any interleaving each balance is its base plus the final positions of the rows |
| Refills.PathIndependence | backend-py/app/modules/doliv/service.py:447-493 | two runs that end in the same money states end with the same balances |
| Refills.AdminRoundTrip | backend-py/app/modules/doliv/service.py:478-493 | an admin move and the move back restore every balance |
| Refills.PricedKept | backend-py/app/modules/doliv/service.py:156-159 | with the price percent at least the reward percent, every долив's price is at least its reward |
| Refills.SettlesExactly | backend-py/app/modules/finance/service.py:1601-1634 | a frozen долив with an executor settles if and only if float plus price cover the reward |
| Refills.ExecuteNeverStuck | backend-py/app/modules/doliv/service.py:392-433 | so a claimed долив always executes and does not lower the system float |
| Refills.CancelNeverShort | backend-py/app/modules/doliv/service.py:211-230 | a долив still in the pool can always be cancelled |
| Refills.RefundNeverShort | backend-py/app/modules/finance/service.py:1636-1651 | a frozen долив, in the pool, claimed or awaiting its check, can always be refunded |
| Refills.AdminRefundNeverShort | backend-py/app/modules/doliv/service.py:478-493 | so an administrator can always cancel a frozen долив |
| Refills.ReversesExactly | backend-py/app/modules/finance/service.py:1653-1690 | a settlement can be reversed if and only if the executor still has amount plus reward and the float can return the price |
| Refills.ReverseRightAfter | backend-py/app/modules/finance/service.py:1653-1690 | right after settling, a reversal succeeds if the executor was not in debt before |
| Refills.UsersKeepCap | backend-py/app/modules/doliv/service.py:137-152 | create takes room that was free, cancel gives it back, execute moves its amount from pending to turnover |
| Refills.UserRunsKeepCap | backend-py/app/modules/doliv/service.py:137-152 | over any run without admin moves, turnover plus pending доливы stay within the daily limit |
| Refills.AdminKeepsCapExactly | backend-py/app/modules/doliv/service.py:447-516 | an admin move stays within the limit if and only if what it adds fits the room left |
| Refills.ReopenedOverCap | backend-py/app/modules/doliv/service.py:478-493 | a cancelled долив re-opened on a full requisite exceeds its limit: a concrete case |
| RefillOutcomes.CreatesExactly | backend-py/app/modules/doliv/service.py:110-198 | exactly when a долив is accepted: own requisite, bounds, daily limit, rate, WORK; amount, price and reward are the nearest figures; what is frozen |
| RefillOutcomes.CancelsExactly | backend-py/app/modules/doliv/service.py:211-230 | its requester cancels it in the pool, always, and gets amount and price back |
| RefillOutcomes.ClaimsExactly | backend-py/app/modules/doliv/service.py:365-390 | an authorised claimant becomes the executor of an unclaimed долив; nothing else changes |
| RefillOutcomes.ExecutesExactly | backend-py/app/modules/doliv/service.py:392-433 | only the executor executes a claimed долив, if and only if float and price cover the reward; row, turnover and every balance |
| RefillOutcomes.ClaimantExecutes | backend-py/app/modules/doliv/service.py:365-433 | whoever claims, and nobody else, can execute right away and is paid amount and reward |
| RefillOutcomes.AdminMovesExactly | backend-py/app/modules/doliv/service.py:447-516 | an administrator's move between any two statuses: exactly when, row, turnover and every balance |
| Payouts.StepKeeps | backend-py/app/modules/payouts/service.py:148-638 | every payout operation keeps the invariant |
| Payouts.FinishedStays | backend-py/app/modules/payouts/service.py:51-67 | a finished payout never changes status, and a released hold stays released |
| Payouts.ReceiptsStayWithin | backend-py/app/modules/payouts/service.py:490-519 | live receipts never add up to more than the payout |
| Payouts.CompletesOnlyWhenCovered | backend-py/app/modules/payouts/service.py:521-543 | without the admin override a payout completes only on approved receipts for exactly its amount, none waiting |
| PayoutOutcomes.AddsReceiptExactly | backend-py/app/modules/payouts/service.py:467-543 | exactly when a receipt is accepted; the payout is then COMPLETED and paid if the approved receipts add up and none waits, AWAITING_CHECK if one waits, CLAIMED otherwise |
| PayoutOutcomes.JudgesExactly | backend-py/app/modules/payouts/service.py:521-573 | the same when a waiting receipt is judged; on a finished payout only if it stays fully paid |
| Payouts.TalliesAppend | backend-py/app/modules/payouts/service.py:490-535 | what one more receipt adds to the sums and counts |
| Payouts.RefundNeverShort | backend-py/app/modules/finance/service.py:1565-1579 | a live payout can always be cancelled or expired |
| Payouts.ReleaseNeverShort | backend-py/app/modules/finance/service.py:1692-1706 | a held payout's earnings can always be released |
| Payouts.CompletesExactly | backend-py/app/modules/finance/service.py:1521-1563 | a payout completes if and only if float plus commission cover trader fee and rewards |
| PayoutOutcomes.CreatesExactly | backend-py/app/modules/payouts/service.py:244-311 | exactly when a payout is accepted; amount and commission are the nearest figures; what is frozen |
| PayoutOutcomes.ClaimsExactly | backend-py/app/modules/payouts/service.py:425-465 | an active, allowed trader takes an unclaimed payout for its percentage; no money moves |
| PayoutOutcomes.AdminCompletesExactly | backend-py/app/modules/payouts/service.py:586-596 | the override completes a claimed payout if and only if it is affordable, whatever its receipts; row and every balance |
| PayoutOutcomes.EndsExactly | backend-py/app/modules/payouts/service.py:575-600 | who may cancel or expire a payout; receipts void, amount and commission back |
| PayoutOutcomes.ReturnsStaleExactly | backend-py/app/modules/payouts/service.py:601-618 | a stale claim loses trader, fee and receipts, and moves no money |
| PayoutOutcomes.ReleasesExactly | backend-py/app/modules/finance/service.py:1692-1706 | a hold is released once, and gives the trader what was held |
| Platform.StepPosts | backend-py/app/modules/finance/service.py:348-420 | every operation is, for the ledger, a list of transfers that overdraw nothing but a trader's WORK |
| Platform.LedgerLaws | backend-py/app/modules/finance/service.py:357-412 | over every run, admin debits of ESCROW included: only trader WORK can be negative, the ledger only grows, entries are positive and in one currency |
| Platform.MoneyIsConserved | backend-py/app/modules/finance/service.py:385-420 | over every run all balances together are what one-sided entries brought in |
| Platform.RunKeeps | backend-py/app/modules/finance/service.py:594-1706 | any run without an admin debit of ESCROW keeps the invariant |
| Platform.EscrowIsBacked | backend-py/app/modules/finance/service.py:594-1706 | in every reachable state each ESCROW balance is the sum of the live obligations of all four families plus a non-negative direct part |
| Platform.EscrowIsHoldsAndAdjustments | backend-py/app/modules/finance/service.py:594-1706 | the direct part is what administrators adjusted it by over the run |
| Platform.EscrowIsExactlyHeld | backend-py/app/modules/finance/service.py:594-1706 | over any run without adjustments of ESCROW each ESCROW balance equals the live obligations frozen in it |
| Platform.RowStepMoves | backend-py/app/modules/orders/service.py:931-994 | every operation on orders, disputes, withdrawals, доливы or payouts moves each balance by exactly the change of the rows' positions, and nothing when refused |
| Platform.FrozenMoneyComesBack | backend-py/app/modules/finance/service.py:899-1269 | in every reachable state a pending withdrawal can be decided either way, a frozen долив refunded, a live payout expired, a hold released, and a frozen order released if and only if it has an amount |
| Platform.RunPriced | backend-py/app/modules/doliv/service.py:156-159 | over any run of the platform that prices доливы at no less than their reward, every долив stays so |
| Platform.ExecuteGoesThrough | backend-py/app/modules/doliv/service.py:392-433 | at the end of any such run a claimed долив executes and the float does not shrink |
| DirectOutcomes.DepositsExactly | backend-py/app/modules/finance/service.py:422-469 | a deposit is credited in full and pays its fee out of the balance, if that covers it |
| DirectOutcomes.WithdrawsExactly | backend-py/app/modules/finance/service.py:816-856 | a withdrawal pays its fee first and needs the rest in the balance |
| DirectOutcomes.AdjustsExactly | backend-py/app/modules/finance/service.py:1408-1438 | an adjustment moves one balance by its delta, and never below zero |
| DirectOutcomes.ReceiptFeeExactly | backend-py/app/modules/finance/service.py:1465-1483 | the fee of a receipt check goes from the trader to the system if the WORK covers it |
| DirectOutcomes.ReceiptRefundExactly | backend-py/app/modules/finance/service.py:1485-1499 | and back if the float covers it |
| Platform.OneDecision | backend-py/app/modules/disputes/service.py:325-326 | along any run each order gets at most one dispute and one decision |
| Platform.LeavesSuccessOnlyExplicitly | backend-py/app/modules/orders/service.py:110-123 | no operation of any family rewrites a settled order but an explicit dispute open or the admin override |
| Sessions.Session.Transfer | backend-py/app/modules/finance/service.py:348-420 | the refusals in their order, the debit left behind by the last one, and on success one entry with stored balances equal to the fold |
| Sessions.Session.GetOrCreate | backend-py/app/modules/finance/service.py:39-135 | returns the stored balance, creating a zero row when there is none, and changes no balance |
| Sessions.Session.CreateOrder | backend-py/app/modules/finance/service.py:858-897 | posts exactly the freeze, or refuses |
| Sessions.Session.CancelOrder | backend-py/app/modules/finance/service.py:899-936 | posts exactly the release; a shortfall leaves everything as it was |
| Sessions.Session.RecalculateOrder | backend-py/app/modules/finance/service.py:938-988 | posts exactly the difference, in the right direction |
| Sessions.Session.CompleteOrder | backend-py/app/modules/finance/service.py:990-1107 | posts exactly the settlement, returns its rewards and counts the turnover |
| Sessions.Session.PayRewards | backend-py/app/modules/teamleaders/service.py:177-221 | paying link by link posts the reward list of the links, or stops at the first that cannot be paid |
| Sessions.Session.ReverseRewards | backend-py/app/modules/teamleaders/service.py:263-316 | counting reversals and skipping that many payments posts the reversal of exactly the live ones |
| Sessions.Session.ReconcileForDispute | backend-py/app/modules/finance/service.py:1273-1406 | posts exactly the reversal or the re-freeze of the earlier status and takes the turnover back |
| Sessions.Session.ApproveWithdrawal | backend-py/app/modules/finance/service.py:1156-1177 | posts the payment and the fee out of ESCROW |
| Sessions.Session.RejectWithdrawal | backend-py/app/modules/finance/service.py:1239-1248 | posts the return of amount and fee |
| Sessions.Session.FreezeDoliv | backend-py/app/modules/finance/service.py:1583-1599 | checks WORK first, then posts the freeze |
| Sessions.Session.SettleDoliv | backend-py/app/modules/finance/service.py:1601-1634 | posts amount, price and reward in order |
| Sessions.Session.RefundDoliv | backend-py/app/modules/finance/service.py:1636-1651 | posts the refund, nothing for an empty one |
| Sessions.Session.ReverseSettleDoliv | backend-py/app/modules/finance/service.py:1653-1690 | posts the inverse in the order reward, amount, price, and refuses without an executor |
| Sessions.Session.FreezePayout | backend-py/app/modules/finance/service.py:1503-1519 | checks WORK first, then posts the freeze |
| Sessions.Session.SettlePayout | backend-py/app/modules/finance/service.py:1521-1563 | posts amount, commission, fee and rewards to WORK or to held ESCROW |
| Sessions.Session.RefundPayout | backend-py/app/modules/finance/service.py:1565-1579 | posts the refund, nothing for an empty one |
| Sessions.Session.ReleasePayoutHold | backend-py/app/modules/finance/service.py:1692-1706 | posts the release of the held earnings |
| Sessions.Session.AdjustBalance | backend-py/app/modules/finance/service.py:1408-1438 | posts a one-sided credit or debit of the signed delta |
| Services.RouteMoney | backend-py/app/modules/orders/service.py:933-994 | each target status runs its one finance operation, after reconciling on an override |
| Services.ChangeStatus | backend-py/app/modules/orders/service.py:857-1024 | makes exactly the specified transition, or raises and leaves the session as it was |
| Services.OpenDispute | backend-py/app/modules/disputes/service.py:346-436 | dispute row and order move together or not at all |
| Services.OpenByMerchant | backend-py/app/modules/disputes/service.py:219-296 | the merchant's open: own order, an open dispute is returned, otherwise the guards |
| Services.OpenByAdmin | backend-py/app/modules/disputes/service.py:298-344 | the administrator's open with its guards |
| Services.Resolve | backend-py/app/modules/disputes/service.py:712-779 | decision and settlement together or not at all |
| Services.Reject | backend-py/app/modules/disputes/service.py:803-870 | decision and release together or not at all |
| Services.CreateDoliv | backend-py/app/modules/doliv/service.py:110-198 | the checks in order, then row and freeze together or not at all |
| Services.CancelDoliv | backend-py/app/modules/doliv/service.py:211-230 | refund and status together or not at all |
| Services.ClaimDoliv | backend-py/app/modules/doliv/service.py:365-390 | an authorised executor takes an unclaimed долив; no money moves |
| Services.ExecuteDoliv | backend-py/app/modules/doliv/service.py:392-433 | settlement, turnover and status together or not at all |
| Services.AdminChangeDoliv | backend-py/app/modules/doliv/service.py:447-516 | normalise then apply, with turnover, or rolled back |
| Services.RequestWithdrawal | backend-py/app/modules/finance/service.py:594-674 | the fee is withheld from the gross, and the gross is frozen |
| Services.PlanSweep | backend-py/app/modules/finance/service.py:747-767 | the planning loop computes the greedy plan |
| Services.SweepWithdrawal | backend-py/app/modules/finance/service.py:717-814 | plan, transfers and freeze together or not at all |
| Services.DecideWithdrawal | backend-py/app/modules/finance/service.py:1117-1269 | only a pending request is decided, money and status together |
| Cascade.EligibleProviders | backend-py/app/modules/cascading/service.py:929-983 | every provider is kept in order or skipped with the first test it fails |
| Cascade.KeptExactly | backend-py/app/modules/cascading/service.py:929-983 | the kept ones are exactly the active, unblocked, in-range, supporting providers |
| Cascade.ReasonIsExact | backend-py/app/modules/cascading/service.py:943-982 | a provider has a reason to be skipped exactly when it is not eligible |
| Cascade.FilterFunded | backend-py/app/modules/cascading/service.py:985-1032 | keeps, in order, exactly the providers whose virtual trader covers the amount; everyone when there is no amount |
| Cascade.TakeRound | backend-py/app/modules/cascading/service.py:1085-1095 | one wait's finished calls, in any order: each is recorded once, and a winner is one of those that reserved |
| Cascade.Wait | backend-py/app/modules/cascading/service.py:1074-1097 | the loop ends, has recorded exactly what came back, and has a winner iff some round before the deadline contained a reservation |
| Cascade.CancelLosers | backend-py/app/modules/cascading/service.py:1164-1180 | reservations that lost become LOST, and the cancels owed are enqueued |
| Cascade.RaceGroup | backend-py/app/modules/cascading/service.py:1034-1189 | for every schedule: one attempt per eligible provider with its final status, a winner among the contenders, the cancels owed |
| Cascade.ExactlyOneWon | backend-py/app/modules/cascading/service.py:1072-1123 | a race has exactly one WON attempt if anybody contended, and none otherwise |
| Cascade.ContendersExactly | backend-py/app/modules/cascading/service.py:1074-1097 | somebody contends if and only if a reservation comes back before the first empty wait; contenders are those of the first round with one |
| Cascade.RecordedByAnswer | backend-py/app/modules/cascading/service.py:1083-1123 | who came back is recorded by its answer, a lost reservation as LOST; the others CANCELLED under a winner, TIMEOUT without |
| Cascade.CancelledExactlyOnce | backend-py/app/modules/cascading/service.py:1150-1180 | each attempt recorded as LOST or CANCELLED under a winner gets one cancel, any other none |
| Cascade.CancelsByAnswer | backend-py/app/modules/cascading/service.py:1150-1180 | by the answers alone: with a winner, exactly those others get a cancel, one each, that did not come back, reserved, or were aborted; a refusal, time-out or exception that came back gets none |
| Cascade.CancelsByReference | backend-py/app/modules/cascading/service.py:1164-1180 | a cancel names the reservation when there is one, and else the idempotency key |
| Cascade.WinnerIsContender | backend-py/app/modules/cascading/service.py:1085-1097 | whether there is a winner does not depend on the order within a round, nor who it is when there is one contender |
| Cascade.TryGrouped | backend-py/app/modules/cascading/service.py:590-608 | one race a group with all that RaceGroup promises, up to the first within the budget with a contender; that race decides the winner and the cancels, and without one there are none |
| Cascade.RunHasOneWinner | backend-py/app/modules/cascading/service.py:590-608 | the trail of a whole run has one WON attempt, the winner's, if a group within the budget had a contender, and none otherwise |
| Cascade.RunCancelsExactlyOnce | backend-py/app/modules/cascading/service.py:1150-1180 | over a whole run each LOST or CANCELLED attempt of the deciding group gets one cancel and no other |
| Cascade.TryPooled | backend-py/app/modules/cascading/service.py:609-630 | providers are asked one by one up to the first reservation, with one WON attempt at most, the last on the trail |
| Cascade.PoolRecounts | backend-py/app/modules/cascading/service.py:609-630 | exactly the turns reached within the budget and asked leave one record each, in order, by their answers |
| Breaker.CircuitBreaker.Record | backend-py/app/modules/cascading/circuit_breaker.py:56-81 | prunes and adds in both sets, or changes nothing when the pipeline fails |
| Breaker.CircuitBreaker.MaybeTrip | backend-py/app/modules/cascading/circuit_breaker.py:83-122 | disables the provider for the cooldown when both thresholds hold |
| Breaker.CircuitBreaker.IsOpen | backend-py/app/modules/cascading/circuit_breaker.py:39-47 | open exactly while disabled; an elapsed cooldown is cleared |
| Breaker.Holds | backend-py/app/modules/cascading/circuit_breaker.py:56-72 | the sorted sets hold everything recorded since the last cutoff and nothing that was not recorded |
| Breaker.TripsExactly | backend-py/app/modules/cascading/circuit_breaker.py:83-112 | after a recorded failure the breaker trips if and only if the distinct failures of the window reach the threshold and the rate's part of the distinct requests |
| Breaker.TripsMeans | backend-py/app/modules/cascading/circuit_breaker.py:83-112 | the check at any state: failures ≥ threshold and failures ≥ rate · requests |
| Breaker.FailuresWithinRequests | backend-py/app/modules/cascading/circuit_breaker.py:87-106 | in a window the failures are among the requests, so the rate is at most one |
| Breaker.StaysDisabled | backend-py/app/modules/cascading/circuit_breaker.py:108-112 | a tripped provider stays disabled through its cooldown whatever happens meanwhile |
| Breaker.NotEligibleBefore | backend-py/app/modules/cascading/service.py:949-953 | so no race asks it before its disabled_until |
| Breaker.StaleExactly | backend-py/app/modules/cascading/circuit_breaker.py:56-106 | at a check whose own recording failed, the failures read are among the requests read if and only if not: the check reads with the very cutoff of the last pruning and a failure of that instant is still stored |
| Breaker.StaleFailureExample | backend-py/app/modules/cascading/circuit_breaker.py:73-92 | a concrete run in which that happens |
| Base58.B58CheckEncode | backend-py/app/infrastructure/tron/client.py:36-51 | both loops together encode the payload and its checksum |
| Base58.RoundTrip | backend-py/app/infrastructure/tron/client.py:36-51 | a decoder recovers every byte string, leading zeros included |
| Base58.CheckRoundTrip | backend-py/app/infrastructure/tron/client.py:36-51 | and every payload, through its checksum, for any hash |
| Base58.Injective | backend-py/app/infrastructure/tron/client.py:36-51 | two payloads never share an address |
| Base58.HexToTronAddress | backend-py/app/infrastructure/tron/client.py:54-71 | the four accepted shapes, the two errors, and the encoding of the decoded bytes |
| Base58.AddressShape | backend-py/app/infrastructure/tron/client.py:54-71 | a converted address has 34 symbols, and then starts with T, if and only if no white space stood among its digits |
| Base58.LastFortyDigits | backend-py/app/infrastructure/tron/client.py:60-69 | a word of digits is an address if and only if it has forty of them, and its last forty count |
| Base58.SameAddress | backend-py/app/infrastructure/tron/client.py:60-69 | a padded word, its last forty digits, and those with 41 in front convert to the same address |
| Base58.SameSpelling | backend-py/app/infrastructure/tron/client.py:60-60 | neither 0x nor the case of letters matters |
| Base58.HexRoundTrip | backend-py/app/infrastructure/tron/client.py:70-71 | two digits a byte, the high one first |
| Base58.BlanksExample | backend-py/app/infrastructure/tron/client.py:54-71 | "41", 38 digits and two blanks convert to a shorter address |
| Base58.TronBounds | backend-py/app/infrastructure/tron/client.py:54-71 | the numeric bounds behind the T: 26·58^33 ≤ 0x41·256^24 and 0x42·256^24 ≤ 27·58^33 |
| Blocked.KeyRoundTrip | backend-py/app/modules/clients/block_cache.py:38-39 | splitting a member key gives the client back, colons included, if and only if the client id is not empty |
| Blocked.NothingIsLost | backend-py/app/modules/clients/block_cache.py:104-157 | over any interleaving of recording, reading, committing and acknowledging by any number of jobs, Redis plus table is recorded plus committed-but-unacknowledged |
| Blocked.JobDrains | backend-py/app/modules/clients/service.py:249-274 | a job that goes through moves every positive counter from Redis to the table, and nothing else |
| Blocked.Counters.RecordBlockedAttempt | backend-py/app/modules/clients/block_cache.py:104-114 | counts one for a client with an id when Redis is up |
| Blocked.Counters.ReconcileBlockedAttempts | backend-py/app/modules/clients/service.py:249-274 | stages exactly the positive deltas under well-formed keys, in any order, consuming nothing |
| Blocked.Counters.AddBlockedAttempts | backend-py/app/modules/clients/repository.py:34-57 | inserts or adds each staged delta |
| Blocked.RowsAreDeltas | backend-py/app/modules/clients/service.py:259-274 | the staged rows are the folded deltas by client, and name no client twice |
| Blocked.Counters.AckBlockedAttempts | backend-py/app/modules/clients/block_cache.py:146-157 | decrements each folded key once, skipping those that fail |
| Blocked.AckedIsRun | backend-py/app/modules/clients/block_cache.py:146-157 | that loop is a run of single acknowledgements, in any order of the keys |
| AuthCache.BoundedStaleness | backend-py/app/modules/merchants/auth_cache.py:128-183 | whatever fails, an answer was in the database at most 330 seconds ago, a miss at most 10, and L1 keeps at most 512 entries |
| AuthCache.CurrentAfterInvalidation | backend-py/app/modules/merchants/auth_cache.py:185-222 | after an invalidation with Redis up this worker is current at once and the others after 30 seconds |
| AuthCache.RepeatedLocally | backend-py/app/modules/merchants/auth_cache.py:106-183 | an answer from the database is repeated by its worker for exactly 30 seconds, a miss for 5, whatever happens meanwhile |
| AuthCache.SharedThroughRedis | backend-py/app/modules/merchants/auth_cache.py:128-183 | and through Redis by every other worker for exactly 300 seconds, a miss for 5 |
| AuthCache.L1Set | backend-py/app/modules/merchants/auth_cache.py:115-126 | a write adds its own entry only and keeps the bound |
| AuthCache.MerchantAuthCache.GetLocal | backend-py/app/modules/merchants/auth_cache.py:106-113 | an expired entry is dropped when it is met |
| AuthCache.MerchantAuthCache.SetLocal | backend-py/app/modules/merchants/auth_cache.py:115-126 | purges the expired, then the oldest, then writes |
| AuthCache.MerchantAuthCache.Get | backend-py/app/modules/merchants/auth_cache.py:128-183 | L1, negative, positive, database, with every Redis failure; exactly one counter moves |
| AuthCache.MerchantAuthCache.Invalidate | backend-py/app/modules/merchants/auth_cache.py:185-222 | the key or the reverse index decides what is dropped from both layers |
| Sink.EveryRecordIsSomewhere | backend-py/app/infrastructure/clickhouse/sink.py:78-113 | over any interleaving every emitted record is in exactly one of dropped, buffered, in flight, inserted, failed; the buffer holds the latest and stays within its bound |
| Sink.DeliveredOnce | backend-py/app/infrastructure/clickhouse/sink.py:99-113 | a record emitted once is inserted at most once |
| Sink.NothingDroppedEarly | backend-py/app/infrastructure/clickhouse/sink.py:78-90 | nothing is dropped before as many records were emitted as the buffer holds |
| Sink.GroupsKeep | backend-py/app/infrastructure/clickhouse/sink.py:104-106 | grouping loses and invents nothing, and keeps each table's emit order |
| Sink.GroupsApart | backend-py/app/infrastructure/clickhouse/sink.py:104-106 | one group a table, holding exactly that table's records |
| Sink.GroupByTable | backend-py/app/infrastructure/clickhouse/sink.py:104-106 | the grouping loop |
| Sink.AsyncBatchSink.Emit | backend-py/app/infrastructure/clickhouse/sink.py:78-90 | drops the oldest at the bound, ignores a closed sink, asks for a flush at the batch size; with a bound of 0 the record is refused by the pop from an empty list |
| Sink.AsyncBatchSink.Flush | backend-py/app/infrastructure/clickhouse/sink.py:99-113 | swaps the buffer and makes one insert a table, each of which may fail |
| Achievements.EvaluateStreakVolumeTier | backend-py/app/modules/achievements/evaluators.py:63-125 | streak, average and level of a rule, or none for an unusable one |
| Achievements.CountStreak | backend-py/app/modules/achievements/evaluators.py:85-97 | the longest qualifying run ending today, capped at the target |
| Achievements.FindLevel | backend-py/app/modules/achievements/evaluators.py:108-111 | splits the sorted tiers into those the average reaches and those above it |
| Achievements.SortedSorts | backend-py/app/modules/achievements/evaluators.py:76-83 | the tiers are sorted and the same |
| Achievements.SortedStable | backend-py/app/modules/achievements/evaluators.py:76-83 | tiers with one bound keep their configured order |
| Achievements.ActiveAverage | backend-py/app/modules/achievements/evaluators.py:98-106 | an unlocked bonus means the average is at least the daily minimum |
| Achievements.ResultUnique | backend-py/app/modules/achievements/evaluators.py:63-125 | these properties determine the result |
| Achievements.EvaluateBonus | backend-py/app/modules/achievements/service.py:92-126 | the capped sum of positive contributions, unknown rules skipped |
| Achievements.BonusIsCappedSum | backend-py/app/modules/achievements/service.py:92-126 | the bonus is the sum of the positive results of the rules, bounded by a positive cap and equal to the sum within it |
| Achievements.WindowSuffices | backend-py/app/modules/achievements/service.py:45-53 | the days that are not loaded cannot change any bonus |
| Achievements.SkippedHasNone | backend-py/app/modules/achievements/service.py:157-158 | a trader outside the window has no bonus |
| Achievements.BonusTable.RecomputeBonuses | backend-py/app/modules/achievements/service.py:141-174 | every stored bonus becomes the bonus over the whole history, except a negative one of a trader without recent volume, which stays; the count is exact |
| Achievements.MaterialisedExactly | backend-py/app/modules/achievements/service.py:141-174 | a stored bonus is right afterwards if and only if it was non-negative or the trader had recent volume |
| Achievements.NegativeStays | backend-py/app/modules/achievements/service.py:152-158 | a negative bonus that stays: a concrete case |
| Achievements.RecomputeTwice | backend-py/app/modules/achievements/service.py:141-174 | a second run stores nothing new and counts exactly the ids with a bonus and no trader row |
| Achievements.CountedForEver | backend-py/app/modules/achievements/service.py:141-174 | an id counted in every run: a concrete case |

## Left out

- PAYOUT orders: no code creates an order in that direction, so the invariant covers PAYIN orders; the transfers of the other direction are in `finance.dfy`.
- Decimal context precision: a quotient is rounded once from its exact value; the source first rounds it to 28 digits.
- Telegram bots, web routers, workers, audit rows, webhooks, receipt files and evidence: input, output and presentation.
- Real locks and deadlock freedom: a locked method is one step.
- Timestamps such as completed_at and claim_expires_at, and which rows a periodic worker picks: expiry and stale-claim return are operations that may come at any time.
- Requisite selection, capacity claims and merchant-side order creation checks: they decide whether an order is created, not what it does to money.
- Teamlead reward figures recalculated after the fact, and a teamlead whose user row is gone (such a reward is listed but not paid): links are assumed to name existing users.
- Deposits by transaction hash: a deposit without fee to the model; the once-only guard on the hash is a database constraint.
- Saving a receipt and its format checks in `execute`, and parsing the executor list of доливы: whether the caller is authorised is a parameter.
- PayoutService is modelled on values, without the in-place form of `services.dfy`.
- Order operations other than `change_status`, and the trader and proof-request methods of disputes, are modelled on values; their in-place form adds guards only.
- The provider's HTTP adapters, attempt diagnostics, materialising a winner's requisite and the rate checks there.
- Key expiry of the breaker's sorted sets: it removes only members that are already outside the window.
- SHA-256 is an arbitrary function to 32 bytes, and api keys stand for their truncated hashes: collisions are not modelled.
- Case folding of non-ASCII characters in a hexadecimal address.
- Blocked.KeyRoundTrip: integers in a key are digits; the source's parser also accepts signs, blanks and underscores, which are never written.
- The blocked-client set itself, its micro-cache and the materialisation of client rows.
- The background loop and shutdown of the sink: a flush cancelled between swap and insert loses its batch.
- The progress view and the per-rule breakdown of achievements: the breakdown is rewritten only when the total changes, so it can lag behind.
- Withdrawals.SweepSucceedsExactly: the terminals are taken to be distinct, as the query that lists them returns them.
- Achievements.BonusTable.RecomputeBonuses: rules are taken to be well-formed dictionaries.
