# Escrow ledger, verified

A Dafny model of the money core of an escrow marketplace that runs as a Telegram mini app: the
wallet with its per-currency balances (`amount`, spendable, and `locked`), deals held in escrow,
top-up invoices, deposits and withdrawals through payment providers, and the append-only ledger.
Four smaller protocols beside it are modelled on their own: the sliding-window rate limiter,
single-use TOTP codes, account transfer, and the two migrations that rewrite the balance table.

`dafny verify dfyconfig.toml` checks everything.

## How it is organised

* `Money` - quantising half to even on a per-currency grid. An amount is an integer number of
  quanta of 1e-8, an unrounded value a fraction of quanta.
* `Sums`, `Tables` - sums over rows and users; the database as a value (`World`) and the writes of
  one transaction (`Effect`).
* `Services` - one function per service call, giving its plan: the effect it commits, or the error
  it raises. An `Event` is one call with its arguments and the provider's answer; a run is any
  sequence of events, so every interleaving of calls is a run.
* `Books`, `Safety`, `Conservation`, `Ledger`, `Profiles` - what holds in every reachable state.
* `Rulebook`, `Provenance`, `Openings`, `Payments`, `TopupRules`, `Requests` - the rules, written down
  a second time without the functions of `Services`: who may make which call in which status, what an
  offer costs, which message pays or closes an invoice, when a transfer starts, and the whole state
  each call leaves. Every step is proved to keep to them, and every row of every run to go back to the
  call that was entitled to make it what it is.
* `Deposits`, `Notices`, `PolledDeposits`, `Settlement`, `NegativeReports`, `Topups`, `Grid`,
  `Progress`, `OffGrid`, `Stranded` - payments.
* `Withdrawals`, `Assumptions`, `LostReplies` - the three-phase withdrawal protocol, its sweep, and
  what it assumes of the outside world.
* `Database`, `InvoiceService`, `DealService`, `TopupService`, `WalletService`,
  `WithdrawalService`, `Sweeps`, `Platform` - the services again, as methods that change the tables
  statement by statement; each is proved to commit exactly the effect of its plan, or to raise its
  error and leave the tables alone. The sweeps are loops, proved to be the run of one event per row
  (two per withdrawal). `Platform` serves any series of calls with these methods and keeps the books
  in order.
* `RateLimit`, `Totp`, `LockOrder`, `AccountTransfer`, `TransferSafety`, `TransferRules`,
  `TransferService`, `Migrations` - the smaller protocols.

## What is proved

Everything in `Safety` and the modules built on it is about all runs from an empty database with
arbitrary users and currencies, under the assumptions of `Books.Assumed`:

* a provider never reports a negative payment;
* a withdrawal row grows stale neither while its transfer may still ship, nor while the request that
  made it may still refund it (the transfer is lost, no admin exists, and the request has not ended);
* a transfer call errs, where no admin exists, only when its transfer is lost.

The first is stronger than the accounts need. The handlers accept any finite report;
`NegativeReports.NegativeReportIff` says exactly when one overdraws an account, and
`NegativeReports.ReportKeepsBooksIff` that a negative report which the balance covers breaks nothing
but the sign of the amount in its own row. The other two assumptions are as weak as they can be:
`Assumptions.StaleAssumptionIsExact` and `Assumptions.ErrorAssumptionIsExact` show that a step meets
them exactly when nothing that can follow it, every assumption kept, refunds the withdrawal
twice or rejects it although it ships. So a sweep may overtake a request that still runs, the case
the second status check of the code is for, wherever that does no harm. `LostReplies` has a run for
each of the two double payouts.

The main theorem is escrow backing: `locked` is always exactly what open deals and waiting
withdrawals hold, so none of the `max(0, ...)` clamps ever bites, and `amount + locked` is always
what the deposit, deal and withdrawal tables say it should be. Conservation, the ledger replay, the
settlement of top-ups and the progress of waiting deals follow in that order.

Balanced books alone would let the wrong party be paid. So each kind of call has its law, an if and only
if between what may be done and the exact state it leads to, with everything else unchanged:
`Rulebook.CallsKeepToTheRules` for the calls on a deal, `Openings.DealIsOpenedIff` and
`DealIsSettledIff` for new deals, `Payments.PaymentIsTakenIff`, `ClosingOnlyExpires` and
`TopupRules.TopupPaymentFollowsRules` for what the providers report, `Payments.DepositIsOpenedIff`,
`Requests.RequestIsAcceptedIff` and `WithdrawalsKeepToTheRules` for the wallet, and
`TransferRules.TransferGoesThroughIff` for account transfers. Together they fix every step of every
run. Over whole runs, `Provenance.EscrowEndsByRight`, `Openings.EveryDealIsPriced`,
`Payments.EveryDepositHasItsMessage`, `Requests.TransfersStartByRight` and
`TransferRules.TransfersHaveTheirCode` lead each row back to the call it comes from.

Four statements a reader of the source might expect are false of the code, and the model says
exactly when they hold:

* Replaying the ledger gives the balance if and only if the stale sweep has settled nothing on that
  account, because the sweep writes no entry (`Ledger.ReplayIffNotSwept`);
  `LostReplies.SweepHidesRefund` is a fair run in which the two differ.
* A partial top-up payment is followed by a new invoice if and only if the commission is still due
  or the principal gap does not round to nothing (`Progress.NoReplacementIff`). Balances can leave
  the currency grid because withdrawals are not quantised; `OffGrid.OffGridDealGetsStuck` is a run
  after which a deal can never be activated (`Stranded.OffGridDealIsDead`). The same rounding makes the "commission too small" error of
  `create_deal_with_topup`, which its comment calls defensive, reachable: `Progress.TooSmallIff` says
  when it is raised, and `OffGrid.TooSmallIsReached` gives a run up to such a call.
* Paying the outstanding invoice of a waiting deal in full, with the balance not below what it was
  computed from, activates the deal if and only if the call is a CryptoBot notice or the invoice is
  still pending (`Progress.FullPaymentActivatesIff`, `Progress.PaymentActivatesIff` for any sum). The
  sweep or an "unavailable" notice can expire a Crystalpay invoice while its deal waits; the late
  payment is then refused, no other invoice is ever issued, and the deal can only be closed. A waiting
  deal can still be activated if and only if its latest invoice is unpaid and, if it is a Crystalpay
  invoice, has not expired (`Stranded.CanActivateIff`). `Stranded.FullPaymentComesTooLate` is a run.
* A TOTP code is used once if and only if each request of a user begins after the one before has
  ended, or all of them take the same path and, where that is Redis, claim within a second of the
  check (`Totp.SingleUseIff`). Otherwise two claims ninety-one seconds apart both pass if the first
  request has not committed when the second loads its row (`Totp.LateIsTwice`); a code claimed in
  Redis passes the UPDATE of another request (`Totp.MixedIsTwice`); and the commit of a slower claim
  can set the mark back, so that a used code passes again (`Totp.CommitSetsBack`). Requests may roll
  back in all of this; a code that was not used because of that may pass again, unless it is guarded
  by timely Redis claims alone (`Totp.PassesOnceIff`).

Where the code and its comments differ, the model follows the code: `_release_to` describes a
commission burned from the difference of its two amounts, but every caller passes equal amounts;
and the legacy `create_deal` marks the commission as paid without moving it, so it is counted as
taken only for the other two ways of opening a deal.

## Model

| member | source | states |
|---|---|---|
| Money.HalfEven | backend/app/money.py:86-97 | rounding gives the nearest grid multiple, and the even one on a tie |
| Money.HalfEvenUnique | backend/app/money.py:86-97 | that description has exactly one solution |
| Money.QuantizeIdempotent | backend/app/money.py:86-97 | a quantised value is on the grid, and a value is on the grid if and only if quantising leaves it alone |
| Money.QuantizeNearAndMonotone | backend/app/money.py:86-97 | quantising moves a value by at most half a step and never reorders two values |
| Money.CommissionBounds | backend/app/services_deals.py:121-122 | a rate of 0 to 100 percent takes between nothing and the whole amount; nothing at 0, all of it at 100 |
| Money.QuantizeIsNearest | backend/app/money.py:86-97 | the result is the nearest multiple of the grid step, the even one on a tie, and nothing else is |
| Money.UnitInSteps | backend/app/money.py:86-97 | one unit of a currency is 10^decimals grid steps |
| Money.CommissionIsPercentage | backend/app/services_deals.py:121-122 | the fee is that many ten-thousandths of the amount, to the nearest grid multiple, the even one on a tie |
| Money.CommissionMonotone | backend/app/services_deals.py:121-122 | the commission grows with the amount and with the rate |
| Money.NeededIsExact | backend/app/services_deals.py:513-521 | the balance a deal needs is exactly principal plus commission |
| Services.FindDeposit | backend/app/services_payments.py:62-102 | finds a row of that provider and invoice id if there is one, and nothing only if there is none |
| Services.PlanOf | backend/app/services_ledger.py:35-71 | every call but the stale sweep writes a ledger entry for each balance it changes; only calls on deposits pay in |
| Services.CreditDeposit | backend/app/services_wallet.py:576-726 | a call on one deposit writes that row only, marks it paid once, and credits a wallet deposit with exactly the amount its row then shows |
| Services.SettleTopup | backend/app/services_deals.py:690-973 | a settled top-up deposit is marked paid, credits only in its own name, and touches its deal only while that waits |
| Books.LockCoversDeal | backend/app/services_deals.py:238-240 | the lock of the buyer covers every open deal, so releasing it is not clamped |
| Books.LockCoversWithdrawal | backend/app/services_wallet.py:1355-1360 | the lock covers every waiting withdrawal, so releasing it is not clamped |
| Safety.PriceOnGrid | backend/app/services_deals.py:505-518 | an accepted offer has a positive principal and a non-negative fee on the grid |
| Safety.RefundHonest | backend/app/services_deals.py:216-250 | a refund returns to the buyer exactly what the deal held |
| Safety.ReleaseHonest | backend/app/services_deals.py:253-310 | a release moves exactly the principal from the buyer's lock to the seller |
| Safety.SettlePendingHonest | backend/app/services_deals.py:812-948 | every branch of a settlement posts what its rows say |
| Safety.EveryCallHonest | backend/app/services_deals.py:331-1573 | every service call writes valid rows and posts on every account exactly what they say |
| Safety.StepKeepsValid | backend/app/services_deals.py:331-1573 | each step keeps the books balanced |
| Safety.BooksAlwaysBalance | backend/app/services_deals.py:331-1573 | the books balance in every state of every run |
| Safety.EscrowBacking | backend/app/services_deals.py:151-310 | in every run `locked` is what open deals and waiting withdrawals hold, and neither number is ever negative |
| Safety.ClampsNeverBite | backend/app/services_deals.py:291-291 | no max(0, ...) clamp takes effect in any reachable state |
| Conservation.MoneyIsConserved | backend/app/services_deals.py:253-310 | per currency, balances of all users plus commission plus sent withdrawals are what paid deposits brought in |
| Conservation.ConservedAlways | backend/app/services_wallet.py:606-726 | the same in every state of every run |
| Ledger.LedgerTracksBalances | backend/app/services_ledger.py:35-71 | entries chain, deltas are after minus before, and the replay differs from the balance by exactly what the stale sweep settled |
| Ledger.ReplayIffNotSwept | backend/app/services_wallet.py:1608-1641 | the replay gives the balance if and only if the stale sweep settled nothing on the account |
| Ledger.SettledForGood | backend/app/services_wallet.py:1316-1339 | a settled withdrawal keeps owner, amount, status and note |
| Profiles.ProfilesFollowTables | backend/app/services_deals.py:1093-1120 | in every run the four counters of a user count exactly their accepted, disputed, won and lost deals, and the trust balance their paid trust deposits |
| Profiles.CountersAreBounded | backend/app/services_deals.py:1440-1457 | successes plus failures, and disputes, never exceed the number of deals |
| Profiles.TerminalIsForever | backend/app/services_deals.py:1138-1224 | a deal in a terminal status is never written again |
| Profiles.TrustNeverFalls | backend/app/services_wallet.py:632-683 | no call lowers a trust balance |
| Rulebook.CallsKeepToTheRules | backend/app/services_deals.py:1045-1573 | any call on a deal is carried out to the letter (row, balances, counters, invoice, ledger, nothing else) if caller, status and arguments allow it, and changes nothing if not |
| Rulebook.RefusalsNameTheReason | backend/app/services_deals.py:1045-1573 | a refused call raises the error of the first check that fails |
| Rulebook.VerdictIsCarriedOut | backend/app/services_deals.py:1400-1486 | a verdict pays the party it is for out of the buyer's lock and counts success and failure accordingly; any other verdict, caller or status changes nothing |
| Rulebook.OnlyTheBuyerFinishes | backend/app/services_deals.py:1180-1224 | the deal is completed and the seller paid exactly when the buyer finishes it while it is in progress |
| Provenance.EveryStatusHasItsCall | backend/app/services_deals.py:1045-1573 | in every run a deal beyond its first statuses is as some allowed call on it has left it |
| Provenance.EscrowEndsByRight | backend/app/services_deals.py:1093-1573 | in every run, status by status, which call by whom led there; a cancel is asked for by one party and accepted by the other |
| Openings.OffersHaveOnePrice | backend/app/services_deals.py:500-511 | every offer has exactly one principal and one fee |
| Openings.DealIsOpenedIff | backend/app/services_deals.py:331-444 | an offer is taken exactly if it is in order and the balance covers the principal; the new row, balance and entry are exact, else nothing changes |
| Openings.DealIsSettledIff | backend/app/services_deals.py:450-651 | a balance that covers principal and fee pays both; else an invoice for the missing principal plus the fee is opened with a waiting deal; else nothing changes |
| Openings.RefusedDealsSayWhy | backend/app/services_deals.py:151-182 | a refused offer names its first obstacle, a short balance the exact deficit |
| Openings.RefusedTopupsSayWhy | backend/app/services_deals.py:450-605 | the same where an invoice is asked for |
| Openings.EveryDealIsPriced | backend/app/services_deals.py:316-328 | in every run each deal has the parties of its offer, the asked amount as principal and as fee the percentage the settings prescribed then, VIP override included |
| Deposits.CreditedAtMostOnce | backend/app/services_payments.py:157-316 | over any run a deposit is credited at most once, not at all while unpaid, and a wallet or trust deposit with exactly its final amount |
| Deposits.PaidIsForever | backend/app/services_payments.py:283-288 | a paid deposit row never changes again |
| Notices.CryptoBotConverges | backend/app/services_payments.py:157-316 | any order and duplication of the same paid and expired notices ends in one state, that of the single accepted payment if there is one |
| Notices.RowConverges | backend/app/services_payments.py:157-316 | the same for the deposit row with arbitrary other calls in between, polls of that deposit excepted |
| Payments.PaymentIsTakenIff | backend/app/services_payments.py:157-243 | a message of payment is taken exactly if the row is open to it and the amount covers it, more is welcome; the row, the credit and the entry are exact; one that is not taken changes nothing |
| Payments.ClosingOnlyExpires | backend/app/services_payments.py:432-452 | "unavailable", "failed", an expiry notice or sweep ends a pending row as expired and moves no money; it changes nothing else |
| Payments.SilenceChangesNothing | backend/app/services_payments.py:454-468 | any other state changes nothing |
| Payments.StrangersChangeNothing | backend/app/services_payments.py:62-102 | a message about no stored invoice of that provider changes nothing |
| Payments.IgnoredMessagesSayWhy | backend/app/services_payments.py:157-243 | a message that changes nothing is answered by what stands in its way |
| Payments.DepositIsOpenedIff | backend/app/services_wallet.py:315-475 | a deposit invoice is opened exactly for a known user and currency, an amount of at least the minimum and an issued new id, for the purpose asked; else nothing changes |
| Payments.EveryDepositHasItsMessage | backend/app/services_payments.py:157-468 | in every run a paid row was paid by one message that says so and was taken, an expired one closed by a closing message or with its deal |
| PolledDeposits.PolledRowEnds | backend/app/services_wallet.py:958-969 | with polls too, a row whose accepted report has arrived is paid, with the invoiced amount or with what the report alone credits |
| PolledDeposits.PolledConvergesIff | backend/app/services_wallet.py:606-615 | in every run that delivers an accepted report on a pending deposit the credit is that of the report alone, if and only if it reports no more than was invoiced |
| Notices.FirstTerminalNoticeDecides | backend/app/services_payments.py:350-468 | of any Crystalpay notices for an invoice only the first one acted on has an effect |
| Notices.PollAgreesIff | backend/app/services_wallet.py:958-969 | for a pending wallet deposit, poll and accepted notice credit the same if and only if the reported amount does not exceed the invoiced one |
| Notices.CreditNearReported | backend/app/services_payments.py:144-154 | an accepted report is credited within half a grid step or one quantum, whichever is more |
| Settlement.PayingDeal | backend/app/services_deals.py:768-948 | each payment is split between credit and commission, and locks the principal only when it activates the deal |
| Settlement.PaymentsAreSettled | backend/app/services_deals.py:690-948 | over any payments, what was paid for a deal is what its buyer was credited plus the commission if marked paid; the principal is locked once or not at all |
| NegativeReports.NegativeReportIff | backend/app/services_deals.py:768-831 | from either provider, on a deal that waits or not, a report overdraws exactly the buyer, and exactly when it is accepted and takes away more than the balance |
| NegativeReports.WalletReportsOverdrawNobody | backend/app/services_wallet.py:606-615 | on a wallet or trust deposit no report of either provider overdraws any account |
| NegativeReports.ReportKeepsBooksIff | backend/app/services_deals.py:768-831 | all accounts stay balanced if and only if the balance covers the report, and the whole invariant holds if and only if the report is not negative once rounded |
| NegativeReports.ReportOverdraws | backend/app/services_deals.py:812-831 | a reachable state and a report after which the buyer of a waiting deal has minus ten |
| Topups.DealsStayPaired | backend/app/services_deals.py:613-631 | a waiting deal and its outstanding invoice name each other, every other invoice of it is paid, and after activation all are |
| Topups.OutstandingOnly | backend/app/services_deals.py:675-687 | an unpaid invoice of a waiting deal is the one the deal names |
| Grid.BalancesOnGrid | backend/app/services_wallet.py:1116-1127 | if every withdrawal is on the currency grid, every balance is |
| Grid.GridKept | backend/app/services_wallet.py:1116-1127 | in runs whose withdrawals are on the grid, all balances are, in every state |
| TopupRules.TopupPaymentFollowsRules | backend/app/services_deals.py:690-948 | on any balance: a late payment is credited whole; one that suffices activates the deal; a short one is credited less the commission it covers and the rest invoiced again at the same provider; rows, balances and entry are exact |
| Progress.ShortPaymentReinvoices | backend/app/services_deals.py:822-926 | a short payment on a grid balance yields a non-empty invoice of the old remainder minus the smaller of payment and gap, or minus the payment once the commission is covered |
| Progress.NoReplacementIff | backend/app/services_deals.py:667-673 | without the grid the new invoice is missing exactly when the commission is covered and the gap rounds to nothing |
| Progress.TooSmallIff | backend/app/services_deals.py:594-603 | the too-small error is raised exactly when the fee is zero and a positive gap rounds to nothing |
| Progress.InvoicesAreExact | backend/app/services_deals.py:513-521 | on grid runs every waiting deal has an unpaid invoice of exactly gap plus commission due |
| Progress.PaymentActivatesIff | backend/app/services_deals.py:812-948 | a call that reports any payment on the outstanding invoice of a waiting deal activates it, with exact balances, if and only if it is let through (a CryptoBot notice, or the row is pending) and its sum suffices; refused, it changes nothing |
| Progress.FullPaymentActivatesIff | backend/app/services_payments.py:383-405 | paying it in full, balance not below what it was computed from, activates the deal if and only if the call is let through |
| Progress.FullPaymentsOnGrid | backend/app/services_deals.py:690-948 | in every state of every run on the grid each waiting deal has its unpaid invoice, and a full payment of it does exactly that |
| Stranded.BeyondIsForever | backend/app/services_payments.py:386-405 | a deposit row that is paid, or Crystalpay's and expired, never changes again in any run |
| Stranded.DeadIsForever | backend/app/services_payments.py:386-405 | a top-up deal that was never activated, all its invoices paid or expired at Crystalpay, stays so in any run, fair or not |
| Stranded.CanActivateIff | backend/app/services_payments.py:386-405 | some fair continuation activates a waiting deal if and only if its latest invoice is unpaid and not an expired Crystalpay invoice |
| Stranded.WaitingDealCanActivateIff | backend/app/services_wallet.py:792-842 | the same in every state of every run, on the grid or not |
| Stranded.FullPaymentComesTooLate | backend/app/services_payments.py:386-405 | a fair grid run after which the exact invoice of a waiting deal has expired, its full payment is refused, and no continuation activates the deal |
| Stranded.OffGridDealIsDead | backend/app/services_deals.py:882-926 | the deal stuck off the grid is never activated by any continuation |
| OffGrid.TooSmallIsReached | backend/app/services_deals.py:594-603 | a fair run after which an offer without commission is refused as too small |
| OffGrid.OffGridDealGetsStuck | backend/app/services_deals.py:882-926 | a reachable state off the grid: invoice paid in full, deal still waiting, no invoice left |
| Requests.RequestIsAcceptedIff | backend/app/services_wallet.py:1050-1148 | a request is stored, its amount locked, exactly if user, currency, minimum, delivery path and balance allow it; its transfer starts exactly if automatic mode is configured and on; else nothing changes |
| Requests.RefusedRequestsSayWhy | backend/app/services_wallet.py:1050-1127 | a refused request names its first obstacle, a short balance the exact deficit |
| Requests.WithdrawalsKeepToTheRules | backend/app/services_wallet.py:1189-1661 | all that can happen to a stored withdrawal: when it can, the exact row, balance and entry it leaves, with the lock ending exactly when the wait does; else nothing changes |
| Requests.TransfersStartByRight | backend/app/services_wallet.py:1092-1200 | in every run each withdrawal goes back to an acceptable request; requested outside automatic mode it never has a transfer call and is never sent |
| Withdrawals.StatusTellsTheTruth | backend/app/services_wallet.py:1150-1401 | in every run, also when the sweep overtakes a request that still runs, `sent` means shipped and `rejected` means never shipped |
| Withdrawals.SettlementIsExact | backend/app/services_wallet.py:1225-1246 | a settlement ends one wait, releases exactly its amount and refunds it exactly when it rejects |
| Withdrawals.SettledExactlyOnce | backend/app/services_wallet.py:1466-1663 | in every run a withdrawal is settled at most once, and once when it no longer waits |
| Assumptions.StaleAssumptionIsExact | backend/app/services_wallet.py:1316-1339 | a row of positive amount may grow stale exactly when no fair continuation refunds it twice or rejects it although it ships |
| Assumptions.ErrorAssumptionIsExact | backend/app/services_wallet.py:1217-1257 | a transfer call may err exactly when no fair continuation rejects the row although it ships or unbalances its account |
| Assumptions.AssumedStaysSound | backend/app/services_wallet.py:1466-1663 | after a step within the assumptions every fair continuation leaves the row truthful and its account balanced |
| LostReplies.LostReplyPaysTwice | backend/app/services_wallet.py:1217-1257 | if a shipped transfer errs and no admin exists, the user has the money twice |
| LostReplies.SlowRequestRefundsTwice | backend/app/services_wallet.py:1217-1257 | if the sweep refunds a lost transfer while its request may still do so, the failure branch refunds again |
| LostReplies.SweepHidesRefund | backend/app/services_wallet.py:1608-1641 | a fair run with one swept refund: the balance is 20 and 0 locked, the replay of the ledger 0 and 20 locked |
| Database.Db.LockUserBalance | backend/app/services_wallet.py:230-285 | a missing row is inserted as zero and nothing else changes |
| Database.Db.RecordBalanceLedger | backend/app/services_ledger.py:35-71 | appends one entry with before, delta and after, or nothing if nothing changed |
| Database.Db.RecordSyntheticLedger | backend/app/services_ledger.py:74-108 | the same for trust credits |
| InvoiceService.Lookup | backend/app/services_payments.py:62-102 | the lookup loop finds what FindDeposit describes |
| InvoiceService.AddInvoice | backend/app/services_wallet.py:460-475 | inserts the row the provider issued, unless the provider failed or the id is taken |
| DealService.Debit | backend/app/services_deals.py:151-182 | locks the amount with its ledger entry, or reports the exact deficit |
| DealService.RefundPrincipal | backend/app/services_deals.py:216-250 | unlocks with the clamp and credits, with its ledger entry |
| DealService.ReleaseTo | backend/app/services_deals.py:283-310 | after locking in id order and un-swapping, debits the payer's row and credits the payee's, in either order of ids |
| DealService.PriceOffer | backend/app/services_deals.py:500-511 | the checks and the rounding of an offer, in order |
| DealService.CreateDeal | backend/app/services_deals.py:331-444 | commits its plan or raises its error and writes nothing |
| DealService.OpenTopup | backend/app/services_deals.py:579-631 | inserts the waiting deal and its invoice linked both ways, or nothing if the invoice fails |
| DealService.CreateDealWithTopup | backend/app/services_deals.py:450-651 | commits its plan or raises its error and writes nothing |
| DealService.CloseTopup | backend/app/services_deals.py:1008-1024 | expires the linked invoice if it is pending and closes the deal |
| DealService.CancelPendingTopup | backend/app/services_deals.py:1045-1090 | commits its plan or raises its error and writes nothing |
| DealService.AcceptDeal | backend/app/services_deals.py:1093-1135 | commits its plan or raises its error and writes nothing |
| DealService.DeclineDeal | backend/app/services_deals.py:1138-1177 | commits its plan or raises its error and writes nothing |
| DealService.FinishDeal | backend/app/services_deals.py:1180-1224 | commits its plan, which Rulebook.OnlyTheBuyerFinishes describes, or raises its error and writes nothing |
| DealService.RequestCancel | backend/app/services_deals.py:1230-1255 | commits its plan or raises its error and writes nothing |
| DealService.RevokeCancel | backend/app/services_deals.py:1258-1283 | commits its plan or raises its error and writes nothing |
| DealService.AcceptCancel | backend/app/services_deals.py:1286-1336 | commits its plan or raises its error and writes nothing |
| DealService.StartArbitration | backend/app/services_deals.py:1347-1397 | commits its plan or raises its error and writes nothing |
| DealService.ResolveArbitration | backend/app/services_deals.py:1400-1486 | commits its plan, which Rulebook.VerdictIsCarriedOut describes, or raises its error and writes nothing |
| TopupService.IssueRemaining | backend/app/services_deals.py:654-687 | attaches an invoice for the remainder, none if nothing remains, and changes nothing if that fails |
| TopupService.CreditLate | backend/app/services_deals.py:771-800 | a payment on a deal that no longer waits is credited whole |
| TopupService.CreditPartly | backend/app/services_deals.py:822-926 | a short payment is credited and re-invoiced, or all of it is rolled back |
| TopupService.Activate | backend/app/services_deals.py:929-948 | credits, locks the principal, marks deposit and deal |
| TopupService.CompleteDealTopupPayment | backend/app/services_deals.py:690-973 | commits its plan or raises its error and writes nothing |
| WalletService.OpenDeposit | backend/app/services_wallet.py:315-369 | commits its plan or raises its error and writes nothing |
| WalletService.CreditDeposit | backend/app/services_wallet.py:576-726 | commits its plan or raises its error and writes nothing |
| WalletService.LockAndCredit | backend/app/services_wallet.py:958-969 | credits the invoiced amount of a pending deposit, and nothing else |
| WalletService.LockAndExpire | backend/app/services_wallet.py:972-990 | expires a pending deposit, and nothing else |
| WalletService.HandleInvoicePaid | backend/app/services_payments.py:157-243 | commits its plan or raises its error and writes nothing |
| WalletService.HandleInvoiceExpired | backend/app/services_payments.py:246-316 | commits its plan or raises its error and writes nothing |
| WalletService.HandleCrystalpayInvoice | backend/app/services_payments.py:350-468 | commits its plan, which the laws of Payments describe, or raises its error and writes nothing |
| WithdrawalService.RequestWithdrawal | backend/app/services_wallet.py:1068-1148 | phase 1 commits its plan, which Requests.RequestIsAcceptedIff describes, or raises its error and writes nothing |
| WithdrawalService.FinishSent | backend/app/services_wallet.py:1298-1376 | phase 3 after success commits its plan |
| WithdrawalService.FinishFailed | backend/app/services_wallet.py:1217-1257 | the failure branch refunds without looking at the status, or leaves the row to the admins |
| WithdrawalService.AskProvider | backend/app/services_wallet.py:1566-1589 | phase B notes for a stale waiting row whether the provider knows its transfer |
| WithdrawalService.Reconcile | backend/app/services_wallet.py:1595-1641 | phase C of the sweep settles a waiting row without a ledger entry and skips any other |
| Sweeps.SweepExpiredDeposits | backend/app/services_wallet.py:792-842 | expires exactly the selected rows and counts them |
| Sweeps.ExpireRows | backend/app/services_wallet.py:841-842 | the selected rows become expired, all others stay |
| Sweeps.ExpirySweepIsRun | backend/app/services_wallet.py:792-842 | the loop is the run of one expiry per row |
| Sweeps.SweepPendingTopup | backend/app/services_deals.py:976-1035 | closes exactly the selected deals and their pending invoices, one after the other |
| Sweeps.CloseRows | backend/app/services_deals.py:1003-1024 | the selected deals become cancelled for inactivity, all others stay |
| Sweeps.TopupSweepIsRun | backend/app/services_deals.py:976-1035 | the loop is the run of one closing per row |
| Sweeps.SweepInactivity | backend/app/services_deals.py:1492-1573 | refunds and closes the selected deals one after the other and counts those with a currency |
| Sweeps.InactivitySweepIsRun | backend/app/services_deals.py:1492-1573 | the loop is the run of one refund per row |
| Sweeps.InactivitySweepRefundsExactly | backend/app/services_deals.py:1535-1553 | across the loop each account gets back exactly what the selected deals held, and the books stay balanced |
| Sweeps.Candidates | backend/app/services_wallet.py:1535-1546 | selects exactly the stale waiting rows, each once |
| Sweeps.SweepStaleWithdrawals | backend/app/services_wallet.py:1513-1661 | nothing if switched off; else selects, asks and settles row by row: the run of these events, every reached row sent or rejected as its transfer went, all others as before, and the count of the reached ones |
| Platform.Handle | backend/app/services_deals.py:331-1573 | every call, made on the tables, is one step of the run and within the assumptions keeps the books in order |
| Platform.Serve | backend/app/services_deals.py:331-1573 | serving a fair series of calls takes the tables through the run, with balanced books at every point |
| RateLimit.Bucket.Hit | backend/app/rate_limit.py:101-114 | pops, then refuses with the exact wait or appends |
| RateLimit.HistoryTracked | backend/app/rate_limit.py:101-114 | in every run the deque is sorted, at most `limit` long, and the end of the admitted history |
| RateLimit.AdmittedIffBelowLimit | backend/app/rate_limit.py:101-114 | a hit is admitted if and only if fewer than `limit` admitted hits of the full history lie in (now - window, now] |
| RateLimit.AdmittedHitsAreSpread | backend/app/rate_limit.py:22-27 | any limit + 1 admitted hits span at least a window |
| RateLimit.NoWindowHoldsMore | backend/app/rate_limit.py:22-27 | no half-open window anywhere in a run holds more than `limit` admitted hits |
| RateLimit.RetryIsExactInRuns | backend/app/rate_limit.py:111-113 | after a refusal the next hit is refused before the announced moment and admitted from it on |
| RateLimit.RedisAgreesIff | backend/app/rate_limit.py:72-93 | script and deque give the same decision and wait after every run, if and only if the limit is positive |
| Totp.VerifyTotp | backend/app/auth_2fa.py:138-176 | fails exactly for a well-formed code in the first period after the epoch; else returns the lowest counter within one window whose code matches, or none if none does |
| Totp.NearIsNinetySeconds | backend/app/auth_2fa.py:154-166 | a counter can match during exactly ninety seconds |
| Totp.SingleUseIff | backend/app/auth_2fa.py:288-384 | over all runs of claims, updates, commits and rollbacks no counter is used twice if and only if requests are serial, or take one path and claim within a second of the check |
| Totp.ClaimOutlasts | backend/app/auth_2fa.py:310-325 | two claims within a second of their checks never accept the same counter, whatever updates and commits run beside them |
| Totp.UpdateStrictlyIncreases | backend/app/auth_2fa.py:358-380 | with the conditional UPDATE alone a counter that passes exceeds every used one, whatever stale rows were loaded and whichever requests rolled back |
| Totp.SerialStrictlyIncreases | backend/app/auth_2fa.py:288-384 | when each request begins after the last has ended, a counter that passes exceeds every used one, on any mix of paths |
| Totp.PassesOnceIff | backend/app/auth_2fa.py:288-384 | with rollbacks no counter so much as passes the check twice if and only if no request takes the UPDATE and every claim follows the check within a second |
| Totp.LateIsTwice | backend/app/auth_2fa.py:310-325 | with a delay above a second, two claims of one counter both take effect when the first is uncommitted as the second loads its row |
| Totp.MixedIsTwice | backend/app/auth_2fa.py:326-380 | with both paths in use a code claimed in Redis passes the UPDATE of another request |
| Totp.CommitSetsBack | backend/app/auth_2fa.py:382-384 | the unconditional store of a slower claim sets the mark back, and a code used and committed passes again |
| LockOrder.LocksAreExclusive | backend/app/services_deals.py:283-286 | no row is locked by two calls at once |
| LockOrder.NoCircularWait | backend/app/services_deals.py:283-286 | among any number of concurrent releases some unfinished one can always go on |
| LockOrder.AllCanFinish | backend/app/services_deals.py:283-286 | from every reachable state all releases can finish |
| LockOrder.PayerFirstDeadlocks | backend/app/services_deals.py:268-282 | locking the payer first, two opposite releases of a pair block each other |
| AccountTransfer.CodeTable.Purge | backend/app/services_account.py:158-181 | deletes exactly the expired and consumed codes |
| AccountTransfer.CodeTable.Invalidate | backend/app/services_account.py:216-232 | stamps exactly the unconsumed codes of the source and counts them |
| AccountTransfer.CodeTable.DrawUnique | backend/app/services_account.py:105-155 | returns the first draw whose hash no live code has, and gives up exactly when all allowed draws are taken |
| AccountTransfer.CodeTable.Issue | backend/app/services_account.py:251-287 | ends the source's codes and adds the first draw no stored row has, or leaves the table as it was after at least `attempts` draws that are all taken |
| AccountTransfer.IssueKeepsOk | backend/app/services_account.py:251-287 | hashes stay unique and each source keeps one unconsumed code |
| AccountTransfer.OneUnconsumedCode | backend/app/services_account.py:290-307 | cancelling never has more than one row to stamp |
| AccountTransfer.MoveKeepsInjective | backend/app/services_account.py:498-508 | Telegram identities stay distinct, only the target disappears, the source takes its identity |
| TransferSafety.EmptyUserOwnsNothing | backend/app/services_account.py:310-375 | a user the guard lets pass has zero on every account |
| TransferSafety.MoveKeepsValid | backend/app/services_account.py:482-508 | a transfer keeps the books balanced |
| TransferSafety.MoveKeepsTotals | backend/app/services_account.py:482-508 | a transfer leaves the total holdings of all users unchanged |
| TransferSafety.MoveKeepsTracked | backend/app/services_account.py:496-501 | deleting the target's ledger entries leaves every account explained by the ledger |
| TransferSafety.TransferConsumesItsCode | backend/app/services_account.py:525-528 | no later call finds the code of a completed transfer |
| TransferSafety.TransfersKeepEverything | backend/app/services_account.py:392-528 | in every run of services, codes and transfers the books balance, identities are distinct and codes are well kept |
| TransferSafety.MoneyConservedWithTransfers | backend/app/services_account.py:392-528 | conservation per currency in every run of services and transfers |
| TransferSafety.LiveCodesAreDistinct | backend/app/services_account.py:251-287 | live codes differ in hash and in source |
| TransferRules.TransferGoesThroughIff | backend/app/services_account.py:392-528 | a transfer goes through exactly if an unused, unexpired code of another user matches and the target has set up, traded and holds nothing; then that user takes over the identity with new epochs and the code is used up, nothing else changes |
| TransferRules.TransfersHaveTheirCode | backend/app/services_account.py:251-307 | in every run the code of a transfer was issued to the user who takes over, has not run out, and was neither cancelled nor replaced since |
| TransferService.MoveIdentity | backend/app/services_account.py:498-523 | deletes the target with its balances and entries, rewrites the source and ends its sessions |
| TransferService.ConfirmTransfer | backend/app/services_account.py:392-528 | every outcome of the call: which check fails, what is written, what is rolled back |
| Migrations.BalanceTable.FoldInto | alembic/versions/e7a3c1b9d4f6_v11_user_balances_unique.py:53-74 | the UPDATE puts the old group sums into the row with the lowest id of each duplicated group |
| Migrations.BalanceTable.DeleteRest | alembic/versions/e7a3c1b9d4f6_v11_user_balances_unique.py:75-90 | the DELETE removes the other rows of duplicated groups |
| Migrations.FoldIsUnique | alembic/versions/e7a3c1b9d4f6_v11_user_balances_unique.py:92-98 | afterwards no (user, currency) pair has two rows |
| Migrations.FoldKeepsLowestRow | alembic/versions/e7a3c1b9d4f6_v11_user_balances_unique.py:53-90 | each pair keeps its lowest row, holding the old sums |
| Migrations.FoldKeepsSums | alembic/versions/e7a3c1b9d4f6_v11_user_balances_unique.py:53-90 | per user and currency both sums are unchanged |
| Migrations.CleanTableUntouched | alembic/versions/e7a3c1b9d4f6_v11_user_balances_unique.py:46-52 | without duplicates both statements do nothing |
| Migrations.Schema.Upgrade | alembic/versions/h1a2b3c4d5e6_h1_retire_user_balance_invoice.py:83-160 | fails exactly when USDT is missing and needed; else audits, merges and prices, and nothing more |
| Migrations.MergeAddsOnce | alembic/versions/h1a2b3c4d5e6_h1_retire_user_balance_invoice.py:138-153 | each positive legacy balance is added once to the user's USDT amount, `locked` unchanged |
| Migrations.MergeTouchesOnlyOwed | alembic/versions/h1a2b3c4d5e6_h1_retire_user_balance_invoice.py:138-153 | no other balance row changes |
| Migrations.AuditIsExact | alembic/versions/h1a2b3c4d5e6_h1_retire_user_balance_invoice.py:107-134 | the audit names exactly the users with a positive legacy balance, each once, with that balance |
| Migrations.MergeAddsUp | alembic/versions/h1a2b3c4d5e6_h1_retire_user_balance_invoice.py:138-153 | over all users the USDT amounts grow by exactly the legacy balances |

## Left out

- The admin routers (force release, split, adjust, refund, approve, statistics): not part of the modelled services, so no run contains their steps, and no step sets `refunded`.
- Notifications, WebSocket and DM dispatch, logging and refreshes: they happen after commit and change no money.
- HTTP clients, webhook signatures, JWT, bcrypt and HMAC: only their outcomes appear, as arguments or as an uninterpreted function.
- The address check of withdrawals and its child process, Pydantic field checks, serializers, seeds, schema-only migrations.
- 28-digit decimal precision and the width of Numeric columns: amounts are unbounded integers of quanta.
- Currencies with more than eight decimals, and changes of `decimals` during the life of a currency.
- Timestamps: which rows are old enough for a sweep is an argument, and rows a concurrent worker has locked are simply not selected.
- The withdrawal sweep re-reads rows without `populate_existing`; the model takes the re-read as fresh, as the rest of the protocol intends.
- Deals without a currency, of which the H-1 migration leaves none.
- A withdrawal row that vanished between two phases, and a deposit without a currency row beyond the branch that handles it.
- Commit points inside a sweep: each row is a step of its own, where the code commits once after the loop.
- Deadlock freedom of the whole system: false, since webhooks lock the deposit before the deal and the top-up sweep the deal before the deposit; only the two locks of a release are modelled.
- The mix of Redis and in-memory rate limiting, clocks that run backwards, and fractions of a microsecond.
- The emergency TOTP bypass and digits outside ASCII.
- Concurrent issuing of transfer codes: issuing is one step; the collisions it retries are those with stored rows.
- Services, reviews, PINs and profile fields of users, which a transfer reads as one flag.
- Audit payloads, dropped columns and enum renames of the migrations.
- DealService.ReleaseTo: takes two different users, and so do the calls that end in it; creating a deal refuses anything else and every reachable state keeps it.
- Totp.SingleUseIff: leaves out clocks within the first minute after the epoch, where the stored counter zero reads as no mark; an UPDATE counts as committed or rolled back when it is made, since the row lock it takes makes the next one wait.
- WithdrawalService.FinishFailed: the contract says what the branch writes; that it is right to refund holds only under the two assumptions on transfers above.
