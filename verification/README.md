# Verified model of the dooCall back end

dooCall sells call-centre seats on a prepaid balance, charges saved cards through an unreliable gateway, pays
partners out of cashback, drives phones remotely, and keeps CRM systems informed. This project models the parts of
the back end where those services meet shared rows, and proves what holds over whole runs of them.

| file | models |
|---|---|
| `Prelude.dfy`, `Calendar.dfy` | optional values, sums over rows; dates, month addition (both versions), the accrual series loop |
| `Billing.dfy`, `Account.dfy` | one company's rows: the services as functions on values, and the same services in place on a class whose every method is proved equal to its function |
| `BillingLaws.dfy`, `BillingStatus.dfy`, `BillingCycles.dfy`, `BillingEffects.dfy`, `BillingPeriods.dfy`, `BillingColumns.dfy` | conservation; statuses, prepaid safety and catch-up; statements; exact effects and the theorem from sign-up; billing periods; what each step does to each column, and what a closing leaves for good |
| `Autopay.dfy`, `AutopayJob.dfy`, `AutopayLaws.dfy` | card charges, reconciliation, the nightly attempt; the same in place; what one charge or attempt does |
| `AutopayRuns.dfy`, `AutopayCap.dfy` | runs against an adversarial but honest gateway; the 30-day cap and the theorem from sign-up with cards |
| `PaymentRace.dfy` | one payment seen through stale copies; two sweeps racing |
| `Partners.dfy` | accruals, reversals, payouts and whole-row allocation |
| `Dial.dfy`, `ClickToCall.dfy` | remote dial commands and rate limits; the Bitrix24 claim protocol |
| `Unanswered.dfy`, `Delivery.dfy`, `Sanitizer.dfy` | the call-back query against one pass; slow CRM deliveries against disconnects; the HTML sanitizer |

A transaction is one step. A run is any sequence of steps, with any arguments, in any order. An exception is a
refused step that leaves the rows as they were. Sums, dates and money are exact integers; the gateway, the clock,
the prices, the operators and the register are arguments of each step. Fields named as history in the code
(`taken`, `closed`, `staffHold`, and the gateway's `taken` and `unknown` sets) record what happened and decide only what the source
reads from its audit log.

## Main results

- `BillingEffects.FromSignup`, `AutopayCap.PlaysFromSignup`: everything the ledger keeps, over every run from sign-up, without and with cards.
- `BillingColumns.StandingExactly`, `BillingColumns.ClosedCycleIsBilled`: what every step does to the statuses, and that a closed cycle is billed for good.
- `BillingStatus.CatchUp`, `BillingPeriods.CyclesTileTime`: a backlog taken at once equals day by day; cycles tile time.
- `BillingStatus.StatusesAgree`: exactly when the two status columns agree.
- `AutopayRuns.OneChargeADay`, `AutopayRuns.OnlyTakenMoneyIsCredited`, `AutopayRuns.TakenMoneyIsNeverWrittenOff`: one automatic charge a date, exactly when only taken money is credited, and exactly when taken money is lost.
- `AutopayCap.CapHolds`, `AutopayCap.CapSurvivesIff`: the spending cap, and exactly when it fails.
- `PaymentRace.CreditedAtMostOnce`, `PaymentRace.TruthfulIff`: stale copies credit once, and exactly when the books stay true.
- `Partners.FromEmptyBooks`, `Partners.SolventUntilOverdrawn`: never paid more than accrued, and exactly when a balance goes below zero.
- `Dial.EndsInOutcome`, `Dial.NeverTooFast`: where any sequence of frames ends, and how often a phone is rung.
- `ClickToCall.FromNoCommands`, `ClickToCall.StrandsIff`, `ClickToCall.StrandedForGood`: finished at most once, and exactly when never.
- `Unanswered.QueryIsOnePass`, `Delivery.WipedStaysWiped`, `Sanitizer.OutputIsSafe`, `Sanitizer.UnchangedIffSafe`.

## Where the code and its words differ

Each of these has a lemma; the model follows the code.

- "The same day next month" drifts: a cycle opened on the 31st is on the 28th after February and stays there
  (`Calendar.CycleDayDrifts`, with the exact condition in `RollIsAddMonths`).
- A canceled subscription can sit beside an active company after a top-up (`BillingEffects.CanceledCompanyCanRun`).
- A lapsed trial that staff extend is not ended by paying: the subscription stays suspended, the company stays on
  trial and its nights are free (`BillingStatus.PaidAfterExtension`; `StepAgrees` says exactly which writes set the
  two statuses against each other).
- "A company an administrator suspended by hand must not be auto-charged", but a suspension beside a subscription
  that is already suspended or canceled leaves no hold (`AutopayLaws.StaffSuspensionStopsAutopayIff`).
- A saved-card charge of unknown outcome can be credited before its money was taken, by a hand approval
  (`AutopayRuns.CreditsUntakenIff`).
- A partner's available balance can go below zero, because a payout consumes whole accrual rows and because a refund
  reverses an accrual already promised to a payout (`Partners.BalanceGoesNegative`, `Partners.RefundOverdraws`, with
  the exact condition in `GoesNegativeIff`; the bound on total payments still holds).
- The monthly cap of auto-pay can fail if a charge stays unresolved past its three-day hold and is then found paid
  (`AutopayCap.ChargeOpenPastItsHoldBreaksTheCap`, with the exact condition in `CapSurvivesIff`).
- "Not listed after 24 hours: nothing was taken" is lost money if the gateway takes it later
  (`AutopayRuns.LateTakeLosesMoney`, with the exact condition in `LosesMoneyIff`).
- Two sweeps that overlap at midnight can both charge one company (`PaymentRace.BothChargeAcrossMidnight`).
- A refund checks the caller's copy of the payment, so two stale copies debit twice
  (`PaymentRace.StaleRefundsDebitTwice`, with the exact condition in `BreaksIff`).
- An ack that arrives between a close task's claim and its second read leaves the command claimed for good, as do an
  integration switched off there and the death of a claim's holder (`ClickToCall.LateAckStrandsTheClaim`, with the
  exact condition in `StrandsIff`).
- A disconnect is undone by a Kotib save that was refused, and by any request of the settings page that writes back
  the copy it had read before (`Delivery.RefusedSaveUndoesDisconnect`, with the exact condition in `RefilledIff`).
- "Still points at the URL" is not "the same connection": a re-save at the same URL takes the older send's cache
  (`Delivery.ResaveAtSameUrlTakesOldCache`).
- The default for a number never answered drops missed calls dated before 1970 (`Unanswered.QueryIsOnePass`).

## Model

| member | source | states |
|---|---|---|
| `BillingEffects.FromSignup` | backend/apps/billing/services.py:60-724 | Main run theorem: after any sequence of jobs, payments, drops, refunds, subscription services, staff buttons and bulk actions from sign-up, the balance equals approved payments minus deducted days minus statements paid from it, charges are unique and billed at most once, the subscription never leaves CANCELED or returns to TRIAL, and the two status columns agree throughout exactly when nobody overwrote the company; in a prepaid run an active company has a positive balance and debt stays below the last deduction |
| `BillingLaws.MoneyIsConserved` | backend/apps/billing/services.py:364-611 | Conservation over every run from any conserving state |
| `BillingLaws.StepConserves` | backend/apps/billing/services.py:652-724 | Every single service keeps the balance equal to what was paid in, less days taken, less statements taken |
| `BillingLaws.DeductMovesPending` | backend/apps/billing/services.py:426-435 | A deduction moves exactly the pending total from the balance to the deducted days, the early return included, and touches no statement or payment |
| `BillingLaws.RoundHalfEvenNearest` | backend/apps/billing/services.py:253-256 | The daily rate is the nearest integer to price over days of the month, and even on a tie |
| `BillingLaws.MonthOfDailyRates` | backend/apps/billing/services.py:253-256 | A month of daily charges costs the monthly price to within half a unit a day |
| `BillingStatus.StatusesAgree` | backend/apps/billing/services.py:65-163 | Over every run the statuses agree throughout (subscription TRIAL iff company TRIAL, ACTIVE and SUSPENDED subscriptions mean the same company status) exactly when no step overwrote the company against its subscription |
| `BillingStatus.StatusesGoForward` | backend/apps/billing/services.py:65-80 | Over every run whatever CANCELED is absorbing and a subscription's finished trial never returns; a company's returns only by an extension |
| `BillingStatus.StepGoesForward` | backend/apps/partners/views_admin.py:609-643 | Which single step puts a company back on trial: the extension and nothing else |
| `BillingStatus.PaidAfterExtension` | backend/apps/partners/views_admin.py:629-634 | After a trial was extended a payment makes the company active exactly when the subscription is on trial or active; otherwise both stay as they are and the nights are free |
| `BillingStatus.StaffSuspensionHoldsIff` | backend/apps/partners/views_admin.py:617-622 | A suspension by hand is on record as one exactly when the subscription was on trial or active, or an earlier one was |
| `BillingStatus.StepAgrees` | backend/apps/partners/views_admin.py:617-634 | From agreement, every step keeps it but an extension beside a subscription past its trial and the two bulk actions where the subscription says otherwise, and these break it |
| `BillingStatus.OverdueBlocks` | backend/apps/billing/services.py:629-648 | However many statements are overdue, one sweep leaves the company alone or stops it once: company suspended, a subscription on trial or active suspended with no person on record, any other subscription unchanged |
| `BillingStatus.CreditAgrees` | backend/apps/billing/services.py:700-715 | Applying a payment keeps the agreement of the two statuses |
| `BillingEffects.CanceledCompanyCanRun` | backend/apps/billing/services.py:342-361 | A canceled company runs again exactly when a top-up pays everything unpaid and leaves a day of service; the subscription stays CANCELED |
| `BillingStatus.ActiveMeansPaid` | backend/apps/billing/tasks.py:56-70 | In every prepaid run an active company has money after every step and debt is strictly below what the last deduction took |
| `BillingStatus.StepIsPrepaid` | backend/apps/billing/services.py:419-456 | Every prepaid step, staff buttons and bulk actions on a company with money included, keeps that, and either takes days from a positive balance or leaves the balance no lower |
| `BillingStatus.CreditEffect` | backend/apps/billing/services.py:558-580 | With nothing unpaid a credit goes to the balance whole and decides reactivation by one day of cover |
| `BillingStatus.CatchUp` | backend/apps/billing/services.py:419-456 | Deducting any list of days one by one, in any order, ends with the same balance, statuses and charges as deducting once up to the latest (flags on zero-cost charges aside) |
| `BillingStatus.DeductTwice` | backend/apps/billing/services.py:427-437 | Deducting up to one day and then another equals deducting once up to the later |
| `BillingCycles.EachDayBilledOnce` | backend/apps/billing/services.py:480-532 | Over every run a charge once linked stays with that one statement, no charge is lost or repriced, every closed cycle statement totals exactly its linked charges and was not also paid from the balance, and there is one charge per operator and day |
| `BillingCycles.StepKeepsBilled` | backend/apps/billing/services.py:492-506 | Every service keeps statement totals equal to their linked charges, and the charges themselves |
| `BillingCycles.ClosingTakesOnlyPending` | backend/apps/billing/services.py:480-491 | Closing a cycle lowers the balance by exactly the days not deducted yet, after which nothing up to the cycle end is pending |
| `BillingCycles.AccrualAppends` | backend/apps/billing/services.py:273-301 | Accrual appends unlinked, undeducted charges of that day at the daily rate, every active operator ends with one, and no operator-day is written twice |
| `BillingCycles.AccrueTwice` | backend/apps/billing/services.py:280-290 | Accruing a day again writes nothing, even if the price or the operators changed to a subset |
| `BillingPeriods.StepPeriodExactly` | backend/apps/billing/services.py:516-519 | Which steps open, roll or keep the billing period, from the rows before the step: hand activation of a trial or suspended subscription, a first payment, a top-up that clears a suspended company's debt with a day left; the sweep on an active subscription whose end has come; nothing else |
| `BillingPeriods.PeriodsAreCycles` | backend/apps/billing/services.py:516-519 | After any run without an opening step the current period is the n-th cycle counted from the first |
| `BillingPeriods.CyclesTileTime` | backend/apps/billing/services.py:516-532 | Cycles cover every day exactly once: no gap, no overlap |
| `BillingEffects.DeductExactly` | backend/apps/billing/services.py:426-446 | A deduction marks the days up to its date and no other, and exactly when it uses up an active company's money it suspends the company, and a subscription on trial or active with it; any other subscription, and every other time the whole standing, stays |
| `BillingEffects.NightCostsBurn` | backend/apps/billing/services.py:273-301 | What the burn rate promises: without backlog a night costs exactly seats times the daily rate, and the company stays active exactly when it had more than that |
| `BillingEffects.DaysLeftCovers` | backend/apps/billing/services.py:259-270 | Days left are told exactly for an active company whose day costs something, and are the whole days the balance covers, negative balances too |
| `BillingEffects.SettlesOldestFirst` | backend/apps/billing/services.py:574-578 | Settlement pays a run of oldest statements each in full from the balance and stops only at one the balance does not cover |
| `BillingEffects.TopUpReopensIff` | backend/apps/billing/services.py:342-361 | A top-up reopens a suspended company exactly when it pays everything unpaid and leaves a positive balance covering a day |
| `BillingEffects.FirstPaymentEndsTrial` | backend/apps/billing/services.py:705-710 | Any first payment ends the trial, activates the company and opens a cycle at the current price |
| `BillingColumns.StandingExactly` | backend/apps/billing/services.py:65-163 | What every step does to the company, the subscription, its price and the record of who suspended it, read off the rows before the step and stated without the services |
| `BillingColumns.OnlyCancelCancels` | backend/apps/billing/services.py:156-163 | Over every step a subscription is CANCELED after it exactly when it was before or the step cancels: running out of money, overdue statements and lapsed trials only suspend |
| `BillingColumns.FrameExactly` | backend/apps/billing/services.py:419-456 | Which steps can add, take or link days, move money, write statements or move the end of a trial; an approved payment is always refundable, a refund debits exactly its amount, and any other refund changes nothing; where an extension puts the end of the trial |
| `BillingColumns.StoppedIsFree` | backend/apps/billing/tasks.py:62-67 | Over every run a company that no sweep finds active and none of whose cycles closes is never charged for a day, whatever money it has |
| `BillingColumns.PaidStatementsAreFinal` | backend/apps/billing/services.py:368-373 | Over every run a paid statement is never changed or lost |
| `BillingColumns.ClosingMakesTheStatement` | backend/apps/billing/services.py:480-520 | A closing leaves a PAID statement for the cycle: with its dates, exactly its unlinked days linked and their sum as total, unless a statement of that start was settled before, and then nothing changes |
| `BillingColumns.ClosedCycleIsBilled` | backend/apps/billing/services.py:492-506 | Over every later run the statement of a closed cycle stays and no day of the cycle is without a statement, unless a later sweep goes back and accrues one |
| `BillingColumns.TotalsAddUp` | backend/apps/billing/services.py:503-503 | Over every run the total of each cycle statement is the sum of the charges it billed |
| `BillingEffects.MonthCounts` | backend/apps/billing/services.py:330-339 | A month counts exactly the charges dated in that month of that year |
| `BillingEffects.OverdueExactly` | backend/apps/billing/services.py:614-649 | Enforcement marks exactly the due statements past their grace, moves no money and counts one block for each when the company was active at the start |
| `BillingEffects.GraceEnds` | backend/apps/billing/services.py:622-625 | The grace ends two days after a cycle, and on the third of the next month for legacy rows |
| `BillingEffects.MonthStatement` | backend/apps/billing/services.py:535-555 | A legacy month statement totals its calendar month and is paid at once exactly when the balance covers it; a month already paid is left alone |
| `Account.CompanyAccount.constructor` | backend/apps/web/views.py:109-134 | Sign-up: company and subscription on trial at the price in force, nothing owed or paid, no refused transition |
| `Account.CompanyAccount.TransitionTo` | backend/apps/billing/services.py:77-80 | Moves to a status exactly when the table allows it; otherwise the subscription stays and a refusal is counted |
| `Account.CompanyAccount.ActivateNow` | backend/apps/billing/services.py:123-143 | In place: the new rows are `Activate` of the old; a refused transition leaves all rows |
| `Account.CompanyAccount.SuspendNow` | backend/apps/billing/services.py:146-153 | In place `Suspend`, or nothing when the source raises |
| `Account.CompanyAccount.CancelNow` | backend/apps/billing/services.py:156-163 | In place `Cancel`, or nothing when the source raises |
| `Account.CompanyAccount.BlockNow` | backend/apps/billing/services.py:437-446 | Running out of money: always leaves the company suspended, and no transition is refused |
| `Account.CompanyAccount.StaffSuspendNow` | backend/apps/partners/views_admin.py:617-622 | The suspend button in place; no transition is refused |
| `Account.CompanyAccount.StaffActivateNow` | backend/apps/partners/views_admin.py:623-628 | The activate button in place; no transition is refused |
| `Account.CompanyAccount.ExtendTrialNow` | backend/apps/partners/views_admin.py:629-634 | The extend-trial button in place, with the subscription untouched |
| `Account.CompanyAccount.ExpireTrial` | backend/apps/billing/tasks.py:28-47 | In place trial expiry; no transition is refused |
| `Account.CompanyAccount.AccrueOperatorDay` | backend/apps/billing/services.py:273-290 | Writes one operator-day unless it exists |
| `Account.CompanyAccount.AccrueCompanyDay` | backend/apps/billing/services.py:293-301 | The loop over operators writes exactly the accrual of the whole list and counts them |
| `Account.CompanyAccount.SumPending` | backend/apps/billing/services.py:427-430 | The sum of the undeducted amounts dated up to the day |
| `Account.CompanyAccount.MarkDeducted` | backend/apps/billing/services.py:435-435 | Marks exactly the days up to the date |
| `Account.CompanyAccount.DeductPendingCharges` | backend/apps/billing/services.py:419-456 | Sums, takes, marks and blocks in place; returns what was pending; no transition is refused |
| `Account.CompanyAccount.RunNightly` | backend/apps/billing/tasks.py:56-70 | Accrue, then deduct, for an active company only |
| `Account.CompanyAccount.SettleRow` | backend/apps/billing/services.py:364-389 | Settles one statement in place and says whether it did |
| `Account.CompanyAccount.GetOrCreateRow` | backend/apps/billing/services.py:495-499 | Finds or inserts the row of a month, keeping month order |
| `Account.CompanyAccount.SettleMonthNow` | backend/apps/billing/services.py:535-555 | Refreshes and tries to settle the month statement in place |
| `Account.CompanyAccount.CloseRow` | backend/apps/billing/services.py:500-506 | One loop links the cycle's charges and adds up everything linked to the row |
| `Account.CompanyAccount.SettleCycleNow` | backend/apps/billing/services.py:480-520 | Deduct, summarise, roll the period, in place |
| `Account.CompanyAccount.RunOverdueEnforcement` | backend/apps/billing/services.py:614-649 | The loop over statements, each with the company copy read at the start; no transition is refused |
| `Account.CompanyAccount.ReactivateNow` | backend/apps/billing/services.py:342-361 | In place reactivation; no transition is refused |
| `Account.CompanyAccount.CreditNow` | backend/apps/billing/services.py:558-580 | Credit, settle oldest first until one fails, then decide reactivation |
| `Account.CompanyAccount.ApplyPaymentNow` | backend/apps/billing/services.py:652-724 | Credits only a payment whose row is PENDING; neither reactivation nor the end of a trial asks for a transition that is refused |
| `Account.CompanyAccount.RefundNow` | backend/apps/billing/services.py:583-611 | Debits and rejects an approved payment, else refuses and changes nothing |
| `Calendar.AddMonthAgrees` | backend/apps/billing/services.py:312-315 | The two implementations of month addition agree on every date |
| `Calendar.OrdOrder` | backend/apps/billing/services.py:312-315 | Day numbers order valid dates as calendars do, and separate them |
| `Calendar.CycleLength` | backend/apps/billing/services.py:312-320 | A cycle is 28 to 31 days long from any start |
| `Calendar.AddMonthsMonotone` | backend/apps/partners/services.py:80-103 | Adding months keeps the order of dates |
| `Calendar.TwoStages` | backend/apps/partners/services.py:80-103 | Adding in two stages is never later than at once, and equal exactly when the month between holds the final day |
| `Calendar.RollDay` | backend/apps/billing/services.py:516-519 | Rolling cycles keeps the month count and cuts the day to the shortest month crossed |
| `Calendar.RollIsAddMonths` | backend/apps/billing/services.py:516-519 | n closings land where n months would exactly when no month crossed is too short; always for days up to 28 |
| `Calendar.CycleDayDrifts` | backend/apps/billing/services.py:135-137 | A cycle opened on 31 January 2025 is on 28 March two closings later: not "the same day" the comment promises |
| `Calendar.MonthlyAccrualSeries` | backend/apps/partners/services.py:451-472 | The cursor loop returns exactly one row per month, `months` of them, ending with the current month, zero where nothing accrued |
| `AutopayCap.PlaysFromSignup` | backend/apps/billing/autopay.py:180-527 | Main run theorem with cards: against an adversarial but honest gateway, from sign-up and over every run of services, sweeps, one-click charges and reconciliations, money is conserved, each day is billed once, statuses go forward and agree throughout exactly when nobody overwrote the company, automatic charges are made on different dates, credited card charges are ones the gateway took throughout exactly when nobody approved an untaken one, taken money is written off exactly when one of three moves did it, a prepaid run keeps an active company in money and its debt below the last deduction, and while no charge is left open past its hold no 30 days exceed the highest limit in force |
| `AutopayLaws.ChargeExactly` | backend/apps/billing/autopay.py:195-255 | Exactly when a charge is made and what it ends as, from the gateway's answer with its codes written out: APPROVED on a result or a "paid" code, PENDING on no result or a lost connection, FAILED with its error on everything else |
| `AutopayLaws.ThreeOutcomes` | backend/apps/billing/autopay.py:195-255 | Against an honest gateway: approved exactly when it says paid, the money taken, and credited whole when nothing is unpaid; pending exactly when it says nothing; FAILED otherwise, with nothing taken or credited |
| `AutopayRuns.OneChargeADay` | backend/apps/billing/autopay.py:201-212 | Over every run any two automatic charges were made on different dates, each keyed by its date |
| `AutopayRuns.OnlyTakenMoneyIsCredited` | backend/apps/billing/autopay.py:254-264 | Over every run a credited saved-card charge is one whose money was taken, throughout, exactly when nobody approved a pending untaken one by hand |
| `AutopayRuns.CreditsUntakenIff` | backend/apps/billing/admin.py:71-80 | For each move, from the state before it: only a hand approval of a pending untaken card charge credits money never paid |
| `AutopayRuns.MoveIsSound` | backend/apps/billing/autopay.py:458-462 | Every move of services, sweep, one-click, reconciliation or late gateway keeps that |
| `AutopayRuns.NoSecondChargeWhileUnknown` | backend/apps/billing/autopay.py:440-446 | When an attempt makes a charge, every earlier automatic charge has a known outcome or is over three days old |
| `AutopayLaws.ChargesExactlyWhen` | backend/apps/billing/autopay.py:423-462 | Exactly when an attempt makes a charge, from the balance, the rows and the settings, the limit written out: the company's own, or two months of all seats |
| `AutopayLaws.ChargeFitsTheLimit` | backend/apps/billing/autopay.py:342-351 | What an attempt charges fits with the 30-day spend under the company's own limit, or under two months of all seats if it chose none |
| `AutopayLaws.SettingsExactly` | backend/apps/billing/autopay.py:423-507 | Everything an attempt does to the settings, by what stopped it or by how its charge was answered: marks, streak, retired card, switch-off and reasons |
| `AutopayLaws.HardErrorsRetireTheCard` | backend/apps/billing/autopay.py:468-475 | A reply with one of the six hard card errors fails the charge, turns auto-pay and the card off at once, and no later attempt charges |
| `AutopayLaws.AutopayStopsItself` | backend/apps/billing/autopay.py:468-489 | An enabled row never reaches three failed days; the third turns it off; a row that is off does nothing |
| `AutopayLaws.StaffSuspensionStopsAutopayIff` | backend/apps/billing/autopay.py:355-362 | A suspension by hand stops auto-pay exactly when it left a hold; beside a subscription already suspended or canceled it stops nothing |
| `AutopayLaws.ReconcileExactly` | backend/apps/billing/autopay.py:277-302 | An unknown charge is credited exactly when listed, failed exactly when unlisted and over 24 hours old, else untouched |
| `AutopayLaws.ReconcileRows` | backend/apps/billing/autopay.py:284-302 | Reconciling all payments does to each what the register says of it, and touches only pending saved-card charges with a transaction |
| `AutopayRuns.TakenMoneyIsNeverWrittenOff` | backend/apps/billing/autopay.py:277-302 | Over every run, with the gateway free to take the money of an unknown charge at any later time, no taken charge ends dropped and uncredited if and only if the run never dropped a taken pending charge, never gave one up that the register did not show after a day, and the gateway never took the money of one already dropped |
| `AutopayRuns.LosesMoneyIff` | backend/apps/billing/autopay.py:294-300 | For each move, from the state before it: exactly when it loses a customer's money |
| `AutopayRuns.LateTakeLosesMoney` | backend/apps/billing/autopay.py:297-300 | A run that does: a charge given up after a day and taken afterwards |
| `AutopayRuns.DebtIsLastDay` | backend/apps/billing/tasks.py:56-90 | Prepaid runs with card charges among the steps: an active company has money and the debt bound holds |
| `AutopayCap.CapHolds` | backend/apps/billing/autopay.py:322-352 | With no charge left open past its hold, automatic payments approved in any 30-day window never exceed the highest limit met by a sweep (the company's own, else two months of all seats), late approvals included |
| `AutopayCap.CapHoldsAtTheChosenLimit` | backend/apps/billing/autopay.py:342-351 | While every sweep finds a limit of the company's own of at most L, no 30 days hold more than L |
| `AutopayCap.CapHoldsWithRoom` | backend/apps/billing/autopay.py:342-351 | The same from the exact condition: every charging sweep fits with the 30-day spend and everything still open |
| `AutopayCap.CapSurvivesIff` | backend/apps/billing/autopay.py:440-456 | Exactly when the cap fails: after a sweep that is not declined, if everything open is then found paid, the windows stay within the limit if and only if spend, open charges and the new charge did together, read before the attempt |
| `AutopayCap.CappedIff` | backend/apps/billing/autopay.py:322-329 | The cap would survive every open charge being found paid now if and only if the windows hold and the 30-day spend leaves room for all of them |
| `AutopayCap.SweepKeepsCapIff` | backend/apps/billing/autopay.py:437-462 | A sweep that is not declined leaves the cap safe exactly when it had room |
| `AutopayCap.MoveKeepsCap` | backend/apps/billing/autopay.py:277-302 | Every move keeps every window under the limit with room for all open charges |
| `AutopayCap.ApprovalKeepsCap` | backend/apps/billing/autopay.py:294-296 | Approving an open charge however late keeps every window under the limit |
| `AutopayCap.ChargeOpenPastItsHoldBreaksTheCap` | backend/apps/billing/autopay.py:440-446 | A run from sign-up that approves 62000 in one window under a limit of 31000 |
| `AutopayLaws.SuccessfulChargeCoversTheDay` | backend/apps/billing/autopay.py:332-352 | A successful automatic charge with nothing unpaid leaves a day covered and the company active, and the same day's next quote not due |
| `AutopayLaws.ChargeReopensIff` | backend/apps/billing/autopay.py:459-495 | With unpaid statements a successful charge reopens a suspended company exactly when it pays them all and leaves a day |
| `AutopayLaws.DueMeansNoDayLeft` | backend/apps/billing/autopay.py:345-345 | Auto-pay is due exactly when the days-left figure is below one |
| `AutopayLaws.QuoteIsLeast` | backend/apps/billing/autopay.py:334-342 | The amount asked is the least that covers the chosen sum, the debt plus a day, and the minimum |
| `AutopayRuns.MoveIsSteps` | backend/apps/billing/autopay.py:180-302 | Every auto-pay move is a run of payment steps of the ledger, so every law of the ledger covers it |
| `AutopayRuns.LedgerLawsWithCards` | backend/apps/billing/autopay.py:254-302 | Over every run with saved-card charges and reconciliation among the steps: conservation, each day billed once, statuses that go forward |
| `AutopayRuns.StatusesAgreeWithCards` | backend/apps/billing/autopay.py:254-302 | With cards too the statuses agree throughout exactly when nobody overwrote the company |
| `Autopay.AskRegister` | backend/apps/billing/autopay.py:267-274 | A transaction counts as paid exactly when a register row has its id and the expected amount |
| `AutopayJob.AutopayRow.Charge` | backend/apps/billing/autopay.py:180-255 | The charge in place: rows and outcome are those of the specification, and no transition is refused |
| `AutopayJob.AutopayRow.AttemptAutopay` | backend/apps/billing/autopay.py:423-495 | The nightly attempt in place, account and settings row; no transition is refused |
| `AutopayJob.AutopayRow.Fail` | backend/apps/billing/autopay.py:468-486 | A failed day in place: streak, retired card, switch-off |
| `AutopayJob.AutopayRow.ReconcilePending` | backend/apps/billing/autopay.py:277-302 | The loop over payments reconciles each in turn; no transition is refused |
| `AutopayJob.AutopayRow.RunAutopay` | backend/apps/billing/autopay.py:510-527 | Reconcile first, then attempt, each behind its platform switch; no transition is refused |
| `PaymentRace.CreditedAtMostOnce` | backend/apps/billing/services.py:669-703 | With any number of workers on stale copies, and racing failure, rejection and refund writes, the balance is credited at most once |
| `PaymentRace.NeverCreditedLater` | backend/apps/billing/services.py:673-680 | Once not PENDING, never PENDING again and never credited |
| `PaymentRace.FreshWritesAreTruthful` | backend/apps/billing/services.py:583-596 | If unlocked writes come from up-to-date copies, the balance holds the money exactly while the row is APPROVED, so a refund happens at most once |
| `PaymentRace.TruthfulIff` | backend/apps/billing/autopay.py:297-300 | In every interleaving of stale copies the balance holds the money exactly while the row is APPROVED, throughout, exactly when no breaking write comes |
| `PaymentRace.BreaksIff` | backend/apps/billing/services.py:590-596 | Exactly which write breaks it, read before the write |
| `PaymentRace.NewPaymentCreditedAtMostOnce` | backend/apps/billing/autopay.py:258-264 | From its creation, whatever happens, a payment is credited at most once |
| `PaymentRace.StaleRefundsDebitTwice` | backend/apps/billing/services.py:590-596 | Two workers that both read APPROVED each debit the balance |
| `PaymentRace.NeverTwiceADay` | backend/apps/billing/models.py:322-324 | In every interleaving of sweeps the unique key keeps a company to one automatic charge a day |
| `PaymentRace.LoneSweepExactly` | backend/apps/billing/autopay.py:440-462 | A sweep nobody races charges exactly when no charge of unknown outcome is under three days old and none was made on its date |
| `PaymentRace.BothChargeAcrossMidnight` | backend/apps/billing/autopay.py:440-467 | Two sweeps cleared before either charged both charge exactly when their dates differ |
| `Partners.FromEmptyBooks` | backend/apps/partners/services.py:106-448 | From empty books, over every mix of accruals, reversals, requests and processing, nobody is paid more than was ever accrued to them, and a payment earns at most one accrual |
| `Partners.NeverPaidMoreThanAccrued` | backend/apps/partners/services.py:321-380 | The same from any state within both bounds; the sales twins (383-448) run the same code |
| `Partners.StepBounded` | backend/apps/partners/models.py:113-132 | Every step keeps paid plus held, and paid plus open, within what was ever accrued |
| `Partners.AllocatesShortestPrefix` | backend/apps/partners/services.py:366-380 | A payment consumes the shortest oldest-first prefix of open rows that covers its amount, or everything |
| `Partners.PaymentTotals` | backend/apps/partners/services.py:353-354 | Paying moves the open, held and paid totals by exactly what was consumed and promised |
| `Partners.PaymentCostsTheOvershoot` | backend/apps/partners/services.py:366-380 | A payment lowers the owner's balance by exactly the overshoot of whole rows, a function of the book before it, and nobody else's |
| `Partners.GoesNegativeIff` | backend/apps/partners/models.py:113-132 | For every step from a balance of zero or more: the balance goes below zero exactly when a payment overshoots by more than the balance, or a refund reverses an open accrual larger than the balance |
| `Partners.SolventUntilOverdrawn` | backend/apps/partners/services.py:154-448 | Over every run from empty books the balance stays at zero or more throughout exactly when no such step comes |
| `Partners.ReversalCosts` | backend/apps/partners/services.py:154-171 | A reversal lowers the owner's balance by the row's amount if it was open, else by nothing |
| `Partners.BalanceGoesNegative` | backend/apps/partners/services.py:366-380 | One row of 100 and two requests of 50: paying the first leaves minus 50 |
| `Partners.RefundOverdraws` | backend/apps/partners/views_admin.py:871-873 | One row of 100 promised whole to a request, then refunded: minus 100 |
| `Partners.EarnsOnce` | backend/apps/partners/services.py:117-143 | Exactly when a payment earns, how much, and that after any run it never earns again |
| `Partners.ShareIsNearest` | backend/apps/partners/services.py:131-136 | The share is the nearest whole sum, halves up, and never above the payment for rates up to 100 percent |
| `Partners.ReversalExactly` | backend/apps/partners/services.py:154-171 | A reversal marks the payment's row and no other; twice is once |
| `Partners.BooksAreRegular` | backend/apps/partners/models.py:259-273 | Over every run one accrual per payment, rows never lost or changed in amount, and PAID and REJECTED payouts final |
| `Partners.PayoutLife` | backend/apps/partners/models.py:259-273 | A payout is paid only from APPROVED, rejected any time before it is paid, then final; only payment touches accruals |
| `Partners.RequestExactly` | backend/apps/partners/services.py:322-337 | A request is accepted exactly when positive, not below the minimum and within what is open and not promised; it then holds its amount |
| `Partners.PayoutDesk.AccrueNow` | backend/apps/partners/services.py:106-151 | Accrual in place |
| `Partners.PayoutDesk.ReverseNow` | backend/apps/partners/services.py:154-171 | Reversal in place |
| `Partners.PayoutDesk.RequestNow` | backend/apps/partners/services.py:321-337 | Accepts exactly a positive amount between the minimum and the balance |
| `Partners.PayoutDesk.AllocateNow` | backend/apps/partners/services.py:366-380 | The allocation loop in place, `remaining` running below zero on overshoot |
| `Partners.PayoutDesk.ProcessNow` | backend/apps/partners/services.py:340-363 | Moves a payout when the table allows and allocates on PAID, else changes nothing |
| `Dial.EndsInOutcome` | backend/apps/dial/services.py:73-88 | Every sequence of frames with expiries anywhere ends in the first final status named, else the highest-ranked seen, else EXPIRED or SENT |
| `Dial.SameReactionsSameEnd` | backend/apps/dial/services.py:241-296 | Duplicates and the order of non-final frames never change the outcome |
| `Dial.SweepsNeverMatterOnceReacted` | backend/apps/dial/services.py:379-393 | Once the phone has reacted, removing every expiry leaves the outcome |
| `Dial.FinalAndAckedStay` | backend/apps/dial/services.py:241-277 | A final command never changes again; the first ack time is kept |
| `Dial.RecordStaysClean` | backend/apps/dial/services.py:256-295 | Over every sequence the columns hold only allowed values, a reason exactly when rejected, an ack time only after a reaction |
| `Dial.FrameExactly` | backend/apps/dial/services.py:250-296 | What an accepted frame writes beside the status, column by column, and that no other frame writes anything |
| `Dial.SweepExactly` | backend/apps/dial/services.py:379-388 | A sweep expires exactly a SENT command unacknowledged for over a minute |
| `Dial.NeverTooFast` | backend/apps/dial/services.py:396-411 | Over every sequence of requests in time order, no phone and no user exceeds the minimum interval or the hourly limit in any hour window |
| `Dial.DialExactly` | backend/apps/dial/services.py:396-411 | Exactly when a request goes out, the intervals and counts written out |
| `Dial.DialCommand.constructor` | backend/apps/dial/services.py:557-573 | A new command is SENT to an online phone and OFFLINE otherwise |
| `Dial.DialCommand.Advance` | backend/apps/dial/services.py:241-247 | Never from a final status, never backwards |
| `Dial.DialCommand.HandleAck` | backend/apps/dial/services.py:250-277 | An ack in place |
| `Dial.DialCommand.HandleState` | backend/apps/dial/services.py:280-296 | A status frame in place |
| `Dial.DialCommand.ExpireNow` | backend/apps/dial/services.py:379-388 | Expiry of an unacknowledged command in place |
| `ClickToCall.FromNoCommands` | backend/apps/integrations/providers.py:767-821 | From an empty table, in every interleaving, at most one finish call per command succeeds and no command has two holders |
| `ClickToCall.FinishedAtMostOnce` | backend/apps/integrations/tasks.py:213-272 | The same from any exclusive state, with deliveries, close tasks, retries, crashes, late acks and expiries |
| `ClickToCall.StepExclusive` | backend/apps/integrations/providers.py:783-788 | Every step keeps: held means marked and unfinished, one holder, finished at most once and still marked, a closing task saw a no-call status |
| `ClickToCall.FinishedStaysFinished` | backend/apps/integrations/tasks.py:227-237 | After one success there is never another |
| `ClickToCall.ErrorsCanBeRetried` | backend/apps/integrations/providers.py:817-820 | After an error the claim is free and a new delivery can take the same command |
| `ClickToCall.ClaimsOnlyItsOwn` | backend/apps/integrations/tasks.py:227-237 | A close task claims exactly a free command Bitrix24 knows in a no-call status |
| `ClickToCall.ExpiredCanBeClosed` | backend/apps/integrations/tasks.py:227-272 | An expired command Bitrix24 knows is claimed, closed with its status and finished once |
| `ClickToCall.StrandsIff` | backend/apps/integrations/tasks.py:227-250 | Exactly which steps leave a command claimed and unfinished with no holder: the death of its holder, and a close task that reads back no enabled integration or a status an ack has changed |
| `ClickToCall.StrandedForGood` | backend/apps/integrations/tasks.py:227-237 | Such a command stays marked and unfinished through every later step, and no delivery can use it |
| `ClickToCall.LateAckStrandsTheClaim` | backend/apps/integrations/tasks.py:238-250 | Claim, late ack, second read: after these, whatever follows, the command is never finished and never usable |
| `ClickToCall.Commands.Take` | backend/apps/integrations/providers.py:784-786 | The conditional update takes the mark exactly when free |
| `ClickToCall.Commands.Claim` | backend/apps/integrations/providers.py:767-788 | Without a race the newest matching command is taken, or none exactly when none matches |
| `ClickToCall.Commands.TakeNoCall` | backend/apps/integrations/tasks.py:227-237 | The close task's conditional update |
| `Unanswered.QueryIsOnePass` | backend/apps/web/queries.py:122-152 | For every log with distinct times per number the query lists exactly the calls a time-ordered pass leaves waiting, but for numbers never answered that called only before 1970; they agree exactly when no waiting number is one of those |
| `Unanswered.ClientWaitingIff` | backend/apps/web/queries.py:133-145 | The subqueries mean: missed inbound since the last answered call, or since the epoch |
| `Unanswered.OnlyClientsWhoCalled` | backend/apps/web/queries.py:122-128 | A number only we called never appears |
| `Unanswered.BeforeTheEpoch` | backend/apps/web/queries.py:149-149 | One missed call is listed exactly when dated after the epoch |
| `Delivery.DeliveryTouchesOnlyItsOwn` | backend/apps/integrations/tasks.py:89-121 | A delivery changes only refreshed cache keys, or disables the row and drops the Kotib key, and only on a row still enabled at its URL |
| `Delivery.DeliveryDoesItsPart` | backend/apps/integrations/tasks.py:49-70 | A delivery told the connection is gone disables a current row and revokes its key, and brings a current row every cache key it refreshed |
| `Delivery.WipedStaysWiped` | backend/apps/integrations/views.py:453-460 | In every interleaving of deliveries, disconnects, saves and the settings page's unlocked write-backs, a wiped configuration stays wiped throughout exactly when no save leaves something and no request writes back a copy that is not empty |
| `Delivery.WipedWithNobodyEditing` | backend/apps/integrations/views.py:373-378 | If no request holds a copy read before the wipe, only a save, accepted or staged, ends it |
| `Delivery.RefusedSaveUndoesDisconnect` | backend/apps/integrations/views.py:383-388 | A refused Kotib save writes back what it read before a disconnect: the row is wiped only if there was nothing in it |
| `Delivery.WrittenExactly` | backend/apps/integrations/views.py:373-388 | What each request of the settings page writes into its copy, and that it keeps the rest |
| `Delivery.NoSaveNoNewSettings` | backend/apps/integrations/views.py:77-83 | Until a save goes through, outside the mode cache, generated tokens and pending keys no setting gets a value it did not have in the row or in a copy some request already held, and a disabled row stays disabled |
| `Delivery.ResaveAtSameUrlTakesOldCache` | backend/apps/integrations/tasks.py:95-97 | Settings saved while a send runs receive the old send's cache exactly when they are enabled at the same URL, or already held the value |
| `Delivery.Integration.Merge` | backend/apps/integrations/tasks.py:100-108 | Merges the cache into the current row, or drops it |
| `Delivery.Integration.DisableNow` | backend/apps/integrations/tasks.py:111-121 | Disables and revokes on the current row, or nothing |
| `Delivery.Integration.Deliver` | backend/apps/integrations/tasks.py:38-74 | An undisturbed delivery: refreshed cache merged, or the row disabled with the cache dropped |
| `Sanitizer.OutputIsSafe` | backend/apps/core/sanitize.py:24-69 | For every sequence of parser events the output is properly nested over allow-listed tags, without attributes but on links, whose address is # or has an allowed prefix |
| `Sanitizer.UnchangedIffSafe` | backend/apps/core/sanitize.py:30-62 | Written markup is left alone exactly when it is nested and safe |
| `Sanitizer.SanitizingTwice` | backend/apps/core/sanitize.py:65-69 | Sanitizing the output again changes nothing |
| `Sanitizer.EndTagExactly` | backend/apps/core/sanitize.py:46-54 | An end tag closes the innermost open element of its name with everything inside it; a stray one is dropped |
| `Sanitizer.StartTagExactly` | backend/apps/core/sanitize.py:30-44 | An allowed start tag is written bare whatever its attributes, a link with the address of its first href if safe and # otherwise; any other tag is dropped |
| `Sanitizer.SafeHrefExactly` | backend/apps/core/sanitize.py:23-35 | The four allowed beginnings of an address, in any case |
| `Sanitizer.TextIsKept` | backend/apps/core/sanitize.py:56-57 | All text comes through in order |
| `Sanitizer.NoBracketButItsOwn` | backend/apps/core/sanitize.py:38-57 | In the written string the angle brackets are exactly those of the sanitizer's own tags |
| `Sanitizer.EscapeRoundTrip` | backend/apps/core/sanitize.py:36-57 | Escaping loses nothing and writes no character that opens a tag or ends a value |
| `Sanitizer.Writer.HandleStart` | backend/apps/core/sanitize.py:30-44 | In place |
| `Sanitizer.Writer.HandleEnd` | backend/apps/core/sanitize.py:46-54 | The loop closes unclosed children first, down to the tag |
| `Sanitizer.Writer.Finish` | backend/apps/core/sanitize.py:59-62 | The loop closes everything left open |
| `Sanitizer.SanitizeHtml` | backend/apps/core/sanitize.py:65-69 | The handlers run over the events give the specified output |

## Left out

- Concurrency inside one company's ledger: the services run one after another on its rows, as their row locks intend. Stale copies are modelled for the payment row only (`PaymentRace`), where the refund, rejection and failure writes check no lock.
- AutopayJob.AutopayRow.Charge: the payment is created, the gateway asked and the credit made in one step, with the creation time equal to the sweep's `now`; a worker that dies after saving the transaction leaves what an unknown outcome leaves, but one that dies before it leaves a pending row nothing resolves, which is not modelled.
- AutopayRuns.TakenMoneyIsNeverWrittenOff: says what ends dropped and uncredited inside the system; money the gateway returns by itself is not modelled.
- BillingStatus.ActiveMeansPaid: a refund, a legacy month statement, an activation by hand of a company without money, an extension of a trial that owes, and a write that sets the company against its subscription are outside a prepaid run, because each can leave an active company without money.
- BillingStatus.CatchUp: equal but for the deducted flag of charges that cost nothing, which a deduction of total zero leaves unset.
- Calendar.MonthlyAccrualSeries: the grouped sums arrive as a map; the query's own start, which keeps the time of day, is not modelled. Years are unbounded, without the 1 to 9999 range of Python dates.
- Dial.NeverTooFast: requests are taken one at a time; two at the same moment that both read the counts first are not modelled.
- Partners.NeverPaidMoreThanAccrued: requests and processing are taken one at a time; two that read the same balance or status first are not modelled.
- Sanitizer.OutputIsSafe: starts from the tokenizer's events, and lower-casing covers ASCII letters only.
- Unanswered.QueryIsOnePass: needs distinct start times for each number; on a tie the database may pick either call.
- ClickToCall.FromNoCommands: the number of retries of a close task is not bounded, and recording uploads after the finish call are not modelled.
- Several companies at once: each ledger is one company's, and no service modelled here reads another's rows.
- Old invoices (`generate_invoice`, `roll_period`), which the daily billing replaced, and demo tenants, which are never charged.
- Notifications, low-balance warnings, audit text, log lines, run counters and delivery history: nothing proved here depends on them, except who made the last suspension, which is kept as a flag.
- Delivery.WipedStaysWiped: a save is one step that leaves any configuration, whatever it had read before; checks of the CRM address and live tests that fail write nothing to the configuration and are not steps.
- Timestamps that are only displayed (`deducted_at`, `settled_at`, `processed_at` and the like) are flags or dropped.
- AutopayRuns.OneChargeADay: deleting a payment record (`backend/apps/partners/views_admin.py:906-932`) is not a step; it forgets the charge with its key and its hold.
- Dial.EndsInOutcome: frames are taken one at a time; `apply_ack` and `apply_status` read and save without a lock, so two at the same moment can overwrite each other.
- AutopayRuns.Enabled: the laws over card moves assume that no other code makes saved-card or automatic payments, that the register lists nothing that was not taken, and that clocks do not run backwards.
- Card linking and removal, and the platform switches' own storage; the switches are arguments.
- The wire formats of Paylov, Payme, Click, Bitrix24 and Kotib: a gateway answer is an outcome, and Click's failure notice is modelled only as an unconditional write.
- Number normalisation, allowed destinations, idempotency keys of dial requests, device sessions and the online registry.
- Enrichment and paging of the call-back list, reports and dashboards.
- Reassigning partners, referral codes, expiring-cashback lists and offers.
- The database, the task queue, caches, sockets and storage: rows are fields, a conditional update is a compare-and-set step.
