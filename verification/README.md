# Ledger, payroll, payouts and bank letters

A Dafny model of the money-handling core of the back office: the double-entry
ledger, the modules that post into it, the approval engine for payments, and the
printing of amounts in bank letters. Money is in whole kobo unless a comment says
otherwise; where the code rounds, the model rounds (half away from zero).

Each part is built the same way. A state is a value; every service call is a
function from a state to the state it leaves and its result, including every
refusal and what a refused call has already changed. A class with the same name
as the service updates its fields in place, loops where the service loops, and
every one of its methods is proved to be the function of the same name applied to
its old state; only the methods that loop or post through another service have a
row below. What the system promises is proved about the functions, over every
sequence of calls. Where a lookup may answer with any of several rows, each lookup
of a call has an answer of its own, and the theorems hold for all answers.

| part | specification and theorems | service in place |
|---|---|---|
| journals, reversal chains, periods | `Ledger`, `LedgerRecords`, `LedgerInvariant`, `LedgerChains`, `LedgerPeriods`, `Postings` | `LedgerService` |
| cash-flow statement | `CashFlow` | methods in `CashFlow` |
| vendor invoices | `Payables` | `PayableService` |
| tax, payslips, payroll runs, remittances | `Paye`, `Payslips`, `Payroll` | `PayrollService`, methods in `Paye` and `Payslips` |
| fixed assets | `FixedAssets`, `AssetHistory`, `AssetLedger`, `AssetOutcomes` | `AssetService` |
| corporate actions | `CorporateActions`, `CorporateOutcomes` | `CorporateActionService` |
| payment approval and its scheduler | `Payout`, `PayoutInvariant`, `PayoutTheorems`, `PayoutChains`, `PayoutReplay` | `PayoutService` |
| amounts in words and figures | `Text`, `Commas`, `AmountWords` | methods in `Commas` and `AmountWords` |

## Where the code and its promises part

Each of these is proved, with the input that shows it or with the exact condition
under which the promise holds.

- A lock on a month is not the last word. The unique index on periods does not
  cover rows without a subsidiary, so a second, open row can be added for a locked
  month, and a lookup that finds it lets a posting through
  (`LedgerPeriods.SecondRowUndoesLock`, `LedgerPeriods.PostableExactly`).
- A posting that is refused leaves its draft journal behind, its number drawn,
  exactly when the lines themselves are well formed, in every module that creates
  and then posts (`Postings.RefusedLeavesDraft`); no balance moves
  (`Postings.CreateAndPostEffect`).
- An invoice of many lines can be created and yet never approved: each line is
  rounded by the table, the header total is rounded once
  (`Payables.FineLinesRefused`, `Payables.InvoiceRounding`, `Payables.ApprovedExactly`).
- The comment that the 70/15/15 split gives the gross holds for exactly ten of the
  twenty remainders of the gross in kobo by twenty; otherwise the split is a kobo
  off (`Payslips.SplitExactly`, `Payslips.SplitReadds`).
- Remittances may be recorded against draft runs. The remittance dashboard agrees
  with the ledger exactly when no remittance is against a run still in draft
  (`Payroll.LedgerAgainstDashboard`); `Payroll.RemittedTooSoon` is a run where they
  differ.
- A second pass of the month's depreciation can charge an asset that the first
  passed over, when the period lookup answers differently; it never charges an
  asset twice (`AssetLedger.DepreciatingTwiceChargesOnce`).
- Salvage above cost is accepted for an asset; the floor on book value is then the
  cost (`AssetLedger.AssetAfterAnyRun`). Disposal proceeds below minus one kobo
  unbalance the disposal journal (`AssetLedger.DisposedExactly`).
- The cash-flow statement with no end date reports a closing cash of nothing, and
  one that ends before it starts leaves out the days in between
  (`CashFlow.NoEndDate`; the terms `Overlooked` and `SkippedCash` of
  `CashFlow.CashFlowIdentity`).
- A rejection or a return does not stop an approval chain: the next approver can
  still approve, up to full approval (`PayoutTheorems.RejectedYetApproved`).
- The escalation window is taken from the database's creation time and truncated:
  it is shorter than the step's limit as soon as that clock is ahead of the
  caller's, and longer once it is a minute behind
  (`PayoutTheorems.WindowAgainstLimit`).
- The three-way match moves a request to reconciled without a log entry, so the
  replayed status is the actual one exactly when that has not happened
  (`PayoutReplay.LogReplays`; `PayoutReplay.ReconciledUnlogged` is such a run).
- The chief executive is asked for expenses above 100,000 naira and for nothing
  else, though a comment says one million
  (`PayoutTheorems.ChiefExecutiveExactly`).
- A corporate action fails exactly when some holding is refused. Its description
  says the processing is atomic, but a failure keeps the journals of the holdings
  before the refused one, and moves a balance exactly when one of those had an
  amount to post (`CorporateActions.FailureKeepsJournals`;
  `CorporateActions.FailedPartWay` is such a failure).
- A cash dividend is debited to the investment account, which therefore drifts from
  the book values by the gross (`CorporateActions.ProcessGap`,
  `CorporateActions.InvestmentAccount`).
- A split need not keep average cost near book value: unrounded, it keeps the
  distance and changes the number of units the distance is measured by
  (`CorporateActions.SplitKeepsExactly`, `CorporateActions.SplitLoosens`).
- A negative number prints a comma right after its sign exactly when its digits are
  a multiple of three (`Commas.SignTakesAPlace`), and a negative amount loses its
  kobo in words (`AmountWords.SameWordsExactly`).

## Model

| member | source | states |
|---|---|---|
| `Ledger.MirrorSums` | internal/finance/service.go:321-352 | exchanging debit and credit swaps the totals and negates every account's net |
| `Ledger.NoFaultMeansGood` | internal/finance/service.go:196-206 | the line check finds no fault exactly when every line names an account and has no negative amount |
| `LedgerRecords.CreatedAsGiven` | internal/finance/service.go:183-257 | a created journal is a draft of the lines, type and date given, with the next number of that year; nothing else changes |
| `LedgerRecords.RefusedInOrder` | internal/finance/service.go:184-206 | what a creation is refused for, and in which order; a refused one changes nothing |
| `LedgerRecords.AcquiredAsGiven` | internal/finance/asset.go:195-247 | a purchase is booked on its own date, cost into the asset account and out of the one it was paid from |
| `LedgerRecords.ReversedToday` | internal/finance/service.go:292-367 | a reversal is dated today and numbered in the year of today, whatever the date of the original; it mirrors the lines, points back and is posted, and the original changes in status alone |
| `LedgerRecords.ReversalTouchesToday` | internal/finance/service.go:292-367 | in any month but that of today a reversal books nothing, and of the posted journals takes out the original and no other |
| `LedgerRecords.WorkflowExactly` | internal/finance/service.go:261-527 | exactly when a journal can be submitted, rejected, approved, posted, reversed or deleted, and the status it is left in |
| `LedgerRecords.ContentStep` | internal/finance/service.go:183-527 | a call changes at most the status of the journal it names, one step of the workflow at a time, and never removes one that is booked |
| `LedgerRecords.ContentNeverChanges` | internal/finance/service.go:183-527 | through any run a journal keeps date, number, type, lines and totals, a booked one stays booked, and the place of a deleted draft is not used again |
| `LedgerInvariant.ApplyValid` | internal/finance/service.go:183-527 | every ledger call, successful or refused, keeps: header totals are sums of lines, booked journals balance to a kobo, references never repeat, each reversal mirrors an earlier journal that is marked reversed, and no journal has two reversals |
| `LedgerInvariant.RunValid` | internal/finance/service.go:183-527 | that invariant holds after every sequence of calls from an empty ledger |
| `LedgerInvariant.ReverseLinks` | internal/finance/service.go:292-367 | reversing a posted journal keeps the reversal links disjoint chains |
| `LedgerChains.NetAlternates` | internal/finance/service.go:321-359 | along a chain of reversals the net on every account alternates in sign |
| `LedgerChains.ChainStep` | internal/finance/service.go:183-381 | any call moves the booked balance of an account and its standing balance by the same amount, and keeps the posted journal the only one, and the last, of its chain |
| `LedgerChains.BalanceIsStandingBalance` | internal/finance/service.go:183-381 | after every run, the net of all posted and reversed lines on an account is the net of exactly those originals whose chain holds an even number of reversals |
| `LedgerPeriods.PostableExactly` | internal/finance/service.go:261-288 | a draft can be posted exactly when it is balanced to a kobo and its month has no period row or has an open one |
| `LedgerPeriods.PeriodChanges` | internal/finance/service.go:914-935 | a period changes status exactly when it exists, is not locked, and the name is open, closed or locked; it takes that status and nothing else changes |
| `LedgerPeriods.ClosingStopsPosting` | internal/finance/service.go:261-288 | closing the only row of a month refuses its drafts, opening it again lets through exactly those that balance |
| `Calendar.MonthLengths` | internal/finance/asset.go:312-315 | the last day of each month, 29 February in Gregorian leap years |
| `LedgerPeriods.LockIsPermanent` | internal/finance/service.go:914-935 | a locked period row keeps its status through every later sequence of calls |
| `LedgerPeriods.NoPostingWhenSealed` | internal/finance/service.go:272-275 | with every row of a month locked, posting and approving a journal of that month are refused |
| `LedgerPeriods.SealedMonthTakesOnlyReversalsAndAcquisitions` | internal/finance/service.go:261-367 | after all rows of a month are locked and no row is added, the only calls that book a journal in it are reversals and asset acquisitions |
| `LedgerPeriods.SecondRowUndoesLock` | db/migrations/00028_accounting_periods.sql:5-18 | a period row added next to a locked one lets a journal of that month be posted |
| `LedgerPeriods.TotalsAgree` | internal/finance/service.go:195-288 | after every run header totals are the sums of the lines, references are unique, and total posted debits and credits differ by at most a kobo for each posted journal |
| `LedgerServices.LedgerService.CreateJournal` | internal/finance/service.go:183-257 | creates a draft with the totals of its lines and the next number of its year, or refuses with the first fault and changes nothing |
| `LedgerServices.LedgerService.PeriodStatusForDate` | internal/finance/service.go:939-948 | the status of some period row of the month, open when there is none |
| `LedgerServices.LedgerService.PostJournal` | internal/finance/service.go:261-288 | posts a draft or pending journal after the balance and period checks, in that order |
| `LedgerServices.LedgerService.ReverseJournal` | internal/finance/service.go:292-367 | books the mirror image of a posted journal and marks the original reversed, without looking at periods |
| `LedgerServices.LedgerService.PostAcquisition` | internal/finance/asset.go:195-247 | books the purchase of an asset at once, without looking at periods |
| `Postings.AcceptedExactly` | internal/finance/service.go:183-288 | create-then-post succeeds exactly when there are two lines, a type, a date, no bad line, balance to a kobo, and an open period |
| `Postings.CreateAndPostEffect` | internal/finance/service.go:183-288 | a successful create-then-post moves every account by the net of the lines; a failed one moves none |
| `Postings.RefusedLeavesDraft` | internal/finance/service.go:183-288 | a refused create-then-post changes something exactly when its lines are well formed; then it leaves the draft with those lines and the drawn number, and nothing else |
| `Postings.LeftAlone` | internal/finance/service.go:183-381 | a ledger call that books no line on an account leaves its balance alone |
| `CashFlow.ClassesAddUp` | internal/finance/cashflow.go:56-160 | the accounts the statement names, the depreciation accounts, investments, profit and loss, and the rest split every line exactly once |
| `CashFlow.RangeSplits` | internal/finance/cashflow.go:181-204 | cash to the end date, with what lies strictly between end and start, is cash to the day before the start plus the movement of the range, wherever the two dates stand |
| `CashFlow.CashFlowIdentity` | internal/finance/cashflow.go:41-215 | for every ledger and every range, closing less opening cash differs from the net change by exactly the imbalance of the period less what is unexplained, overlooked for want of an end date, and skipped by a range that ends before it starts; they agree if and only if these cancel |
| `CashFlow.NetChangeIsCashChange` | internal/finance/cashflow.go:41-215 | after any run, if all accounts are known, net income is posted revenue less expense and depreciation is matched, net change is the change in cash, but for what is overlooked and skipped, to a kobo per posted journal, and exactly when all journals balance exactly; with an end date not before the start nothing is overlooked or skipped |
| `CashFlow.NoEndDate` | internal/finance/cashflow.go:181-204 | a run in which capital is paid in and a statement without an end date reports a closing cash of nothing |
| `CashFlow.OperatingLines` | internal/finance/cashflow.go:106-147 | each operating line is the movement of its own accounts, code by code, and the section their sum |
| `CashFlow.OtherLines` | internal/finance/cashflow.go:149-179 | the same for investing and financing, with investments as all codes beginning with 120, and for the net change |
| `CashFlow.CashCounted` | internal/finance/cashflow.go:181-204 | opening and closing cash count the seven cash accounts up to the day before the start and up to the end |
| `CashFlow.FillMovements` | internal/finance/cashflow.go:56-84 | the table holds the net movement of every balance-sheet account that moved, and no profit-and-loss account |
| `CashFlow.Cf` | internal/finance/cashflow.go:86-93 | minus the net movement over a list of accounts |
| `CashFlow.CfInvestments` | internal/finance/cashflow.go:95-104 | minus the net movement over all codes beginning with 120, in whatever order the table is walked |
| `CashFlow.CashSum` | internal/finance/cashflow.go:181-193 | the net of the cash accounts up to a date |
| `CashFlow.GetCashFlow` | internal/finance/cashflow.go:41-215 | the whole statement: each line, the three totals, net change, opening and closing cash |
| `Payables.ApprovedExactly` | internal/finance/payable.go:255-320 | approval of a pending invoice succeeds exactly when lines, net and withholding agree to a kobo, no line is bad, the net is not negative, and the period is open |
| `Payables.InvoiceRounding` | internal/finance/payable.go:172-251 | stored lines equal net plus withholding whenever every amount is whole kobo, and are otherwise out by at most half a kobo a line plus one |
| `Payables.FineLinesRefused` | internal/finance/payable.go:172-320 | an invoice of half-kobo lines that is created and whose approval is refused |
| `Payables.ApproveGap` | internal/finance/payable.go:255-320 | approval moves the net credit of 2101 and the outstanding total together, but for lines charged to 2101 itself |
| `Payables.PayGap` | internal/finance/payable.go:324-370 | payment moves the net credit of 2101 and the outstanding total together, unless the bank is 2101 |
| `Payables.ControlAccountAgrees` | internal/finance/payable.go:172-370 | over every run that keeps 2101 to invoices, with any other ledger calls in between, its net credit is the total outstanding on approved invoices and a paid invoice has nothing outstanding |
| `Payables.LedgerStaysValid` | internal/finance/payable.go:172-370 | after every run of payable and ledger calls the ledger has its own invariant |
| `Payables.InvoicedAsGiven` | internal/finance/payable.go:172-251 | exactly when an invoice is stored, and with what: each line, the total, the vendor percentage withheld and the net, each to half a kobo |
| `Payables.ApprovalPosted` | internal/finance/payable.go:255-320 | approval debits the accounts of the lines and credits 2101 with the net and 2122 with what is withheld, on every account; a refusal moves none |
| `Payables.PaymentPosted` | internal/finance/payable.go:324-370 | payment of an approved invoice moves what is outstanding from 2101 to the bank and leaves it paid to its net; a refusal moves nothing |
| `PayableServices.PayableService.ApprovePayable` | internal/finance/payable.go:255-320 | posts expenses against payables and withholding, then marks the invoice approved; a refused posting leaves it pending |
| `Paye.ComputeAnnualPAYE` | internal/payroll/service.go:84-112 | the bracket loop computes the closed form: rate steps times income above each threshold, floored at 1% of gross |
| `Paye.SlicesAddUp` | internal/payroll/service.go:91-104 | tax slice by slice over the six brackets is the sum of rate steps above thresholds |
| `Paye.RateTable` | internal/payroll/service.go:82-104 | the tax slice by slice in figures: 7, 11, 15, 19, 21 and 24 per cent, with the tax reached at each threshold |
| `Paye.AssessedExactly` | internal/payroll/service.go:84-112 | the relief in figures on both sides of its switch, and the tax as the larger of 1% of gross and the table on gross less relief and pension |
| `Paye.MarginalRates` | internal/payroll/service.go:91-104 | an increase of taxable income is taxed between 7% and 24% |
| `Paye.TaxIsConvex` | internal/payroll/service.go:91-104 | the same extra income is taxed no less on top of a larger income |
| `Paye.AnnualTaxInGross` | internal/payroll/service.go:84-112 | for a fixed pension the tax is at least 1% of gross, never falls as gross grows, and grows by at most 19.2% of the increase |
| `Paye.AnnualTaxInPension` | internal/payroll/service.go:84-112 | a larger pension never raises the tax and saves at most 24% of the increase |
| `Payslips.ComputePayslip` | internal/payroll/service.go:117-136 | the payslip of a gross, rounding at each step the service rounds at |
| `Payslips.PayslipShares` | internal/payroll/service.go:117-136 | each amount of a payslip to its rounding: the 70, 15 and 15 per cent, the 8 and 10 per cent of pension, and a twelfth of the relief, income and tax of the year |
| `Payslips.SplitReadds` | internal/payroll/service.go:118-121 | the 70/15/15 split re-adds to within one kobo of gross, for every gross |
| `Payslips.SplitExactly` | internal/payroll/service.go:118-121 | the split re-adds to the gross if and only if the gross in kobo leaves one of ten remainders by twenty |
| `Payslips.MonthlyTaxBounds` | internal/payroll/service.go:124-132 | monthly tax is never negative and at most 19.2% of gross plus half a kobo |
| `Payslips.NothingNegative` | internal/payroll/service.go:117-136 | no part of a payslip is negative, the net included, for every gross that is not |
| `Payslips.StepsApart` | internal/payroll/service.go:117-136 | pension and the 1% tax never step up at the same kobo of gross |
| `Payslips.NetStep` | internal/payroll/service.go:117-136 | one more kobo of gross never lowers the net |
| `Payslips.NetGrowsWithGross` | internal/payroll/service.go:84-136 | a higher gross never yields a lower net, across all brackets, the relief switch and every rounding |
| `Payroll.TotalsShareOutGross` | internal/payroll/service.go:195-262 | for any number of employees the run totals are the sums of the payslips and net, tax and pension share out the gross exactly |
| `Payroll.RecordsSound` | internal/payroll/service.go:140-612 | after every run the totals of each payroll are those of its payslips and share out its gross, every recorded remittance is positive, and the ledger has its own invariant |
| `Payroll.InitiatedExactly` | internal/payroll/service.go:140-270 | exactly when a run starts, and that it is a draft with the payslip of each employee in order |
| `Payroll.OneRunAlways` | internal/payroll/service.go:140-270 | after every run of the system no subsidiary has two payroll runs for a month |
| `Payroll.RunPosted` | internal/payroll/service.go:274-331 | approval moves 5001, 5003, 2140, 2120 and 2130 by the totals and no other account; a refusal moves none |
| `Payroll.RemittancePosted` | internal/payroll/service.go:547-612 | exactly when a remittance is taken, and that it debits 2120 or 2130, credits the bank, 1110 by default, and is recorded |
| `Payroll.DashboardRows` | internal/payroll/service.go:616-691 | the dashboard has one row for each approved run, in order and no other, and in each what is paid and outstanding make up the tax and the two pensions due |
| `Payroll.ApprovedExactly` | internal/payroll/service.go:274-331 | the five-line journal of a run whose totals share out its gross, as those of every run do, balances exactly, and a draft run is approved exactly when no total is negative and its period is open |
| `Payroll.ApproveGap` | internal/payroll/service.go:274-331 | approval moves the net credit of 2120 or 2130 and what approved runs owe together |
| `Payroll.RemitGap` | internal/payroll/service.go:547-612 | a remittance moves the net credit of its account and what is owed together, unless paid out of that account |
| `Payroll.LedgerAgainstDashboard` | internal/payroll/service.go:547-691 | after every run that keeps the account to payroll, its net credit is the outstanding total of the dashboard less remittances against draft runs; the two agree if and only if no remittance of that kind is against a run still in draft |
| `Payroll.DraftPaidExactly` | internal/payroll/service.go:547-691 | the amount remitted against drafts is never negative, and nothing if and only if there is no such remittance |
| `Payroll.RemittedTooSoon` | internal/payroll/service.go:547-691 | a run in which a remittance before approval makes ledger and dashboard differ |
| `PayrollServices.PayrollService.ComputePayslips` | internal/payroll/service.go:195-262 | one payslip per employee with running totals equal to the sums |
| `PayrollServices.PayrollService.ListRemittanceDashboard` | internal/payroll/service.go:616-691 | due, paid and outstanding tax and pension of every approved run |
| `AssetHistory.ChargeBounds` | internal/finance/asset.go:291-306 | a successful charge stops at salvage and lowers the book value strictly |
| `AssetHistory.ReducingStep` | internal/finance/asset.go:291-306 | a reducing-balance charge is never larger than the one before |
| `AssetHistory.StraightLineStep` | internal/finance/asset.go:291-306 | after k charges a straight-line book value is the larger of salvage and cost less k times the rounded charge |
| `AssetHistory.ChargedSound` | internal/finance/asset.go:278-366 | a successful charge keeps book value plus accumulated depreciation at cost, periods increasing, charges positive and the history in step |
| `AssetHistory.StraightLineTakesAnother` | internal/finance/asset.go:278-366 | exactly when a straight-line asset takes another charge, whatever its salvage |
| `AssetHistory.WrittenDownInTime` | internal/finance/asset.go:291-306 | with a charge of at least half a kobo per month of life, the asset is written down within life plus one charges |
| `AssetOutcomes.MonthlyShare` | internal/finance/asset.go:294-296 | life times the straight-line charge is cost less salvage, to half a kobo a month |
| `AssetOutcomes.ChargedAsCalledFor` | internal/finance/asset.go:278-366 | a successful depreciation moves one positive amount from book value to accumulated depreciation: what the method calls for, or what is left above salvage if that is less; and what else changes on the asset |
| `AssetOutcomes.StraightLineShare` | internal/finance/asset.go:290-306 | a straight-line charge above salvage is the depreciable cost over the life to half a kobo a month, a reducing one a twelfth of the yearly percentage to half a kobo, and one that ends at salvage is book value less salvage |
| `AssetOutcomes.StraightLineHistory` | internal/finance/asset.go:145-461 | after any run a straight-line asset has followed one charge, the depreciable cost over its life to half a kobo a month |
| `AssetOutcomes.ChargePosted` | internal/finance/asset.go:311-345 | a charge debits the expense account and credits accumulated depreciation, on the last day of the month, and moves no other account |
| `AssetOutcomes.DisposalPosted` | internal/finance/asset.go:387-461 | a disposal clears cost and accumulated depreciation, takes in the proceeds, credits a gain to 4090 and debits a loss to 5803, on every account |
| `AssetOutcomes.CategoryTable` | internal/finance/asset.go:16-31 | the accounts and the life of each category, and of any other |
| `AssetOutcomes.RegisteredAsGiven` | internal/finance/asset.go:145-273 | exactly when an asset is registered, with what it starts, and what its purchase books on its date |
| `AssetLedger.DisposalBalances` | internal/finance/asset.go:387-461 | because book value and accumulated depreciation add up to cost, the disposal journal is out by negative proceeds only |
| `AssetLedger.DisposedExactly` | internal/finance/asset.go:387-461 | disposal succeeds exactly when accounts are named, the date parses in an open period, and proceeds are not below minus one kobo |
| `AssetLedger.RunSound` | internal/finance/asset.go:145-461 | after every run of asset and ledger calls every asset is sound and the ledger has its own invariant |
| `AssetLedger.AssetAfterAnyRun` | internal/finance/asset.go:145-461 | after any run an undisposed asset has book value plus accumulated depreciation equal to cost and is not below salvage (or cost if lower), its periods strictly increase, its charges are positive, and its charges and book values follow its method |
| `AssetLedger.RegisterAgreesWithLedger` | internal/finance/asset.go:145-461 | over every run that keeps an account to its purpose, its ledger balance is what undisposed assets carry on it: cost, or minus accumulated depreciation; a disposed asset leaves nothing |
| `AssetLedger.RefusedExactly` | internal/finance/asset.go:278-366 | exactly when a depreciation is refused |
| `AssetLedger.IdleExactly` | internal/finance/asset.go:369-383 | a pass charges nothing if and only if every listed asset is refused, and then changes no asset |
| `AssetLedger.DepreciatingTwiceChargesOnce` | internal/finance/asset.go:369-383 | two passes for a month, over any lists and with any answers of the period lookups, charge each asset at most once between them; the second charges nothing if and only if each asset on its list was charged by the first or is refused |
| `AssetServices.AssetService.DepreciateAsset` | internal/finance/asset.go:278-366 | one month's charge: cut at salvage, posted on the last day of the month, recorded on the asset |
| `AssetServices.AssetService.DepreciateAll` | internal/finance/asset.go:369-383 | the charges of all listed assets in turn, each with a period lookup of its own, a refusal not stopping the rest |
| `AssetServices.AssetService.DisposeAsset` | internal/finance/asset.go:387-461 | posts removal of cost and accumulated depreciation with proceeds and gain or loss, then marks the asset disposed |
| `CorporateActions.AverageTimesQuantity` | internal/portfolio/corporate_actions.go:426-563 | a rounded average cost times quantity is within half a kobo a unit of book value |
| `CorporateActions.UnitsSet` | internal/portfolio/corporate_actions.go:426-571 | after a bonus, stock dividend or rights issue that bound holds wherever the holding stood, and book value has changed by the rights cost alone; a rights issue entitling to nothing changes nothing |
| `CorporateActions.TightAlong` | internal/portfolio/corporate_actions.go:426-571 | through any sequence of these actions the bound is kept, and holds in any case once one of them has set the units; book value is up by the rights costs alone |
| `CorporateActions.MaturityReturnsBookValue` | internal/portfolio/corporate_actions.go:573-638 | a maturity after such a sequence returns book value to within half a kobo a unit plus half a kobo |
| `CorporateActions.SplitKeepsExactly` | internal/portfolio/corporate_actions.go:371-387 | a split that rounds nothing keeps the distance from book value, and so the bound if and only if that distance is within half a kobo a new unit |
| `CorporateActions.SplitBound` | internal/portfolio/corporate_actions.go:371-387 | with rounding a split adds at most half a kobo a new unit and half a hundredth of the new average cost to the distance |
| `CorporateActions.SplitLoosens` | internal/portfolio/corporate_actions.go:371-387 | a holding carried at exactly its cost that a bonus and a split, processed one after the other, take outside the bound |
| `CorporateActions.EffectNet` | internal/portfolio/corporate_actions.go:299-638 | every journal of an action balances exactly and debits the investment account with the change in book value plus a stated drift, which is the posted amount with its sign |
| `CorporateActions.ProcessGap` | internal/portfolio/corporate_actions.go:205-678 | one action moves the investment account and the book values together but for the drift if it completes and what it has posted if it fails, and no action completes twice |
| `CorporateOutcomes.ProcessedAsAnnounced` | internal/portfolio/corporate_actions.go:292-678 | when an action completes each holding has the units, average cost, book value and fund money of the announcement, to the rounding: entitled rights added and paid for, bonus and stock dividends in the ratio, splits multiplied, nine tenths of cash to the fund, principal on maturity |
| `CorporateOutcomes.JournalAsAnnounced` | internal/portfolio/corporate_actions.go:299-638 | the lines of the journal of each action, a tenth of cash withheld to 2201, rights and principal against 1110, equal to what the holding and the fund show |
| `CorporateOutcomes.BookedOnExDate` | internal/portfolio/corporate_actions.go:283-638 | whether it completes or fails, an action adds journals of its ex-date and type only, and leaves the others as they were |
| `CorporateActions.InvestmentAccount` | internal/portfolio/corporate_actions.go:205-678 | over every run of actions and of ledger calls that keep off the account, it stands off the book values by what it did at first plus those amounts, and nothing else |
| `CorporateActions.RefusesExactly` | internal/portfolio/corporate_actions.go:292-638 | exactly when a holding is refused: a bad ratio, a negative amount, an unnamed account, or a period its lookup finds not open |
| `CorporateActions.FailureKeepsJournals` | internal/portfolio/corporate_actions.go:228-678 | an action fails if and only if some holding is refused; it then changes no holding and stays open, every account has moved by exactly the journals of the holdings before the first refused one, and some balance has moved if and only if one of those had an amount to post |
| `CorporateActions.FailedPartWay` | internal/portfolio/corporate_actions.go:205-678 | a dividend on two holdings in a month with an open and a locked row: the first is booked, the second refused |
| `CorporateActions.LedgerStaysValid` | internal/portfolio/corporate_actions.go:205-678 | after every run of actions and ledger calls the ledger has its own invariant |
| `CorporateActionServices.CorporateActionService.ProcessCorporateAction` | internal/portfolio/corporate_actions.go:205-678 | holdings in turn, each posting with a period lookup of its own, rows and status changed only if all succeed |
| `PayoutInvariant.ActGood` | internal/payout/service.go:413-573 | a decision keeps the case invariant: decided before pending, status telling the last decision, every log entry true of its step, each step decided once |
| `PayoutInvariant.TickOnlyReassigns` | internal/payout/scheduler.go:98-206 | a scheduler pass changes only reminder and assignee: the assignee at most once, to the stand-in where there is one, once due time and window have both passed, never before; the reminder at most once, after the due time |
| `PayoutInvariant.ApplyGood` | internal/payout/service.go:246-800 | every call and every scheduler pass keeps the case invariant |
| `PayoutInvariant.LifeGood` | internal/payout/service.go:246-800 | the invariant holds after every interleaving, from the creation of the request |
| `PayoutInvariant.PassedMeansNothingPending` | internal/payout/service.go:513-657 | approved, sent to bank, confirmed or reconciled implies no pending step |
| `PayoutTheorems.ChainIsFollowed` | internal/payout/service.go:413-573 | at every point no pending step precedes a decided one, the status after a submission or approval is the label of the lowest pending step, and each approval was its assignee's, never the raiser's |
| `PayoutTheorems.PassedStep` | internal/payout/service.go:576-800 | past approval only a dispatch, a confirmation or bank line, or the three-way match moves the status, each from where it may; no step changes status or assignee and no decision succeeds |
| `PayoutTheorems.ApprovalIsFinal` | internal/payout/service.go:420-657 | after approval, whatever follows, no decision ever succeeds, every step keeps status and assignee, and the status never goes back |
| `PayoutTheorems.AllApprovedExactly` | internal/payout/service.go:513-566 | a request past approval has every step approved or skipped if and only if nobody returned or rejected one |
| `PayoutTheorems.RejectedYetApproved` | internal/payout/service.go:420-443 | a run in which the first approver rejects and the request is approved all the same |
| `PayoutTheorems.AssignedOnceEscalatedOnce` | internal/payout/store.go:398-408 | after submission each step changes hands at most once, and its first assignee stays known |
| `PayoutTheorems.LimitsAgree` | internal/payout/routing.go:41-145 | the limits written into the chain agree with the limit table |
| `PayoutTheorems.ChiefExecutiveExactly` | internal/payout/routing.go:72-145 | a chain has a chief-executive step if and only if it is for an expense above ten million kobo, a managing-director step if and only if for an expense or a placement |
| `PayoutChains.PayoutChain` | internal/payout/routing.go:72-89 | the steps, roles and minutes of a client payout, liquidation or transfer in order: compliance if and only if flagged, both signatories last |
| `PayoutChains.OtherChains` | internal/payout/routing.go:90-117 | the same for expenses and placements |
| `PayoutChains.StepRouted` | internal/payout/routing.go:119-145 | a step is pending for the holder of its role, due when its minutes have passed, or skipped when nobody holds it |
| `PayoutChains.Labels` | internal/payout/service.go:65-82 | what a request is called while each kind of step is active |
| `PayoutChains.SubmittedExactly` | internal/payout/service.go:246-368 | exactly when a submission succeeds, and that the chain is that of the type with compliance for a beneficiary off the register |
| `PayoutChains.DecidedExactly` | internal/payout/service.go:413-573 | exactly when a decision succeeds, and what approval, return and rejection each do to the step, the request and the log |
| `PayoutChains.BankMoves` | internal/payout/service.go:576-800 | from which status dispatch, confirmation, a bank line and the three-way match move a request, to which, and what is logged |
| `PayoutChains.HeldStepsApproved` | internal/payout/service.go:246-573 | whatever comes before and after a submission, a request past approval without objection has every step whose role was held at submission approved and every other skipped |
| `PayoutChains.BothSignatories` | internal/payout/service.go:246-573 | so a payout whose signatories were known is past approval without objection only with both signatures, as its last two steps |
| `PayoutTheorems.WindowAgainstLimit` | internal/payout/scheduler.go:150-206 | exactly when the escalation window is shorter than the limit, and exactly when it is longer, by the two clocks |
| `PayoutReplay.ActReplays` | internal/payout/service.go:413-573 | replaying the entry of a decision does to a view what the decision did to the case |
| `PayoutReplay.LogReplays` | internal/payout/service.go:413-800 | after every interleaving the log replayed over the chain gives the status of every step, and that of the request if and only if it has not moved to reconciled |
| `PayoutReplay.LogReplaysFromSubmission` | internal/payout/service.go:246-800 | the same from submission on, over the chain the builder made |
| `PayoutReplay.ReconciledUnlogged` | internal/reconciliation/reconciliation.go:1606-1613 | a run that ends reconciled while its log still says approved |
| `PayoutServices.PayoutService.BuildSteps` | internal/payout/routing.go:72-145 | the chain of a request type, steps without a holder skipped |
| `PayoutServices.PayoutService.FindPending` | internal/payout/store.go:234-251 | the lowest pending step at or after an index |
| `PayoutServices.PayoutService.SubmitRequest` | internal/payout/service.go:246-368 | status, owner and cut-off checks, then the chain, the flag, the label and the log entry |
| `PayoutServices.PayoutService.ActOnStep` | internal/payout/service.go:413-573 | the assignee of the lowest pending step approves, returns or rejects it; the request's own status is not looked at |
| `PayoutServices.PayoutService.CheckReconciliationMatches` | internal/payout/scheduler.go:54-95 | confirms exactly the requests at the bank that one of the first fifty matches names, however often it is named |
| `PayoutServices.PayoutService.Tick` | internal/payout/scheduler.go:98-206 | one pass over every overdue step of every request |
| `Commas.InsertedIsGrouped` | internal/payout/pdf.go:455-469 | the per-character test puts commas exactly every three characters from the right |
| `Commas.FormatWithCommas` | internal/payout/pdf.go:455-469 | the numeral with commas every three characters from the right, for every integer |
| `Commas.CommaSep` | internal/payout/service.go:41-58 | the same text, built by chunks of three |
| `Commas.CommasCanBeDeleted` | internal/payout/service.go:41-58 | deleting the commas gives back any text without commas |
| `Commas.CommasInNumeral` | internal/payout/service.go:41-58 | deleting the commas of any printed integer, negative or not, gives back its numeral |
| `Commas.GroupedNumber` | internal/payout/pdf.go:455-469 | for numbers that are not negative the groups after the first have exactly three digits and the number is read back |
| `Commas.SignTakesAPlace` | internal/payout/pdf.go:455-469 | a negative number has a comma right after its sign if and only if its digits are a multiple of three; the rest is grouped as for the positive number |
| `Commas.Itoa` | internal/payout/store.go:612-624 | the twenty-byte buffer is large enough and the text is the numeral, or nothing for a negative number |
| `AmountWords.WordsAreTokens` | internal/payout/pdf.go:501-543 | the printed words, split at spaces, are the words of the number |
| `AmountWords.ReadingUndoesWords` | internal/payout/pdf.go:501-543 | reading the words by their English values, at the last Billion, Million, Thousand and Hundred, returns the number, for every number and any nesting of Billion; the reader does not know the tables of the printer |
| `AmountWords.PrintedWordsReadBack` | internal/payout/pdf.go:501-543 | the printed text of every positive number reads back to it, and only zero prints nothing |
| `AmountWords.ReadingUndoesAmount` | internal/payout/pdf.go:476-497 | the printed amount, read strictly as a number, Naira, and Only or hundredths of Kobo, gives back the kobo, or whole naira if negative |
| `AmountWords.SameWordsExactly` | internal/payout/pdf.go:476-497 | two amounts print the same words if and only if they denote the same, so the printing is injective on amounts that are not negative |
| `AmountWords.FiguresReadBack` | internal/payout/pdf.go:449-469 | the figures, read strictly as the sign, grouped digits, a point and two digits, give back every amount that is not negative |
| `AmountWords.WordsAndFiguresAgree` | internal/payout/pdf.go:449-497 | the words and the figures of a letter read back to the same amount |

## Left out

- Floating point: all arithmetic is exact, with explicit rounding; inexact sums and the ranges of numeric columns are not modelled.
- Amounts finer than a kobo given to a journal: journal lines are whole kobo, as the columns store them.
- Concurrency inside one call: each service call is one atomic step, so two reversals of one journal racing each other are not modelled.
- Who is allowed to do what, narrations, names, emails, audit rows and notifications.
- Subsidiary filters of ledger reports, and subsidiaries of periods: all rows are group-wide.
- The profit-and-loss, trial-balance and balance-sheet queries: net income is an input of the cash-flow statement.
- Receivables: withholding tax is credited again with each receipt, so no agreement with the ledger holds there.
- The resolution of approvers from roles: the map from role to holder is an arbitrary input, as are stand-ins and mail addresses.
- Instruction numbers, bank references, beneficiary and letter fields of a payment request.
- The order in which a scheduler pass visits steps: each step is updated on its own, so the order does not show.
- Dates and months that do not parse are one error; parsing itself is not modelled, nor is a malformed start date of the cash-flow statement, which the service ignores.
- Price rows, portfolio transactions, market values and impact records of corporate actions, and creation of the actions.
- A stock dividend or bonus that leaves no units: the service divides by zero there; the model refuses the action.
- The smallest 64-bit integer in words, whose negation overflows.
- `LedgerPeriods.SealedMonthTakesOnlyReversalsAndAcquisitions`: assumes that no period row is added to the month afterwards, because `LedgerPeriods.SecondRowUndoesLock` shows it false otherwise.
- `Payables.ControlAccountAgrees`: assumes that invoice lines, banks and other journals stay off 2101; `Payables.ApproveGap` and `Payables.PayGap` say by how much it is out when they do not.
- `Payroll.LedgerAgainstDashboard`: assumes that other journals and banks stay off the liability account; `Payroll.RemitGap` says by how much it is out otherwise.
- `AssetLedger.RegisterAgreesWithLedger`: assumes that an asset or accumulated-depreciation account is not also used to pay, to expense or in other journals.
- `CorporateActions.ProcessGap`: assumes that the instrument has an investment account of its own; so does the last clause of `CorporateActions.FailureKeepsJournals`, since on a shared account two postings can cancel.
- Trades: holdings change by corporate actions only.
