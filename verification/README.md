# Rotki: accounting, tasks, accounts and balances

A Dafny model of the parts of rotki that decide what a user's numbers are and what the user is told:

- **Cost basis.** Every asset has a priority queue of acquisitions that spends use up under the FIFO,
  LIFO, HIFO or average-cost method (`CostBasis.dfy`, `CostBasisCalculator.dfy`).
- **Accounting pot.** Acquisitions and spends are booked as processed events, added to profit and loss
  totals and to the cost basis; swaps are priced so that values balance (`SwapPricing.dfy`, `Pot.dfy`,
  `AccountingPots.dfy`).
- **Reports.** The history loop pulls events off a shared peekable iterator; swaps take more events,
  callbacks any number, and everything may raise (`Events.dfy`, `EventsAccounting.dfy`, `SwapFees.dfy`,
  `Reports.dfy`). What pot calls, entries and swaps do to holdings and gains is stated from their inputs
  (`Movements.dfy`, `Profit.dfy`).
- **Rules and prediction.** Rules come from a table with linked settings, and a predictor has to guess
  which events a report will consume (`Rules.dfy`, `Predictor.dfy`).
- **Asynchronous tasks** as a step system under cooperative scheduling (`Tasks.dfy`, `TasksApi.dfy`).
- **Tracked accounts and balances** (`Accounts.dfy`, `EvmAccounts.dfy`, `Balances.dfy`,
  `BitcoinSerialization.dfy`).
- **Data migrations, oracle selection, encryption** (`Migrations.dfy`, `Oracles.dfy`, `Crypto.dfy`).

Code that changes state is modelled by classes and methods with loops. Each is proved equal to a
specification function, or to satisfy a predicate, and the lemmas below are about those.
`dafny verify dfyconfig.toml` checks the whole project.

## Main results

1. *Conservation of the cost basis.* Over every run of acquisitions and spends of positive amounts, under
   every method, no internal check fails, and amount and cost acquired equal amount and cost held plus
   amount and cost used up (`RunConserves`). HIFO charges the highest cost any selection of lots could
   (`HifoChargesMost`). On arbitrary amounts the checks fail under an exact condition (`TakeFailsIff`).
2. *The profit law.* Over every run of pot calls, raising or not, and for every asset, total gain is income
   minus cost acquired plus cost still held plus cost written off (`TotalGain`); if every spend is charged,
   nothing is written off and the gain is proceeds minus cost (`GainIsProceedsMinusCost`).
3. *The swap law*, exactly and with rounding at the configured precision (`SwapConservesValue`,
   `RoundedSwapLaw`, `SwapLawAtPrecision`); its two equations determine both prices (`LawsDeterminePrices`).
4. *Safety of every report*, for every event list, error pattern and callback (`ReportIsSafe`), over a
   function that the loop is proved equal to (`Accountant.ProcessHistory`), and when the event a report
   names as skipped is the one that raised (`SkippedEventIff`).
5. *Prediction meets reality* under an exact condition (`PredictorMatchesRun`), on top of the agreement of
   rules in memory with rules in the table (`MemoryAgreesWithTable`).
6. *Every interleaving of the task protocol* keeps ids unique, delivers each outcome once and only to its
   own id, and drops only the task it cancels (`RunKeepsInv`, `DeliveredOnce`, `GoneForever`,
   `CancelDropsItsTarget`). Every stored outcome is delivered to the next poll (`StoredIsDelivered`). Nothing but logout strands a task (`StrandedIff`, `OnlyLogoutStrands`).
7. *Adding accounts under partial failure* puts every pair of chain and address in exactly the lists a
   pointwise reference names (`AddAccountsResult`).

## Where the code does less than one would expect

Each point is proved, with the exact condition where there is one.

- An ETH withdrawal of more than 32 is booked as an acquisition of a negative amount
  (`rotkehlchen/history/events/structures/eth2.py:211-213`). A spend that reaches such a lot fails an
  assertion, and the average-cost guard whose comment calls it impossible becomes reachable
  (`TakeFailsIff`, `AcbGuardReachable`). Without negative amounts neither can happen (`OpHealthy`).
- A swap whose fiat leg has no price raises a TypeError, because the asset instead of the price is compared
  with None (`TypeErrorIff`).
- The docstring of `_process_swap` says that a fee follows the leg with the same asset. It does so for the
  acquired asset only when its sequence index is not the smaller one (`FeeFollowsItsAsset`). Otherwise the
  swap's own lots do not pay for the fee, and what exceeds the other holdings is reported as missing although
  the swap covers it (`FeeShortfall`).
- `process` may report fewer events than it took (`ProcessCount`), and a missing price takes events without
  counting any (`RoundLag`). So the event named as skipped can be an earlier one than the one that raised. It is
  the right one if and only if every round before counted as many events as it took (`SkippedEventIff`); a
  missing price followed by an unreachable service names the wrong one (`WrongEventNamed`,
  `WrongEventPossible`).
- Events skipped because of an error count towards the limit of a free report but never stop it
  (`RoundsLimit`).
- The predictor ignores gas, the report ignores events without direction or with a neutral one
  (`PredictorMatchesRun`). Callbacks of the rule check see the wrong next events after the first event
  checked (`CallbackSeesNextIff`).
- A reset puts the table's rules on top of the old ones, and a report that stops with an error never gets to
  `clean_rules` (`rotkehlchen/accounting/accountant.py:205-237`). The next report applies the rules of the table
  if and only if the old ones are harmless for its events (`StaleHarmlessIff`); a deleted rule is not
  (`StaleRuleSurvives`).
- A result that no poll can fetch is stored if and only if its task was cancelled (`OrphanIff`), which happens
  (`OrphanResult`), and it stays until logout (`OrphanForever`).
- A task that logout makes exit while nobody cancels it, or whose result logout forgets, answers pending forever
  and cannot be cancelled (`StrandedForever`). No other step does that to a task (`StrandedIff`,
  `OnlyLogoutStrands`).
- An address becomes tracked without being reported as added if and only if its connection fails
  (`TrackedButNotAdded`); for contracts no list mentions it (`FailedConnectionReport`). An address named twice in one request is tracked twice
  (`AppendKeepsUniqueIff`). If an address is found active nowhere, chains that could not be asked are
  reported as having no activity (`AddAccountsResult`).
- Location values exceed the net value by the liabilities if there is no blockchain location
  (`TakeSnapshot`).
- A stored migration version above the last one is lowered (`VersionKeptIff`).

## Model

| member | source | states |
|---|---|---|
| `CostBasis.AddLotConserves` | rotkehlchen/accounting/cost_basis/base.py:296-377 | under every method a new acquisition keeps the book sound and adds its amount and cost to what the book holds |
| `CostBasis.AddLotPosition` | rotkehlchen/accounting/cost_basis/base.py:296-377 | FIFO and ACB queue a lot last, LIFO first, and every method keeps the queue in priority order |
| `CostBasis.TakeRefinesDraw` | rotkehlchen/accounting/cost_basis/base.py:152-290 | on books of positive lots the checked, total-keeping spend uses exactly the lots of a plain drawing from the front, and no check fails |
| `CostBasis.DrawConserves` | rotkehlchen/accounting/cost_basis/base.py:196-270 | used plus missing is the amount spent, held before is held after plus used, and something is missing only when nothing is left |
| `CostBasis.TakeMissing` | rotkehlchen/accounting/cost_basis/base.py:250-290 | the missing amount is what exceeds the holdings, else zero |
| `CostBasis.DrawWorth` | rotkehlchen/accounting/cost_basis/base.py:196-250 | the cost that leaves the queue is the cost charged |
| `CostBasis.TakeKeepsAverage` | rotkehlchen/accounting/cost_basis/base.py:379-397 | a spend never moves the average cost of an ACB book |
| `CostBasis.TakeStock` | rotkehlchen/accounting/cost_basis/base.py:152-442 | under every method what the book's cost loses is what the spend is charged, and an empty book has cost zero |
| `CostBasis.DrawUsesPrefix` | rotkehlchen/accounting/cost_basis/base.py:139-167 | the i-th use is of the i-th lot, and of all of it unless it is the last use |
| `CostBasis.DrawLeavesSuffix` | rotkehlchen/accounting/cost_basis/base.py:139-167 | what remains is a suffix of the queue with its first lot perhaps reduced |
| `CostBasis.TakeKeepsOrder` | rotkehlchen/accounting/cost_basis/base.py:152-167 | spending keeps the queue ordered and numbered by its method |
| `CostBasis.TakeRespectsPriority` | rotkehlchen/accounting/cost_basis/base.py:152-290 | no lot left over should have been used before one that was |
| `CostBasis.HifoChargesMost` | rotkehlchen/accounting/cost_basis/base.py:327-336 | HIFO charges at least the cost of any other way to draw the same amount from the lots held |
| `CostBasis.HifoTies` | rotkehlchen/accounting/cost_basis/base.py:77-97 | among lots of equal rate HIFO uses the oldest first |
| `CostBasis.TakeFailsIff` | rotkehlchen/accounting/cost_basis/base.py:152-167 | the checks fail if and only if the amount is negative with lots held, or a negative lot is reached, or an ACB book's running amount is used up before a lot that is reached |
| `CostBasis.AcbGuardReachable` | rotkehlchen/accounting/cost_basis/base.py:379-397 | acquisitions of -1 and 1 make the guard raise while lots are held |
| `CostBasisCalculator.Calculator.Reset` | rotkehlchen/accounting/cost_basis/base.py:582-587 | forgets all books and missing acquisitions and takes the new settings |
| `CostBasisCalculator.Calculator.ObtainAsset` | rotkehlchen/accounting/cost_basis/base.py:640-647 | the acquisition goes to the book of the asset or of the asset it shares a cost basis with; nothing else changes |
| `CostBasisCalculator.Calculator.CalculateSpendCostBasis` | rotkehlchen/accounting/cost_basis/base.py:169-290 | the loop with its four running sums yields the books, missing acquisitions, cost basis and error of the specification |
| `CostBasisCalculator.Calculator.ReduceAssetAmount` | rotkehlchen/accounting/cost_basis/base.py:596-638 | the loop uses up lots as specified and answers whether they sufficed |
| `CostBasisCalculator.Calculator.SpendAsset` | rotkehlchen/accounting/cost_basis/base.py:685-722 | taxable spends of non-fiat assets get a cost basis, all others only reduce |
| `CostBasisCalculator.CalculateAccounts` | rotkehlchen/accounting/cost_basis/base.py:169-290 | the cost basis is complete iff holdings cover the amount, the taxable amount is the amount minus what was held past the tax-free period, taxable and free cost sum to the cost leaving the book, and a shortfall is reported exactly |
| `CostBasisCalculator.CalculateByAge` | rotkehlchen/accounting/cost_basis/base.py:196-250 | the lots used are those drawn from the front; uses of lots acquired before the spend's date minus the period are free, all others and whatever is missing taxable; without a period everything is taxable |
| `CostBasisCalculator.CalculateUniformAge` | rotkehlchen/accounting/cost_basis/base.py:196-250 | if every lot held is past the period only the uncovered amount is taxable, at no cost; if none is, nothing is free |
| `CostBasisCalculator.ReduceLikeCalculate` | rotkehlchen/accounting/cost_basis/base.py:596-638 | reducing uses the very lots a taxable spend uses, answers true iff holdings suffice, and reports a shortfall unless the asset is fiat or nothing is held |
| `CostBasisCalculator.SpendInfoIff` | rotkehlchen/accounting/cost_basis/base.py:706-722 | a spend has a cost basis iff it is taxable and the asset is not fiat |
| `CostBasisCalculator.ShareBookIff` | rotkehlchen/accounting/cost_basis/base.py:589-594 | two assets share a book iff they are the same or are ETH and wrapped ETH |
| `CostBasisCalculator.GotConserves` | rotkehlchen/accounting/cost_basis/base.py:640-647 | an acquisition changes the holdings of exactly the assets that share its book, by its amount and cost |
| `CostBasisCalculator.GoneConserves` | rotkehlchen/accounting/cost_basis/base.py:685-722 | a spend raises nothing, keeps all books healthy and moves what it used out of the holdings |
| `CostBasisCalculator.RunConserves` | rotkehlchen/accounting/cost_basis/base.py:582-722 | over every run of positive amounts: no error, and acquired equals held plus used, in amount and in cost, for every asset |
| `CostBasisCalculator.CalculatedAmountAfterRun` | rotkehlchen/accounting/cost_basis/base.py:724-733 | the calculated amount after a run is acquired minus used, none when that is zero, and never negative |
| `SwapPricing.SwapConservesValue` | rotkehlchen/accounting/pot.py:389-439 | value in minus value out is the fee included in the cost basis, in every branch, and the leg without fee keeps the market value started from |
| `SwapPricing.LawsDeterminePrices` | rotkehlchen/accounting/pot.py:389-439 | no other pair of prices satisfies these two equations |
| `SwapPricing.PricesFromInputs` | rotkehlchen/accounting/pot.py:389-439 | both prices from the inputs alone: the fiat leg's price is used, the out leg's if both are fiat or both are priced crypto, else the in leg's; the fee raises the value received or lowers the value given for fiat |
| `SwapPricing.NoPricesIff` | rotkehlchen/accounting/pot.py:366-411 | no prices iff a leg is empty, or no error is let out and neither leg is fiat or priced |
| `SwapPricing.RaisesIff` | rotkehlchen/accounting/pot.py:368-416 | pricing raises iff a query lets an error out or the fiat leg to use has no price, and which error it is |
| `SwapPricing.TypeErrorIff` | rotkehlchen/accounting/pot.py:368-416 | a TypeError is raised iff the amounts are non-zero and either a price query lets a TypeError out, or none lets an error out and the fiat leg started from has no price |
| `SwapPricing.RoundedSwapLaw` | rotkehlchen/accounting/pot.py:412-439 | with relative error u per operation the law holds within 2((1+u)^3 - 1) times the value of the leg priced first plus fee |
| `SwapPricing.SwapLawAtPrecision` | rotkehlchen/fval.py:11-12 | for every precision of at least two digits, so for the 78 configured, the law holds within eight half units of the value exchanged |
| `Pot.BookKeepsLedger` | rotkehlchen/accounting/pot.py:80-94 | booking an event numbered by its position keeps the ledger |
| `Pot.OverallUpdate` | rotkehlchen/accounting/pnl.py:62-98 | adding to one type's total adds the same to the overall taxable and free totals |
| `Pot.AddInKeepsLedger` | rotkehlchen/accounting/pot.py:135-211 | an acquisition keeps the ledger and books its whole amount unless it raises or is empty |
| `Pot.AddOutKeepsLedger` | rotkehlchen/accounting/pot.py:213-307 | a spend keeps the ledger and splits its whole amount into a taxable and a free part |
| `Pot.RunKeepsLedger` | rotkehlchen/accounting/pot.py:116-307 | after any calls, raising or not: event i has index i, each type's total is the sum of its events' PnL, overall totals are the sums over all events, only events in the period contribute, and amounts booked match one by one |
| `Pot.PreforksKeepLedger` | rotkehlchen/accounting/cost_basis/prefork.py:16-68 | events of forked-off assets keep the ledger and are numbered consecutively |
| `Pot.OpAppends` | rotkehlchen/accounting/pot.py:205-209 | a call only appends events of its own date, and only a taxable call gives them a PnL |
| `Pot.OpHealthy` | rotkehlchen/accounting/pot.py:135-307 | without negative amounts a call keeps every book healthy and raises price errors only |
| `Movements.CallMoves` | rotkehlchen/accounting/pot.py:135-307 | without negative amounts a call raises iff its price cannot be found, and else every holding of every asset moves as the call's asset, amount and date say, forked-off assets included |
| `Movements.ForksIff` | rotkehlchen/accounting/cost_basis/prefork.py:16-94 | acquisitions and spends touch exactly the assets that fork off later |
| `Movements.InBooks` | rotkehlchen/accounting/pot.py:180-211 | an acquisition books its asset, date, price and whole amount last, taxable or free as a whole |
| `Movements.OutBooks` | rotkehlchen/accounting/pot.py:270-307 | a spend books exactly one event with its asset, date, price and amount, and returns its taxable and free part |
| `Profit.PnlSides` | rotkehlchen/accounting/structures/processed_event.py:183-219 | both sides of the PnL are value minus bought cost, the taxable side less the whole value for an entire spend; fiat and spends without cost basis have only the latter |
| `Profit.ChargedPnl` | rotkehlchen/accounting/pot.py:213-307 | a taxable non-fiat spend with cost basis in the period gains, on each side, value minus the cost of the lots used by age, in total proceeds minus the cost that left the book |
| `Profit.UnchargedPnl` | rotkehlchen/accounting/pot.py:213-307 | any other spend contributes nothing, or minus its value if it counts entirely |
| `Profit.AcquisitionPnl` | rotkehlchen/accounting/pot.py:205-211 | a taxable non-fiat acquisition in the period contributes its value, any other nothing |
| `Profit.CallLaw` | rotkehlchen/accounting/pot.py:135-307 | for every call and asset the change of gains minus cost held is income minus cost acquired plus cost written off |
| `Profit.RunLaw` | rotkehlchen/accounting/pot.py:116-307 | the same over every run of calls, raising or not |
| `Profit.TotalGain` | rotkehlchen/accounting/pot.py:116-307 | since a reset, total gain is income minus cost acquired plus cost held plus cost written off |
| `Profit.CleanWritesOffNothing` | rotkehlchen/accounting/pot.py:213-307 | acquisitions, charged spends and spends of unrelated assets write off nothing |
| `Profit.GainIsProceedsMinusCost` | rotkehlchen/accounting/pot.py:116-307 | if every spend of an asset is charged and no fork takes it, total gain is income minus cost acquired plus cost held |
| `AccountingPots.AccountingPot.Reset` | rotkehlchen/accounting/pot.py:116-133 | totals, events and cost basis are empty afterwards, with the new settings |
| `AccountingPots.AccountingPot.GetRateInProfitCurrency` | rotkehlchen/accounting/pot.py:96-114 | the profit currency is worth one, everything else is asked for |
| `AccountingPots.AccountingPot.AddProcessedEvent` | rotkehlchen/accounting/pot.py:80-94 | appends the event, adds its PnL to its type only if it counts |
| `AccountingPots.AccountingPot.HandlePreforkAcquisitions` | rotkehlchen/accounting/cost_basis/prefork.py:16-68 | the new pot is the specified one, ignored assets left out |
| `AccountingPots.AccountingPot.HandlePreforkSpends` | rotkehlchen/accounting/cost_basis/prefork.py:71-94 | reduces every forked-off asset until one raises |
| `AccountingPots.AccountingPot.AddInEvent` | rotkehlchen/accounting/pot.py:135-211 | the whole new pot and the error raised, including which price errors count as price zero |
| `AccountingPots.AccountingPot.SpendAtPrice` | rotkehlchen/accounting/pot.py:250-307 | the whole new pot, taxable and free amount and error of a spend at a known price |
| `AccountingPots.AccountingPot.AddOutEvent` | rotkehlchen/accounting/pot.py:213-307 | the whole new pot, taxable and free amount and error; a failed price query keeps the prefork reductions |
| `AccountingPots.AccountingPot.GetPricesForSwap` | rotkehlchen/accounting/pot.py:338-439 | asks for out leg, in leg and fee in this order, stopping at the first error that is let out, and returns the specified prices or error |
| `AccountingPots.AccountingPot.OverallPnl` | rotkehlchen/accounting/pnl.py:91-98 | the loops over all totals yield the overall taxable and free PnL |
| `EventsAccounting.ProcessCount` | rotkehlchen/accounting/history_base_entries.py:49-240 | `process` reports at least one event and never more than it took; the difference is exactly what a callback took plus the fee of an unpriced swap |
| `EventsAccounting.CallbackTakes` | rotkehlchen/accounting/history_base_entries.py:76-83 | callbacks run for EVM entries of a registered exact type and take what they say, as far as there is so much |
| `EventsAccounting.SwapCount` | rotkehlchen/accounting/history_base_entries.py:134-240 | a swap reports two events if it has no fee or finds no price, else three |
| `EventsAccounting.FeeFollowsItsAsset` | rotkehlchen/accounting/history_base_entries.py:143-240 | the fee precedes the acquisition iff it is paid in the asset sold or has the smaller sequence index |
| `SwapFees.FeeShortfall` | rotkehlchen/accounting/history_base_entries.py:143-240 | for a taxable fee in the acquired asset, what is reported missing is exactly what exceeds the holdings, the swap's own acquisition counting among these iff the fee is queued after it |
| `SwapFees.SpendReports` | rotkehlchen/accounting/pot.py:213-307 | a priced taxable spend raises nothing and reports exactly what the holdings do not cover, preforks included |
| `SwapFees.AcquisitionHeld` | rotkehlchen/accounting/pot.py:135-211 | a priced acquisition adds its amount to what is held and reports nothing missing |
| `Movements.EntryMoves` | rotkehlchen/accounting/history_base_entries.py:118-132 | an entry with direction and a rule that is no swap raises or lowers every holding as its direction, asset, amount and date say, and books one such event at the price found |
| `Movements.EntryChangesHolding` | rotkehlchen/accounting/history_base_entries.py:118-132 | an inward entry raises the holding of its asset by its amount, an outward one with cost basis lowers it by as much as is held, others leave it |
| `Movements.SwapChangesHoldings` | rotkehlchen/accounting/history_base_entries.py:134-240 | a priced swap moves every holding by out leg, in leg and fee in the order of the docstring's rules as the code applies them |
| `Movements.SwapBooks` | rotkehlchen/accounting/history_base_entries.py:134-240 | the out leg is booked first at the out price, the in leg last or before the fee at the in price; the acquisition never counts, the sale as the rule says |
| `Movements.SwapFeeBooks` | rotkehlchen/accounting/history_base_entries.py:195-240 | the fee is booked as a fee at one, at its leg's price or at the oracle's, counts nothing if part of the cost basis, and without cost basis is taxable in the proportion of the sale |
| `Movements.PotPricesSwap` | rotkehlchen/accounting/pot.py:338-439 | with a constant oracle the pot prices a swap from the answers for exactly its own assets |
| `Profit.EntryPnl` | rotkehlchen/accounting/history_base_entries.py:118-132 | what an entry contributes, by its direction and the three properties of its rule |
| `Profit.SwapGain` | rotkehlchen/accounting/history_base_entries.py:168-190 | the sale in a taxable swap contributes its gain at the out price, on both sides |
| `Profit.SwapFeeIsExpense` | rotkehlchen/accounting/history_base_entries.py:195-230 | a fee outside the cost basis counts the cost of the lots it is paid with, for fiat its value, as a loss |
| `EventsAccounting.ProcessKeeps` | rotkehlchen/accounting/history_base_entries.py:49-240 | processing an event dated up to the end keeps the ledger and every contribution inside the period |
| `EventsAccounting.ProcessHealthy` | rotkehlchen/accounting/history_base_entries.py:49-240 | on input without negative amounts only price errors and the TypeError of an unpriced fiat leg can be raised, also when outside code such as a trade prices the swap |
| `EventsAccounting.EventsAccountant.ProcessSwapEvents` | rotkehlchen/accounting/history_base_entries.py:134-240 | the queue of pot calls, reversed when the fee goes first, leaves the specified pot, count and error |
| `EventsAccounting.EventsAccountant.TakeLegs` | rotkehlchen/accounting/history_base_entries.py:84-117 | takes none, the in leg, or in leg and fee off the iterator, by group and subtype |
| `EventsAccounting.EventsAccountant.RunCallback` | rotkehlchen/accounting/history_base_entries.py:68-83 | a callback's pot calls and the events it takes |
| `EventsAccounting.EventsAccountant.ProcessEntry` | rotkehlchen/accounting/history_base_entries.py:49-132 | pot, iterator position, count and error after one history entry |
| `Reports.RoundCount` | rotkehlchen/accounting/accountant.py:242-315 | a round takes an event unless none is left, reports no more than it took, reports none iff the iterator is empty or the period is over, and calls the event's process method iff the settings admit it, else changing and raising nothing |
| `Reports.Accountant.ProcessEvent` | rotkehlchen/accounting/accountant.py:242-315 | pot, position, count, time and error of one round |
| `Reports.Accountant.ProcessSkippingException` | rotkehlchen/accounting/accountant.py:90-110 | the event at `count` is reported and the count advances by one |
| `Reports.Accountant.ProcessHistory` | rotkehlchen/accounting/accountant.py:112-240 | the loop ends, its lookups are in range, and report, pot and events named as skipped are those of the specification |
| `Reports.RoundsCount` | rotkehlchen/accounting/accountant.py:165-226 | the count never exceeds the events taken; a free report stops at the limit; only errors that do not skip an event abort |
| `Reports.RoundsFine` | rotkehlchen/accounting/accountant.py:165-226 | ledger, period and health of the books hold after any number of rounds |
| `Reports.RoundsStart` | rotkehlchen/accounting/accountant.py:165-226 | rounds take disjoint stretches of events in order and process an event iff it is admitted; at period end on sorted events everything up to the end was taken |
| `Reports.RoundsReport` | rotkehlchen/accounting/accountant.py:205-232 | the report's count is what its rounds counted and its time that of the last event counted without error |
| `Reports.RoundsLimit` | rotkehlchen/accounting/accountant.py:216-226 | a free report stops exactly at the first round that ends well with the count at the limit; a premium one never does |
| `Reports.RoundLag` | rotkehlchen/accounting/accountant.py:176-215 | exactly by how much a round leaves the count behind the iterator |
| `Reports.SkippedEventIff` | rotkehlchen/accounting/accountant.py:90-110 | the event named as skipped never comes after the one that raised, and is that one iff every earlier round counted as many events as it took |
| `Reports.WrongEventNamed` | rotkehlchen/accounting/accountant.py:187-203 | a missing price followed by an unreachable service names the first event instead of the second |
| `Reports.ReportIsSafe` | rotkehlchen/accounting/accountant.py:112-240 | all of these for every report from an empty pot, and on benign input only a TypeError aborts |
| `Rules.QueryRules` | rotkehlchen/db/accounting_rules.py:239-300 | overwriting one link after the other gives each property the value of the last link whose setting exists |
| `Rules.LinkedFields` | rotkehlchen/db/accounting_rules.py:279-298 | field by field, the last existing setting linked under the property's own name decides, else the row; the swap treatment cannot be linked |
| `Rules.AccountingRulesManager.Reset` | rotkehlchen/accounting/rules.py:69-73 | the rules of the table are put on top of those in memory, callbacks are replaced |
| `Rules.AccountingRulesManager.CleanRules` | rotkehlchen/accounting/rules.py:75-81 | both maps are empty |
| `Rules.AccountingRulesManager.GetEventSettings` | rotkehlchen/accounting/rules.py:45-67 | the exact rule, else for EVM entries the one without counterparty |
| `Rules.LoadedIsLookup` | rotkehlchen/accounting/rules.py:32-43 | with injective identifiers a key is bound exactly to the rule of its row |
| `Rules.MemoryAgreesWithTable` | rotkehlchen/db/accounting_rules.py:254-300 | memory loaded from empty finds the rule the two-step table query finds, with linked properties, for every event and table |
| `Rules.StaleHarmlessIff` | rotkehlchen/accounting/rules.py:32-73 | for all old rules, tables and events: a reset over old rules finds the rule a reset from empty maps finds iff the table has the exact rule, or a stale exact rule equals what the table gives, or no exact rule is held and the generic one is irrelevant, in the table or not held |
| `Rules.StaleRuleSurvives` | rotkehlchen/accounting/rules.py:69-73 | an old rule for an event's exact key is applied whenever the table, whatever else it holds, has no rule for the event |
| `Predictor.EventsToConsumeFrom` | rotkehlchen/db/accounting_rules.py:324-404 | ids and iterator position of the predictor |
| `Predictor.PredictedIds` | rotkehlchen/db/accounting_rules.py:324-404 | the ids are those of the events taken, in order; gas takes none, a swap its legs, a callback that reports n events the smaller of n - 1 and what is left |
| `Predictor.RealSwapTakes` | rotkehlchen/accounting/history_base_entries.py:87-117 | without callback the report takes none, the in leg, or in leg and fee, spelled out by entry kind, group and subtype |
| `Predictor.PredictorMatchesRun` | rotkehlchen/db/accounting_rules.py:336-375 | for a swap rule without callback the predictor and the report advance equally if and only if there is no in leg or gas and missing direction coincide |
| `Predictor.QueryMissingRules` | rotkehlchen/db/accounting_rules.py:407-503 | which events are checked and which are consumed by a check; a consumed event ends as processed, a cached one as cached, an informational one as processed, a checked one as having a rule, else as processed if it consumes others, else as not processed; the index of the n-th check is n short of the position |
| `Predictor.CallbackSeesNextIff` | rotkehlchen/db/accounting_rules.py:464-481 | the events shown to a callback are the following ones iff its event is the first one checked |
| `Tasks.NextKeepsInv` | rotkehlchen/api/rest.py:385-446 | every step keeps: ids increase, a cancellation points at its task, each id is listed, delivered once or cancelled, and results are what their task produced |
| `Tasks.RunKeepsInv` | rotkehlchen/api/rest.py:385-547 | so does every interleaving |
| `Tasks.IdsNeverReused` | rotkehlchen/api/rest.py:385-389 | ids started later in a run are larger than all before |
| `Tasks.DeliveryIsOwnOutcome` | rotkehlchen/api/rest.py:493-518 | a poll delivers only what the task with that id produced and stored, and the task leaves the list |
| `Tasks.PollAnswers` | rotkehlchen/api/rest.py:493-530 | a poll of a listed task delivers what it produced iff a result is stored, else answers pending; of any other id not-found |
| `Tasks.CancelAnswers` | rotkehlchen/api/rest.py:532-543 | cancelling starts iff the task is listed and alive |
| `Tasks.CancelCanEnd` | rotkehlchen/api/rest.py:532-546 | a cancellation holding the lock is never stuck |
| `Tasks.StoredIsDelivered` | rotkehlchen/api/rest.py:391-530 | once a listed task's result is stored, the next poll of its id delivers it, whatever runs in between, unless logout forgets the results |
| `Tasks.EndSettles` | rotkehlchen/api/rest.py:395-433 | what a command returned, the error it died with, or that it was killed settles its task |
| `Tasks.SettledForever` | rotkehlchen/api/rest.py:391-530 | in every later run whatever is delivered for the task is exactly that, or that it was killed |
| `Tasks.DeliveredOnce` | rotkehlchen/api/rest.py:493-518 | no two deliveries of a run are for the same id |
| `Tasks.GoneForever` | rotkehlchen/api/rest.py:478-547 | after delivery or cancellation an id answers not-found to every later poll and cancellation |
| `Tasks.CancelTargetStays` | rotkehlchen/api/rest.py:532-546 | while a cancellation waits, no run changes the order of the list |
| `Tasks.CancelDropsItsTarget` | rotkehlchen/api/rest.py:532-546 | the greenlet popped by index is the one found and killed, and no other task leaves the list |
| `Tasks.StrandedIff` | rotkehlchen/api/rest.py:478-547 | a step strands a listed task iff logout makes it exit while it is not being cancelled, or forgets its result |
| `Tasks.ExitStrands` | rotkehlchen/api/rest.py:1231-1231 | the first way: a task that logout makes exit without exception, unless it is just being cancelled |
| `Tasks.ClearStrands` | rotkehlchen/api/rest.py:1232-1233 | the second way: a finished task whose result logout forgets |
| `Tasks.OnlyLogoutStrands` | rotkehlchen/api/rest.py:385-547 | in every run without logout a listed task is alive, being cancelled, has a result, or has a handler to store one |
| `Tasks.StrandedForever` | rotkehlchen/api/rest.py:478-547 | such a task answers pending to every poll and not-found to every cancellation, forever |
| `Tasks.OrphanIff` | rotkehlchen/api/rest.py:395-414 | a stored result belongs to no listed task iff its task was cancelled |
| `Tasks.OrphanForever` | rotkehlchen/api/rest.py:478-547 | such a result stays stored and unlisted in every run until logout |
| `Tasks.OrphanResult` | rotkehlchen/api/rest.py:395-414 | a run that leaves one |
| `TasksApi.RestApi.QueryAsync` | rotkehlchen/api/rest.py:435-446 | a fresh id and one more listed greenlet, as the protocol step says |
| `TasksApi.RestApi.CommandReturns` | rotkehlchen/api/rest.py:430-433 | the protocol's finish step |
| `TasksApi.RestApi.GreenletDies` | rotkehlchen/api/rest.py:395-428 | the protocol's steps of a raising or killed command, which leave a handler to run |
| `TasksApi.RestApi.GreenletExits` | rotkehlchen/api/rest.py:1231-1231 | the protocol's silent exit at logout |
| `TasksApi.RestApi.WriteTaskResult` | rotkehlchen/api/rest.py:391-433 | the protocol's write step |
| `TasksApi.RestApi.HandleKilledGreenlet` | rotkehlchen/api/rest.py:395-428 | the protocol's step of a death handler |
| `TasksApi.RestApi.QueryTasksOutcome` | rotkehlchen/api/rest.py:493-530 | the scan answers as the protocol's poll |
| `TasksApi.RestApi.ListTasks` | rotkehlchen/api/rest.py:479-491 | every listed task is reported once, as completed iff it has a result |
| `TasksApi.RestApi.DeleteAsyncTaskBegin` | rotkehlchen/api/rest.py:532-543 | the scan finds the live task and keeps the lock, or answers not-found |
| `TasksApi.RestApi.DeleteAsyncTaskEnd` | rotkehlchen/api/rest.py:545-546 | releases the lock and drops the entry at the index found |
| `TasksApi.RestApi.LogoutClearsResults` | rotkehlchen/api/rest.py:1232-1233 | all results are forgotten, the list is not touched |
| `Balances.ChainTotals` | rotkehlchen/chain/balances.py:215-242 | a chain's totals are, for every asset and liability, the sums over its accounts |
| `Balances.RecalculateTotals` | rotkehlchen/chain/balances.py:121-133 | the stored totals are the sums over all chains of the chains' own totals, whatever the order |
| `Balances.AccountForManualBalances` | rotkehlchen/balances/manual.py:128-145 | every location and asset gains exactly its entries, the overall total exactly their sum |
| `Balances.SumUp` | rotkehlchen/rotkehlchen.py:994-1002 | totals by asset and by location are the column and row sums and have the same overall value |
| `Balances.TakeSnapshot` | rotkehlchen/rotkehlchen.py:994-1017 | net value, and location values that add up to it if the blockchain location is present, else exceed it by the liabilities; the shares of the net value then add up to one, and are zero without net value |
| `BitcoinSerialization.SerializeBitcoinBalances` | rotkehlchen/chain/balances.py:168-206 | every account appears once, standalone or under its own xpub and path; no two entries share a key; nothing else appears |
| `Accounts.ChainsAggregator.CheckAccountsExistence` | rotkehlchen/chain/aggregator.py:454-493 | an input error iff some account is wrongly named, Bitcoin Cash compared in legacy form when adding |
| `Accounts.ChainsAggregator.AppendAccounts` | rotkehlchen/chain/aggregator.py:792-830 | rejected requests change nothing; otherwise accounts are appended up to and including the first one that fails |
| `Accounts.ChainsAggregator.RemoveAccounts` | rotkehlchen/chain/aggregator.py:792-841 | tracked addresses and balances without the named ones, totals recalculated; no change on an input error |
| `Accounts.ChainsAggregator.QueryBalances` | rotkehlchen/chain/aggregator.py:495-527 | whatever the chain queries stored, totals follow |
| `Accounts.AppendKeepsUniqueIff` | rotkehlchen/chain/aggregator.py:806-830 | a successful addition tracks no address twice iff the request names none twice |
| `Accounts.AppendKeepsLegacyIff` | rotkehlchen/chain/aggregator.py:454-493 | a successful Bitcoin Cash addition keeps legacy forms distinct iff those of the request are |
| `Accounts.AppendedUpToFailure` | rotkehlchen/chain/aggregator.py:806-830 | exactly the accounts up to and including the first failing one are appended, other chains are not touched |
| `Accounts.RemoveManyMembers` | rotkehlchen/chain/accounts.py:43-55 | exactly the named accounts leave, on that chain only |
| `Accounts.RemovalLowersTotals` | rotkehlchen/chain/aggregator.py:819-841 | totals fall by exactly what the removed accounts held, for every asset and liability |
| `Accounts.ChainsAggregator.CheckSingleAddressActivity` | rotkehlchen/chain/aggregator.py:1431-1474 | the active and the unreachable chains, in order |
| `Accounts.ChainsAggregator.TrackEvmAddress` | rotkehlchen/chain/aggregator.py:1476-1506 | tracked addresses, added and failed chains of the specification |
| `Accounts.ChainsAggregator.AddOneAccount` | rotkehlchen/chain/aggregator.py:1508-1590 | what one address adds to the five lists, including the contract case |
| `Accounts.ChainsAggregator.AddAccountsToAllEvm` | rotkehlchen/chain/aggregator.py:1540-1597 | the loop over all addresses, stopped by a failing contract check |
| `EvmAccounts.AddAccountsResult` | rotkehlchen/chain/aggregator.py:1540-1597 | for distinct addresses a pair is added, existing, failed, inactive or tracked iff a pointwise reference says so |
| `EvmAccounts.AddAccountsSafe` | rotkehlchen/chain/aggregator.py:1540-1597 | the four lists are pairwise disjoint, added pairs are tracked, none is dropped and none is tracked twice |
| `EvmAccounts.TrackedButNotAdded` | rotkehlchen/chain/aggregator.py:1476-1506 | a pair becomes tracked without being added iff it is to be tracked and its connection fails |
| `EvmAccounts.FailedConnectionReport` | rotkehlchen/chain/aggregator.py:1476-1597 | such a pair is reported as failed iff it is no contract, and is in no other list |
| `EvmAccounts.ContractCheckFails` | rotkehlchen/chain/aggregator.py:1560-1597 | addresses before a failing contract check are handled completely, later ones not at all |
| `Migrations.DataMigrationManager.PerformMigration` | rotkehlchen/data_migrations/manager.py:73-85 | one attempt is logged with its outcome |
| `Migrations.DataMigrationManager.MaybeMigrateData` | rotkehlchen/data_migrations/manager.py:46-71 | version and attempts of one start-up; nothing runs without a stored version |
| `Migrations.NoMigrationSucceedsTwice` | rotkehlchen/data_migrations/manager.py:46-85 | over any start-ups and failures successes strictly ascend, and the version never falls nor passes the last |
| `Migrations.RunsInOrder` | rotkehlchen/data_migrations/manager.py:46-85 | over any start-ups no migration is attempted before every earlier pending one has succeeded |
| `Migrations.FinishedIff` | rotkehlchen/data_migrations/manager.py:46-71 | over any start-ups the last version is stored iff everything pending at first has succeeded |
| `Migrations.LastVersionIffNothingPending` | rotkehlchen/data_migrations/manager.py:46-71 | a version not above the last is the last iff nothing is pending |
| `Migrations.MigrateFinishes` | rotkehlchen/data_migrations/manager.py:46-71 | a start-up without failures stores the last version |
| `Migrations.FreshStartMigratesNothing` | rotkehlchen/data_migrations/manager.py:46-71 | without a stored version no migration is ever attempted and the last version is stored |
| `Migrations.VersionKeptIff` | rotkehlchen/data_migrations/manager.py:66-71 | a start-up lowers the version iff it was above the last one |
| `Oracles.Inquirer.SetOraclesOrder` | rotkehlchen/inquirer.py:380-392 | oracles and instances stay in step, with and without on-chain oracles |
| `Oracles.WithoutManualMembers` | rotkehlchen/inquirer.py:380-392 | the oracles kept are those of the request other than the manual one |
| `Oracles.WithoutManualOrder` | rotkehlchen/inquirer.py:380-392 | in the order of the request |
| `Oracles.Inquirer.QueryOracleInstances` | rotkehlchen/inquirer.py:453-519 | the loop's price, oracle and flag, or the recursion error |
| `Oracles.FirstDecides` | rotkehlchen/inquirer.py:402-519 | the answer is that of the first available oracle with a non-zero price, zero if none, the recursion error if that comes first |
| `Oracles.SkipOnchainLikeUnavailable` | rotkehlchen/inquirer.py:485-519 | skipping on-chain oracles is the same query with those oracles unavailable |
| `Crypto.CbcRoundTrip` | rotkehlchen/crypto.py:17-58 | chaining is undone for every cipher, IV and number of blocks |
| `Crypto.CbcBlocks` | rotkehlchen/crypto.py:17-30 | every ciphertext block is the encryption of its plaintext block combined with the block before, the IV for the first |
| `Crypto.UnpadIff` | rotkehlchen/crypto.py:45-58 | decrypted data yields d iff it is d followed by p copies of byte p for some p > 0 |
| `Crypto.EncryptRoundTrip` | rotkehlchen/crypto.py:17-58 | decrypting undoes encrypting for every key, IV and message length |

## Left out

- Decimal rounding outside swap pricing: amounts, costs and PnL are exact reals. `SwapPricing` alone carries
  a rounding function; the pot uses it with exact arithmetic.
- The heap layout of acquisitions: a book holds the sequence in which its heap would be popped. Ties, which
  HIFO has for equal rate and timestamp, are broken by insertion order.
- Bookkeeping that feeds no decision: used acquisitions and spends lists, notes, group ids, extra data,
  report rows in the database, missing prices, the CSV exporter, messages.
- Process methods of trades, movements, loans, margin positions and staking, and the bodies of callbacks:
  arbitrary sequences of pot calls with an arbitrary error at the end.
- EventsAccounting.ProcessKeeps: requires that such outside code dates its taxable pot calls like its event,
  and EventsAccounting.ProcessHealthy that it passes no negative amounts and raises no assertion or accounting
  error of its own; the lemmas about reports inherit both as premises of what they concern.
- Prices come from an oracle that may answer each query differently; its cache is not part of this model.
- Price errors other than the ones the price oracle documents: they are admitted, and
  only the lemmas about benign input exclude them.
- Tasks.RunKeepsInv: logout is two separate steps, tasks exiting one by one and results being cleared, which
  allows more interleavings than the code; commands that swallow the exception they are killed with are not
  modelled, nor are greenlets that are no API tasks.
- TasksApi.RestApi.WriteTaskResult: a lock is an explicit state, and a method is called when its step is
  enabled; blocking itself is not modelled.
- Predictor.QueryMissingRules: the informational events and the least-recently-used cache are an arbitrary
  predicate and an unbounded map; event identifiers are distinct, as a primary key makes them.
- Coherence of the processable events cache after rule edits, and mutual exclusion of asynchronous logins:
  the code promises neither.
- Accounts.ChainsAggregator.QueryBalances: what the chain queries store is arbitrary; the per-chain queries,
  locks and time caches are left out.
- Removal of accounts empties no module caches, and an empty list of accounts is admitted.
- Balances.TakeSnapshot: percentages are exact shares, not formatted strings; NFTs, Loopring balances and the failed-query handling before the
  aggregation would only add easy members.
- Migrations: what a migration does, and progress messages.
- Oracles: how prices are fetched; an instance's availability and answer are given.
- Crypto: key derivation and the AES permutation, for which any invertible block function stands in.
- Databases, files, transactions, websockets, all other REST endpoints, exchanges, decoders, CSV import,
  packaging and the frontend.
