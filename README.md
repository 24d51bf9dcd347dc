# Stock tool core in Dafny

This project models the computational core of a Taiwan-stock portfolio web app, and proves properties of that model. The core covers:

- **Strategy advisor** (`strategy.dfy`): the simple moving average, the "two-day rule" classification of the last three bars against an average, the 1% risk position size, and the advice status that combines them.
- **Health score** (`health.dfy`): the tiered 0–100 score of a stock, its itemised report, the score label and the moving-average arrangement.
- **Portfolio arithmetic** (`calculations.dfy`): the profit/loss colour class, the cost, market value, unrealized profit and ROI of the holdings, and the split of the market value by sector.
- **Transaction ledger** (`portfolio.dfy`):
  - active holdings derived from BUY/SELL transactions with average-cost bookkeeping;
  - realized profit over a date window;
  - adding a transaction and deleting a symbol's transactions;
  - the normalisation and filter of spreadsheet rows on import.
- **Watchlist** (`watchlist.dfy`): every watched symbol goes into one category by the status of its cached advice, and each category is sorted pinned-first.
- **Performance tracker** (`performance.dfy`):
  - the selected year's summary and its records table;
  - the annual and cumulative profit series over all years;
  - the net value of the entry form;
  - the updates: add or overwrite a record, delete a record, add an asset or liability item, add a capital injection.
- **Portfolio summary** (`market.dfy`): the trading-session badge and the data-source badge.

Shared pieces:

- `basics.dfy`: `Option` and dates, written as the integer yyyymmdd.
- `stock.dfy`: the quote record and the holding.
- `text.dfy`: `startsWith`, `includes`, ASCII `toUpperCase`, the blank test.
- `sorting.dfy`: a stable insertion sort. It is the reference for `Array.prototype.sort` with a key comparator.

Money and prices are `real`.

Functions model pure expressions. Where the source accumulates in a loop, pushes onto arrays or updates a per-symbol book, a method proves that loop against its specification function:

- `CalculateMA`, `CalculateHealthScore`, `GenerateHealthReport`;
- `CalculatePortfolioMetrics`, `CalculateSectorExposure`;
- `DeriveHoldings`, `GetRealizedPL`;
- `GroupWatchlist`;
- `OverallSeries`, `CalculateCurrentEntryNetValue`.

## Model

| member | source | states |
|---|---|---|
| Strategy.MAAt | src/utils/strategyUtils.js:8-19 | entry `i` is missing exactly while `i < period - 1`; otherwise it times `period` equals the sum of the closes of the `period` bars ending at `i` |
| Strategy.CalculateMA | src/utils/strategyUtils.js:8-19 | the loop yields one entry per bar, positionally equal to `MAAt` |
| Strategy.MAWithinWindowRange | src/utils/strategyUtils.js:15-16 | a moving average lies between any lower and upper bound of the closes in its window |
| Strategy.SumClosesBounds | src/utils/strategyUtils.js:15 | the sum of `n` closes within `[lo, hi]` lies within `[n·lo, n·hi]` |
| Strategy.MAAllMissingWhenPeriodTooLong | src/utils/strategyUtils.js:11-13 | a period longer than the data leaves every entry missing |
| Strategy.MAExample | src/utils/strategyUtils.js:8-19 | closes 10, 20, 30, 40 with period 3 give missing, missing, 20, 30 |
| Strategy.CheckTwoDayRule | src/utils/strategyUtils.js:28-61 | the type is absent exactly when fewer than three bars are given (status TRENDING); GIFT goes with WASHOUT only, STABLE with TREND only, FAILED with BREAKOUT only; VALIDATED and WATCH carry BREAKOUT or BREAKDOWN |
| Strategy.TwoDayRuleOutcomes | src/utils/strategyUtils.js:37-60 | each of the seven outcomes occurs exactly when its crossing condition holds, in the precedence order of the checks (Day-2 breakout, Day-2 breakdown, Day-1 breakout, Day-1 breakdown, stable) |
| Strategy.TwoDayRuleUsesLastThreeBars | src/utils/strategyUtils.js:29-33 | bars before the last three never change the outcome |
| Strategy.BreakoutDay2BeatsBreakdownDay1 | src/utils/strategyUtils.js:37-57 | a Day-2 breakout is reported even when today closes below the average again |
| Strategy.TwoDayRuleAsymmetry | src/utils/strategyUtils.js:37-47 | a breakdown without a new low is a GIFT; a breakout without a new high is FAILED |
| Strategy.CalculatePositionSize | src/utils/strategyUtils.js:66-71 | 0 when the entry is at or below the stop; otherwise the largest whole share count whose loss at the stop stays within 1% of total assets; never negative for non-negative assets |
| Strategy.PositionSizeExample | src/utils/strategyUtils.js:66-71 | 1,000,000 of assets with entry 100 and stop 93 give 1428 shares; entry at or below the stop gives 0 |
| Strategy.GetStrategyAdvice | src/utils/strategyUtils.js:76-79 | the status is WAITING exactly when the history is missing or shorter than the longer period plus three |
| Strategy.PrimaryMAPresent | src/utils/strategyUtils.js:81-88 | past the guard, the last entry of the selected average exists; the mode `'short'` selects the short period, any other mode the long one |
| Strategy.AdviceFollowsRule | src/utils/strategyUtils.js:91-166 | each outcome of the rule maps to its status: GIFT to GIFT_BUY, WATCH to WATCH_BREAKOUT or WATCH_BREAKDOWN by type, VALIDATED to BULLISH_CONFIRMED or BEARISH_CONFIRMED, FAILED to CONSOLIDATING, STABLE to the trend on the side of the last close |
| Strategy.GiftScenario | src/utils/strategyUtils.js:93-101 | yesterday closed below the average, the day before did not, and today made no new low: GIFT_BUY |
| Strategy.BreakoutValidatedScenario | src/utils/strategyUtils.js:122-131 | yesterday closed above the average, the day before did not, and today made a new high: BULLISH_CONFIRMED |
| Strategy.TrendStatusMatchesLastClose | src/utils/strategyUtils.js:151-166 | BULLISH_TREND only when the last close is above the average, BEARISH_TREND only when at or below it |
| Health.AnalyzeMovingAverages | src/utils/healthScore.js:80-104 | bullish exactly on price > MA20 > MA60, bearish exactly on price < MA20 < MA60 |
| Health.HealthScore | src/utils/healthScore.js:2-41 | 0 without data; otherwise within [55, 100] |
| Health.CalculateHealthScore | src/utils/healthScore.js:2-41 | the step-by-step accumulation equals the clamped sum of base 50 and the four tiers |
| Health.RoeTier | src/utils/healthScore.js:9-12 | the ROE tier is one of 0, 5, 10, 15, 20 |
| Health.PeTier | src/utils/healthScore.js:15-17 | the P/E tier is one of 0, 4, 7, 10 |
| Health.YieldTier | src/utils/healthScore.js:20-23 | the dividend-yield tier is one of 0, 2, 4, 7, 10 |
| Health.MaTierMatchesArrangement | src/utils/healthScore.js:29-38 | the moving-average tier is 30, 5 or 15 exactly when the arrangement is bullish, bearish or neutral |
| Health.ScoreMonotoneInRoe | src/utils/healthScore.js:9-12 | raising ROE never lowers the score |
| Health.ScoreMonotoneInYield | src/utils/healthScore.js:20-23 | raising the dividend yield never lowers the score |
| Health.GenerateHealthReport | src/utils/healthScore.js:44-69 | the pushes yield exactly the report function's items |
| Health.PushFirstMet | src/utils/healthScore.js:47-49 | each topic pushes its first met item, else its second, else nothing |
| Health.HealthReportShape | src/utils/healthScore.js:47-68 | at most one item per topic, in the order ROE, P/E, yield, technical, volatility |
| Health.HealthReportItems | src/utils/healthScore.js:44-68 | empty without data; otherwise each item is present exactly when its threshold holds (ROE > 15 good, < 5 bad; P/E in [10, 20] good, > 25 bad; yield > 4 good; arrangement bullish good, bearish bad; volatility > 30 warning) |
| Health.ReportMembers | src/utils/healthScore.js:44-68 | an item is in the report exactly when it is its topic's item |
| Health.GetHealthStatus | src/utils/healthScore.js:72-77 | each label holds exactly on its score band: ≥ 80, [60, 80), [40, 60), < 40 |
| Health.HealthStatusMonotone | src/utils/healthScore.js:72-77 | a higher score never gets a worse label |
| Calculations.GetPLColorClass | src/utils/calculations.js:17-21 | gain exactly for positive values, loss exactly for negative, neutral exactly for 0 |
| Calculations.CalculatePortfolioMetrics | src/utils/calculations.js:24-44 | the totals are the sums of shares × average cost and of shares × price; unrealized P/L is their difference; ROI is P/L per cost in percent, 0 without cost |
| Calculations.TotalsAppend | src/utils/calculations.js:28-33 | both totals split over a concatenation of holdings |
| Calculations.RoiHasSignOfPL | src/utils/calculations.js:35-36 | with a positive cost, ROI gets the same colour class as the unrealized P/L |
| Calculations.AtCostNoPL | src/utils/calculations.js:28-35 | prices equal to average costs give market value equal to cost |
| Calculations.SectorsOf | src/utils/calculations.js:57-59 | the sector order lists each sector once |
| Calculations.CalculateSectorExposure | src/utils/calculations.js:47-70 | one entry per sector of a holding with a quote record, in order of first appearance, with the sector's market value and its percentage of the included total (0 unless the total is positive) |
| Calculations.SectorsOfListsEverySector | src/utils/calculations.js:50-61 | the sector of every holding with a quote record is listed |
| Calculations.SectorsOfListsOnlyHeldSectors | src/utils/calculations.js:50-61 | every listed sector is the sector of some holding with a quote record |
| Calculations.SumOfSectorValues | src/utils/calculations.js:63 | the sector values add up to the market value of the included holdings |
| Calculations.ExposureAddsUp | src/utils/calculations.js:63-69 | the entries' values add up to the included market value; with a positive total, the unrounded percentages add up to 100 |
| Portfolio.SymbolsOf | src/context/PortfolioContext.jsx:67-77 | the book's key order lists each symbol once |
| Portfolio.DeriveHoldings | src/context/PortfolioContext.jsx:66-108 | the fold over the transactions followed by the filter yields exactly the holdings function |
| Portfolio.HoldingsAreActivePositions | src/context/PortfolioContext.jsx:100-107 | a symbol is listed exactly when its replayed position holds shares; its entry carries those shares, total cost / shares as average cost and the quoted price; no symbol is listed twice |
| Portfolio.ReplayOwnTransactions | src/context/PortfolioContext.jsx:69-95 | a symbol's position depends only on that symbol's transactions |
| Portfolio.SellKeepsAvgCost | src/context/PortfolioContext.jsx:84-94 | a SELL that leaves shares keeps the average cost |
| Portfolio.RealizedCashIdentity | src/context/PortfolioContext.jsx:81-94 | realized P/L equals SELL proceeds minus BUY outlay plus the cost still held |
| Portfolio.ApplyCashStep | src/context/PortfolioContext.jsx:81-94 | one transaction moves realized P/L minus held cost by exactly the cash it moves |
| Portfolio.ApplyKeepsSound | src/context/PortfolioContext.jsx:81-94 | without overselling, shares and cost stay non-negative, and a flat position has zero cost |
| Portfolio.GetRealizedPL | src/context/PortfolioContext.jsx:191-223 | the loop over the date-sorted ledger yields the gains of the SELLs dated in the window, each against its symbol's average cost at that point |
| Portfolio.SettleTransaction | src/context/PortfolioContext.jsx:204-219 | a step's new position is the average-cost bookkeeping step; its gain is the SELL's proceeds minus cost basis inside the window, else 0 |
| Portfolio.ReplayStep | src/context/PortfolioContext.jsx:204-219 | one more transaction moves only its own symbol's position and adds only its in-window SELL gain |
| Portfolio.RealizedPLWithoutSells | src/context/PortfolioContext.jsx:212-215 | a window without SELLs, or with start after end, realizes 0 |
| Portfolio.WholeWindowMatchesLedger | src/context/PortfolioContext.jsx:191-223 | a window covering all of one symbol's transactions realizes exactly what the replayed position records |
| Portfolio.RealizedPLOfDatedLedger | src/context/PortfolioContext.jsx:191-223 | for one symbol's date-ordered transactions, a window covering all of them realizes exactly what the holdings book records |
| Portfolio.AddTransaction | src/context/PortfolioContext.jsx:129-152 | refused exactly for a BUY of a symbol with no quote record that the data service does not know; otherwise appended at the end, and a fetched record is kept |
| Portfolio.AddTransactionMovesOnePosition | src/context/PortfolioContext.jsx:129-152 | an accepted transaction advances its own symbol's position by one step and leaves every other position unchanged |
| Portfolio.DeleteHolding | src/context/PortfolioContext.jsx:165-169 | no transaction of the symbol remains |
| Portfolio.DeleteHoldingAppend | src/context/PortfolioContext.jsx:168 | deleting from a concatenation deletes from each part and keeps the parts in order, so the surviving transactions of all symbols keep their relative order |
| Portfolio.DeleteHoldingSingle | src/context/PortfolioContext.jsx:168 | a single transaction is kept exactly when it is of another symbol |
| Portfolio.DeleteHoldingKeepsOthers | src/context/PortfolioContext.jsx:165-169 | every other symbol keeps all its transactions, in order |
| Portfolio.DeleteHoldingPositions | src/context/PortfolioContext.jsx:165-169 | the deleted symbol's position is empty; every other position is unchanged |
| Portfolio.RowKind | src/context/PortfolioContext.jsx:330-332 | every imported row is a BUY or a SELL |
| Text.ToUpper | src/context/PortfolioContext.jsx:331 | same length, each character upper-cased |
| Portfolio.RowKindExamples | src/context/PortfolioContext.jsx:331-332 | "sell", "Sell", and 賣出 in the Chinese column behind an empty English cell all read as SELL |
| Portfolio.RowKindBuyExamples | src/context/PortfolioContext.jsx:330-332 | 買入 and a missing type both read as BUY |
| Portfolio.ImportRows | src/context/PortfolioContext.jsx:329-359 | the corrected import (a row without a symbol cell gets no symbol); every imported transaction passes the filter (symbol, shares > 0, price > 0) and none is longer than the rows |
| Portfolio.ImportRowsKeepsImportable | src/context/PortfolioContext.jsx:359 | a transaction is imported exactly when it passes the filter and is the normalisation of some row |
| Portfolio.ImportRowsAppend | src/context/PortfolioContext.jsx:329-359 | importing concatenated rows imports each part and keeps the parts in order, so row order and count are kept |
| Portfolio.ImportRowsSingle | src/context/PortfolioContext.jsx:329-359 | one row imports as its normalisation when that passes the filter, else as nothing |
| Portfolio.RowSymbolAsWritten | src/context/PortfolioContext.jsx:355 | no contract; it is the as-written half of the first finding |
| Portfolio.ImportRowsAsWritten | src/context/PortfolioContext.jsx:329-359 | the import as written, with `String(a \|\| b)` as the symbol: every imported transaction passes the filter and none is longer than the rows |
| Portfolio.ImportRowsAsWrittenAppend | src/context/PortfolioContext.jsx:329-359 | the import as written also keeps row order and count over a concatenation |
| Portfolio.ImportRowsAsWrittenSingle | src/context/PortfolioContext.jsx:329-359 | as written, one row imports as its normalisation (with the `String(a \|\| b)` symbol) when that passes the filter, else as nothing |
| Portfolio.ImportsAgreeOnNamedRows | src/context/PortfolioContext.jsx:355 | on rows that fill some symbol cell, the import as written and the corrected import are the same |
| Portfolio.UndefinedRowIsImported | src/context/PortfolioContext.jsx:355-359 | as written, a row without symbol cells, with 10 shares at 50, is imported as a BUY of "undefined"; the corrected import drops it |
| Portfolio.MissingSymbolBecomesUndefined | src/context/PortfolioContext.jsx:355 | as written, a row without either symbol cell gets the non-empty symbol "undefined"; the corrected symbol is empty and the row is filtered out |
| Portfolio.RowSymbol | src/context/PortfolioContext.jsx:355 | a non-empty symbol is the text of a non-empty symbol cell |
| Portfolio.ImportedSymbolsComeFromCells | src/context/PortfolioContext.jsx:355-359 | every imported transaction comes from a row with a non-empty symbol cell |
| Watchlist.ExactCategory | src/components/WatchlistManager.jsx:75-78 | a status equal to a category key selects exactly that category |
| Watchlist.GroupWatchlist | src/components/WatchlistManager.jsx:64-104 | every category is present, holding the symbols classified into it in watchlist order, sorted pinned-first |
| Watchlist.FillGroups | src/components/WatchlistManager.jsx:65-90 | the push loop gives each category the symbols classified into it, in watchlist order |
| Watchlist.SortEachGroup | src/components/WatchlistManager.jsx:93-101 | each category's array becomes its pinned-first sort |
| Watchlist.GroupsPartitionWatchlist | src/components/WatchlistManager.jsx:68-90 | the group sizes add up to the watchlist's length |
| Watchlist.GroupMembership | src/components/WatchlistManager.jsx:68-90 | a symbol is in a category exactly when it is watched and classified into it |
| Watchlist.UncachedGoesToOthers | src/components/WatchlistManager.jsx:69-73 | a symbol without cached advice is in OTHERS and in no other category |
| Watchlist.AdviceStatusCategory | src/components/WatchlistManager.jsx:75-89 | each advisor status lands in its own category; CONSOLIDATING and WAITING land in OTHERS |
| Watchlist.GiftWinsFuzzyMatch | src/components/WatchlistManager.jsx:81 | a non-key status that mentions GIFT is shown as a gift |
| Watchlist.PinnedFirstPartition | src/components/WatchlistManager.jsx:94-100 | the sorted group is its pinned symbols followed by its unpinned ones, each in previous order; the sort is a permutation |
| Sorting.SortByKeySortsAndPermutes | src/context/PortfolioContext.jsx:196 | the reference sort orders by key and permutes its input |
| Sorting.SortByKeyIsStable | src/components/WatchlistManager.jsx:94-100 | elements with equal keys keep their input order |
| Sorting.SortByKeyOfSorted | src/components/PerformanceTracker.jsx:282 | an already sorted sequence is unchanged |
| Performance.GetSummary | src/components/PerformanceTracker.jsx:573-584 | all zero for a year without data; otherwise the basis is basis plus all injections; the current value is the last record's (the basis without records); P/L is value minus basis (0 without records); performance × basis = P/L × 100 for a positive basis, 0 otherwise |
| Performance.AnnualPnlIsSummaryPnl | src/components/PerformanceTracker.jsx:160-162 | a year's bar is the P/L its summary reports, 0 for a year without records |
| Performance.MinYear | src/components/PerformanceTracker.jsx:142 | the smallest year of a non-empty set |
| Performance.SortedYears | src/components/PerformanceTracker.jsx:142 | the years of the map, strictly increasing, each once |
| Performance.OverallSeries | src/components/PerformanceTracker.jsx:142-169 | the labels are the sorted years; each bar is that year's profit; each cumulative point is the sum of the profits up to and including its year |
| Performance.YearSeries | src/components/PerformanceTracker.jsx:151-169 | the loop over the years yields the annual profits and their running sums |
| Performance.CumulativeSteps | src/components/PerformanceTracker.jsx:164-168 | the cumulative line starts at the first bar; each point adds its own bar to the previous point; a year without records adds nothing |
| Performance.GetRecordsTableDataAsWritten | src/components/PerformanceTracker.jsx:586-613 | as written: the first row's injection window opens after January 1 |
| Performance.GetRecordsTableData | src/components/PerformanceTracker.jsx:586-613 | one row per record, with January 1 inside the first row's window |
| Performance.TableRowsFollowRecords | src/components/PerformanceTracker.jsx:592-611 | rows keep the records' dates and values; the weekly percentage is 0 when the adjusted previous value is not positive; the first row compares with the basis plus the injections up to its date |
| Performance.InjectionsSplit | src/components/PerformanceTracker.jsx:596-598 | adjacent injection windows add up |
| Performance.WeeklyChangesAddUpToPnl | src/components/PerformanceTracker.jsx:586-613 | for date-ordered records and injections dated between January 1 and the last record, the weekly changes add up to the summary's P/L |
| Performance.JanuaryFirstInjectionIsMissed | src/components/PerformanceTracker.jsx:594-597 | the as-written table on basis 100, a 50 injection on January 1 and one record of 150: P/L is 0 but the weekly changes sum to 50 (0 in the corrected table) |
| Performance.CalculateCurrentEntryNetValue | src/components/PerformanceTracker.jsx:406-418 | the two loops yield the asset inputs' sum minus the liability inputs' sum, empty inputs counting 0 |
| Performance.NetValueMonotoneInAssets | src/components/PerformanceTracker.jsx:406-418 | raising an asset input never lowers the net value, whatever the liability inputs |
| Performance.NetValueMonotoneInLiabilities | src/components/PerformanceTracker.jsx:406-418 | raising a liability input never raises the net value, whatever the asset inputs |
| Performance.SumInputsMonotone | src/components/PerformanceTracker.jsx:409-411 | raising one input never lowers the sum |
| Performance.FindDate | src/components/PerformanceTracker.jsx:316 | the index found is the first record with the date; none means no record has it |
| Performance.UpsertRecord | src/components/PerformanceTracker.jsx:318-326 | the first record of the date gets the new value; without one, a record is appended |
| Performance.UpsertRecordProperties | src/components/PerformanceTracker.jsx:315-326 | unique dates stay unique; the new record is present; records of other dates stay in place; the length grows by one exactly when the date was new |
| Performance.AddRecord | src/components/PerformanceTracker.jsx:303-339 | needs the selected year only once the date is in that year; no date: refused; a date outside the selected year: refused; an existing date without confirmation: cancelled; otherwise only the selected year's records change, by the upsert |
| Performance.DeleteRecord | src/components/PerformanceTracker.jsx:341-355 | needs the selected year only once confirmed; cancelled exactly without confirmation; otherwise the selected year's records become those of other dates, and its basis, its injections, the other years and the item lists are unchanged |
| Performance.WithoutDate | src/components/PerformanceTracker.jsx:349 | no record of the date remains; every other record remains; nothing is added |
| Performance.WithoutDateAppend | src/components/PerformanceTracker.jsx:349 | deleting from concatenated records deletes from each part and keeps the parts in order, so exactly the other records remain, each once and in order |
| Performance.WithoutDateSingle | src/components/PerformanceTracker.jsx:349 | one record remains exactly when it is of another date |
| Performance.WithoutDateKeepsOrder | src/components/PerformanceTracker.jsx:349 | date order is kept |
| Performance.AddAssetField | src/components/PerformanceTracker.jsx:357-377 | a cancelled or blank name changes nothing; a name already listed as either kind is refused; otherwise the name is appended to its kind's list and nothing else changes |
| Text.EmSpaceIsBlank | src/components/PerformanceTracker.jsx:359 | a name made of Unicode space separators only (em space, ogham space, medium mathematical space) is blank, as `trim()` empties it; a name with a letter is not |
| Performance.AddAssetFieldKeepsConfigValid | src/components/PerformanceTracker.jsx:357-377 | names stay unique and never listed as both kinds |
| Performance.AddCapital | src/components/PerformanceTracker.jsx:276-301 | needs the selected year only once the date and the amount pass; no answer: cancelled; a malformed date: refused; a non-number or non-positive amount: refused; otherwise the injection is added and the injections are date-sorted |
| Performance.AddCapitalProperties | src/components/PerformanceTracker.jsx:281-282 | the new injections are date-ordered, are the old ones plus the new one as a multiset, and their sum grows by the amount |
| Performance.SumOfPermutation | src/components/PerformanceTracker.jsx:282 | reordering injections keeps their sum |
| Market.IsMarketOpen | src/components/PortfolioSummary.jsx:37-48 | open only on weekdays other than Sunday (0) and Saturday (6), and only between 9:00 and 13:30 |
| Market.MarketHoursOnTheClock | src/components/PortfolioSummary.jsx:37-48 | on a real clock reading: open exactly Monday to Friday, 9:00 up to and including 13:30 |
| Market.SessionEdges | src/components/PortfolioSummary.jsx:44-47 | 9:00 and 13:30 are open; 8:59, 13:31 and weekends are closed |
| Market.RealSources | src/components/PortfolioSummary.jsx:88-93 | a source counts exactly when some quote carries it, it is non-empty and it does not start with MOCK |
| Market.GetDataSourceInfo | src/components/PortfolioSummary.jsx:83-107 | real exactly when the badge is green, and exactly when some quote has a real source; gray exactly when there are no quotes, and then captioned 無資料; yellow only as the simulated 模擬數據 badge |
| Market.DataSourceLabels | src/components/PortfolioSummary.jsx:95-103 | "Yahoo Finance" exactly when a real source mentions YAHOO; "TWSE API" exactly when none does and one mentions REAL; "API 連線" exactly when some source is real and none mentions YAHOO or REAL |
| Market.MockOnlyIsSimulated | src/components/PortfolioSummary.jsx:92-106 | quotes whose sources are all mocked or missing give the yellow simulated badge |
| Market.OneYahooQuoteWins | src/components/PortfolioSummary.jsx:97-99 | one quote whose source starts with YAHOO decides the badge, whatever else the map holds |

## Left out

- Not modelled: fetching quotes, local storage, Firebase, spreadsheet and JSON file reading and writing, charts, alerts.
- Time and prompts are passed in as parameters:
  - the clock becomes `today`, and the weekday, hour and minute;
  - `prompt` and `confirm` answers become `Option`, `DateAnswer` and `bool` parameters;
  - the data service's reply becomes `fetched`.
- Generated ids (`Date.now()`) are left out.
- The formatted output is left out: advice, report and badge sentences; `toFixed`; `formatCurrency`. Sector percentages are unrounded reals, not `toFixed(1)` strings.
- `compareWithIndustry` is not part of this model.
- Floating point is not modelled. Reals stand for JavaScript numbers. NaN from `parseFloat` or from a period of 0 is not modelled.
- JavaScript object key order is not modelled for integer-like keys. The holdings book and the sector map list keys in order of first insertion. JavaScript lists integer-like keys (such as "2330") first, in numeric order. So for numeric symbols the model's order of holdings and sectors can differ from the screen's. The set of entries and their values are the same.
- Watchlist statuses that name a built-in property of a JavaScript object (such as "constructor") are not modelled. `groups[status]` is then truthy although it is no category. The model treats such a status as no exact key.
- Dates are the integers yyyymmdd, already parsed. Left out:
  - the spreadsheet's Date-object and serial-number conversions;
  - string dates in other formats;
  - the local-time `getFullYear` of a UTC-parsed date in `addRecord`, which can give the previous year west of UTC;
  - invalid dates in the sort comparators.
- A numeric Type cell in the spreadsheet makes `toUpperCase` throw. The model takes type cells as text.
- Health.AnalyzeMovingAverages: compares the moving averages as numbers. In the app the quote records carry `ma20` and `ma60` as `toFixed` strings (src/services/mockDataService.js:8-16), so the `ma20 > ma60` and `ma20 < ma60` tests (src/utils/healthScore.js:29, 32, 83, 91) compare text: with price 100, ma20 "96.00" and ma60 "104.00" the app sees a bullish arrangement where the model sees a neutral one. The comparisons with number literals convert the strings and agree with the model.
- Strategy.GetStrategyAdvice: requires both periods to be at least 1. With a period of 0 the source divides by zero.
- Performance.AddRecord: requires the selected year to exist once the date is given and lies in that year. There the source reads the year's data without a check and would throw.
- Performance.DeleteRecord: requires the selected year to exist once the user confirms. There the source reads the year's data without a check and would throw.
- Performance.AddCapital: requires the selected year to exist once the date and the amount pass their checks. There the source reads the year's data without a check and would throw.
- Performance.WeeklyChangesAddUpToPnl: requires the records to be in date order. The refresh after saving (src/components/PerformanceTracker.jsx:66-73) sorts the stored records array in place, through a shallow copy that shares it. The model does not capture that in-place sort: the records stay in the order the updates leave them, and a record appended out of date order stays at the end.
- Performance.AddRecord: does not model that the copied records array shares its record objects with the previous state. The overwrite updates the shared object in place, so it is modelled as a new value.
- Performance.SortedYears: sorts year numbers. The source sorts the keys as strings. The two orders agree for the four-digit years that adding a year accepts.
- Market.IsMarketOpen: states the clock-face reading only for weekday 0–6, hour 0–23 and minute 0–59, which are the values the clock supplies.
- Text.ToUpper: upper-cases ASCII letters only. JavaScript's `toUpperCase` also maps other scripts' letters.
- Calculations.CalculateSectorExposure: a quote record counts as truthy whenever present. A `null` entry in the quote map is not modelled.

## Findings

| source | as written | input that shows it | evidently intended | confidence | as-written member | corrected member |
|---|---|---|---|---|---|---|
| src/context/PortfolioContext.jsx:355 | `String(row['Symbol'] \|\| row['股票代號'])` turns a row with neither symbol cell into the symbol "undefined", and the filter's `t.symbol` test keeps it | a row without symbol cells, with Shares 10 and Price 50 | rows without a symbol are dropped by the filter | not executed | Portfolio.UndefinedRowIsImported | Portfolio.ImportedSymbolsComeFromCells |
| src/components/PerformanceTracker.jsx:594-597 | the first record's injection window is `(Jan 1 00:00, date]`, so an injection dated January 1 is in the total basis but in no row's weekly change | basis 100, injection of 50 on 2025-01-01, one record of 150 on 2025-01-10: P/L 0, weekly change 50 | every injection of the year belongs to exactly one row, so the weekly changes add up to the P/L | not executed | Performance.JanuaryFirstInjectionIsMissed | Performance.WeeklyChangesAddUpToPnl |
