# JYSstock_analyzer — a verified model of the selection engine and its helpers

This project models, in Dafny, the decision logic of JYSstock_analyzer. JYSstock_analyzer is a Python tool that screens the constituents of the CSI 300 index after the close, scores each stock, selects the strongest few, e-mails the result, and backtests earlier selections. The model covers these parts:

- **`StockFilter`** (`stock_filter.dfy`). This is the selection engine:
  - a table-driven strength score with five bounded components and a letter grade;
  - the PE gate and the price/turnover/halt/limit-down gate;
  - `select_top_stocks`: deduplicate, gate, score, stable descending sort, truncate, rank.
- **The data fetchers** (`async_fetcher.dfy`, `data_fetcher.dfy`, `retry.dfy`, `bars.dfy`). The pure parts are modelled:
  - the market prefix;
  - the quote parses and the PE priority rule;
  - the derived fundamentals and the financial-health score;
  - the retry schedule;
  - the history cache;
  - the rising-ratio estimate and the market tally;
  - the four momentum rules the program uses;
  - the batch assembly loops.
- **The full CSI 300 analysis** (`csi300.dfy`): the three-way PE partition, the four-factor score, the top-3/top-10 selection and the market statistics.
- **The two backtests**:
  - the simple one (`backtest.dfy`): target-row lookup, simulated analysis, next-day performance and conclusion;
  - the optimized one (`backtest_optimized.dfy`): file cache with expiry, per-day record, next-trading-day search, weekday enumeration and return statistics.
- **The market analyzer** (`market_analyzer.dfy`): the sentiment classifier, the summary with its key metrics and risk warnings, the choice of the latest saved analysis, and the batching of codes.
- **The smart analysis script** (`smart_analysis.dfy`): trading time, the last trading day, and the historical-day selection.
- **The task scheduler** (`task_scheduler.dfy`). It is a class whose methods append to the task history and update the running flag, the latest analysis and the job list. Queries over the history come with it.

Shared vocabulary lives in three modules:

- `common.dfy`: optional values, and a Python `dict` numeric key read with `.get(key, 0)`. Such a key is `Missing`, `Null` (`None`) or `Num(x)`.
- `lists.dfy`: a stable descending sort and an order-preserving filter, with their proofs.
- `calendar.dfy`: day numbers, and weekdays numbered as Python numbers them.

Several things the program reads from outside are parameters of the model rather than effects:

- HTTP responses, akshare tables and bar windows;
- clock readings;
- file listings;
- random samples;
- e-mail outcomes.

Configuration constants are those of `config/config.py:16-23` (selection) and `config/config.py:32-37` (schedule).

Where the repository's test scripts and the code disagree, the model follows the code. One example is the safety score. test_new_safety_score.py:62-69 describes a rule built from PB, dividend and turnover. stock_filter.py:109-119 reads only the debt ratio, and the fetcher always leaves that ratio `None`, so the model follows stock_filter.py.

## Model

| member | source | states |
|---|---|---|
| StockFilter.GradeOf | src/analysis/stock_filter.py:145-158 | the grade is the highest of A+, A, B+, B, C whose threshold (85, 75, 65, 55, 45) the score reaches, and D when it reaches none |
| StockFilter.GradeMonotone | src/analysis/stock_filter.py:145-158 | a higher score never earns a lower grade |
| StockFilter.ChangePoints | src/analysis/stock_filter.py:26-35 | the daily-change points are at most 10, and positive exactly when the change is above -2 |
| StockFilter.ChangePointsMonotone | src/analysis/stock_filter.py:26-35 | a larger daily change never scores fewer points |
| StockFilter.MomentumPoints | src/analysis/stock_filter.py:37-46 | the momentum points are at most 15, and positive exactly when the momentum is positive |
| StockFilter.MomentumPointsMonotone | src/analysis/stock_filter.py:37-46 | a larger momentum never scores fewer points |
| StockFilter.TurnoverPoints | src/analysis/stock_filter.py:48-56 | the liquidity points are at most 5, and (for a non-negative minimum) positive exactly when the turnover exceeds the minimum |
| StockFilter.PePoints | src/analysis/stock_filter.py:59-66 | the PE points are at most 10, and positive exactly when the PE is a number in (0, 35); an absent, `None` or zero PE scores nothing |
| StockFilter.PePointsAntitone | src/analysis/stock_filter.py:59-66 | a lower positive PE never scores fewer points |
| StockFilter.PbPoints | src/analysis/stock_filter.py:68-75 | the PB points are at most 8, and positive exactly when the PB lies in (0, 5) |
| StockFilter.PegPoints | src/analysis/stock_filter.py:77-84 | the PEG points are at most 7, and positive exactly when the PEG lies in (0, 2) |
| StockFilter.RoePoints | src/analysis/stock_filter.py:87-96 | the ROE points are at most 15, and positive exactly when the ROE is above 5 |
| StockFilter.GrowthPoints | src/analysis/stock_filter.py:98-107 | the profit-growth points are at most 15, and positive exactly when the growth is positive |
| StockFilter.DebtPoints | src/analysis/stock_filter.py:109-119 | the safety points are at most 10, and positive exactly when the debt ratio is a non-zero number below 80 |
| StockFilter.DebtPointsAntitone | src/analysis/stock_filter.py:109-119 | a lower non-zero debt ratio never scores fewer safety points |
| StockFilter.DividendPoints | src/analysis/stock_filter.py:121-130 | the dividend points are at most 5, and positive exactly when the yield is positive |
| StockFilter.StrengthScore | src/analysis/stock_filter.py:14-143 | the components are bounded by 30, 25, 30, 10 and 5, the total lies in [0, 100] and is their sum, and the grade is the grade of the total; a `None` met by a comparison gives total 0 and grade D |
| StockFilter.SafetyOnlyFromDebt | src/analysis/stock_filter.py:109-119 | the safety component depends on the debt ratio alone |
| StockFilter.NoDebtAtMost90 | src/analysis/stock_filter.py:109-119 | a record without a debt ratio gets safety 0 and a total of at most 90 |
| StockFilter.ValueStockScores55 | test_scoring.py:24-38 | the low-valuation example scores 13 + 25 + 12 + 0 + 5 = 55, grade B |
| StockFilter.Bank601288Scores69 | test_new_safety_score.py:23-42 | the 601288 example scores 69 (grade B+) with safety 0 |
| StockFilter.FilterByPeRatio | src/analysis/stock_filter.py:160-179 | the result is the input, in order, restricted to the records whose PE (`None` read as 0) lies in (0, max_pe_ratio] |
| StockFilter.ApplyAdditionalFilters | src/analysis/stock_filter.py:207-242 | the result is the input, in order, restricted to the records that are not halted, reach the minimum price and turnover and are above -9.8 percent; a record whose comparison raises is dropped |
| StockFilter.FilterByStrength | src/analysis/stock_filter.py:181-205 | every input record gets its score written in place, and the result is the scored list sorted by descending score and cut at the minimum score |
| StockFilter.StrengthFilteredSorted | src/analysis/stock_filter.py:191-198 | the result is in non-increasing score order and holds exactly the scored records that reach the minimum score |
| StockFilter.StrengthFilteredStable | src/analysis/stock_filter.py:192-194 | records with equal scores keep their input order (a stable sort, no tie-break) |
| StockFilter.ScoredMember | src/analysis/stock_filter.py:185-198 | every returned record is an input record with its own score written onto it, at or above the minimum score |
| StockFilter.Take | src/analysis/stock_filter.py:267 | `s[:n]` is the prefix of length min(n, len(s)): the whole list when it is no longer than n, exactly n records otherwise |
| StockFilter.UniqueByCode | src/analysis/stock_filter.py:247-254 | the deduplication loop returns the first record of each non-empty code, in order of first appearance |
| StockFilter.DedupCodes | src/analysis/stock_filter.py:247-254 | deduplication keeps no record without a code, no two records with the same code, every code of the input, and only input records |
| StockFilter.DedupKeepsFirst | src/analysis/stock_filter.py:247-254 | the record kept for a code is its first occurrence |
| StockFilter.DedupOfDistinct | src/analysis/stock_filter.py:247-254 | a list with distinct non-empty codes is unchanged by deduplication |
| StockFilter.CandidatesFacts | src/analysis/stock_filter.py:247-261 | after deduplication and both gates, the codes are distinct and non-empty and every record passes both gates and comes from the input |
| StockFilter.StrongOrdered | src/analysis/stock_filter.py:247-264 | the scored candidates carry distinct codes and are in non-increasing score order |
| StockFilter.StrongElement | src/analysis/stock_filter.py:247-264 | each scored candidate has a code, passes both gates, carries its own score at or above the minimum, and is an input record apart from the written score |
| StockFilter.SelectTopStocks | src/analysis/stock_filter.py:244-279 | the method computes the pipeline deduplicate, PE gate, additional gate, score and sort, truncate, rank, and returns the empty list when writing a selection reason raises |
| StockFilter.SelectTopProperties | src/analysis/stock_filter.py:244-279 | at most `max_stocks` records, distinct non-empty codes, non-increasing scores, ranks 1..K in list order, every record passing both gates with its own score at or above the minimum and taken from the input |
| StockFilter.SelectTopIsTop | src/analysis/stock_filter.py:264-279 | the selection is cut short only by `max_stocks` (or emptied when a reason raises), and no candidate left out scores above a selected one |
| StockFilter.ReasonRaisesOnlyWithoutThreshold | src/analysis/stock_filter.py:269-279 | a reason raises (a `None` change or 20-day momentum compared at lines 305 and 310) only on a record scored 0, so it reaches the `except` only when `min_strength_score` is at most 0 |
| StockFilter.WriteReasons | src/analysis/stock_filter.py:269-271 | the reason loop raises exactly when some record has a `None` change or 20-day momentum |
| StockFilter.RankingKeepsReasons | src/analysis/stock_filter.py:269-271 | writing the rank first changes nothing the reason reads, so the ranked list raises exactly when the unranked one does |
| StockFilter.DefaultSelectionRanked | config/config.py:16-23 | with the shipped threshold of 40 the selection is always the ranked top `max_stocks` records |
| StockFilter.AssignRanks | src/analysis/stock_filter.py:269-271 | the loop gives each selected stock its 1-based position as its rank and changes nothing else |
| StockFilter.SelectTopIdempotent | src/analysis/stock_filter.py:244-279 | selecting again from the selection with the same configuration returns it unchanged |
| Lists.SortDescSortedPermutation | src/analysis/stock_filter.py:192-194 | `sorted(..., reverse=True)` by a key returns a permutation of its input in non-increasing key order |
| Lists.SortDescStable | src/analysis/stock_filter.py:192-194 | the records of any one key value keep their input order |
| Lists.SortDescOfSorted | src/analysis/stock_filter.py:192-194 | a list already in non-increasing key order is returned unchanged |
| AsyncFetcher.MarketPrefix | src/data/async_data_fetcher.py:99-102 | the quote symbol is "sh" followed by the code exactly when the code starts with '6', and "sz" otherwise |
| AsyncFetcher.PrefixRulesAgree | src/data/async_data_fetcher.py:199-202 | the fundamental request's extra '688' test changes nothing: both prefix rules agree on every code |
| AsyncFetcher.FetchWithRetry | src/data/async_data_fetcher.py:71-90 | the body of the first status-200 attempt among the first `max_retries`, or nothing; it sleeps 0.5·2^k between attempts and never after the last |
| AsyncFetcher.ThreeFailuresSleepTwice | src/data/async_data_fetcher.py:71-90 | three failed attempts return nothing after exactly two sleeps, of 0.5 and 1 seconds |
| AsyncFetcher.FirstValidPe | src/data/async_data_fetcher.py:144-161 | the PE is the first field in priority order that parses into (0, 1000), and none exactly when no field does |
| AsyncFetcher.ResolvePe | src/data/async_data_fetcher.py:153-161 | the loop stops at the first usable PE field and returns its value |
| AsyncFetcher.ParseRealtime | src/data/async_data_fetcher.py:108-191 | a record exactly when the response has more than 35 fields and the five numeric fields parse; the record carries the name (field 1), price (3), previous close (4), change (32), truncated volume (6) and turnover (7), market cap (23), total shares (25) and turnover rate (27), the priority PE in (0, 1000) and the field-16 PB |
| AsyncFetcher.RealtimePb | src/data/async_data_fetcher.py:163-171 | PB is field 16 exactly when that field parses into (0, 100), and absent otherwise |
| AsyncFetcher.Field39First | src/data/async_data_fetcher.py:146-159 | a usable field 39 wins over fields 22, 15 and 14 |
| AsyncFetcher.AssumedGrowth | src/data/async_data_fetcher.py:264-272 | the assumed growth is 20 below PB 1, 10 above PB 5, and 15 otherwise and when PB is absent |
| AsyncFetcher.PegExamples | src/data/async_data_fetcher.py:264-274 | a PE of 12 gives PEG 0.6 with PB 0.8, 1.2 with PB 8 and 0.8 without PB |
| AsyncFetcher.DividendYieldOf | src/data/async_data_fetcher.py:223-245 | the manual yield when one exists; otherwise a yield exists exactly when price and dividend are positive and the dividend is at most twice the price (yield within (0, 20]), and then yield·price = dividend·10 |
| AsyncFetcher.RoeOf | src/data/async_data_fetcher.py:278-286 | an ROE exists exactly when PB is present, PE is positive and PB·100 lies within [-50·PE, 50·PE]; then ROE·PE = PB·100, within [-50, 50] |
| AsyncFetcher.ProfitGrowthOf | src/data/async_data_fetcher.py:288-295 | profit growth exists exactly when ROE and yield are truthy; for positive ROE and yield it lies in [0.1·ROE, ROE), and for negative ROE it is ROE/2 |
| AsyncFetcher.FinancialHealth | src/data/async_data_fetcher.py:335-377 | the health score is the raw bucket sum, always within [10, 100], so the clamp to [0, 100] never acts |
| AsyncFetcher.HealthExtremes | src/data/async_data_fetcher.py:335-377 | both ends, 100 and 10, are reached |
| AsyncFetcher.FundamentalPb | src/data/async_data_fetcher.py:213-221 | PB is field 46 exactly when that field parses and is positive, and absent otherwise |
| AsyncFetcher.FundamentalPe | src/data/async_data_fetcher.py:255-262 | PE is field 39 exactly when that field parses into (0, 200), and absent otherwise |
| AsyncFetcher.PaidDividend | src/data/async_data_fetcher.py:230-238 | the dividend is field 53 exactly when the payload has that field and it parses to a non-negative number, and absent otherwise |
| AsyncFetcher.PegOf | src/data/async_data_fetcher.py:255-276 | PEG exists exactly when PE does, equals PE over the assumed growth, and lies in (0, 20) |
| AsyncFetcher.ParseFundamental | src/data/async_data_fetcher.py:193-333 | an unreadable response gives the all-`None` record with health 0; otherwise each field is its own rule applied to the response: PB from field 46, yield from the manual value or field 53 over the price in field 3, PEG from the PE in field 39, turnover from field 56 when present, ROE, growth and health from those; health lies in [10, 100], PB is positive, PEG in (0, 20), ROE in (0, 50], profit growth only with ROE and yield and below ROE, and a manual yield wins |
| AsyncFetcher.CollectValid | src/data/async_data_fetcher.py:501-508 | the realtime results that parsed and carry a code, in order |
| AsyncFetcher.MergeFundamentals | src/data/async_data_fetcher.py:515-525 | each record is updated with its own fundamental record, one for one |
| AsyncFetcher.SetMomentum | src/data/async_data_fetcher.py:527-549 | each record gets the 20-bar momentum of its history (0 below 20 bars or when momentum is not requested) |
| AsyncFetcher.SetIndustry | src/data/async_data_fetcher.py:551-553 | each record gets the industry "未知行业" |
| AsyncFetcher.BatchGetStockData | src/data/async_data_fetcher.py:462-558 | the four steps in sequence compute the batch result for the deduplicated code order |
| AsyncFetcher.BatchResult | src/data/async_data_fetcher.py:462-558 | one record per valid realtime quote |
| AsyncFetcher.ValidQuotesFacts | src/data/async_data_fetcher.py:480-508 | the valid quotes are exactly the parsing quotes of the non-empty codes, and their codes are distinct |
| AsyncFetcher.BatchCodes | src/data/async_data_fetcher.py:480-558 | one record for each non-empty input code whose quote parses, and no two records share a code |
| AsyncFetcher.BatchRecordFacts | src/data/async_data_fetcher.py:310-314 | the merge overwrites PB and turnover rate, sets market cap and total shares to `None`, leaves PE from the quote, and every record has momentum (0 below 20 bars) and the unknown industry |
| AsyncFetcher.ToStock | src/data/async_data_fetcher.py:310 | a fetched record as a stock record never has a numeric debt ratio |
| AsyncFetcher.FetchedSafetyZero | src/data/async_data_fetcher.py:310 | every fetched stock has safety 0 and scores at most 90 |
| AsyncFetcher.CountMovers | src/data/async_data_fetcher.py:642-658 | the tally loop computes the rising, falling and flat counts of the quote lines |
| AsyncFetcher.TallyPartition | src/data/async_data_fetcher.py:651-656 | rising, falling and flat partition the counted lines, and rising counts the positive changes |
| AsyncFetcher.RisingRatio | src/data/async_data_fetcher.py:666-667 | the ratio lies in [0, 100], is rising/total·100, and 50 when nothing was counted |
| AsyncFetcher.ParseIndices | src/data/async_data_fetcher.py:587-606 | the index loop reads the changes of the index lines in order and stops at the first line that raises |
| AsyncFetcher.TimedeltaSeconds | src/data/async_data_fetcher.py:571 | `timedelta.seconds` lies in [0, 86400) |
| AsyncFetcher.CacheFreshness | src/data/async_data_fetcher.py:568-573 | the cache counts as fresh exactly when the elapsed time is within 300 seconds after a whole number of days: a day and two minutes old is fresh |
| AsyncFetcher.LiveOverview | src/data/async_data_fetcher.py:608-681 | the counts are the rising / falling / flat tally of the batch lines, rising + falling + flat = success count, the ratio is the tally's rising percentage in [0, 100] and 50 with no count, the average change is that of the index lines (0 without them), total 300, from live quotes |
| AsyncFetcher.GetMarketOverview | src/data/async_data_fetcher.py:560-720 | an unreadable cache file gives the error figures; otherwise a fresh cache is returned as stored; otherwise the fixed figures when no constituent list exists, the error figures when reading that list or writing the cache raises (the live counts are discarded), and the live overview otherwise |
| Retry.FirstSuccess | src/data/async_data_fetcher.py:71-75 | the first succeeding attempt below the limit, and none when every attempt fails |
| Retry.Backoff | src/data/async_data_fetcher.py:78-88 | the sleeps base·2^0, base·2^1, ... one per attempt made before the last |
| DataFetcher.ParseSync | src/data/data_fetcher.py:66-96 | a record exactly when the response has more than 39 fields and the numeric fields parse; it carries the name (field 1), price (3), change (32), truncated volume (6) and turnover (37); the PE is field 39 when it parses and is positive (no upper bound), `None` otherwise |
| DataFetcher.GetRealtimeData | src/data/data_fetcher.py:45-109 | the record of the first of 3 attempts whose status-200 payload parses, retrying unparsable answers too, with sleeps 2^k between attempts; nothing after three failures |
| DataFetcher.HistKeyInjective | src/data/data_fetcher.py:115 | distinct (code, days) pairs get distinct cache keys |
| DataFetcher.HistCache.GetHistorical | src/data/data_fetcher.py:111-162 | an entry younger than 3600 s is served unchanged; otherwise a non-empty fetch is stored with the current time and returned when it has at least 6 columns, and an empty fetch stores nothing |
| DataFetcher.StoredEntryServedForAnHour | src/data/data_fetcher.py:122-125 | a stored entry is served exactly during the following hour, and storing one key leaves every other key's freshness alone |
| DataFetcher.EstimatedRisingRatio | src/data/data_fetcher.py:217-228 | the estimated rising ratio always lies in [25, 70] |
| DataFetcher.RisingRatioNotMonotone | src/data/data_fetcher.py:217-228 | the estimate is 45 at -0.5 but 39 at -0.4, and 52.5 at 0.5 but 55.1 at 0.51 |
| DataFetcher.RisingRatioMonotoneWithinPieces | src/data/data_fetcher.py:217-228 | within each piece a larger average change never lowers the estimate |
| DataFetcher.ParseIndicesSync | src/data/data_fetcher.py:196-205 | the index loop reads the changes of the index lines, and a raising line abandons the estimate |
| DataFetcher.MarketOverview | src/data/data_fetcher.py:178-295 | the estimate is used exactly when index data was read; it then has the average of the first three changes, its estimated ratio, int(total·ratio/100) rising and int(total·(95−ratio)/100) falling stocks; otherwise 45 percent, average 0.2, and int(0.45·n)/int(0.35·n) of n listed stocks or 2250/1750 of 5000; the counts always fit the total |
| DataFetcher.IndexEstimate | src/data/data_fetcher.py:209-231 | the index estimate: total from the listed stocks or 5200, the average change, its ratio, and the rising and falling counts as percentages of the total |
| DataFetcher.SplitFits | src/data/data_fetcher.py:229-231 | the rising and falling counts are non-negative and add up to at most the total, leaving the 5 percent of flat stocks |
| DataFetcher.FixedShares | src/data/data_fetcher.py:253-281 | the fallback: 45 and 35 percent of the listed stocks, or 2250 and 1750 of 5000, with ratio 45 and average change 0.2 |
| DataFetcher.BatchGetStockData | src/data/data_fetcher.py:297-341 | the loop computes the batch in which a code is marked seen only after a successful fetch |
| DataFetcher.SyncBatchSeen | src/data/data_fetcher.py:306-341 | the codes seen are exactly the codes fetched successfully so far |
| DataFetcher.SyncBatchIsFirstFetches | src/data/data_fetcher.py:306-341 | the batch holds, in input order, one record for each first successful fetch of a code |
| DataFetcher.SyncBatchCodes | src/data/data_fetcher.py:297-341 | no two records share a code, and every code fetched successfully somewhere has a record |
| DataFetcher.DuplicateRetried | src/data/data_fetcher.py:309-316 | a code whose first fetch failed is fetched again at its next occurrence |
| Bars.CalculateMomentum | src/data/async_data_fetcher.py:442-453 | 0 with fewer than `days` closes; otherwise above -100, positive exactly when the last close exceeds the close `days` back, and 0 exactly when they are equal |
| Bars.RisingClosesExample | src/data/data_fetcher.py:164-176 | closes 100..124 give (124/105 - 1)·100 |
| Bars.BatchMomentum | src/data/async_data_fetcher.py:538-549 | the batch momentum is the 20-day momentum with at least 20 bars, and 0 otherwise or when switched off |
| Bars.SmartIsCalculate20 | run_analysis_smart.py:117-121 | the smart analysis rule equals the 20-day momentum (no fallback below 20 bars) |
| Bars.OptimizedAgreement | run_backtest_optimized.py:187-196 | the optimized rule is the 20-day momentum from 20 bars, the whole-window momentum from 2 to 19 bars, and 0 below |
| Bars.WindowIsCalculate21 | src/analysis/backtest.py:52-56 | the historical rule compares the target close with the 21st-from-last close of the window |
| Bars.LastOnOrBeforeIsLatest | run_backtest_optimized.py:177-181 | the row used is the latest bar dated on or before the target, and there is one exactly when such a bar exists |
| Common.GetOr0 | src/analysis/stock_filter.py:27 | `record.get(key, 0)`: an absent key reads 0, a number reads as itself, and `None` is no number |
| Common.FloatOrZero | src/data/async_data_fetcher.py:114-118 | `float(x) if x else 0`: 0 for an empty field, its parsed value otherwise |
| Common.OptFloat | src/data/async_data_fetcher.py:124-128 | a field read only when non-empty, inside `except ValueError: pass`: a value exactly when the field is non-empty and parses |
| Common.TruncToInt | src/data/async_data_fetcher.py:117-118 | `int()` of a float truncates toward zero |
| Common.AvgIndexChange | src/data/async_data_fetcher.py:608 | the sum of the first three index changes over 3, also with one or two changes (the divisor stays 3), and 0 without index data |
| DataFetcher.HistCache.constructor | src/data/data_fetcher.py:119-120 | a new history cache holds no entry |
| OptimizedBacktest.DayKeyInjective | run_backtest_optimized.py:158 | the key "stock_{code}_{date}" names one stock and one date |
| OptimizedBacktest.LoadOf | run_backtest_optimized.py:56-68 | a cached record is returned only from the file stored under the key |
| OptimizedBacktest.SavedRecordExpires | run_backtest_optimized.py:56-75 | a saved record is returned exactly while it is younger than expire_days·86400 s: still there after 6 days and gone after 7 |
| OptimizedBacktest.BacktestCache.constructor | run_backtest_optimized.py:44-50 | the cache starts with no files and no cached names |
| OptimizedBacktest.BacktestCache.Load | run_backtest_optimized.py:56-68 | `load_from_cache` returns the stored record exactly when the file exists and is younger than the expiry |
| OptimizedBacktest.BacktestCache.Save | run_backtest_optimized.py:70-77 | the file for the key holds the record with the current time as its modification time; nothing else changes |
| OptimizedBacktest.NameFor | run_backtest_optimized.py:79-97 | the cached name, else the looked-up name, else "股票" followed by the code |
| OptimizedBacktest.BacktestCache.GetStockName | run_backtest_optimized.py:79-97 | returns that name, and caches a looked-up name but never the placeholder |
| OptimizedBacktest.DayRecordOf | run_backtest_optimized.py:177-208 | a record exactly when a bar is dated on or before the date, with the code, the name, the fixed PE 20 and score 0 |
| OptimizedBacktest.DayRecordIsLatestBar | run_backtest_optimized.py:177-196 | the price and change come from the latest bar on or before the date, and the momentum is over 20 bars, over the whole window from 2 to 19 bars, and 0 below |
| OptimizedBacktest.BacktestCache.GetStockDataForDate | run_backtest_optimized.py:156-215 | a fresh cached record is returned unchanged; otherwise the record of the latest bar is built, saved under its key and returned, and nothing is saved when no bar is found |
| OptimizedBacktest.FirstWeekdayStepFacts | run_backtest_optimized.py:221-224 | the search returns the first date + i·days, i from 1 to 14, that is a weekday, and nothing when none is |
| OptimizedBacktest.NextTradingDayFacts | run_backtest_optimized.py:217-227 | the next trading day is the first weekday step, and date + days (weekend or not) when no step is a weekday |
| OptimizedBacktest.NextTradingDayIsWeekday | run_backtest_optimized.py:217-227 | whenever `days` is not a whole number of weeks the result is a weekday |
| OptimizedBacktest.SaturdayWeekLaterStaysWeekend | run_backtest_optimized.py:221-225 | a Saturday with a 7-day holding period gives the next Saturday |
| OptimizedBacktest.GetNextTradingDay | run_backtest_optimized.py:217-227 | the search loop computes the next trading day |
| OptimizedBacktest.TradingDays | run_backtest_optimized.py:358-366 | the trading days are exactly the weekdays in [start, end], in ascending order |
| OptimizedBacktest.SummaryOf | run_backtest_optimized.py:320-349 | all fields 0 without trades; otherwise win count ≤ total, min ≤ avg ≤ max, min and max are returns bounding every return, and the win rate lies in [0, 100] |
| OptimizedBacktest.Trades | run_backtest_optimized.py:298-314 | at most one trade per selected stock |
| OptimizedBacktest.TradesFacts | run_backtest_optimized.py:298-314 | each trade buys a selected stock at its positive price, returns (sell/buy - 1)·100, and gains exactly when the sell price is higher |
| OptimizedBacktest.SelectionPricesPositive | run_backtest_optimized.py:277 | every selected stock has a positive price |
| OptimizedBacktest.GatherDayData | run_backtest_optimized.py:252-262 | the gathering loop keeps the records found for the sampled codes, in sample order |
| OptimizedBacktest.CollectTrades | run_backtest_optimized.py:298-317 | the trade loop computes the trades |
| OptimizedBacktest.SingleDay | run_backtest_optimized.py:229-350 | no result exactly when the constituent list is empty or fewer than 10 records were gathered from the whole list or the sample |
| OptimizedBacktest.BacktestSingleDay | run_backtest_optimized.py:229-350 | the method computes the single-day backtest |
| OptimizedBacktest.SingleDayFacts | run_backtest_optimized.py:266-350 | a day that traded selected between 1 and `max_stocks` stocks from at least 10 records, sells on the next trading day, has no more trades than selections, and its summary counts every trade |
| OptimizedBacktest.SingleDayContent | run_backtest_optimized.py:266-350 | a day's result carries its date and is `NoneSelected` exactly when the filter selects nothing; a traded day carries the selection's size, the number of records found, the holding period, the trades of the selection (all priced above 0) at the sell date and the summary of their returns |
| OptimizedBacktest.BacktestMultiDays | run_backtest_optimized.py:352-399 | the days are exactly the weekdays of the range in order, and the kept results are those with selections |
| OptimizedBacktest.KeptResultsFacts | run_backtest_optimized.py:376-377 | a day is kept exactly when its result selected stocks, in day order |
| Csi300.Constituents | csi300_full_analysis.py:17-46 | the index service's list when it answers; otherwise the 30-code fallback list, which holds a duplicate |
| Csi300.BackupRepeats600036 | csi300_full_analysis.py:34-46 | the fallback list names 600036 at positions 0 and 28 |
| Csi300.ParseCsi | csi300_full_analysis.py:71-114 | a record exactly when the response has more than 39 fields and price, change and volume parse; it carries the name (field 1), price (3), change (32) and truncated volume (6); PE TTM is field 39 when it parses and is positive, `None` otherwise |
| Csi300.SomesMembers | csi300_full_analysis.py:136-140 | the collected results are exactly the present results |
| Csi300.CompletedMembers | csi300_full_analysis.py:128-140 | whatever the completion order, a record is collected exactly when some constituent's payload parses to it |
| Csi300.GetStocksDataParallel | csi300_full_analysis.py:116-153 | the collection loop keeps the successful fetches in completion order, and a record is kept exactly when some constituent parses to it |
| Csi300.PartitionByPe | csi300_full_analysis.py:183-194 | the screen loop sends each stock, in order, to the passed, the loss-making or the high-PE list |
| Csi300.PartitionSizes | csi300_full_analysis.py:183-194 | the three groups are 0 < PE ≤ 30, no or non-positive PE, and PE > 30, and their sizes add up to the number fetched |
| Csi300.ChangePoints | csi300_full_analysis.py:215-230 | the change points are at most 35, 35 exactly above 3 %, and 0 exactly at or below -3 % |
| Csi300.PePoints | csi300_full_analysis.py:232-245 | the PE points are at most 30, 30 exactly at a PE of at most 8, and 0 exactly above 30 |
| Csi300.VolumePoints | csi300_full_analysis.py:247-260 | the volume points are at most 25, 25 exactly above 100 million, and 0 exactly at or below one million |
| Csi300.PricePoints | csi300_full_analysis.py:262-269 | the price points are at most 10, 10 exactly strictly between 5 and 100, and 0 exactly at or below 1 or at or above 200 |
| Csi300.Score | csi300_full_analysis.py:211-271 | a screened stock scores between 5 and 100, and 100 exactly when every part is at its best |
| Csi300.ScoreMonotone | csi300_full_analysis.py:211-271 | a larger change, a larger volume or a smaller PE never lowers the score |
| Csi300.ScoreAll | csi300_full_analysis.py:211-272 | the scoring loop pairs each screened stock with its score, in order |
| Csi300.StatsOf | csi300_full_analysis.py:288-319 | rising + falling = total, rising counts the positive changes, the rising ratio lies in [0, 100], the average change lies between the smallest and largest change, and the average PE is non-negative |
| Csi300.AllPositiveCounted | csi300_full_analysis.py:289 | when every change is positive every stock counts as rising |
| Csi300.PerformanceOf | csi300_full_analysis.py:292-324 | the success rate lies in [0, 100], the average return is the mean change of the selection, and the relative return is its difference from the market's |
| Csi300.Take | csi300_full_analysis.py:278-279 | `s[:n]` is the prefix of `s` of length min(n, len(s)) |
| Csi300.Qualified | csi300_full_analysis.py:276-285 | the qualified list holds one entry per screened stock |
| Csi300.AnalysisOf | csi300_full_analysis.py:155-327 | nothing exactly when there are no constituents, no fetched stock or fewer than 3 screened stocks; otherwise 3 selected |
| Csi300.AnalyzeCsi300Full | csi300_full_analysis.py:155-327 | the method computes the analysis |
| Csi300.QualifiedEntries | csi300_full_analysis.py:271-285 | each qualified entry is a screened stock with its own score, and only the first three carry ranks 1 to 3 |
| Csi300.QualifiedOrder | csi300_full_analysis.py:277 | the qualified list holds every screened stock, in non-increasing score order |
| Csi300.AnalysisFacts | csi300_full_analysis.py:183-327 | the three groups add up to the fetched count, the selection is the first 3 and the top list the first 10 of the stable descending sort, no stock left out beats a selected one, and the qualified stocks are exactly the screened ones |
| Csi300.DuplicateFillsSelection | csi300_full_analysis.py:169 | nothing deduplicates: one stock fetched three times fills the whole selection |
| Backtest.ExactRow | src/analysis/backtest.py:33-37 | a bar is found exactly when some bar is dated on the target, and the one found is such a bar |
| Backtest.TargetRowIsLatest | src/analysis/backtest.py:37-46 | for bars in date order the bar used is the latest dated on or before the target, and exists exactly when one is so dated |
| Backtest.HistoricalDataForDate | src/analysis/backtest.py:19-73 | a record exactly when the fetch succeeds and a target bar exists; it carries the code, the name "股票"+code, the fixed PE 15, the target bar's close, and a momentum against the 21st bar from the end of the whole window (0 below 21 bars) |
| Backtest.HistoricalMomentum | src/analysis/backtest.py:51-56 | when the target is the window's last bar, the momentum is the 21-bar momentum of the closes |
| Backtest.SimulateAnalysis | src/analysis/backtest.py:75-121 | nothing exactly when no listed stock (the 20-code default when no list is given) yields a record; otherwise the analysis carries the date, the number of records, the default selection over them (each with a positive price) and an average change between their smallest and largest change |
| Backtest.GatherRecords | src/analysis/backtest.py:89-94 | the gathering loop keeps the records found, in list order |
| Backtest.SimulateAnalysisForDate | src/analysis/backtest.py:75-121 | the method computes the simulated analysis |
| Backtest.SelectionPricesPositive | src/analysis/backtest.py:103 | every stock the selection returns has a positive price, so the next-day return is defined |
| Backtest.Outcomes | src/analysis/backtest.py:131-155 | at most one outcome per recommendation |
| Backtest.BestIndex | src/analysis/backtest.py:173 | `max` with a key: the first position holding the largest return |
| Backtest.WorstIndex | src/analysis/backtest.py:174 | `min` with a key: the first position holding the smallest return |
| Backtest.Extremes | src/analysis/backtest.py:161-174 | the best performer holds the maximum return and the worst the minimum |
| Backtest.PercentBound | src/analysis/backtest.py:172 | a count out of a positive total, as a percentage, lies in [0, 100] |
| Backtest.SummaryOf | src/analysis/backtest.py:157-177 | no summary exactly when no outcome; otherwise the count, the total return, the mean (total over count, between the worst and the best return), best and worst performers drawn from the outcomes, positive count at most the total, success rate in [0, 100] |
| Backtest.SummaryRange | src/analysis/backtest.py:161-162 | every return lies between the minimum and the maximum of the summary |
| Backtest.CalculatePerformance | src/analysis/backtest.py:123-187 | the loop collects the outcomes and accumulates the total return; the result carries the next date, those outcomes and their summary |
| Common.GainIffHigher | src/analysis/backtest.py:140 | for a positive buy price the return is positive exactly when the sell price is higher |
| Backtest.OutcomesFacts | src/analysis/backtest.py:131-151 | each outcome belongs to a recommendation with the same code, rank and price, and is a gain exactly when the next price is above the original |
| Backtest.GenerateConclusion | src/analysis/backtest.py:225-238 | failed exactly without a summary; excellent above 2 %, good in (0, 2], needs improvement at or below 0; effective exactly when the mean return is positive and more than half the picks rose; the best pick is the best performer |
| Backtest.ConclusionConsistent | src/analysis/backtest.py:234-238 | an effective strategy never needs improvement, and any rating above that means the total return is positive |
| Backtest.RunBacktest | src/analysis/backtest.py:189-223 | no report exactly when the simulation yields nothing or no recommendation; otherwise the report carries both dates and holds the analysis, the outcomes of its recommendations on the next date, the summary of those outcomes and the conclusion drawn from that summary |
| SmartAnalysis.LastTradingDay | run_analysis_smart.py:27-51 | the day analysed is always a weekday; it is today exactly on a weekday from 16:00, and otherwise the latest weekday before today, at most three days back |
| SmartAnalysis.IsTradingTime | run_analysis_smart.py:56-67 | trading time exactly on a weekday from 9:30 inclusive to 15:00 exclusive |
| SmartAnalysis.ScriptDayFacts | run_analysis_smart.py:171-185 | outside trading hours the script analyses a weekday no later than today, today exactly on a weekday from 16:00; at 15:xx on a weekday it analyses an earlier day |
| SmartAnalysis.NameOfFirst | run_analysis_smart.py:123-125 | the name is that of the first constituent with the code, and "股票"+code exactly when none has it |
| SmartAnalysis.DayRecordOf | run_analysis_smart.py:101-141 | a record exactly when the fetch succeeds and some bar is dated on or before the day; it carries the code, the looked-up name, that bar's close, the fixed PE 20 and the 20-bar momentum of the bars up to the day |
| SmartAnalysis.DayRecordIsLatest | run_analysis_smart.py:108-114 | for bars in date order the record's price is the close of the latest bar dated on or before the day, and a record exists exactly when such a bar does |
| SmartAnalysis.AnalyzeHistoricalDay | run_analysis_smart.py:69-148 | the per-stock loop keeps the records found in constituent order, and the result is the selection over them; nothing when the constituent list cannot be fetched |
| SmartAnalysis.DayRecordsPe | run_analysis_smart.py:134 | every record of the day carries PE 20 |
| SmartAnalysis.PeFilterKeepsAll | run_analysis_smart.py:134 | with PE 20 under the limit of 30 the PE filter keeps every record |
| MarketAnalyzer.MarketSentiment | src/analysis/market_analyzer.py:133-152 | each of the five readings holds exactly under its own band of rising ratio and average change, the first rule that holds winning |
| MarketAnalyzer.SentimentMonotone | src/analysis/market_analyzer.py:139-148 | a market with a higher rising ratio and a higher average change never reads weaker |
| MarketAnalyzer.OverviewNeverStrongRise | src/analysis/market_analyzer.py:58 | the sentiment of the market overview the analysis uses is never 强势上涨, and it is 震荡整理 whenever the overview is not an estimate |
| MarketAnalyzer.PositivePesFacts | src/analysis/market_analyzer.py:109 | the PE list holds exactly the positive PEs of the selection |
| MarketAnalyzer.KeyMetricsFacts | src/analysis/market_analyzer.py:107-118 | the price range spans every price and holds the average price; no PE range exactly when no PE is positive, the average PE then being 0; otherwise the PE range is positive, holds the average PE and spans every positive PE |
| MarketAnalyzer.RiskWarnings | src/analysis/market_analyzer.py:120-125 | the weak-market warning exactly when the rising ratio is below 30, the valuation warning exactly when some PE is above 25, in that order and each at most once |
| MarketAnalyzer.Recommendations | src/analysis/market_analyzer.py:91-104 | one recommendation per selected stock, in order |
| MarketAnalyzer.AnalysisSummary | src/analysis/market_analyzer.py:81-131 | `{}` exactly when a price, PE or momentum holds `None`; otherwise the sentiment, one recommendation per stock, key metrics exactly when the selection is not empty, and the risk warnings |
| MarketAnalyzer.GenerateAnalysisSummary | src/analysis/market_analyzer.py:81-131 | the loop over the selected stocks computes the summary |
| MarketAnalyzer.HighPeShowsInRange | src/analysis/market_analyzer.py:117-125 | a valuation warning comes with a PE range whose top is above 25 |
| MarketAnalyzer.LexIrreflexive | src/analysis/market_analyzer.py:184 | no name is less than itself in Python's string order |
| MarketAnalyzer.LexTransitive | src/analysis/market_analyzer.py:184 | Python's string order is transitive |
| MarketAnalyzer.LexConcat | src/analysis/market_analyzer.py:184 | between names whose first parts have equal lengths, the first parts decide and the second parts break a tie |
| MarketAnalyzer.LexDigits | src/analysis/market_analyzer.py:184 | digit strings of equal length compare as the numbers they denote |
| MarketAnalyzer.FileNamesChronological | src/analysis/market_analyzer.py:161 | a file name of the form analysis_YYYYMMDD_HHMMSS.json is greater exactly when its date and time are later |
| MarketAnalyzer.Greatest | src/analysis/market_analyzer.py:184 | `max` over names is one of the names and no name is greater |
| MarketAnalyzer.LatestAnalysisFile | src/analysis/market_analyzer.py:172-184 | no file exactly when the directory is missing or holds no analysis_*.json; otherwise the greatest such name |
| MarketAnalyzer.GetLatestAnalysis | src/analysis/market_analyzer.py:172-194 | a result only from the latest analysis file, and none when there is no such file |
| MarketAnalyzer.BatchEnd | src/analysis/market_analyzer.py:46 | a batch ends after its start, within the list, at most 100 codes on |
| MarketAnalyzer.BatchesCover | src/analysis/market_analyzer.py:42-50 | the batches, joined, are the code list; there are ⌈n/100⌉ of them, none empty and none above 100 codes |
| MarketAnalyzer.SyncBatchLength | src/analysis/market_analyzer.py:49 | a batch yields at most one record per code |
| MarketAnalyzer.CollectedAtMostCodes | src/analysis/market_analyzer.py:42-52 | the whole run yields at most one record per constituent |
| MarketAnalyzer.CollectAll | src/analysis/market_analyzer.py:42-50 | the batch loop collects the records of every batch, in order |
| MarketAnalyzer.RunDailyAnalysis | src/analysis/market_analyzer.py:21-79 | the method computes the daily analysis |
| MarketAnalyzer.DailyAnalysisFacts | src/analysis/market_analyzer.py:21-79 | `{}` exactly when the constituent list is missing or empty; otherwise at most the configured number selected, at most one record analysed per constituent, a summary with one recommendation per selected stock, and never a 强势上涨 reading |
| TaskScheduler.RecordsWellFormed | src/scheduler/task_scheduler.py:49-63 | a failure record and a successful analysis record are well formed: a failure has zero duration, start equal to end and an error message; an analysis success carries its stock counts |
| TaskScheduler.EmailRecordWellFormed | src/scheduler/task_scheduler.py:83-118 | an e-mail record is well formed, and it is a success, with the e-mail marked sent, exactly when there is an analysis and the sender sent it |
| TaskScheduler.IsTradingDay | src/scheduler/task_scheduler.py:23-34 | a trading day exactly when the day is Monday to Friday |
| TaskScheduler.TradingDaysIn | src/scheduler/task_scheduler.py:23-34 | a run of n days holds at most n trading days |
| TaskScheduler.WeekHasFiveTradingDays | src/scheduler/task_scheduler.py:28-34 | any seven consecutive days hold exactly five trading days |
| TaskScheduler.EmailedOnAppend | src/scheduler/task_scheduler.py:126-133 | a failure record never counts as an e-mail sent that day, and a successful immediate e-mail started on the day does |
| TaskScheduler.ScheduleJobsFacts | src/scheduler/task_scheduler.py:200-221 | ten jobs, all on weekdays; for each of Monday to Friday the 16:00 analysis job and the 16:30 backup e-mail job; a job is the analysis exactly when it runs at 16:00 |
| TaskScheduler.HistoryTail | src/scheduler/task_scheduler.py:297-299 | a suffix of the history: all of it for limit 0, the last min(limit, n) records for a positive limit, and for a negative limit all but the first -limit records |
| TaskScheduler.CountOf | src/scheduler/task_scheduler.py:306-307 | the tasks of a type are at most the whole history |
| TaskScheduler.SuccessesOf | src/scheduler/task_scheduler.py:309-310 | the successes of a type are at most the tasks of that type |
| TaskScheduler.Rate | src/scheduler/task_scheduler.py:322-328 | the success rate lies in [0, 100], is 0 without tasks, and is 100 exactly when every task succeeded |
| TaskScheduler.CountsBounded | src/scheduler/task_scheduler.py:306-307 | analysis tasks plus send-email tasks are at most the whole history |
| TaskScheduler.PerformanceOf | src/scheduler/task_scheduler.py:301-330 | `{}` exactly for an empty history; otherwise the totals by type, successes at most totals, both rates in [0, 100], 0 rate and 0 average duration without analyses; immediate e-mails are not counted as e-mail tasks |
| TaskScheduler.FailureAddsNoSuccess | src/scheduler/task_scheduler.py:188-198 | a recorded failure adds one task of its type to the summary and no success |
| TaskScheduler.CleanupKeepsRecent | src/scheduler/task_scheduler.py:336-339 | a record survives the cleanup exactly when it started after the cutoff, and a second cleanup with the same cutoff removes nothing |
| TaskScheduler.Scheduler.constructor | src/scheduler/task_scheduler.py:16-21 | a new scheduler is stopped, holds no analysis, no history and no jobs |
| TaskScheduler.Scheduler.RecordTaskFailure | src/scheduler/task_scheduler.py:188-198 | one failed record, stamped now with duration 0, is appended, and nothing else changes |
| TaskScheduler.Scheduler.SendAnalysisEmailImmediate | src/scheduler/task_scheduler.py:83-118 | one immediate-email record is appended: a success when there is an analysis and the sender sent it, otherwise a failure saying why |
| TaskScheduler.Scheduler.RunDailyAnalysis | src/scheduler/task_scheduler.py:36-81 | nothing on a non-trading day; an empty result or an exception appends one failed analysis record; a result becomes the latest analysis and appends its record, then the immediate e-mail's record |
| TaskScheduler.Scheduler.SendDailyEmail | src/scheduler/task_scheduler.py:142-186 | nothing on a non-trading day; otherwise the latest analysis is loaded from file when missing, and one send-email record is appended |
| TaskScheduler.Scheduler.SendBackupEmail | src/scheduler/task_scheduler.py:120-140 | the daily e-mail runs exactly on a trading day whose history holds no successful immediate e-mail of that day; otherwise nothing changes |
| TaskScheduler.ImmediateSuccessSuppressesBackup | src/scheduler/task_scheduler.py:49-140 | after an analysis whose immediate e-mail was sent that day, the backup e-mail of that day finds it and sends nothing |
| TaskScheduler.Scheduler.Start | src/scheduler/task_scheduler.py:236-259 | nothing new when already running; otherwise the schedule's jobs are registered; the scheduler runs afterwards |
| TaskScheduler.Scheduler.Stop | src/scheduler/task_scheduler.py:261-265 | the scheduler stops and every job is cleared; the history is kept |
| TaskScheduler.Scheduler.CleanupOldLogs | src/scheduler/task_scheduler.py:332-343 | the history keeps, in order, the records started after now minus the given days |
| Calendar.Weekday | run_analysis_smart.py:34-44 | `weekday()` is a number from 0 (Monday) to 6 (Sunday) |
| Calendar.NextWeekday | run_analysis_smart.py:34-49 | the day after a Sunday is a Monday, otherwise the weekday number goes up by one |
| Calendar.WeekendFollowsFriday | run_analysis_smart.py:44-45 | the two days after a Friday are not weekdays, and the third is a Monday, which is why a Monday goes back three days |
| Calendar.WeekdayShift | run_backtest_optimized.py:222-223 | shifting by whole weeks keeps the weekday |

## Left out

- **Network, akshare/pandas loading, JSON/pickle files, `time.sleep`/`asyncio.sleep`.** These are I/O. Responses, tables, bar windows, directory listings, file times and clock readings are parameters. The sleeps are modelled only as the list of durations they would wait.
- **`float()` parsing and IEEE rounding.** A field's numeric reading is an input (`Option<real>`). Arithmetic is exact real arithmetic. A zero close, which pandas turns into an infinity, is excluded by typing closes as positive.
- **Concurrency.**
  - Not modelled: `asyncio.Semaphore`/`gather`, the `ThreadPoolExecutor`, the global request counter and its lock, and the `schedule` thread that polls every minute.
  - Modelled instead: each stage runs sequentially. The completion order of the CSI 300 thread pool and the iteration order of `set(codes)` are parameters.
- **Aliasing of the in-place dict writes** in `filter_by_strength`, `select_top_stocks` and the CSI 300 ranking. Records are values, so the model returns the annotated records rather than changing the caller's dicts.
- **String rendering.** Not modelled:
  - the text of `_generate_selection_reason`, `selection_reason` and report texts (only whether the reason raises, which empties the selection, is modelled);
  - the formatted numbers of the summaries (for example `price_range` is kept as a pair, not as `"a - b"`);
  - `key_insights`;
  - the date and time strings of the analysis result;
  - `selection_criteria`.
- **E-mail and reports.** The notification module, report generation, and the error-notification e-mail sent by `run_daily_analysis` on an exception are external calls. Only the success or failure of a send is modelled.
- **Other scheduler members.** `run_manual_analysis`, `send_test_email` and `get_schedule_status` are thin wrappers over modelled members or over the `schedule` library's job objects.
- **Holidays.** The program ignores them: a trading day is a weekday.
- **`get_manual_dividend_yield`.** Its module is not part of this model, so the override is an input.
- **`generate_performance_report` in the market analyzer.** It reads the latest analysis, fetches live prices and reports each stock's return with the average, best and worst. It is a live-price report outside the core; the same computation over recorded prices is modelled by the backtest's `SummaryOf`.
- **`setup_schedule` without `immediate_email`.** The configuration sets immediate e-mail, so `ScheduleJobs` registers the backup e-mail job. The other branch is not modelled.
- **Debug and smoke scripts**, main.py and the environment checks. These are live-network probes and command-line wrappers.
- **CSI 300 report printing and HTML output** (csi300_full_analysis.py:329-466).
- TaskScheduler.Scheduler.RecordTaskFailure: the two separate `datetime.now()` readings for start and end are modelled as one timestamp.
- TaskScheduler.Scheduler.RunDailyAnalysis: durations come from second-resolution timestamps, so sub-second durations are not modelled. The analyzer's result, including an exception it raises, is an input.
- TaskScheduler.Scheduler.CleanupOldLogs: `strptime` of the stored start time is modelled as reading back the recorded timestamp. A record whose start time fails to parse, which would abandon the cleanup, cannot arise in the model.
- MarketAnalyzer.GetLatestAnalysis: reading the chosen file is an input function. A read that raises is that function returning nothing.
- Csi300.GetStocksDataParallel: a fetch that raises inside the pool is a missing payload. The request counter and its progress log are not modelled.
- OptimizedBacktest.NextTradingDay: dates are day numbers, so the `except: return date` fallback of run_backtest_optimized.py:219-227, taken when `strptime` fails or `timedelta` overflows past year 9999, is not modelled.
