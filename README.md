# quantTrading core, modelled in Dafny

quantTrading is a Qt desktop application for quantitative trading. This
project models its core. Each source file has one Dafny module:

- **Records** (`appdata.dfy`, module `AppData`): orders, trades, positions, accounts,
  market-data bars, back-test parameters, back-test results, and the defaults their
  constructors give.
- **Back-tester** (`backtest_engine.dfy`, `Backtest`): load the bars, sort them by time,
  replay them through a strategy, match the working orders against each bar, settle
  the fills, then compute drawdown, win/loss and equity-curve metrics.
- **Ledger** (`ledger.dfy`, `Ledger`): position and cash bookkeeping. Both engines use it.
  Positions are never netted. Every trade adds its quantity to the position already held
  in its symbol and averages that position's cost, or opens a position when there is none.
  Profit is realised only when the held position is on the trade's own side.
- **Live engine** (`trading_engine.dfy`, `Trading`): start/stop, strategy registration,
  order cancellation, simulated execution of an order, and settlement.
- **Strategy base class** (`strategy.dfy`, `Strategies`): the order helpers, the callbacks,
  and the parameter, order and position tables.
- **Bar generation** (`kline_aggregation.dfy` and `kline_generator.dfy`): ticks and bars
  are aggregated into higher-period bars. The per-period result caches are kept here too.
- **History store** (`history_csv.dfy`, `history_data_manager.dfy`): the CSV row format,
  the per-period and per-symbol directory layout, the `symbol_<first>_<last>.csv` file
  names, loading by time range, and saving in batches of at most 5 368 709 records.
- **List models** (`market_data_model.dfy`, `realtime_data_model.dfy`,
  `history_data_model.dfy`): the market-data list with a capacity, the live view, and
  the trade-history table.
- **A-share quote client** (`online_market_a.dfy`, `OnlineMarketA`): the market prefix of
  a stock code, the REST and WebSocket fetch modes, subscriptions, and the last-value
  cache.
- **Binance adapter** (`binance_trader.dfy`, `Binance`): decoding of the exchange's order
  status, side, execution reports, order replies, cancel replies and USDT balances.
- **Indicators**: `moving_average.dfy` covers SMA, EMA and WMA. The other three are
  `rsi.dfy`, `macd.dfy` and `bollinger_bands.dfy`.

Three modules stand in for Qt behaviour the core relies on:

- `Options` is the option datatype.
- `Text` holds `QString::split`, joins, line reading, the ordering `QMap` sorts its
  string keys by, and decimal rendering of counters. The ordering is by code point,
  which equals `QString`'s UTF-16 code-unit order for keys without characters outside
  the Basic Multilingual Plane.
- `QMaps` models a `QMap<QString, V>` as a strictly key-sorted list of entries, so
  iteration order is the key order Qt uses.

Several things are parameters:

- The clock.
- File contents and directory listings.
- Network replies, already decoded from JSON.
- Text conversions: `toDouble`, `QString::number`, ISO and `yyyyMMdd-HHmmss` dates, and
  `sqrt`.
- Strategies: the back-tester is given a function from a bar to the order requests the
  strategy makes.

Timestamps are milliseconds since the epoch. A default (invalid) date is 0. Prices and
quantities are exact reals. A division the source does not guard, such as the win rate
or the profit factor, gives a `Float` that may be non-finite.

## Model

| member | source | states |
|---|---|---|
| AppData.Divide | history/BacktestEngine.cpp:365-366 | An unguarded division is finite exactly when the divisor is nonzero, and its value times the divisor gives back the dividend |
| AppData.StatusFromValue | online/AppData.h:29-38 | Every enum value 0–8 names exactly one status, and that status carries the value; any other value names none |
| AppData.StatusNumbering | online/AppData.h:29-38 | The order-status numbering is a bijection: each status is recovered from its number |
| AppData.TimeFrameValue | history/KlineGenerator.cpp:448-462 | Bar periods rank from Tick (0, the only period at 0) up to W1, and the unknown period alone ranks last (9), above every known period |
| Backtest.FillPrices | history/BacktestEngine.cpp:162-180 | A market order fills at the close. A limit buy fills at its limit when the low reaches it; a limit sell when the high does. A stop buy fills at its stop when the high reaches it; a stop sell when the low does. Stop-limit, trailing-stop and direction-less non-market orders never fill. The bar's symbol is never consulted |
| Backtest.Fills | history/BacktestEngine.cpp:155-216 | One matching pass yields at most one trade per working order |
| Backtest.FillsSnoc | history/BacktestEngine.cpp:182-203 | An order that fills adds exactly one trade, with the next number, its fill price and the bar's time; an order that does not fill adds nothing |
| Backtest.Notices | history/BacktestEngine.cpp:195-212 | A pass sends the strategies exactly one order update and trade notice per trade it books |
| Backtest.NoticesMeaning | history/BacktestEngine.cpp:195-212 | The i-th notice carries the i-th trade and the order that made it, marked Completed, filled in full at the trade's price, stamped with the bar's time and sharing the trade's order id |
| Backtest.NoticesSnoc | history/BacktestEngine.cpp:195-212 | An order that fills adds one notice, its completed order with the new trade; an order that does not fill adds none |
| Backtest.Accounts | history/BacktestEngine.cpp:287-290 | Booking the trades of a pass hands the strategies one account per trade |
| Backtest.AccountsMeaning | history/BacktestEngine.cpp:287-290 | The j-th account handed out is the starting account with the first j + 1 trades settled |
| Backtest.PassAccounts | history/BacktestEngine.cpp:287-290 | One matching pass over a book hands out exactly one account per trade it books |
| Backtest.FillsPositive | history/BacktestEngine.cpp:191 | Every fill of positive-quantity orders has a positive quantity |
| Backtest.OrderIds | history/BacktestEngine.cpp:214-222 | The ids of the orders to remove, one per trade |
| Backtest.FillsNumbered | history/BacktestEngine.cpp:185 | Trades appended by a pass continue the numbering trade_1, trade_2, … of the log |
| Backtest.NumberedDistinct | history/BacktestEngine.cpp:185 | In a numbered log no two trades share an id |
| Backtest.FillsOrderIds | history/BacktestEngine.cpp:214-222 | An order id is among the ids to remove exactly when that order filled on the bar |
| Backtest.MatchBook | history/BacktestEngine.cpp:151-223 | A matching pass keeps the book well formed: sorted keys, every order under its own id, positive quantities |
| Backtest.MatchRemovesFilled | history/BacktestEngine.cpp:214-222 | After the pass an order is gone exactly when it filled; an order that stays is unchanged |
| Backtest.MatchBalance | history/BacktestEngine.cpp:203-206 | The pass appends its trades to the log, lowers the balance by exactly their commissions, and keeps the account id |
| Backtest.Apply | history/BacktestEngine.cpp:139-149 | Submitting or cancelling keeps the book well formed |
| Backtest.ApplyEffect | history/BacktestEngine.cpp:139-149 | A submission stores the order under its id, overwriting any order there; a cancellation removes the id; neither touches trades or account |
| Backtest.ApplyAll | history/BacktestEngine.cpp:139-149 | Any sequence of requests keeps the book well formed |
| Backtest.ApplyAllKeepsTrades | history/BacktestEngine.cpp:139-149 | Requests alone never change the trade log or the account |
| Backtest.Run | history/BacktestEngine.cpp:111-129 | Replaying any bars keeps the book well formed |
| Backtest.RunSnoc | history/BacktestEngine.cpp:111-129 | One more bar is one more step: the strategy's requests for it, then a matching pass at its time |
| Backtest.MatchExtends | history/BacktestEngine.cpp:182-206 | A matching pass only appends numbered trades and lowers the balance by their commissions |
| Backtest.StepExtends | history/BacktestEngine.cpp:182-206 | A full bar step, requests then matching, preserves that ledger relation |
| Backtest.RunLedger | history/BacktestEngine.cpp:182-206 | After any replay the trade log extends the initial one, stays numbered, and the balance has fallen by exactly the commissions of the new trades |
| Backtest.Reports | history/BacktestEngine.cpp:122-125 | One progress report per processed bar |
| Backtest.ReportsAt | history/BacktestEngine.cpp:122-125 | Report i is the progress after bar i + 1 |
| Backtest.ProgressBounds | history/BacktestEngine.cpp:122-125 | Progress stays in [0, 100], never decreases, and reaches 100 at the last bar |
| Backtest.ProgressReports | history/BacktestEngine.cpp:108-125 | A full run's reports are non-decreasing, in [0, 100], and end at 100 |
| Backtest.Peak | history/BacktestEngine.cpp:325-344 | The running peak is at least the initial capital, at least the current equity, and never falls |
| Backtest.MaxDrawdown | history/BacktestEngine.cpp:325-344 | The maximum drawdown is never negative |
| Backtest.MaxDrawdownIsMaximum | history/BacktestEngine.cpp:325-344 | It is at least the drawdown after every prefix of the trades |
| Backtest.MaxDrawdownAttained | history/BacktestEngine.cpp:325-344 | It is 0 or equals the drawdown after some prefix |
| Backtest.MaxDrawdownAtMostOne | history/BacktestEngine.cpp:325-344 | While equity stays nonnegative the drawdown is at most 100 % |
| Backtest.WinLossCounts | history/BacktestEngine.cpp:346-360 | Wins plus losses count the consecutive trade pairs. Total profit is positive exactly when some pair wins. Total loss is zero exactly when no price ever falls |
| Backtest.Curve | history/BacktestEngine.cpp:373-380 | The equity curve has one point per trade |
| Backtest.Times | history/BacktestEngine.cpp:373-380 | The curve's time axis is the trades' times |
| Backtest.CurvePoints | history/BacktestEngine.cpp:373-380 | Point i is the equity after the first i + 1 trades |
| Backtest.CurveBelowPeak | history/BacktestEngine.cpp:373-380 | No curve point exceeds the peak |
| Backtest.PeakOnCurve | history/BacktestEngine.cpp:373-380 | The peak is the initial capital or a point of the curve |
| Backtest.MetricsDefined | history/BacktestEngine.cpp:362-368 | The trade count is the number of trade pairs. The win rate is finite exactly when there are two trades or more, and then lies in [0, 1]. The profit factor is finite exactly when some price falls. Average profit and average loss are nonnegative |
| Backtest.InsertByTime | history/BacktestEngine.cpp:91-95 | Inserting into a time-sorted list keeps it sorted and adds exactly the one element |
| Backtest.SortByTime | history/BacktestEngine.cpp:91-95 | The result is sorted by time and a permutation of the input |
| Backtest.FirstFailure | history/BacktestEngine.cpp:77-89 | The index of the first symbol whose data fails to load; every symbol before it loads |
| Backtest.FirstFailureAt | history/BacktestEngine.cpp:77-89 | That index is the unique point where loading first fails |
| Backtest.AppendLoaded | history/BacktestEngine.cpp:77-89 | Loading succeeds exactly when every symbol loads; the data gathered is the start data plus the loaded symbols' data up to the first failure |
| Backtest.MatchPass | history/BacktestEngine.cpp:155-217 | The matching loop yields exactly the pass's trades, all positive. The account becomes those trades settled in order. The ids to remove are the filled orders' ids. The notices are the pass's notices, and the j-th account handed to the strategies is the account with the first j + 1 trades settled |
| Backtest.RemoveEach | history/BacktestEngine.cpp:219-222 | The removal loop deletes exactly the listed ids |
| Backtest.DrawdownLoop | history/BacktestEngine.cpp:325-344 | The drawdown loop computes the maximum drawdown |
| Backtest.DrawdownStep | history/BacktestEngine.cpp:325-344 | One more trade updates the peak and maximum drawdown as the loop does |
| Backtest.WinLossLoop | history/BacktestEngine.cpp:346-360 | The win/loss loop computes the win and loss counts and totals |
| Backtest.CurveLoop | history/BacktestEngine.cpp:373-380 | The curve loop appends one equity point and one time per trade |
| Backtest.BacktestEngine.constructor | history/BacktestEngine.cpp:8-11 | A new engine has the default parameters, account and result, no data, orders or trades |
| Backtest.BacktestEngine.SetBacktestParams | history/BacktestEngine.cpp:17-20 | The parameters are replaced |
| Backtest.BacktestEngine.Initialize | history/BacktestEngine.cpp:66-104 | The account is reset to the initial capital. Success means every symbol loaded; the data is then sorted by time and a permutation of all loaded bars. On failure the data holds the bars loaded before the failing symbol |
| Backtest.BacktestEngine.ProcessOrder | history/BacktestEngine.cpp:139-142 | The order is stored under its id |
| Backtest.BacktestEngine.ProcessCancelOrder | history/BacktestEngine.cpp:144-149 | The id is removed from the working orders |
| Backtest.BacktestEngine.MatchOrders | history/BacktestEngine.cpp:151-223 | The engine's orders, trades and account become one matching pass over them. It returns the `updateOrder`/`onTrade` notices of that pass and, for each new trade, the `setAccount` account with the trades up to it settled |
| Backtest.BacktestEngine.Dispatch | history/BacktestEngine.cpp:31-36 | The strategy's requests reach the book in order |
| Backtest.BacktestEngine.Execute | history/BacktestEngine.cpp:106-130 | The engine ends in the state of the replay of all its bars, with one progress report per bar, at the last bar's time |
| Backtest.BacktestEngine.OnBar | history/BacktestEngine.cpp:111-129 | The loop body advances the replay and the progress reports by one bar |
| Backtest.BacktestEngine.ReportProgress | history/BacktestEngine.cpp:122-125 | One more progress report is emitted |
| Backtest.BacktestEngine.Tick | history/BacktestEngine.cpp:112-120 | The bar's time becomes current; the strategy's requests apply, then one matching pass |
| Backtest.BacktestEngine.CalculateMetrics | history/BacktestEngine.cpp:293-381 | The result becomes the metrics of the final balance and the trade log |
| Backtest.BacktestEngine.RunBacktest | history/BacktestEngine.cpp:41-54 | Success means every symbol loaded. The engine then ends in the replay from the reset account and holds the metrics of that replay. On success the bars are sorted by time and are exactly the old ones and every symbol's bars. On failure the result, trades, orders, time and progress are unchanged, the account is reset to the initial capital, and the bars are the old ones plus those of the symbols before the first that failed |
| Ledger.Book | history/BacktestEngine.cpp:253-285 | Booking a trade keeps the positions well formed, each with a positive quantity |
| Ledger.SettleAll | history/BacktestEngine.cpp:225-291 | Settling any positive trades keeps the account well formed |
| Ledger.SettleAllSnoc | history/BacktestEngine.cpp:225-291 | Settling one more trade is one more settlement step |
| Ledger.SettleAllCash | history/BacktestEngine.cpp:247-250 | Settling lowers the balance by exactly the trades' commissions. The available cash equals the balance. Nothing else in the account changes outside its positions |
| Ledger.BookOtherSymbols | history/BacktestEngine.cpp:253-285 | A trade changes only its own symbol's position |
| Ledger.UnknownOpensShort | history/BacktestEngine.cpp:269-278 | A trade without a direction is booked as a sell |
| Ledger.RealizedSign | history/BacktestEngine.cpp:228-245 | Profit is realised only against a position on the trade's own side. A long trade against a long position gains exactly when it is priced above the average cost; a short trade against a short position gains exactly when it is priced below |
| Ledger.SettleHeld | history/BacktestEngine.cpp:263-268 | A trade on the held side adds its quantity, averages the cost and keeps the direction and open time |
| Ledger.SettleFresh | history/BacktestEngine.cpp:255-262 | A trade in a symbol with no position opens one at the trade's price, quantity and time |
| Ledger.AveragedFresh | history/BacktestEngine.cpp:253-285 | A freshly opened position's cost is the trade price |
| Ledger.AveragedHeld | history/BacktestEngine.cpp:253-285 | Adding on the held side keeps cost × quantity equal to the sum of price × quantity |
| Ledger.AverageCostOne | history/BacktestEngine.cpp:253-285 | A single trade leaves the average cost of that trade |
| Ledger.AverageCostNext | history/BacktestEngine.cpp:253-285 | Each further trade keeps the average over all trades so far |
| Ledger.AverageCost | history/BacktestEngine.cpp:253-285 | Trades of one symbol booked in sequence give the total quantity and the quantity-weighted mean price; the first trade fixes direction and open time |
| Trading.Executed | trading/TradingEngine.cpp:106-114 | The simulated trade copies the order's id, symbol, side, price and quantity, takes the current time and a 0.03 % commission |
| Trading.LiveSettle | trading/TradingEngine.cpp:143-203 | Live settlement keeps the positions well formed and positive |
| Trading.LiveSettleIsSettle | trading/TradingEngine.cpp:143-203 | Live settlement is the same bookkeeping as the back-tester's, with positions held by the engine |
| Trading.LiveCash | trading/TradingEngine.cpp:165-168 | Executing an order lowers the balance by exactly price × quantity × 0.0003, leaves available equal to balance, and leaves the account's embedded positions alone |
| Trading.CompletedFilled | trading/TradingEngine.cpp:116-121 | The reported order is completed, fully filled at its price, and otherwise the order as given |
| Trading.AsWrittenLog | trading/TradingEngine.cpp:107 | The trades `executeOrder` produces as written, one per order |
| Trading.AsWrittenIdsRepeat | trading/TradingEngine.cpp:107 | As written, consecutive executions get the same trade id, so the log is never numbered |
| Trading.TradingEngine.constructor | trading/TradingEngine.cpp:4-7 | A new engine is stopped, with no strategies, the default account, and no positions, orders or trades |
| Trading.TradingEngine.Initialize | trading/TradingEngine.cpp:14-33 | It succeeds exactly when not trading, and then resets account, positions, orders and trades. Otherwise nothing changes |
| Trading.TradingEngine.AddStrategy | trading/TradingEngine.cpp:35-51 | A strategy is added only while stopped and when one is given |
| Trading.TradingEngine.SetAccount | trading/TradingEngine.cpp:53-58 | The account is replaced only while stopped |
| Trading.TradingEngine.StartTrading | trading/TradingEngine.cpp:60-75 | Starting succeeds exactly when stopped with at least one strategy |
| Trading.TradingEngine.GetPositions | trading/TradingEngine.cpp:96-99 | The engine's own position map: well formed, iterated in symbol order, every position positive, with the engine's contents |
| Trading.TradingEngine.CancelOrder | trading/TradingEngine.cpp:135-141 | The id is removed from the active orders; an unknown id changes nothing |
| Trading.TradingEngine.StopTrading | trading/TradingEngine.cpp:77-94 | Stopping a running engine clears its active orders; stopping a stopped one changes nothing |
| Trading.TradingEngine.UpdateAccount | trading/TradingEngine.cpp:143-203 | Account and positions become the live settlement of the trade |
| Trading.TradingEngine.ExecuteOrder | trading/TradingEngine.cpp:101-133 | While trading, the order fills in full and its trade is numbered one past the log and appended and settled; the completed order and trade are reported. When stopped, nothing changes |
| Strategies.NewOrder | history/Strategy.cpp:83-97 | A helper's order has no id, status Created and nothing filled |
| Strategies.HelperOrders | history/Strategy.cpp:83-187 | Each helper's order has its type, its price or stop price (the other zero), the symbol, side, quantity and time given, and the defaults everywhere else |
| Strategies.HelperOrdersCollide | history/BacktestEngine.cpp:139-142 | Two helper orders submitted to the back-tester share the empty id, so the second replaces the first |
| Strategies.ActiveOrdersMembers | history/Strategy.cpp:212-224 | The active orders are exactly the stored orders whose status is Created, Submitted, Accepted or Partial |
| Strategies.ParameterRoundTrip | history/Strategy.cpp:13-21 | A parameter reads back as set; setting another name leaves it alone |
| Strategies.Strategy.constructor | history/Strategy.cpp:3-7 | A new strategy is live (not back-testing), without callbacks, with empty tables |
| Strategies.Strategy.SetParameter | history/Strategy.cpp:13-16 | The name is bound to the value |
| Strategies.Strategy.GetParameter | history/Strategy.cpp:18-21 | The stored value, or an invalid variant for an unknown name |
| Strategies.Strategy.SetBacktestMode | history/Strategy.cpp:63-66 | The back-test flag is set |
| Strategies.Strategy.SetCallbacks | history/Strategy.cpp:73-81 | Which callbacks are installed |
| Strategies.Strategy.Send | history/Strategy.cpp:93-97 | The order goes to the callback only when one is installed, and is returned |
| Strategies.Strategy.BuyMarket | history/Strategy.cpp:83-98 | A market buy, handed to the callback when installed |
| Strategies.Strategy.SellMarket | history/Strategy.cpp:100-115 | A market sell, handed to the callback when installed |
| Strategies.Strategy.BuyLimit | history/Strategy.cpp:117-133 | A limit buy at the price, handed to the callback when installed |
| Strategies.Strategy.SellLimit | history/Strategy.cpp:135-151 | A limit sell at the price, handed to the callback when installed |
| Strategies.Strategy.BuyStop | history/Strategy.cpp:153-169 | A stop buy at the stop price, handed to the callback when installed |
| Strategies.Strategy.SellStop | history/Strategy.cpp:171-187 | A stop sell at the stop price, handed to the callback when installed |
| Strategies.Strategy.CancelOrder | history/Strategy.cpp:189-196 | The id is forwarded, and true returned, exactly when a cancel callback is installed |
| Strategies.Strategy.GetPositions | history/Strategy.cpp:198-205 | The positions in ascending symbol order |
| Strategies.Strategy.GetPosition | history/Strategy.cpp:207-210 | The held position, or a default position for an unknown symbol |
| Strategies.Strategy.GetActiveOrders | history/Strategy.cpp:212-224 | The working orders, in ascending id order |
| Strategies.Strategy.GetOrder | history/Strategy.cpp:226-229 | The stored order, or a default order for an unknown id |
| Strategies.Strategy.SetAccount | history/Strategy.cpp:236-239 | The account is replaced |
| Strategies.Strategy.AddPosition | history/Strategy.cpp:241-244 | The position is stored under its symbol |
| Strategies.Strategy.AddOrder | history/Strategy.cpp:246-249 | The order is stored under its id |
| Strategies.Strategy.UpdateOrder | history/Strategy.cpp:251-256 | A known id is overwritten; an unknown id changes nothing |
| KlineAggregation.AlignTimestampWindow | history/KlineGenerator.cpp:474-484 | For nonnegative times the aligned time is the start of the window holding it; it is always a multiple of the window length; a negative time not on a boundary rounds up, towards zero |
| KlineAggregation.AggregateLoop | history/KlineGenerator.cpp:285-361 | The aggregation loop computes the aggregation function |
| KlineAggregation.AggregateTicksToKline | history/KlineGenerator.cpp:281-362 | Ticks aggregate into the bars of the aggregation function |
| KlineAggregation.AggregateKlineToHigherTimeframe | history/KlineGenerator.cpp:364-446 | Bars aggregate the same way; the source period plays no part |
| KlineAggregation.BarOfSingle | history/KlineGenerator.cpp:323-343 | A window's first input opens its bar |
| KlineAggregation.BarOfSnoc | history/KlineGenerator.cpp:337-352 | Each further input updates high, low, close, volumes and amounts as the code does |
| KlineAggregation.StepSameWindow | history/KlineGenerator.cpp:322-353 | An input in the current window is absorbed into the open bar |
| KlineAggregation.StepPastWindow | history/KlineGenerator.cpp:305-320 | An input past the window closes the open bar and skips empty windows |
| KlineAggregation.StepNewWindow | history/KlineGenerator.cpp:305-335 | The first input of a new window opens a fresh bar |
| KlineAggregation.NewWindowBar | history/KlineGenerator.cpp:324-335 | The fresh bar is the summary of that one input |
| KlineAggregation.AdvanceIdle | history/KlineGenerator.cpp:305-320 | Advancing with no open bar closes nothing |
| KlineAggregation.StepKeepsInv | history/KlineGenerator.cpp:303-354 | One input keeps the scan invariant: the closed bars summarise their windows, in time order |
| KlineAggregation.ScanKeepsInv | history/KlineGenerator.cpp:303-354 | The invariant holds after every time-ordered prefix |
| KlineAggregation.AggregateIsScan | history/KlineGenerator.cpp:292-297 | The aggregation is the scan from the first input's window |
| KlineAggregation.FinishCharacterised | history/KlineGenerator.cpp:356-359 | Appending the last open bar yields the characterisation |
| KlineAggregation.FinishSummarises | history/KlineGenerator.cpp:356-359 | The final bars each summarise their window's inputs |
| KlineAggregation.FinishCovers | history/KlineGenerator.cpp:356-359 | Every input's window has a bar |
| KlineAggregation.AggregateCharacterised | history/KlineGenerator.cpp:285-361 | For time-ordered inputs from time 0 on: one bar per nonempty window, in strictly increasing window order. Each bar summarises its window's inputs. Every input's window has a bar. Total volume and amount are preserved |
| KlineAggregation.TickPricesInRange | history/KlineGenerator.cpp:338-339 | Every tick price of a window lies between its bar's low and high |
| KlineAggregation.TickBarsWellFormed | history/KlineGenerator.cpp:329-340 | Every tick bar has low ≤ open, close ≤ high |
| KlineAggregation.ThreeTickExample | history/KlineGenerator.cpp:285-361 | Three ticks at 10:00:00, 10:00:30 and 10:01:05 give a 100/102/100/102 bar of volume 3 and a 101 bar of volume 1 |
| KlineGenerator.TimeFrameSeconds | history/KlineGenerator.cpp:448-462 | Every period lasts at least a second; only ticks last exactly one |
| KlineGenerator.PeriodsNest | history/KlineGenerator.cpp:464-472 | A period is a multiple of another exactly when it comes no earlier in the enum |
| KlineGenerator.CacheInsert | history/KlineGenerator.cpp:94-98 | The entry is stored. Other entries survive unchanged or are evicted. Nothing is evicted while the cache is under its capacity, and the capacity is respected |
| KlineGenerator.CacheSetMaxCost | history/KlineGenerator.cpp:255-258 | The new capacity holds. Surviving entries are unchanged, and nothing is evicted when everything fits |
| KlineGenerator.Slot | history/KlineGenerator.cpp:12-20 | The eight bar periods have a cache each; ticks and unknown periods have none |
| KlineGenerator.KlineGenerator.constructor | history/KlineGenerator.cpp:7-31 | Eight empty caches of capacity 100 |
| KlineGenerator.KlineGenerator.Remember | history/KlineGenerator.cpp:94-98 | The result is stored in its period's cache; other caches are untouched |
| KlineGenerator.KlineGenerator.GenerateKlineFromTicks | history/KlineGenerator.cpp:46-101 | Ticks pass through unchanged for the tick period. An empty input gives nothing. A cached result is returned unless regeneration is forced. Otherwise the aggregation is returned and cached. Other caches are untouched |
| KlineGenerator.KlineGenerator.GenerateKlineFromKline | history/KlineGenerator.cpp:103-167 | Nothing unless the target period is higher. Otherwise the cached or freshly aggregated bars, cached under the target period |
| KlineGenerator.KlineGenerator.PreGenerateKlines | history/KlineGenerator.cpp:169-203 | Every requested period ends up cached for the ticks; caches of periods not requested are untouched |
| KlineGenerator.KlineGenerator.ClearCache | history/KlineGenerator.cpp:205-224 | The unknown period clears every cache; another clears only its own |
| KlineGenerator.KlineGenerator.SetCacheSize | history/KlineGenerator.cpp:246-261 | A positive size becomes every cache's capacity; a non-positive size is ignored |
| MarketDataModels.Window | model/MarketDataModel.cpp:85-90 | Trimming keeps the newest rows, at most the capacity, as a suffix |
| MarketDataModels.WindowAppend | model/MarketDataModel.cpp:95-113 | Trimming after each append equals trimming once after a bulk append |
| MarketDataModels.FindRow | model/MarketDataModel.cpp:169-174 | The first row with the same symbol and timestamp, and none exactly when no row matches |
| MarketDataModels.AppendOneByOne | model/MarketDataModel.cpp:79-113 | Appending rows one by one leaves the same list as appending them together |
| MarketDataModels.WindowKeepsNewest | model/MarketDataModel.cpp:79-93 | The appended row is always kept as the newest, and every kept row was given |
| MarketDataModels.MarketDataModel.constructor | model/MarketDataModel.cpp:3-7 | An empty list of capacity 1000 |
| MarketDataModels.MarketDataModel.RowCount | model/MarketDataModel.cpp:9-13 | One row per stored bar |
| MarketDataModels.MarketDataModel.AppendData | model/MarketDataModel.cpp:79-93 | The list becomes the newest rows of the old list plus the bar, within capacity |
| MarketDataModels.MarketDataModel.AppendList | model/MarketDataModel.cpp:95-113 | An empty list is ignored; otherwise the newest rows of old plus new, within capacity |
| MarketDataModels.MarketDataModel.UpdateData | model/MarketDataModel.cpp:115-124 | An index in range is replaced; any other index changes nothing |
| MarketDataModels.MarketDataModel.ClearData | model/MarketDataModel.cpp:126-133 | The list is emptied |
| MarketDataModels.MarketDataModel.GetMarketData | model/MarketDataModel.cpp:140-146 | The row at the index, or a default bar out of range |
| MarketDataModels.MarketDataModel.SetMaxDataCount | model/MarketDataModel.cpp:148-164 | A non-positive count is ignored; otherwise it becomes the capacity and only the newest rows are kept |
| MarketDataModels.MarketDataModel.OnNewMarketData | model/MarketDataModel.cpp:166-178 | The first row with the same symbol and timestamp is overwritten; without one the bar is appended within capacity |
| RealtimeDataModels.MergedProps | model/RealtimeDataModel.cpp:99-103 | A merged quote becomes the newest row, older rows stay, and no two neighbouring rows share a timestamp |
| RealtimeDataModels.FeedProps | model/RealtimeDataModel.cpp:96-106 | After any stream of quotes no neighbouring timestamps repeat and the series ends with the last quote |
| RealtimeDataModels.RealtimeDataModel.constructor | model/RealtimeDataModel.cpp:4-11 | No quotes, no trades, the default account |
| RealtimeDataModels.RealtimeDataModel.RowCount | model/RealtimeDataModel.cpp:20-24 | One row per trade |
| RealtimeDataModels.RealtimeDataModel.OnNewMarketData | model/RealtimeDataModel.cpp:96-106 | A quote with the newest row's timestamp replaces it; any other is appended |
| RealtimeDataModels.RealtimeDataModel.OnNewTrade | model/RealtimeDataModel.cpp:108-116 | The trade is appended |
| RealtimeDataModels.RealtimeDataModel.OnAccountUpdate | model/RealtimeDataModel.cpp:118-122 | The account snapshot is replaced |
| HistoryCsv.Fields | history/HistoryDataManager.cpp:154-166 | A record is written as twelve fields |
| HistoryCsv.ParseFields | history/HistoryDataManager.cpp:108-131 | A row gives a record exactly when it has at least eight fields |
| HistoryCsv.ElevenFieldsOutOfRange | history/HistoryDataManager.cpp:126-131 | As written, an eleven-field row passes the guard and reads field 11, which is not there; corrected, it gives the base record |
| HistoryCsv.ParseFieldsAgree | history/HistoryDataManager.cpp:111-131 | On every other row length the corrected and written parsers agree |
| HistoryCsv.ParseLines | history/HistoryDataManager.cpp:106-134 | At most one record per line |
| HistoryCsv.RowRoundTrip | history/HistoryDataManager.cpp:154-166 | A written row reads back as its record, with tick count and open interest reset, and holds no line break |
| HistoryCsv.HeaderOneLine | history/HistoryDataManager.cpp:151 | The header is a single line |
| HistoryCsv.ParseRows | history/HistoryDataManager.cpp:106-134 | Rows written for records parse back as those records, in order |
| HistoryCsv.LoadSaved | history/HistoryDataManager.cpp:93-171 | Loading the corrected file gives back every saved record in order, with only tick count and open interest reset |
| HistoryCsv.AsWrittenOneLine | history/HistoryDataManager.cpp:151-166 | As written, the whole file is one line |
| HistoryCsv.AsWrittenLoadsNothing | history/HistoryDataManager.cpp:93-171 | As written, loading a saved file gives no records at all |
| HistoryData.PeriodNamesDistinct | history/HistoryDataManager.cpp:56-68 | Each known period has its own directory name; only the unknown period is "unknown" |
| HistoryData.FileNameRoundTrip | history/HistoryDataManager.cpp:206-210 | The corrected reader recovers both stamps of every file name the saver writes, whatever the symbol |
| HistoryData.PlainSymbolAgrees | history/HistoryDataManager.cpp:206-210 | For a symbol without '_' the written and corrected readers agree |
| HistoryData.UnderscoreSymbolMisread | history/HistoryDataManager.cpp:206-210 | As written, the name of "BTC_USDT" is read with "USDT" as its start time |
| HistoryData.InRangeMembers | history/HistoryDataManager.cpp:223-228 | A record is kept exactly when it is in the file and in the time range |
| HistoryData.GatheredInRange | history/HistoryDataManager.cpp:204-233 | Every gathered record is in range, and nothing is gathered unless a file loaded |
| HistoryData.LoadFromCsv | history/HistoryDataManager.cpp:93-138 | Corrected: A file that cannot be opened fails and adds nothing; otherwise its parsed records are appended |
| HistoryData.LoadFile | history/HistoryDataManager.cpp:205-232 | Corrected: A file is loaded exactly when its name's range meets the request and it opens; its in-range records are kept |
| HistoryData.GatherFiles | history/HistoryDataManager.cpp:204-233 | Corrected: the file loop gathers exactly the in-range records of the matching files that open |
| HistoryData.LoadHistoricalData | history/HistoryDataManager.cpp:174-248 | Corrected: A missing or empty directory fails. Success means some file loaded; the data is then sorted by time and a permutation of the old data plus the gathered records. On failure the data is unchanged |
| HistoryData.MaxRecordsValue | history/HistoryDataManager.cpp:268-270 | A file holds at most 5 368 709 records |
| HistoryData.BatchesFlatten | history/HistoryDataManager.cpp:273-283 | The batches together are the data, in order |
| HistoryData.BatchesSizes | history/HistoryDataManager.cpp:273-283 | Every batch is nonempty and within the limit, and there are ⌈n / k⌉ of them |
| HistoryData.SavedFileLoads | history/HistoryDataManager.cpp:286-298 | Corrected: each planned file is named after its batch's first and last stamps and loads back as that batch |
| HistoryData.WritesPrefix | history/HistoryDataManager.cpp:298-303 | The files written are a prefix of the plan, ending just before the first file that cannot be opened |
| HistoryData.SaveBatch | history/HistoryDataManager.cpp:275-298 | Corrected: one loop step takes the next batch and its file |
| HistoryData.WriteBatches | history/HistoryDataManager.cpp:273-306 | Corrected: the save loop writes the plan up to the first failure, and succeeds exactly when it wrote every batch |
| HistoryData.SaveHistoricalData | history/HistoryDataManager.cpp:251-307 | Corrected: nothing to save fails. Otherwise the batches are written in order into the period's directory, stopping at the first file that cannot be opened; success means all were written |
| HistoryData.CopyBatch | history/HistoryDataManager.cpp:278-281 | The copy loop yields exactly the slice |
| HistoryData.HistoryDataManager.constructor | history/HistoryDataManager.cpp:17-27 | The data directory is "D:/data" |
| HistoryData.HistoryDataManager.SetDataDir | history/HistoryDataManager.cpp:35-44 | The data directory is replaced |
| HistoryData.HistoryDataManager.GetDataFilePath | history/HistoryDataManager.cpp:53-80 | The path lies in the data directory and ends with the symbol's directory |
| HistoryDataModels.TradeFields | model/HistoryDataModel.cpp:91-102 | A row gives a trade exactly when it has at least eight fields |
| HistoryDataModels.ParseTrades | model/HistoryDataModel.cpp:87-105 | At most one trade per line |
| HistoryDataModels.TradeFieldsMeaning | model/HistoryDataModel.cpp:96-102 | The side is Long exactly when the signed quantity is positive; the quantity is its absolute value; the other fields are copied |
| HistoryDataModels.ParseTradesNormalized | model/HistoryDataModel.cpp:99-101 | Every loaded trade is a buy or a sell of a nonnegative quantity |
| HistoryDataModels.TradeRowRoundTrip | model/HistoryDataModel.cpp:95-102 | A trade row with a signed quantity reads back as the trade |
| HistoryDataModels.ParseTradeRows | model/HistoryDataModel.cpp:87-105 | Rows written for trades parse back as those trades, in order |
| HistoryDataModels.LoadTradeFile | model/HistoryDataModel.cpp:80-105 | A header line plus one row per trade loads back as the trades |
| HistoryDataModels.HistoryDataModel.constructor | model/HistoryDataModel.cpp:6-9 | No trades, no bars, the default account |
| HistoryDataModels.HistoryDataModel.RowCount | model/HistoryDataModel.cpp:11-15 | One row per trade |
| HistoryDataModels.HistoryDataModel.LoadFromCsv | model/HistoryDataModel.cpp:69-115 | A file that cannot be opened fails and leaves the table; otherwise the trades are replaced by the file's |
| HistoryDataModels.ReadTrades | model/HistoryDataModel.cpp:80-105 | The read loop yields exactly the file's trades |
| OnlineMarketA.MarketType | online/onlinemarket_A.cpp:437-450 | The market type is "0" or "1" |
| OnlineMarketA.MarketTypeCases | online/onlinemarket_A.cpp:437-450 | Codes opening with 0, 3, 4 or 8 are Shenzhen ("0"); all others, the empty code included, are Shanghai ("1") |
| OnlineMarketA.FormatRoundTrip | online/onlinemarket_A.cpp:452-457 | A formatted code is the two-character prefix followed by the code, from which the code is recovered |
| OnlineMarketA.FormatInjective | online/onlinemarket_A.cpp:452-457 | Different codes never share a formatted code |
| OnlineMarketA.ResubscribeAsWrittenKeepsOld | online/onlinemarket_A.cpp:120-131 | As written, after a switch the old code stays subscribed alongside the new one |
| OnlineMarketA.ResubscribeSwitches | online/onlinemarket_A.cpp:120-131 | Corrected, the switch replaces the old subscription by the new one |
| OnlineMarketA.ClampInterval | online/onlinemarket_A.cpp:135-142 | The interval is at least 100 ms and at least the request, and is one of the two |
| OnlineMarketA.OnlineMarket.constructor | online/onlinemarket_A.cpp:5-17 | Code 600000 as "1.600000", REST polling every 1000 ms, inactive and unconnected, empty cache |
| OnlineMarketA.OnlineMarket.Subscribe | online/onlinemarket_A.cpp:347-362 | A subscription is sent only over an open connection |
| OnlineMarketA.OnlineMarket.StartFetchingData | online/onlinemarket_A.cpp:152-171 | Starting an active client does nothing. In REST mode it fetches at once and starts the timer. In WebSocket mode it subscribes when connected and connects otherwise |
| OnlineMarketA.OnlineMarket.StopFetchingData | online/onlinemarket_A.cpp:173-199 | Stopping an inactive client does nothing. In REST mode it stops the timer. Over an open WebSocket it unsubscribes, closes and stops the heartbeat |
| OnlineMarketA.OnlineMarket.SetDataFetchMode | online/onlinemarket_A.cpp:89-109 | The same mode, or an inactive client, changes nothing but the mode. An active client is stopped in the old mode and started in the new one. Switching to WebSocket stops the poll timer and then subscribes, or connects when unconnected. Switching to REST first unsubscribes and closes an open socket, stopping the heartbeat, then fetches and starts the poll timer. The client stays active |
| OnlineMarketA.OnlineMarket.SetSymbol | online/onlinemarket_A.cpp:111-133 | Corrected: the code and formatted code change. A live WebSocket subscription moves from the old code to the new one |
| OnlineMarketA.OnlineMarket.SetUpdateInterval | online/onlinemarket_A.cpp:135-150 | The poll interval becomes the clamped value |
| OnlineMarketA.OnlineMarket.OnWebSocketConnected | online/onlinemarket_A.cpp:302-313 | Connected; when active it subscribes and starts the heartbeat |
| OnlineMarketA.OnlineMarket.OnWebSocketDisconnected | online/onlinemarket_A.cpp:315-331 | Disconnected and heartbeat stopped; a reconnect is scheduled only while active in WebSocket mode |
| OnlineMarketA.OnlineMarket.OnReconnectTimer | online/onlinemarket_A.cpp:325-329 | The delayed reconnect opens a socket only if still active, in WebSocket mode and unconnected |
| OnlineMarketA.OnlineMarket.OnWebSocketError | online/onlinemarket_A.cpp:339-345 | An error is reported (`errorOccurred`) and the connection counts as lost |
| OnlineMarketA.OnlineMarket.SendHeartbeat | online/onlinemarket_A.cpp:364-375 | A heartbeat is sent only over an open connection |
| OnlineMarketA.OnlineMarket.FetchMarketData | online/onlinemarket_A.cpp:201-225 | One request for the formatted code |
| OnlineMarketA.OnlineMarket.ParseMarketData | online/onlinemarket_A.cpp:251-299 | A bad reply, a nonzero code or empty data is an error and leaves the cache. Otherwise the scaled quote is cached and reported |
| OnlineMarketA.OnlineMarket.ParseWebSocketMessage | online/onlinemarket_A.cpp:377-435 | Heartbeat replies and acks report nothing; a failed ack is an error. A data message reports each field from the message or else the cache, and caches the fields it carried |
| OnlineMarketA.RefreshedAt | online/onlinemarket_A.cpp:424-430 | A tick overwrites exactly the cache entries of the fields it carries; all other entries are kept, present or absent |
| OnlineMarketA.SnapshotHoldsQuote | online/onlinemarket_A.cpp:289-298 | After a REST reply the cache describes exactly the reported quote |
| OnlineMarketA.PickAt | online/onlinemarket_A.cpp:415-430 | Each reported field is what the refreshed cache holds |
| OnlineMarketA.TickQuoteIsCached | online/onlinemarket_A.cpp:413-433 | The quote a tick reports is the quote the refreshed cache describes |
| OnlineMarketA.RefreshIdempotent | online/onlinemarket_A.cpp:424-430 | Processing the same tick twice leaves the same cache as once |
| Binance.ParseOrderStatusInverts | trading/BinanceTrader.cpp:301-310 | The six exchange names map to their statuses and back. Every other text is the unknown status. Submitted and Accepted never come out |
| Binance.SideRoundTrip | trading/BinanceTrader.cpp:269 | A placed side reads back as the order's direction; an order without a direction goes out and comes back as a sell |
| Binance.ReportOrder | trading/BinanceTrader.cpp:264-277 | An execution report gives an order with its id, symbol, side, price, quantities, parsed status and event time, and defaults elsewhere |
| Binance.RouteOf | trading/BinanceTrader.cpp:133-146 | Execution reports go to the order handler, account positions to the account handler, anything else is dropped |
| Binance.FirstUsdt | trading/BinanceTrader.cpp:249-257 | The free amount of the first USDT entry, present exactly when there is one |
| Binance.UsdtAccountFirst | trading/BinanceTrader.cpp:249-257 | Entries after the first USDT entry do not change the account |
| Binance.UsdtFree | trading/BinanceTrader.cpp:250-257 | The balance loop stops at the first USDT entry and yields its free amount, or 0 |
| Binance.OrderResponse | trading/BinanceTrader.cpp:155-188 | Only a clean reply reports the order, completed with the reply's fill quantity, price and time and otherwise as placed |
| Binance.CancelResponse | trading/BinanceTrader.cpp:190-216 | Only a clean reply reports the id canceled |
| Binance.HandleAccountResponse | trading/BinanceTrader.cpp:218-262 | A clean reply reports the USDT account and installs it unless trading; a failure changes nothing |
| Binance.HandleWsAccountUpdate | trading/BinanceTrader.cpp:279-299 | The stream's balance list gives the USDT account, installed unless trading |
| MovingAverages.SmaSeries | indicators/MovingAverage.cpp:15-24 | One simple average per full window |
| MovingAverages.SmaWithin | indicators/MovingAverage.cpp:15-24 | Every simple average lies between the lowest and highest close |
| MovingAverages.MultiplierRange | indicators/MovingAverage.cpp:26 | The smoothing factor 2/(p+1) lies in (0, 1] |
| MovingAverages.EmaSeries | indicators/MovingAverage.cpp:25-34 | One exponential average per close, starting at the first close |
| MovingAverages.EmaExtend | indicators/MovingAverage.cpp:30-33 | A further close adds exactly one value, one step from the last |
| MovingAverages.EmaPrefix | indicators/MovingAverage.cpp:25-34 | The average of a prefix is the prefix of the average |
| MovingAverages.EmaRecurrence | indicators/MovingAverage.cpp:27-33 | v0 is the first close and vi = (close_i − v(i−1))·m + v(i−1) |
| MovingAverages.EmaWithin | indicators/MovingAverage.cpp:25-34 | Every exponential average lies between the lowest and highest close |
| MovingAverages.TotalWeightClosed | indicators/MovingAverage.cpp:37 | The weights 1…p total p(p+1)/2, the divisor used |
| MovingAverages.WmaSeries | indicators/MovingAverage.cpp:36-46 | One weighted average per full window |
| MovingAverages.WeightedSumWindow | indicators/MovingAverage.cpp:40-42 | The oldest close of a window weighs most, the newest 1 |
| MovingAverages.WeightedSumWithin | indicators/MovingAverage.cpp:38-44 | Bounded closes give a weighted sum bounded by the total weight |
| MovingAverages.WmaWithin | indicators/MovingAverage.cpp:36-46 | Every weighted average lies between the lowest and highest close |
| MovingAverages.WmaValueWithin | indicators/MovingAverage.cpp:36-46 | Each single weighted value lies between the lowest and highest close |
| MovingAverages.MaValues | indicators/MovingAverage.cpp:9-50 | Fewer closes than the period give no values; otherwise the chosen series |
| MovingAverages.EmaUpdateAgrees | indicators/MovingAverage.cpp:64-70 | An exponential update gives what a calculation over the longer series gives |
| MovingAverages.WindowSeriesExtend | indicators/MovingAverage.cpp:60-74 | A calculation over one more close adds a simple or weighted value that the update does not add |
| MovingAverages.WindowSum | indicators/MovingAverage.cpp:17-20 | The window loop sums the p closes ending at i |
| MovingAverages.WeightedWindowSum | indicators/MovingAverage.cpp:39-42 | The weighted loop sums close i − j times j + 1 |
| MovingAverages.ComputeSma | indicators/MovingAverage.cpp:15-24 | The simple-average loop computes the simple series |
| MovingAverages.ComputeEma | indicators/MovingAverage.cpp:25-34 | The exponential loop computes the exponential series |
| MovingAverages.ComputeWma | indicators/MovingAverage.cpp:36-46 | The weighted loop computes the weighted series |
| MovingAverages.MovingAverage.constructor | indicators/MovingAverage.cpp:4-7 | Period and type as given, no values |
| MovingAverages.MovingAverage.Calculate | indicators/MovingAverage.cpp:9-50 | The values are recomputed from the bars' closes |
| MovingAverages.MovingAverage.Update | indicators/MovingAverage.cpp:52-78 | With no values the close becomes the only value. Otherwise the exponential average steps once and the other two types stay as they are |
| MovingAverages.MovingAverage.LastValue | indicators/MovingAverage.cpp:95-98 | The newest value, or 0 with none |
| RelativeStrength.GainSum | indicators/RSI.cpp:23-30 | The total gain is nonnegative |
| RelativeStrength.LossSum | indicators/RSI.cpp:23-30 | The total loss is nonnegative |
| RelativeStrength.SmoothWithin | indicators/RSI.cpp:45-46 | Wilder smoothing of nonnegative amounts is nonnegative and lies between them |
| RelativeStrength.Step | indicators/RSI.cpp:41-46 | One change keeps both averages nonnegative |
| RelativeStrength.AveragesOf | indicators/RSI.cpp:19-46 | The averages after any closes are nonnegative |
| RelativeStrength.IndexRange | indicators/RSI.cpp:36 | The index lies in [0, 100]. It is 100 when there is no average loss, and 0 exactly when there is no average gain but some loss |
| RelativeStrength.RsiSeries | indicators/RSI.cpp:35-50 | One index value per close after the first p |
| RelativeStrength.GainTotal | indicators/RSI.cpp:23-30 | The running total of gains is their sum |
| RelativeStrength.LossTotal | indicators/RSI.cpp:23-30 | The running total of losses is their sum |
| RelativeStrength.InitialMeans | indicators/RSI.cpp:32-33 | The first averages are the plain means of the first p gains and losses |
| RelativeStrength.RsiInRange | indicators/RSI.cpp:36-49 | Every index value lies in [0, 100] |
| RelativeStrength.RsiExtend | indicators/RSI.cpp:63-71 | One more close is one smoothing step and one more index value |
| RelativeStrength.InitialSums | indicators/RSI.cpp:23-30 | The first loop computes total gain and total loss over the first p changes |
| RelativeStrength.FirstValue | indicators/RSI.cpp:35-37 | The first index value is computed from the plain means |
| RelativeStrength.SeriesSnoc | indicators/RSI.cpp:40-50 | The smoothing loop adds one value per close |
| RelativeStrength.FirstIndex | indicators/RSI.cpp:32-37 | The first value and the averages it came from |
| RelativeStrength.ComputeRsi | indicators/RSI.cpp:14-54 | The loops compute the index series and the final averages |
| RelativeStrength.Rsi.constructor | indicators/RSI.cpp:5-12 | Period as given, zero averages and last close, no values |
| RelativeStrength.Rsi.Calculate | indicators/RSI.cpp:14-54 | Too few closes leave no values. Otherwise the series, the final averages and the last close are recomputed, and every value lies in [0, 100] |
| RelativeStrength.Rsi.Update | indicators/RSI.cpp:56-75 | With no values only the close is recorded. Otherwise one smoothing step, one more value in [0, 100], and the close recorded |
| RelativeStrength.Rsi.LastValue | indicators/RSI.cpp:87-90 | The newest value, or the neutral 50 with none |
| Bollinger.SquaredDeviations | indicators/BollingerBands.cpp:30-33 | The variance sum is nonnegative |
| Bollinger.BandsOf | indicators/BollingerBands.cpp:12-42 | Fewer closes than the period give no bands; otherwise one value of each band per window |
| Bollinger.BandsShape | indicators/BollingerBands.cpp:20-38 | The middle band is each window's mean; the outer bands are symmetric about it, `multiplier` standard deviations away |
| Bollinger.BandsOrdered | indicators/BollingerBands.cpp:37-38 | With a nonnegative multiplier, upper ≥ middle ≥ lower everywhere |
| Bollinger.FlatBands | indicators/BollingerBands.cpp:20-39 | Flat closes collapse all three bands onto the close |
| Bollinger.Deviations | indicators/BollingerBands.cpp:30-33 | The variance loop sums the squared deviations of the window from its mean |
| Bollinger.Window | indicators/BollingerBands.cpp:22-38 | One window's middle value and offset |
| Bollinger.ComputeBands | indicators/BollingerBands.cpp:20-39 | The loop computes the three bands |
| Bollinger.BollingerBands.constructor | indicators/BollingerBands.cpp:5-10 | Period and multiplier as given, no bands |
| Bollinger.BollingerBands.Calculate | indicators/BollingerBands.cpp:12-42 | The bands are recomputed from the bars' closes |
| Bollinger.BollingerBands.Update | indicators/BollingerBands.cpp:44-49 | Nothing changes |
| Bollinger.BollingerBands.Values | indicators/BollingerBands.cpp:56-59 | The middle band |
| Bollinger.BollingerBands.LastValue | indicators/BollingerBands.cpp:61-64 | The newest middle value, or 0 with none |
| MacdIndicators.DifSeries | indicators/MACD.cpp:36-38 | One DIF value per close |
| MacdIndicators.HistSeries | indicators/MACD.cpp:50-52 | One histogram bar per DIF value |
| MacdIndicators.MacdLines | indicators/MACD.cpp:12-55 | Fewer closes than slow + signal give no lines; otherwise three lines of one value per close |
| MacdIndicators.MacdStart | indicators/MACD.cpp:27-52 | DIF0 = 0, DEA0 = DIF0 and the first bar is 0. Every bar is DIF − DEA, and DEA follows the exponential recurrence over DIF |
| MacdIndicators.MacdFlat | indicators/MACD.cpp:12-55 | Flat closes make all three lines zero |
| MacdIndicators.FillAverages | indicators/MACD.cpp:21-33 | The array loop fills both exponential averages index by index |
| MacdIndicators.Signal | indicators/MACD.cpp:41-47 | The DEA loop computes the exponential average of DIF |
| MacdIndicators.ComputeMacd | indicators/MACD.cpp:21-52 | The loops compute the three lines |
| MacdIndicators.Macd.constructor | indicators/MACD.cpp:4-10 | Periods as given, no lines |
| MacdIndicators.Macd.Calculate | indicators/MACD.cpp:12-55 | The three lines are recomputed from the bars' closes |
| MacdIndicators.Macd.Update | indicators/MACD.cpp:57-62 | Nothing changes |
| MacdIndicators.Macd.Values | indicators/MACD.cpp:69-72 | The histogram |
| MacdIndicators.Macd.LastValue | indicators/MACD.cpp:74-77 | The newest histogram bar, or 0 with none |

## Left out

- Qt signals, logging, timers as objects, widgets, item-model roles and headers, and mutexes are left out. Only their effects on the modelled state remain.
- Sockets, HTTP requests and HMAC request signing are not modelled. Replies and messages enter already decoded, and what is sent is an `io` log.
- Floating point is modelled as exact reals. Rounding, NaN propagation and 64-bit integer overflow are not modelled; only unguarded divisions are marked with `Float`.
- `sqrt`, `toDouble`, `QString::number` and the date conversions are parameters. Their round trips are assumptions stated as preconditions, not proved.
- The Sharpe ratio and the annual return in `calculateMetrics` are not modelled. They need square roots of sample variances and calendar arithmetic.
- `name()` strings and `IndicatorBase` are left out. `IndicatorBase` is the abstract base and holds no logic.
- Accessors that only return a stored field are left out: `values()` of `MovingAverage` and `RSI`; `difLine`, `deaLine` and `macdHist` of `MACD`; `upperBand`, `middleBand` and `lowerBand` of `BollingerBands`; `getName`, `getDescription`, `getAuthor`, `getVersion`, `isBacktestMode` and `getAccount` of `Strategy`; `getBacktestParams` and `getBacktestResult` of `BacktestEngine`; `getDataDir` of `HistoryDataManager`; and `getAccountData` of the table models. The model reads those fields directly. `getCacheStatus` of `KlineGenerator` only formats a status text and is left out as well.
- Concrete strategies and `StrategyLoader` are not modelled. A back-test strategy is a function from a bar to the requests it makes.
- KlineGenerator.KlineGenerator.PreGenerateKlines: the worker threads run in sequence here, one period after another.
- KlineGenerator.CacheInsert: which entry `QCache` evicts is left open. All the model proves is that the capacity is kept.
- The cache key is the tuple (symbol, first and last timestamp in seconds, period), not its MD5 digest. Digest collisions are not modelled.
- The OKX and EastMoney adapters, the OKX quote client, `GSetting`, `Logger` and the Python script are not part of this model.
- KlineAggregation.AggregateCharacterised: bars are characterised only for inputs at time 0 or later. Alignment of negative times is modelled, but only its window property is proved.
- Backtest.BacktestEngine.ProcessOrder: requires quantity > 0. The average-cost update divides by the new total quantity, so the model keeps this bound.
- Trading.TradingEngine.ExecuteOrder: requires quantity > 0 while trading, for the same division.
- Trading.TradingEngine.UpdateAccount: requires quantity > 0, for the same division.
- Backtest.BacktestEngine.CalculateMetrics: requires a positive initial capital. The drawdown divides by the peak.
- Backtest.BacktestEngine.RunBacktest: requires a positive initial capital, for the same reason.
- Backtest.Reports: progress is the integer (k·100)/n. The source computes it in double and truncates; the two agree only while k·100 is exactly representable.
- AppData.TimeFrameValue: the numbering of the bar periods is an assumption. online/AppData.h:70-80 declares a different `TimeFrame` enum (Tick, Second, … Year) and none of the bar periods M1 … W1 or `KUnknown` that history/KlineGenerator.cpp uses. The model numbers Tick … W1 as 0 … 8, in the order of the `getTimeFrameSeconds` switch (history/KlineGenerator.cpp:450-460), and places `KUnknown` last, at 9. That choice decides the `targetTimeFrame <= sourceTimeFrame` guard at history/KlineGenerator.cpp:116. With it, a request from any known period to `KUnknown` passes the guard and aggregates into 60-second bars, because the switch's default is 60. With `KUnknown` ranked lower, the same request would return nothing.
- Text.Less: keys are ordered by code point, because a Dafny `string` is a sequence of Unicode scalar values. `QString` compares UTF-16 code units. The two orders disagree only when, at the first differing position, one key has a character outside the Basic Multilingual Plane and the other a character in U+E000–U+FFFF. There the model sorts the first key after the second and Qt sorts it before. This order is the iteration order of every `QMap`, and so the order in which a matching pass visits resting orders.
- `AppData`: the status value 8 for an unknown status is an assumption. `UnknownStatus` is used by the Binance adapter but not declared in `online/AppData.h`.
- `AppData`: the `extraInfo` maps and the order-book depth vectors are not modelled.
- `AppData`: the `extraParams` map of `BacktestParams` (online/AppData.h:214-216) is not modelled. The default `timeFrame` is `Day` of online/AppData.h's own `TimeFrame` enum (lines 70-80); the model writes it as `D1` of the bar generator's period enum, which names the same daily period.
- Backtest.BacktestEngine.MatchOrders: the notices and accounts it returns are what `updateOrder`, `onTrade` and `setAccount` receive. `Tick` discards them, because the model's strategies (`react`) see only the bar. A strategy that changes its behaviour on a fill is not modelled.
- Strategies.Strategy.SetCallbacks: the callbacks are modelled as flags plus logs of what was handed to them.
- HistoryData.LoadFromCsv: corrected. It parses rows with `HistoryCsv.ParseFields`, so a row of exactly eleven fields gives its base record. history/HistoryDataManager.cpp:126-131 reads `fields[11]` out of range on such a row (`HistoryCsv.ElevenFieldsOutOfRange`). On every other row length the two agree (`HistoryCsv.ParseFieldsAgree`).
- HistoryData.LoadFile: corrected. It reads a file's time range from the last two parts of its name. history/HistoryDataManager.cpp:206-210 reads `parts[1]` and `parts[2]`, which misreads a symbol holding '_' (`HistoryData.UnderscoreSymbolMisread`). For symbols without '_' the two agree (`HistoryData.PlainSymbolAgrees`).
- HistoryData.GatherFiles: corrected. It selects files with the same corrected name reader as `LoadFile`, not the one at history/HistoryDataManager.cpp:206-210.
- HistoryData.LoadHistoricalData: corrected. It loads through the corrected name reader, so the files of a symbol such as "BTC_USDT" are kept or skipped by their true range. The code at history/HistoryDataManager.cpp:206-210 would misread that range.
- HistoryData.SaveBatch: corrected. It writes the header and every row each followed by a newline. history/HistoryDataManager.cpp:151-166 writes no line terminator, so as written the file is one line (`HistoryCsv.AsWrittenOneLine`).
- HistoryData.WriteBatches: corrected. It writes the same newline-terminated text as `SaveBatch`, not the single-line text of history/HistoryDataManager.cpp:151-166.
- HistoryData.SaveHistoricalData: corrected. Its files are the newline-terminated ones. As written, every file it saves loads back no records (`HistoryCsv.AsWrittenLoadsNothing`).
- HistoryData.SavedFileLoads: corrected. The round trip holds for the corrected saver and reader only. As written, no saved file loads back any record.
- OnlineMarketA.OnlineMarket.SetSymbol: corrected. It unsubscribes the old formatted code. online/onlinemarket_A.cpp:120-131 builds the unsubscribe after updating the formatted code, so as written it names the new code and the old one stays subscribed (`OnlineMarketA.ResubscribeAsWrittenKeepsOld`).
- MovingAverages.MovingAverage.constructor: the period has type `Period`, which is positive. The constructor in indicators/MovingAverage.cpp accepts any `int`. A period of 0 or less, with its division by zero and negative indices, is not modelled.
- RelativeStrength.Rsi.constructor: the period is positive, for the same reason. With a period of 0, indicators/RSI.cpp:32-33 would divide by zero.
- MacdIndicators.Macd.constructor: the three periods are positive. Periods of 0 or less are not modelled.
- Bollinger.BollingerBands.constructor: the period is positive. A period of 0, which divides the window sum by zero, is not modelled.

## Findings

| source | as written | input that shows it | evidently intended | confidence | as-written member | corrected member |
|---|---|---|---|---|---|---|
| history/HistoryDataManager.cpp:151-166 | `saveToCsv` writes the header and every row with no line terminator | any saved records: the file is one line, so loading it gives no records | each line ends with a newline, so a save then a load returns the records | not executed | HistoryCsv.AsWrittenLoadsNothing | HistoryCsv.LoadSaved |
| history/HistoryDataManager.cpp:126-131 | the bid/ask block is guarded by `size() >= 11` but reads `fields[11]` | a row of exactly eleven fields | read the block only when all twelve fields are present | not executed | HistoryCsv.ElevenFieldsOutOfRange | HistoryCsv.ParseFields |
| history/HistoryDataManager.cpp:206-210 | the time range is read from `parts[1]` and `parts[2]` of the name split on '_' | symbol "BTC_USDT": "USDT" is taken as the start time | read the last two parts, so any symbol round-trips | not executed | HistoryData.UnderscoreSymbolMisread | HistoryData.FileNameRoundTrip |
| trading/TradingEngine.cpp:107 | trade ids are numbered from `m_account.trades.size() + 1`. `Account` (online/AppData.h:141-154) declares no such list, and nothing in the engine appends to one | two executions in a row: both get the same id | number each trade one past the engine's own trade log | not executed | Trading.AsWrittenIdsRepeat | Trading.TradingEngine.ExecuteOrder |
| online/onlinemarket_A.cpp:120-131 | `setSymbol` updates the formatted code before sending the unsubscribe, so it unsubscribes the new code | subscribed to "1.600000", switch to "000001": "1.600000" stays subscribed | unsubscribe the old code, then subscribe the new one | not executed | OnlineMarketA.ResubscribeAsWrittenKeepsOld | OnlineMarketA.OnlineMarket.SetSymbol |
