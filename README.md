# Crypto market analyzer and trading bot: a Dafny model

This project models the core of a desktop crypto-trading assistant, written in Dafny and proved with its verifier:

- **`MarketAnalyzer`** (`market_analysis.py`):
  - the technical indicators: RSI, EMA, SMA, MACD, Bollinger bands, stochastic, ATR, ADX, MFI, SAR, TEMA, OBV, AD and NATR;
  - `populate_indicators`, which adds them to a candle frame;
  - the signal scorer `generate_signals`, where five indicator families vote for BUY or SELL;
  - `predict_direction`.
- **`TradingBot`** (`trading_bot.py`):
  - open positions keyed by symbol, and an append-only trade history;
  - the entry rule: stop-loss and take-profit levels, and position size;
  - the exit check, with stop-loss before take-profit before signal;
  - one cycle of the run loop;
  - the statistics over closed trades.
- **`DataProvider`** (`data_provider.py`): the active-market filter and sort, the case-insensitive symbol search, the classification by quote currency, the stored exchange id and the constant tables.
- **The main window's list and URL rules** (`gui_main.py`): the exchange trade-page URL of an order, the add rules of the three watch lists, the checked state of the autotrade list, the collection of checked assets and the pending browser orders.

Files:

| file | module | contents |
|---|---|---|
| `wrappers.dfy` | `Wrappers` | `Option` |
| `strings.dfy` | `Strings` | ASCII `upper`/`lower`/`strip`, substring test, `replace`, Python string order and `sorted` |
| `indicators.dfy` | `Indicators` | the `calculate_*` functions and `populate_indicators` |
| `signals.dfy` | `Signals` | `generate_signals`, `predict_direction` |
| `trading_bot.dfy` | `TradingBot` | the state as a value (`Book`) with the functions that specify each operation, and the class `Bot` whose methods are proved against them |
| `markets.dfy` | `Markets` | the `DataProvider` list functions |
| `gui.dfy` | `Gui` | the URL builder and the class `Window` holding the lists |

How the model works:

- **Series and NaN.** A pandas column is a `seq<real>`. A column that can hold NaN is a `seq<Option<real>>`, where `None` is NaN.
- **Non-finite results.** A division pandas turns into ±inf or NaN gives `None`. The one exception is RSI/MFI with no losses, whose infinite ratio yields exactly 100, as in pandas.
- **Square root.** The rolling standard deviation is the square root of an exact sample variance. Dafny has no square root, so the model takes one as a parameter `sqrt`. The predicate `IsSqrt` states what that parameter must satisfy.
- **Outside world.** The exchange (candles, tickers, market table) and the analyzer the bot is given are parameters: `TradingBot.Market` holds them as three functions. `Signals.AnalyzeCandles` is the repository's own analyzer: `populate_indicators` followed by `generate_signals`.
- **State changes.** Where the source changes state, the model is a class:
  - `TradingBot.Bot` has the fields `running`, `activeTrades`, `tradeOrder` and `tradeHistory`. The third is the iteration order of the `active_trades` dictionary.
  - `Gui.Window` holds the window's lists.
  - Each method's `ensures` equates the new state with a function of the old one. The properties are proved about those functions.
- **Loops.** The loops of the source stay loops with invariants: the SAR and OBV loops, the scan, the check and its deletion loop, the category loop, the autotrade refresh and the collection.

Main results:

- **The strength bound.** Every voting family adds to one side only, and never more than its budget. So `buy + sell <= total <= 9`, and the strength `|buy - sell| / (2·total)` is at most 0.5, although the documented range is 0.0 to 1.0 (`Signals.GenerateSignals`).
- **The bot never trades with its own analyzer.** The bot needs a strength of at least 0.6 to buy, or to close on a SELL signal. With the repository's own analyzer neither can happen: a cycle is only the stop-loss/take-profit check (`TradingBot.RealAnalyzerIsInert`).
- **The max-trades gate is per cycle.** The `max_trades` test runs once per cycle, before the scan, so a single scan can open several positions and end above `max_trades` (`TradingBot.OneCycleCanExceedMaxTrades`). The repository's documentation describes the limit as never exceeded; the model follows the code.

## Model

| member | source | states |
|---|---|---|
| Indicators.RollingSum | market_analysis.py:116-132 | A trailing `rolling(p).sum()` has the input's length and is defined exactly from row `p-1` on |
| Indicators.RollingMean | market_analysis.py:41-43 | A trailing `rolling(p).mean()` has the input's length and is defined exactly from row `p-1` on |
| Indicators.RollingMeanOpt | market_analysis.py:65-73 | A rolling mean over a column with NaN is defined exactly where its window is full and holds no NaN |
| Indicators.RollingMeanWithin | market_analysis.py:41-43 | A rolling mean of values in `[lo, hi]` stays in `[lo, hi]` |
| Indicators.MinOf | market_analysis.py:65-73 | The window minimum is below every element and is one of them |
| Indicators.MaxOf | market_analysis.py:65-73 | The window maximum is above every element and is one of them |
| Indicators.RatioIndex | market_analysis.py:26-33 | `100 - 100/(1 + up/down)`; with `down = 0` it is 100, or NaN when `up = 0` too |
| Indicators.RatioIndexBounds | market_analysis.py:26-33 | With non-negative flows the index lies in `[0, 100]`, and is 0 exactly when `up` is 0 |
| Indicators.RatioIndexDefined | market_analysis.py:26-33 | With non-negative flows the index is NaN exactly when both flows are 0 |
| Indicators.Gains | market_analysis.py:26-33 | The gains column is non-negative; row 0 gives 0, because the leading NaN fails the `where` test |
| Indicators.Losses | market_analysis.py:26-33 | The losses column is non-negative; row 0 gives 0 |
| Indicators.Rsi | market_analysis.py:26-33 | RSI has the input's length and is NaN before row `p-1` |
| Indicators.RsiBounds | market_analysis.py:26-33 | RSI lies in `[0, 100]` wherever it is defined |
| Indicators.RsiDefinedIff | market_analysis.py:26-33 | RSI at row `i` is defined iff the window is full and some close in it differs from the close before it |
| Indicators.RsiFlatUndefined | market_analysis.py:26-33 | On a constant close series RSI is NaN everywhere |
| Indicators.Sma | market_analysis.py:41-43 | SMA has the input's length and is defined exactly from row `p-1` |
| Indicators.Alpha | market_analysis.py:36-38 | The EMA smoothing factor `2/(span+1)` lies in `(0, 1]` |
| Indicators.Ema | market_analysis.py:36-38 | `ewm(adjust=False)` is defined on every row and seeded with the first value |
| Indicators.EmaWithin | market_analysis.py:36-38 | An EMA never leaves the range of its input |
| Indicators.CalculateMacd | market_analysis.py:46-53 | The three MACD columns have the input's length, and histogram = MACD − signal on every row |
| Indicators.MacdFlat | market_analysis.py:46-53 | On a flat close series MACD, signal and histogram are all 0 |
| Indicators.Tema | market_analysis.py:209-213 | TEMA has the input's length |
| Indicators.TemaFlat | market_analysis.py:209-213 | On a flat series `3·e1 − 3·e2 + e3` equals the series |
| Indicators.SampleVariance | market_analysis.py:56-62 | The rolling variance (denominator `n-1`) is non-negative |
| Indicators.BollingerBands | market_analysis.py:56-62 | The three bands have the input's length and are defined together, exactly from row `p-1` |
| Indicators.BandsOrdered | market_analysis.py:56-62 | With a true square root and `k >= 0`: lower ≤ middle ≤ upper wherever defined |
| Indicators.FastK | market_analysis.py:65-73 | `%K` has the input's length and is NaN before row `p-1` |
| Indicators.FastKBounds | market_analysis.py:65-73 | On well-formed candles `%K` lies in `[0, 100]` wherever defined |
| Indicators.CalculateStochastic | market_analysis.py:65-73 | `%K` and `%D` have the input's length |
| Indicators.TrueRange | market_analysis.py:76-83 | True range ≥ high − low on every row, and ≥ 0 after row 0 |
| Indicators.Atr | market_analysis.py:76-83 | ATR is defined exactly from row `p-1` |
| Indicators.AtrNonNegative | market_analysis.py:76-83 | On well-formed candles ATR is non-negative |
| Indicators.PlusDm | market_analysis.py:86-113 | `+DM` is non-negative and has the input's length |
| Indicators.MinusDm | market_analysis.py:86-113 | `-DM` is non-negative and has the input's length |
| Indicators.DirectionalIndex | market_analysis.py:86-113 | `±DI` has the input's length |
| Indicators.DirectionalIndexNonNegative | market_analysis.py:86-113 | With non-negative DM and ATR, every defined `±DI` is non-negative |
| Indicators.Dx | market_analysis.py:86-113 | DX is defined only where both `+DI` and `-DI` are |
| Indicators.DxBounds | market_analysis.py:86-113 | `100·|a−b|/(a+b)` lies in `[0, 100]` for non-negative `a`, `b` |
| Indicators.DxWithin | market_analysis.py:86-113 | DX of non-negative indicators lies in `[0, 100]` |
| Indicators.DxSeries | market_analysis.py:86-113 | The DX column has the input's length |
| Indicators.DxSeriesBounds | market_analysis.py:86-113 | On well-formed candles every defined DX lies in `[0, 100]` |
| Indicators.Adx | market_analysis.py:86-113 | ADX has the input's length |
| Indicators.AdxLateStart | market_analysis.py:86-113 | ADX is NaN before row `2·(p−1)`: it averages a DX that itself needs a full window |
| Indicators.AdxBounds | market_analysis.py:86-113 | On well-formed candles ADX lies in `[0, 100]` wherever defined |
| Indicators.TypicalPrice | market_analysis.py:116-132 | The typical price has the input's length |
| Indicators.DirectedFlow | market_analysis.py:116-132 | The positive and negative money-flow columns have the input's length |
| Indicators.Mfi | market_analysis.py:116-132 | MFI has the input's length and is NaN before row `p-1` |
| Indicators.DirectedFlowNonNegative | market_analysis.py:119-122 | With non-negative typical prices and volumes, both the rising and the falling money flow are non-negative on every row |
| Indicators.MfiBounds | market_analysis.py:116-132 | On well-formed candles MFI lies in `[0, 100]` wherever defined |
| Indicators.Sar | market_analysis.py:135-143 | SAR has the input's length and starts at the first low |
| Indicators.CalculateSar | market_analysis.py:135-143 | The in-place loop produces exactly `sar[0] = low[0]`, `sar[i] = sar[i-1] + 0.02·(high[i-1] − sar[i-1])` |
| Indicators.SarWithin | market_analysis.py:135-143 | SAR stays within any range that holds the first low and every high |
| Indicators.Obv | market_analysis.py:218-227 | OBV has the input's length and starts at 0 |
| Indicators.CalculateObv | market_analysis.py:218-227 | The append loop produces exactly the running sum of +volume / −volume / 0 by close direction |
| Indicators.ObvBounded | market_analysis.py:218-227 | With non-negative volume, `|OBV[i]|` is at most the volume traded in rows 1..i |
| Indicators.ObvFlat | market_analysis.py:218-227 | On a flat close series OBV stays 0 |
| Indicators.ClvBounds | market_analysis.py:229-232 | On a well-formed candle the close location value lies in `[-1, 1]` |
| Indicators.Ad | market_analysis.py:229-232 | AD has the input's length |
| Indicators.FlowVolumeBounds | market_analysis.py:230-232 | On a well-formed candle, the CLV-weighted volume a row adds to AD lies between minus its volume and its volume |
| Indicators.AdBounded | market_analysis.py:229-232 | On well-formed candles `|AD[i]|` is at most the volume traded up to row `i` |
| Indicators.Natr | market_analysis.py:240-241 | NATR has the input's length, is defined exactly where ATR is and the close is non-zero, and is non-negative for a non-negative ATR and a positive close |
| Indicators.Enrich | market_analysis.py:145-243 | The enriched frame has the input's length and keeps every candle |
| Indicators.PopulateIndicators | market_analysis.py:150-153 | A missing frame stays missing and an empty one stays empty; otherwise it is a new frame of the same length whose candles are the input's |
| Signals.RsiVote | market_analysis.py:267-283 | RSI votes iff it is defined, with budget 2, on one side only: +2 buy under 30, +1 buy on [30,40), +2 sell over 70, +1 sell on (60,70] |
| Signals.CrossoverVote | market_analysis.py:285-301 | A MACD or EMA vote is +2 only on a crossover since the previous row (NaN comparisons are false), else +1 by the current relation; it votes iff both lines are defined |
| Signals.BollingerVote | market_analysis.py:303-319 | Bands vote iff both bands are defined: below the lower band is +2 buy, `%b < 0.2` +1 buy, above the upper band +2 sell, `%b > 0.8` +1 sell, tested in that order |
| Signals.MfiVote | market_analysis.py:339-349 | MFI votes iff defined, with budget 1: buy under 20, sell over 80 |
| Signals.TrendStrength | market_analysis.py:351-358 | ADX only labels the trend: STRONG above 25, MODERATE above 20 up to 25, WEAK at or below 20, none when NaN, each as an iff |
| Signals.Votes | market_analysis.py:262-349 | There are five families, each fair (one side, within its budget), with total budget ≤ 9 |
| Signals.Tally | market_analysis.py:262-349 | The total is the sum of the budgets of the families that voted, and with fair votes `buy + sell ≤ total` |
| Signals.StrengthOfTally | market_analysis.py:361-375 | With `buy + sell ≤ total`, `min(|net|/max_possible, 1)` is exactly `|net|/(2·total)`, lies in `[0, 0.5]`, and is 0 iff `net = 0` |
| Signals.Decide | market_analysis.py:361-375 | The signal is +1 iff `buy > sell` and −1 iff `sell > buy`; the strength lies in `[0, 0.5]` and is 0 iff the signal is 0; the decision follows the signal |
| Signals.TallyOf | market_analysis.py:258-349 | On the last two rows, `buy + sell ≤ total ≤ 9` |
| Signals.GenerateSignals | market_analysis.py:245-385 | Fewer than 2 rows give `(0, 0.0, {})`. Otherwise the signal has the sign of `buy − sell` and strength `|net|/(2·total)`, always in `[0, 0.5]` and 0 iff the signal is 0; the details carry the counts and the decision |
| Signals.FullStrengthIff | market_analysis.py:361-375 | The strength reaches 0.5 exactly when some family voted and all votes went to one side with full budgets |
| Signals.AdxDoesNotVote | market_analysis.py:351-358 | Changing the last row's ADX changes neither the signal nor the strength |
| Signals.PredictDirection | market_analysis.py:387-403 | Direction is UP iff the signal is 1, DOWN iff −1, else SIDEWAYS; confidence = strength·100 ∈ `[0, 50]` |
| Signals.AnalyzeCandles | market_analysis.py:145-385 | Enriching then scoring a candle frame gives a strength in `[0, 0.5]`, and `(0, 0.0, {})` for fewer than 2 candles |
| TradingBot.ConfigOf | trading_bot.py:43-49 | Each missing setting takes its default: 3 trades, 100, 2.0 %, 5.0 %, 60 s, `['BTC/USDT']`, `5m` |
| TradingBot.Bot.constructor | trading_bot.py:22-51 | A new bot is stopped, with no position and no history |
| TradingBot.Bot.Start | trading_bot.py:54-66 | After `start`, `running` holds and the positions and history are unchanged |
| TradingBot.Bot.Stop | trading_bot.py:68-79 | After `stop`, `running` is false and the positions and history are unchanged |
| TradingBot.Opened | trading_bot.py:145-165 | A zero price opens nothing (the division raises); otherwise the position has the symbol, entry price and strength |
| TradingBot.OpenedLevels | trading_bot.py:145-156 | With price > 0 and percentages in range: 0 < stop-loss < entry < take-profit, `amount·price = trade_amount`, and a positive amount |
| TradingBot.OpenPosition | trading_bot.py:134-183 | `_execute_buy` on the last close: either nothing changes (no rows, zero price) or the position is set and exactly one BUY record is appended; validity is kept |
| TradingBot.Bot.ExecuteBuy | trading_bot.py:134-183 | The method's new state is `OpenPosition` of the old state |
| TradingBot.SellRecord | trading_bot.py:255-274 | The SELL record carries `pnl = (price − entry)·amount`, negative iff the price fell (for a positive amount) |
| TradingBot.RecordSell | trading_bot.py:243-277 | `_execute_sell` appends exactly one SELL record, or nothing when the symbol is unknown or the entry is 0; positions stay |
| TradingBot.Bot.ExecuteSell | trading_bot.py:243-277 | The method's new state is `RecordSell` of the old state |
| TradingBot.ExitOf | trading_bot.py:195-234 | A position closes at the ticker price on stop-loss; failing that on take-profit; failing that on a strong SELL signal. It stays open with no ticker or a zero entry price |
| TradingBot.CheckPass | trading_bot.py:192-237 | The check's loop closes exactly the positions `ExitOf` closes, listed in `syms` order (the filter `Without(syms, Staying)`), and records for each one the SELL entry at the exit's price and reason |
| TradingBot.Check | trading_bot.py:185-241 | With no positions nothing changes. Otherwise the positions left are exactly those not closed, unchanged, and the history gains exactly the pass's SELL entries |
| TradingBot.Bot.CheckOne | trading_bot.py:195-234 | One loop turn sells iff `ExitOf` gives a reason, and reports whether it did |
| TradingBot.Bot.CheckActiveTrades | trading_bot.py:185-241 | The method's new state is `Check` of the old state |
| TradingBot.Bot.RemoveClosed | trading_bot.py:240-241 | The deletion loop removes exactly the closed symbols and keeps the order of the rest |
| TradingBot.ScanStep | trading_bot.py:107-132 | When the scan buys (`Buys`: unheld, candles with a non-zero last close, a strong BUY) the symbol is added with the opened position, appended to the order, with one BUY entry; in every other case the book is unchanged |
| TradingBot.Scan | trading_bot.py:103-132 | A scan keeps every existing position and only adds positions for listed symbols |
| TradingBot.Bot.ScanOpportunities | trading_bot.py:103-132 | The method's new state is `Scan` of the old state over the configured symbols |
| TradingBot.Cycle | trading_bot.py:86-94 | One cycle keeps the state valid: one position per symbol, stored under its own key |
| TradingBot.Bot.RunCycle | trading_bot.py:86-94 | The method's new state is `Cycle` of the old state |
| TradingBot.CycleKeepsHistory | trading_bot.py:173-180 | The trade history is append-only across a cycle |
| TradingBot.CycleGate | trading_bot.py:91-92 | When the check leaves `max_trades` or more positions, the cycle opens nothing |
| TradingBot.ScanGrowth | trading_bot.py:107-111 | A scan adds at most one position per listed symbol |
| TradingBot.OneCycleCanExceedMaxTrades | trading_bot.py:91-92 | With `max_trades = 1` and two strong BUYs, one cycle ends with two positions |
| TradingBot.WeakAnalyzerNeverBuys | trading_bot.py:128 | An analyzer whose strength stays under 0.6 never opens a position |
| TradingBot.WeakAnalyzerNeverSignalExits | trading_bot.py:231 | An analyzer whose strength stays under 0.6 never closes on a signal |
| TradingBot.MarketAnalyzer | trading_bot.py:122-128 | The repository's analyzer never reaches strength 0.6 |
| TradingBot.RealAnalyzerIsInert | trading_bot.py:125-232 | With that analyzer a cycle is exactly the price check, with no SIGNAL exit |
| TradingBot.StopLossScenario | trading_bot.py:212-216 | A position bought at 100 with a 98 stop, seen at 97, is closed with P&L −3 (−3 %) and deleted |
| TradingBot.Without | trading_bot.py:240-241 | Deleting keys keeps exactly the other keys and no repeats |
| TradingBot.RemovalKeepsValid | trading_bot.py:240-241 | Deleting keys leaves a valid state |
| TradingBot.WinsAndLosses | trading_bot.py:299-301 | Every closed trade is either a win or a loss: `wins + losses = #SELL` |
| TradingBot.SellRecords | trading_bot.py:299 | The SELL records are the history's SELL entries, each with its multiplicity |
| TradingBot.GetStatistics | trading_bot.py:287-312 | Empty history gives zeros. Otherwise `total_trades` counts the SELL records, wins and losses count the positive and the other P&Ls, `total_pnl` is their sum, and with sells the win rate is `wins/total·100` (in `[0, 100]`) and `avg_pnl` is `total_pnl/total` |
| TradingBot.Bot.GetActiveTrades | trading_bot.py:279-281 | The positions are returned as a value, so later changes to the bot do not reach it |
| TradingBot.Bot.GetTradeHistory | trading_bot.py:283-285 | The history is returned as a value |
| Markets.GetSupportedExchanges | data_provider.py:262-265 | The exchange table is returned as a value; it includes `binance` |
| Markets.GetSupportedTimeframes | data_provider.py:267-270 | The timeframe table is returned as a value: eight entries, with the bot's default `5m` |
| Markets.ExchangeId | data_provider.py:55 | The stored exchange id is the name lower-cased: same length, no upper-case letter, other characters kept |
| Markets.ExchangeIdIdempotent | data_provider.py:55 | Lower-casing a stored id again changes nothing |
| Markets.ActiveSymbols | data_provider.py:97-101 | A symbol is kept iff its `active` entry is true or missing; with unique dictionary keys no symbol is listed twice |
| Markets.AvailableMarkets | data_provider.py:83-107 | The result is sorted and is a permutation of the active symbols; a missing table gives `[]` |
| Markets.AvailableMarketsOrderFree | data_provider.py:103 | Two tables with the same active symbols give the same list |
| Markets.Matching | data_provider.py:211-215 | The result keeps exactly the markets whose upper-cased symbol contains the upper-cased query, never more of one than the input, and sorted input stays sorted |
| Markets.SearchSymbols | data_provider.py:197-221 | Search returns exactly the available markets that match, still sorted |
| Markets.EmptyQueryMatchesAll | data_provider.py:209-215 | The empty query returns every market |
| Markets.SearchIgnoresCase | data_provider.py:209-215 | Upper- or lower-casing the query does not change the result |
| Markets.CategoryOf | data_provider.py:242-254 | The first marker found wins: each category holds iff its marker is present and none of the earlier ones (USDT, BTC, ETH, USD, EUR), and Other iff none is |
| Markets.UsdtContainsUsd | data_provider.py:243-250 | Every `/USDT` symbol also contains `/USD`, so the test order matters |
| Markets.InCategory | data_provider.py:242-254 | A category list holds exactly the markets of that category, in order |
| Markets.CategoriesPartition | data_provider.py:242-254 | The six lists together are as long as the input: every market is in exactly one |
| Markets.GetMarketCategories | data_provider.py:223-256 | The loop yields exactly the six keys, each mapped to its category's markets in order |
| Markets.GroupByCategory | data_provider.py:233-254 | Starting from the six empty lists, the loop leaves each category name holding exactly the markets of that category, in their original order |
| Gui.ExchangeIdOf | gui_main.py:1061 | A missing or empty exchange id becomes `binance`; any other is lower-cased |
| Gui.GetTradeUrl | gui_main.py:1056-1083 | For crypto, by the first matching id test: Binance spot with `/`→`_`, bybit with `/`→`_`, okx with the lower-cased symbol, kraken's chart page, else Binance spot. A stock goes to the chart URL, forex to the FX chart with `/` removed, any other type to `""` |
| Gui.FuturesBranchUnreachable | gui_main.py:1066-1069 | The `binanceusdm` futures branch is never taken |
| Gui.NoUrlIff | gui_main.py:1078-1083 | The URL is empty iff the asset type is neither crypto, stock nor forex |
| Gui.UnknownExchangeFallsBack | gui_main.py:1063-1076 | An unrecognised exchange opens the same page as the default one |
| Gui.AddUnique | gui_main.py:850-851 | A non-empty new entry is appended; an empty or present one leaves the list as it was; no duplicates and no empty entry appear |
| Gui.AddUniqueIdempotent | gui_main.py:850-851 | Adding the same entry twice is the same as adding it once |
| Gui.ForexText | gui_main.py:879 | A normalised forex text has no space and no lower-case letter |
| Gui.AddForexPair | gui_main.py:877-883 | The text is appended only if non-empty, has a `/` and is new. Duplicates never appear, and every listed pair stays non-empty, upper-case, space-free and with a `/` |
| Gui.Window.AddFavoriteMarket | gui_main.py:847-852 | The favourites list is updated by `AddUnique`, and nothing else changes |
| Gui.Window.AddStockSymbol | gui_main.py:862-868 | The stripped, upper-cased text is added by `AddUnique`; the input box is cleared iff the list changed |
| Gui.Window.AddForexPairText | gui_main.py:877-883 | The forex list is updated by `AddForexPair`; the input box is cleared iff the list changed |
| Gui.ItemsOf | gui_main.py:903-920 | Each item keeps its symbol and type, and is checked iff the allow-set is empty or contains the symbol |
| Gui.Window.RefreshAutotradeList | gui_main.py:892-922 | The autotrade list becomes the crypto, stock and forex items in that order |
| Gui.CheckedOf | gui_main.py:1160-1171 | The collected symbols of a type are exactly those of its checked items |
| Gui.CheckedOfAppend | gui_main.py:1160-1171 | Collection distributes over concatenation, so order is preserved |
| Gui.Allowed | gui_main.py:907 | With an empty allow-set every symbol is admitted, otherwise exactly those in the set |
| Gui.CheckedOfItems | gui_main.py:903-920 | Collecting one type's refreshed items gives its admitted symbols, and gives nothing for any other type |
| Gui.RefreshThenCollect | gui_main.py:892-922 | Collecting right after a refresh gives, per type, the admitted symbols in list order |
| Gui.Window.CollectAutotrade | gui_main.py:1156-1171 | The loop collects exactly the checked crypto, stock and forex symbols, in order |
| Gui.Window.OnTradeSignal | gui_main.py:1031-1054 | The order is queued at the end and becomes the last order; the browser is sent to its trade URL unless that is empty |
| Gui.Window.OpenPendingOrder | gui_main.py:1085-1097 | A row outside the list, or an order with no URL, opens nothing; otherwise the URL is the order's trade URL |
| Gui.Window.OpenLastOrder | gui_main.py:1099-1109 | Without a last order, with an empty order dictionary, or when its URL is empty, nothing opens; otherwise the URL is its trade URL |
| Strings.Upper | gui_main.py:864 | `upper()`: same length, each lower-case letter replaced by its capital, other characters kept |
| Strings.Lower | data_provider.py:55 | `lower()`: same length, each capital replaced by its lower-case letter, other characters kept |
| Strings.Strip | gui_main.py:864 | `strip()` is the slice `s[lo..hi]` with only whitespace before `lo` and after `hi`, and no whitespace at either end of the result |
| Strings.ReplaceChar | gui_main.py:1065 | `replace('/', '_')` keeps the length and swaps every occurrence |
| Strings.RemoveChar | gui_main.py:1081 | `replace(c, '')` leaves no `c`, is no longer than its input, and contains exactly the input's characters other than `c` |
| Strings.RemoveCharMultiset | gui_main.py:1081 | Every character other than `c` keeps its multiplicity, and `c` occurs zero times |
| Strings.RemoveCharAppend | gui_main.py:1081 | Removing a character distributes over concatenation, so the kept characters stay in their order |
| Strings.RemoveCharSingle | gui_main.py:1081 | A single character is dropped iff it is the removed one |
| Strings.Sort | data_provider.py:103 | `sorted` gives an ordered permutation |
| Strings.SortedUnique | data_provider.py:103 | Two sorted lists with the same elements are equal |
| Strings.StrLeTotal | data_provider.py:103 | Python string order is total |
| Strings.StrLeTransitive | data_provider.py:103 | Python string order is transitive |
| Strings.StrLeAntisymmetric | data_provider.py:103 | Python string order is antisymmetric |
| Strings.ContainsSubstring | data_provider.py:243-250 | A string contains every substring of what it contains |

## Left out

- Threads, timers and signals: `Thread`, `Event.wait`, `join` and the `_run_loop` wait. One loop iteration is `TradingBot.Bot.RunCycle`, and `start`/`stop` only set the flag. The loop's retry after an exception is not modelled, because every modelled error is caught where the source catches it.
- Network and the exchange library:
  - ccxt calls (`load_markets`, `fetch_ohlcv`, `fetch_ticker`) and `getattr(ccxt, …)`;
  - the DataFrame construction and timestamp conversion in `get_ohlcv_data`.
  - Candles, tickers and the market table are parameters. The candle fetch's `timeframe` and `limit` arguments are not, because the model's `ohlcv` function takes a symbol only.
- Qt: widgets, message boxes, the web view, the JavaScript order injection (`inject_order_into_browser`), removing list rows and the log.
- `config_manager.py` (JSON files, encryption): settings arrive as values (`TradingBot.Settings`, the exchange id of `Gui.GetTradeUrl`, the lists of `RefreshAutotradeList`). `start_trading_bot` writing the collected lists back to the configuration is not modelled.
- IEEE floating point: the model uses exact `real`. `inf` and NaN become `None`; the only exception is the infinite ratio in RSI and MFI, which gives 100 as in pandas. The `:.2f` and `signal_strength` string formatting, timestamps and logging are left out too.
- The square root inside the rolling standard deviation is the `sqrt` parameter. Results that depend on its values assume `IsSqrt`.
- Indicators.Clv: is forced to 0 whenever high = low. pandas' `fillna(0)` only fills the 0/0 case, so a malformed candle with high = low ≠ close would give ±inf there. The two agree on every well-formed candle.
- Indicators.Ema: requires `span >= 1`, as pandas does for `ewm(span=…)`.
- Signals.GenerateSignals: takes a frame, so the `dataframe is None` test is not modelled. A missing frame gets the same answer as a frame with fewer than two rows.
- Signals.Details: leaves out `signal_strength`, the formatted strength text.
- Strings.Upper: case mapping and `strip` whitespace are ASCII only; Python's Unicode case tables are not modelled.
- TradingBot.Position: leaves out the constant `side`, `type` and `status` entries and the timestamp. Records carry no timestamp.
- TradingBot.ExitOf: a ticker without a `last` price is the same as no ticker, because the source's arithmetic then raises and the position is skipped.
- `data_provider.py`'s `get_ticker` field copying and `get_ohlcv_data` coercion are not modelled, because they are data marshalling over the exchange library.
- Cross-file mismatches are not modelled as features. `gui_main.py` imports asset-type constants and a detection function that `data_provider.py` does not define, so asset types are a closed enumeration. It also passes an `on_trade_signal` argument that `TradingBot.__init__` does not accept, so the bot model has no callback.
- `Markets.GetMarketCategories`: the `except` branch returning `{}` cannot be reached in the model, because classifying a string cannot fail.
- The repository's documentation calls `max_trades` a limit that the open positions never exceed. The code tests it once per cycle, and the model follows the code (`TradingBot.OneCycleCanExceedMaxTrades`).
- The documented strength range is 0.0 to 1.0. The code never exceeds 0.5, and the model proves the tighter bound (`Signals.GenerateSignals`).
- `build.py` and `test_analyzer.py`: packaging, and a script that needs network access.
