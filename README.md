# Transaction-cost core of the OKX L2 trade simulator

The simulator streams level-2 order book snapshots for one OKX instrument and
estimates, for a market BUY of a given USD quantity, what the order would cost:

- the expected taker **fee**, read from the OKX fee-tier table;
- the **slippage**, found by walking the ask ladder of the current book and
  comparing the average execution price with a reference price;
- the **market impact**, estimated with a closed-form model
  `C x volatility x (order / daily volume) x order`;
- the **net cost**, which is the sum of the three.

It also shows the processing latency and a maker/taker label, and keeps a
sample buffer for a slippage regression model.

This project models that core in Dafny and proves what it promises.

| file | module | models |
|---|---|---|
| `wrappers.dfy` | `Wrappers` | `Option`: Python's `None` versus a value |
| `config.dfy` | `Config` | the OKX taker fee table, the default taker rate, the fee-tier selector options |
| `order_book.dfy` | `OrderBook` | a book snapshot: asks ascending, bids descending; best ask, best bid, spread |
| `estimators.dfy` | `Estimators` | the expected fee and the market-impact estimate |
| `slippage.dfy` | `Slippage` | the walk-the-book slippage: a specification function `SlippageWalk`, the imperative walk `CalculateSlippageWalkBook` and its loop `WalkAsks` proved against it, and lemmas about it |
| `walk_scenarios.dfy` | `WalkScenarios` | the hand-worked walk examples beside the calculation, as lemmas |
| `regression.dfy` | `Regression` | the `SlippageRegressionModel` class: sample buffer, training state, prediction |
| `simulator_app.dfy` | `SimulatorApp` | the window as a class: the recalculation of every output, and the status messages that drive the connection flag; each method is proved against a specification function (`Recalculated`, `AfterStatus`, `PanelAfterStatus`) |
| `app_properties.dfy` | `AppProperties` | what a recalculation shows and stores, and what the connection flag means after any run of status messages |

Displayed strings are abstract tags (`Display`). A number keeps its exact
value instead of its four-decimal text.

Three behaviours of the source that the proofs bring out:

- **Slippage on a crossed book.** The walk measures slippage against the best
  ask when the book is crossed (best ask <= best bid;
  `src/financial_calculations.py:66-71`). The window prices the slippage cost
  in USD against the plain mid of best ask and best bid, with no crossed-book
  fallback (`src/main_app.py:267-270`). On a crossed book the two disagree:
  the slippage can show +5% while the slippage cost, and so the net cost,
  counts -10 USD (`AppProperties.CrossedBookSlippageDisagrees`). On a book
  that is not crossed they agree (`AppProperties.SlippageCostMatchesPercent`),
  and, when the ask ladder is also ascending with positive prices, the cost is
  never negative (`AppProperties.SlippageCostNonNegative`).
- **Two unreachable slippage labels.** Whenever the walk reports no
  percentage, it reports 0 units bought, although up to 1e-9 units, and the
  USD they cost, may have been spent. So on valid inputs the slippage field
  never shows "Error/No Trade" (`src/main_app.py:280-281`). The zero-quantity
  branch that would show "0.0000%" (`src/main_app.py:278-279`) is not reached
  either, because a zero budget always reports a 0% slippage
  (`AppProperties.SlippageDisplayDecision`).
- **The 1e-9 thresholds.** The walk stops as soon as at most 1e-9 USD of the
  budget is left (`src/financial_calculations.py:85`). It reports no price
  when it bought at most 1e-9 units (`src/financial_calculations.py:106-110`).
  Two consequences follow:
  - A budget covering the ladder's whole notional is guaranteed to buy every
    level when every level costs more than 1e-9 USD; otherwise a dust level can
    be left. On the ascending asks (100, 1), (200, 1e-12), a budget of
    100 + 2e-10 USD buys exactly 1 unit for 100 USD
    (`WalkScenarios.DustLevelLeft`).
  - A positive order too small to buy more than 1e-9 units reports no slippage
    at all, while a zero order reports 0% and a larger one reports a
    percentage (`WalkScenarios.TinyOrderReportsNoSlippage`). So the slippage is
    not monotone over all budgets. Once a budget reports a price on an
    ascending ladder, every larger budget reports one too and never lowers
    the average price or the slippage (`Slippage.AveragePriceMonotone`).

## Model

| member | source | states |
|---|---|---|
| `Config.TierNames` | src/config.py:6-22 | the fee table's twelve tier names: three regular levels, eight VIP tiers and "Custom", all distinct |
| `Config.FeeTableMatchesSelector` | src/config.py:6-22 | the fee table has exactly one entry per option of the fee-tier selector (src/main_app.py:104-105), twelve in all |
| `Config.DefaultRateShared` | src/config.py:8-25 | the default taker rate is 0.10%, and both "Regular User LV1" and "Custom" charge exactly that |
| `Config.VipRatesStepDown` | src/config.py:12-19 | VIP tier n is in the table and charges 0.0009 - 0.0001 n |
| `Config.VipRatesStrictlyDecrease` | src/config.py:12-19 | a higher VIP tier always charges strictly less than a lower one |
| `Config.RegularLevelsOrdered` | src/config.py:8-12 | the regular levels strictly decrease LV1 > LV2 > LV3, and LV3 charges what VIP 1 charges |
| `Config.AllRatesBounded` | src/config.py:6-25 | every tier has a taker rate in [0.01%, 0.10%], and so does the default |
| `Estimators.TakerRate` | src/financial_calculations.py:25-30 | a tier that is in the table and has a "taker" entry pays that entry; every other tier pays the default rate |
| `Estimators.UnknownTierPaysDefault` | src/financial_calculations.py:25-31 | a tier that is not in the table is charged quantity x default rate |
| `Estimators.ExpectedFee` | src/financial_calculations.py:20-32 | a negative quantity is charged 0; otherwise, for any tier name, the fee lies between 0.01% and 0.10% of the quantity. `UnknownTierPaysDefault`, `FeeUnderBoundedTable` and `FeeIsAdditive` state the rest of its meaning |
| `Estimators.FeeUnderBoundedTable` | src/financial_calculations.py:20-32 | for any fee table whose rates and default lie in [0.0001, 0.0010], the fee on a non-negative quantity lies within those fractions of it |
| `Estimators.FeeIsAdditive` | src/financial_calculations.py:31 | the fee is linear: fee(a + b) = fee(a) + fee(b) for non-negative a, b at the same tier |
| `Estimators.DailyVolume` | src/financial_calculations.py:144-147 | the daily volume is always positive: the configured one when it is positive, else the 1 000 000 000 USD fallback |
| `Estimators.MarketImpactCost` | src/financial_calculations.py:138-142 | the estimate is missing exactly when the order or the volatility is negative |
| `Estimators.ImpactIsQuadratic` | src/financial_calculations.py:150-156 | for valid inputs the impact equals (C x volatility / daily volume) x order², including 0 for an empty order |
| `Estimators.ImpactScalesWithSquare` | src/financial_calculations.py:141-156 | scaling the order by k scales the impact by k² |
| `Estimators.ImpactMonotone` | src/financial_calculations.py:141-156 | with a non-negative coefficient the impact is non-negative and never decreases as the order grows |
| `OrderBook.BestAsk` | src/financial_calculations.py:234 | missing exactly when there are no asks; on an ascending ladder it is an ask priced at or below every ask |
| `OrderBook.BestBid` | src/financial_calculations.py:235 | missing exactly when there are no bids; on a descending ladder it is a bid priced at or above every bid |
| `OrderBook.Spread` | src/financial_calculations.py:236-239 | present exactly when both best levels are, and then best bid + spread = best ask |
| `OrderBook.SpreadPositiveUnlessCrossed` | src/financial_calculations.py:236-239 | on a two-sided book the spread is positive exactly when the best ask is above the best bid |
| `Slippage.ReferencePrice` | src/financial_calculations.py:63-71 | on a crossed book the reference is the best ask; otherwise it lies strictly between best bid and best ask, equidistant from both |
| `Slippage.WalkFrom` | src/financial_calculations.py:84-101 | the walk never spends more than a non-negative budget, and on positive levels it buys and spends non-negative amounts |
| `Slippage.WalkAsks` | src/financial_calculations.py:77-101 | the loop buys exactly the units and spends exactly the USD of the specification `WalkFrom` |
| `Slippage.CalculateSlippageWalkBook` | src/financial_calculations.py:34-119 | the method returns exactly `SlippageWalk(target, book)`, the specification that the walk lemmas below describe |
| `Slippage.Sentinels` | src/financial_calculations.py:53-75 | the three early exits: a budget <= 0 gives (0%, no price, 0, 0); a one-sided book or a non-positive reference gives (none, no price, 0, 0) |
| `Slippage.AveragePriceIdentity` | src/financial_calculations.py:106-119 | a price is reported exactly when the early exits pass and more than 1e-9 units are bought; then price x units = USD spent and the slippage is (price - reference) / reference x 100; with no price the units reported are 0 |
| `Slippage.UnfillableIff` | src/financial_calculations.py:53-110 | the slippage is missing exactly when a trade was attempted and the book is one-sided, or the reference is not positive, or USD went out with no more than 1e-9 units back |
| `Slippage.SpendWithinBudget` | src/financial_calculations.py:84-101 | on positive prices the units and USD reported are non-negative, a positive budget is never exceeded, and a non-positive budget spends nothing |
| `Slippage.StopsOnlyWhenSpentOrExhausted` | src/financial_calculations.py:84-101 | the walk ends only when every remaining level was bought whole or the budget is spent to within 1e-9 |
| `Slippage.ExhaustsLadder` | src/financial_calculations.py:84-101 | on a ladder of positive prices where every level costs more than 1e-9 USD, a budget covering the whole notional buys every level whole: units = total depth, USD = total notional |
| `Slippage.ExhaustingTheBook` | src/financial_calculations.py:84-112 | on a well-formed two-sided book where every ask level costs more than 1e-9 USD and the total depth exceeds 1e-9 units, a budget covering the whole notional reports the total depth and notional, at their ratio as the average price |
| `Slippage.SpendBetweenPriceBounds` | src/financial_calculations.py:84-101 | when every level from the walk's starting level to the end of the ladder is priced in [lo, hi], the USD spent lies between lo and hi times the units bought |
| `Slippage.AveragePriceWithinLadder` | src/financial_calculations.py:112 | on an ascending ladder of positive prices the average execution price lies between the best and the deepest ask |
| `Slippage.SlippageSign` | src/financial_calculations.py:112-115 | on such a ladder a reported slippage is never negative, and it is strictly positive when the walk fills on a book that is not crossed |
| `Slippage.LargerBudgetContinues` | src/financial_calculations.py:84-101 | on an ascending ladder of positive prices, the walk with the larger budget buys at least as many units; every unit the smaller walk buys costs at most some price that every extra unit costs at least |
| `Slippage.AveragePriceMonotone` | src/financial_calculations.py:84-115 | on an ascending ladder of positive prices, when t1 <= t2 and t1 reports a price, t2 reports one too, avg(t1) <= avg(t2) and slippage(t1) <= slippage(t2) |
| `WalkScenarios.SpendWithinFirstLevel` | src/financial_calculations.py:247-253 | 101 USD on asks (101, 10), (102, 5) over bid 100 buys 1 unit at 101, a slippage of 100/201 % |
| `WalkScenarios.SpendAcrossLevels` | src/financial_calculations.py:255-267 | 400 USD on asks (101, 2), (102, 3), (103, 5) buys 2 + 198/102 units for 400 USD, average 6800/67, slippage 13300/13467 % |
| `WalkScenarios.ExhaustLadder` | src/financial_calculations.py:269-277 | 1500 USD on the same ladder buys all 10 units for 1023 USD, average 102.3, slippage 120/67 % |
| `WalkScenarios.SpendNothing` | src/financial_calculations.py:279-281 | a zero budget gives 0% slippage, no price, no units and no spend |
| `WalkScenarios.TinyOrderReportsNoSlippage` | src/financial_calculations.py:106-110 | 0.00000005 USD on asks (101, 10), (102, 5) spends its budget but buys at most 1e-9 units, so it reports no slippage and no price; 0 USD reports 0% and 101 USD a percentage |
| `WalkScenarios.DustLevelLeft` | src/financial_calculations.py:84-101 | on the ascending asks (100, 1), (200, 1e-12), whose notional is 100 + 2e-10 USD and depth 1 + 1e-12 units, a budget of exactly that notional buys 1 unit for 100 USD: at most 1e-9 USD is left after the first level, so the walk stops before the dust level |
| `WalkScenarios.EmptyAsks` | src/financial_calculations.py:283-285 | with no asks the slippage and the price are missing, with no units and no spend |
| `Regression.SlippageRegressionModel.constructor` | src/financial_calculations.py:165-171 | a fresh model has empty, parallel buffers, is untrained, holds no fit, and keeps the given threshold and dimension |
| `Regression.SlippageRegressionModel.AddDataPoint` | src/financial_calculations.py:174-179 | a vector of the configured dimension is appended with its target; any other vector leaves both buffers alone; the training state never changes; the buffers stay parallel |
| `Regression.SlippageRegressionModel.Train` | src/financial_calculations.py:186-208 | training succeeds exactly when the buffer has reached the threshold and the fit succeeds; the trained flag equals the result; a success installs the fit, which has one coefficient per feature; a failure keeps the previous fit; the samples are never touched |
| `Regression.SlippageRegressionModel.Predict` | src/financial_calculations.py:210-223 | no prediction when untrained or for a vector of the wrong dimension; a valid trained model predicts for every vector of the configured dimension, and the prediction is the fit's intercept plus its coefficients · features |
| `Regression.NoPredictionBelowThreshold` | src/financial_calculations.py:186-190 | a model whose buffer is below the threshold never predicts |
| `Regression.TrainedPredicts` | src/financial_calculations.py:210-220 | a valid trained model predicts intercept + coefficients · features for every vector of the configured dimension |
| `SimulatorApp.MidPrice` | src/main_app.py:267-268 | the mid is equidistant from best bid and best ask |
| `SimulatorApp.SlippageCostUsd` | src/main_app.py:267-270 | the slippage cost is 0 when nothing was bought, and otherwise the cost plus the mid value of the units bought is the USD spent |
| `SimulatorApp.TradingSimulatorApp.constructor` | src/main_app.py:22-59 | default inputs (100 USD, volatility 0.02, "Regular User LV1", BTC-USDT-SWAP), every output "N/A", nothing stored, the flag down |
| `SimulatorApp.TradingSimulatorApp.StartConnection` | src/main_app.py:379-382 | starting a connection shows "Connecting" and lowers the flag |
| `SimulatorApp.TradingSimulatorApp.RecalculateAllOutputs` | src/main_app.py:191-344 | the panel after a run is `Recalculated` of the panel before it, the inputs and the current book; the `AppProperties` lemmas state what that shows and stores |
| `SimulatorApp.TradingSimulatorApp.ClearStoredResults` | src/main_app.py:195-201 | the six stored results are forgotten and the displays are kept |
| `SimulatorApp.TradingSimulatorApp.ShowEarlyExit` | src/main_app.py:207-238 | an early exit sets the four given cost fields and shows no latency; the maker/taker label and the stored results are kept |
| `SimulatorApp.TradingSimulatorApp.WalkForSlippage` | src/main_app.py:243-282 | the slippage block's display, stored walk results and USD cost are exactly `SlippageStep` of the quantity and the current book |
| `SimulatorApp.TradingSimulatorApp.ShowSlippage` | src/main_app.py:251-282 | the slippage field and the four stored walk results become the outcome's |
| `SimulatorApp.TradingSimulatorApp.ShowFeeAndImpact` | src/main_app.py:290-303 | the fee is shown and stored; the impact is shown, or "Error" when missing, and stored |
| `SimulatorApp.TradingSimulatorApp.ShowNetCost` | src/main_app.py:305-330 | the net cost is shown as `Assemble` decides; the maker/taker label depends on whether the quantity is zero; the latency is shown |
| `SimulatorApp.TradingSimulatorApp.ShowCompletedRun` | src/main_app.py:251-330 | the panel after a run with valid inputs is `Assemble` of the slippage outcome, fee and impact |
| `SimulatorApp.TradingSimulatorApp.OnFeedStatus` | src/main_app.py:346-376 | the feed view becomes `AfterStatus` of the message; a data update recalculates the panel on the new book; any other message leaves the panel as `PanelAfterStatus` says |
| `SimulatorApp.TradingSimulatorApp.OnDataUpdate` | src/main_app.py:352-365 | a data update shows the new book and then recalculates the panel on it |
| `SimulatorApp.TradingSimulatorApp.ShowBook` | src/main_app.py:352-363 | the book is taken in, its symbol is announced once per connection, and its timestamp, best levels and spread are shown |
| `SimulatorApp.TradingSimulatorApp.OnDisconnect` | src/main_app.py:367-376 | either disconnect blanks the ten fields; only an error reports the loss and lowers the flag |
| `SimulatorApp.TradingSimulatorApp.BlankBookFields` | src/main_app.py:370-375 | the four book fields show "N/A"; the book, flag and status bar are kept |
| `SimulatorApp.TradingSimulatorApp.BlankCostFields` | src/main_app.py:370-375 | the six output fields show "N/A"; the stored results are kept |
| `AppProperties.InvalidQuantityStopsRun` | src/main_app.py:207-223 | a negative or non-numeric quantity shows "Invalid Qty" in the four cost fields, keeps the maker/taker label, shows no latency and stores nothing |
| `AppProperties.InvalidVolatilityStopsRun` | src/main_app.py:229-238 | a negative or non-numeric volatility shows "Invalid Vol" for impact and net cost only; fee and slippage keep the previous run's text; nothing is stored |
| `AppProperties.StoredResultsNeverStale` | src/main_app.py:195-201 | the stored results depend only on the inputs and the book, never on the previous run; on valid inputs the whole panel is overwritten |
| `AppProperties.FeeAndImpactOnTargetQuantity` | src/main_app.py:284-330 | on valid inputs the fee and impact are computed on the target quantity, not the USD actually spent; the impact is always present; the label says "No Trade" exactly for a zero quantity; the latency is shown |
| `AppProperties.NoBookDataBlocksNetCost` | src/main_app.py:246-250 | a one-sided book shows "No book data", stores no walk result, and so the net cost shows "Error" while the fee is still computed |
| `AppProperties.NetCostIffSlippageKnown` | src/main_app.py:305-319 | on valid inputs the net cost is a number exactly when the slippage percentage is known, and "Error" otherwise; the number is 0 for a zero quantity, else slippage cost + fee + impact |
| `AppProperties.SlippageDisplayDecision` | src/main_app.py:260-281 | the slippage field shows the percentage when known; "No book data" exactly for a one-sided book; "Depth Exceeded?" exactly when both sides exist and no percentage came back; never "Error/No Trade" |
| `AppProperties.ZeroQuantityCostsNothing` | src/main_app.py:310-323 | a zero quantity on a two-sided book gives 0% slippage, zero fee and impact, a net cost of 0 and the "No Trade" label |
| `AppProperties.SlippageCostMatchesPercent` | src/main_app.py:260-270 | on a book that is not crossed, the slippage cost in USD is the slippage percentage of the mid value of the units bought |
| `AppProperties.SlippageCostNonNegative` | src/main_app.py:260-270 | on an ascending ladder of positive prices with best ask >= best bid, the slippage cost is never negative |
| `AppProperties.CrossedBookSlippageDisagrees` | src/main_app.py:266-270 | a crossed book where the walk reports +5% slippage yet the USD slippage cost is -10 |
| `AppProperties.FlagTransitions` | src/main_app.py:348-372 | a data update carrying a symbol raises the flag; an error disconnect lowers it; every other message keeps it; the symbol is announced only when the flag was down |
| `AppProperties.DataUpdateShowsBook` | src/main_app.py:352-363 | a data update takes in the book and shows its timestamp. Each best-level field shows "N/A" exactly when that side is empty. Otherwise it shows the head level, which is the highest bid on a descending bid side and the lowest ask on an ascending ask side. The spread shows ask - bid exactly when both sides have a level |
| `AppProperties.DisconnectBlanksFields` | src/main_app.py:367-376 | either disconnect blanks the four book fields and the six output fields, keeping the book and the stored results |
| `AppProperties.FlagMeansAnnouncedSymbol` | src/main_app.py:348-376 | after any run of status messages the flag is up exactly when a data update announced a symbol with no error disconnect after it, or the flag was up and no error disconnect came at all |

## Left out

- The websocket client and the live `OrderBookManager` (`src/websocket_handler.py` and `src/order_book_manager.py`) are not part of this model. The feed's book reaches the window as the payload of a data-update message. Its shape is that of the mock book used beside the slippage calculation.
- The mock book's sorting of the levels it is given is not modelled. `OrderBook.WellFormed` states the order the walk relies on, and the lemmas that need it require it.
- The Tk widgets, layout, string formatting and logging are left out. Fields hold abstract `Display` tags with exact numbers.
- The 50 ms `after` debounce of input changes, and the recalculation deferred by 100 ms after a "connected" message, are not modelled. They run later on the UI thread, so `OnFeedStatus` on `Connected` changes only the status bar. The threads and the asyncio event loop are left out too.
- The latency clock (`time.perf_counter`) is not modelled. A run's duration is the parameter `elapsedMs`.
- The least-squares fit of the regression model is not modelled. `Train` takes the fit's outcome as a parameter, with `None` meaning the fit raised. The numpy reshaping is not modelled either.
- `Regression.SlippageRegressionModel.Train`: requires a successful fit to have one coefficient per feature. The model does not derive this; it is what a least-squares fit over an n x `featuresDim` sample matrix produces.
- The buffer-trimming lines of `add_data_point` are left out, because they are commented out in the source.
- `ASSUMED_DAILY_VOLUME_USD` and `MARKET_IMPACT_COEFFICIENT` come from a part of the configuration that is not part of this model. They are parameters: `dailyVolumes` and `impactCoefficient`.
- Numbers are exact reals, not IEEE doubles. Rounding, infinities and NaN are not modelled. Text that does not parse as a number is an absent input (`None`).
- `Estimators.ExpectedFee`: the type check of `calculate_expected_fees` that rejects non-numeric quantities is not modelled, because every quantity in the model is a real.
- The catch-all `except` of the recalculation is not modelled. With exact reals no step of a run can raise: every division has a non-zero divisor.
- Each window method that changes many fields is split into helpers of a few fields each, such as `ShowSlippage` and `BlankCostFields`. The helpers make the same assignments as the source, in the same order of effect.
