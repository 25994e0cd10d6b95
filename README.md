# QuantScalp signal core in Dafny

A model of the signal core of the QuantScalp crypto scalping dashboard, with proofs about it.

- **Indicators** (`utils/indicators.ts`). These are SMA, EMA, RSI, MACD, Bollinger bands, ATR, VWAP, the stochastic RSI and the ADX proxy. `getIndicators` assembles them into one indicator bundle. Each calculation that loops in the source is a method with its loop. The method is proved equal to a specification function. The properties the dashboard relies on are proved about those functions: ranges, fallbacks, behaviour on constant input, and the lag of `d` behind `k`.
- **Signal engine** (`analyzePair` in `services/signalEngine.ts`). This is one tick of the per-instrument state machine.
  - An ACTIVE signal (BUY or SELL) is closed by its stop loss, then by its time limit. Otherwise it is held with fresh metrics.
  - A SCANNING instrument (type NONE) runs the ordered list of entry checks against the bias and execution bundles. It opens a trade only when no check blocks.
  - An opened trade gets a stop from the recent swing and twice the ATR, a 2R target, a Bollinger target and a risk/reward ratio. A zero-volatility guard can still turn the result back to NONE.
- **Trade journal** (`services/historyService.ts`). The journal is one storage slot, modelled as a class with the slot as its field. `saveToHistory` keeps only new trades, newest first, deduplicated by pair and timestamp, and capped at 100 entries. `clearHistory` and `getHistory` are modelled too.
- **Dashboard orchestration** (`App.tsx`), in three parts:
  - the in-place update of a bar window by a kline message;
  - the pass over the instruments that computes every new signal and decides which signals go to the journal;
  - the split of the signals into an active group (by descending confidence) and a scanning group (by symbol).

Numbers are Dafny reals. A JavaScript number that can leave the reals through a division by zero is a `Reading`: finite, NaN or an infinity. `Date.now()` is a parameter `now`. `Math.sqrt` is a parameter `sqrt`, and the lemmas about it require only that it return a non-negative root. `toFixed` is modelled exactly: the decimal digits and the rounding of halves away from zero.

The files are:
- `common.dfy`: Option, Reading, sums, minima and maxima;
- `types.dfy`: the records of `types.ts`;
- `format.dfy`: `toFixed` and `parseFloat(x.toFixed(d))`;
- `indicators.dfy`;
- `signalengine.dfy`;
- `historyservice.dfy`;
- `app.dfy`.

Two behaviours of the code are worth knowing:
- The ADX proxy divides 0 by 0 when both directional sums are zero and the true range is not. The result is NaN, so the bundle's `adx` is a `Reading`.
- The stochastic RSI pair is (50, 50) while the RSI history is shorter than the period (14). `d` is the `k` of the history without its newest sample. It stays 50 until that shorter history reaches the period, so it needs at least 15 RSI samples (`Indicators.StochFallback`).

## Model

| member | source | states |
|---|---|---|
| Common.Quotient | utils/indicators.ts:190 | JS division: finite exactly when the divisor is non-zero, and then the quotient times the divisor is the dividend; NaN exactly for 0/0 |
| Common.SeqMin | services/signalEngine.ts:157 | `Math.min(...)` of a non-empty list is one of its elements and no larger than any |
| Common.SeqMax | services/signalEngine.ts:169 | `Math.max(...)` of a non-empty list is one of its elements and no smaller than any |
| Common.MeanBetween | utils/indicators.ts:11 | a mean of values between two bounds lies between those bounds |
| Format.RoundToIsClose | services/signalEngine.ts:34 | `parseFloat(x.toFixed(d))` differs from x by at most half a unit in the d-th decimal |
| Indicators.SliceFromEnd | utils/indicators.ts:9 | `slice(-n)` keeps the last n elements, or all of them when there are fewer |
| Indicators.SmaBetween | utils/indicators.ts:7-12 | the SMA of the last `period` values lies between their lower and upper bounds |
| Indicators.WindowSmaBetween | utils/indicators.ts:181-183 | the SMA of a trailing slice lies between the bounds of the whole series |
| Indicators.SmaNonNegative | utils/indicators.ts:7-12 | the SMA of non-negative data (or the short-history fallback 0) is non-negative |
| Indicators.Smoothing | utils/indicators.ts:16 | the EMA factor 2/(period+1) lies in (0, 1] |
| Indicators.EmaRunBetween | utils/indicators.ts:17-21 | the EMA recurrence stays within the bounds of its inputs |
| Indicators.EmaBetween | utils/indicators.ts:14-22 | with enough data, the EMA lies between the bounds of the data |
| Indicators.EmaOfConstant | utils/indicators.ts:14-22 | the EMA of a constant series is that constant |
| Indicators.CalculateEma | utils/indicators.ts:14-22 | the loop computes the EMA; it is 0 for short data and lies between the data's minimum and maximum otherwise |
| Indicators.Smooth | utils/indicators.ts:43-44 | Wilder smoothing lies between the previous average and the new value |
| Indicators.AvgGain | utils/indicators.ts:35-45 | the smoothed average gain is non-negative |
| Indicators.AvgLoss | utils/indicators.ts:35-45 | the smoothed average loss is non-negative |
| Indicators.RsiOf | utils/indicators.ts:47-49 | RSI lies in [0, 100]; it is 100 exactly when the average loss is 0, and 0 exactly when there are losses but no gains |
| Indicators.RsiRange | utils/indicators.ts:24-50 | RSI of any series lies in [0, 100], with the same two iff cases stated over the series' averages |
| Indicators.NoAvgLoss | utils/indicators.ts:38-45 | a non-decreasing series has zero average loss at every step |
| Indicators.RsiOfRisingSeries | utils/indicators.ts:47 | RSI of a non-decreasing series with enough data is 100 |
| Indicators.CalculateRsi | utils/indicators.ts:24-50 | the two loops compute the RSI; it is 50 for short data and always within [0, 100] |
| Indicators.TrailIsEmaStep | utils/indicators.ts:65-66 | the MACD trailing step is the EMA step written differently |
| Indicators.TrailsAreEmaRuns | utils/indicators.ts:61-69 | every entry of the trailing series equals the EMA recurrence on the prefix up to it |
| Indicators.MacdIsDifferenceOfEmas | utils/indicators.ts:52-80 | with enough data, the MACD line is the fast EMA minus the slow EMA |
| Indicators.MacdOfConstant | utils/indicators.ts:52-80 | a constant series has MACD, signal and histogram all 0 |
| Indicators.CalculateMacd | utils/indicators.ts:52-80 | the loop computes the MACD triple; histogram = macd − signal; all 0 for short data |
| Indicators.SquaredDeviations | utils/indicators.ts:87 | one squared deviation per value, each non-negative |
| Indicators.BollingerShape | utils/indicators.ts:82-95 | the bands are symmetric about the middle, the middle is the SMA, and upper ≥ middle ≥ lower for a non-negative multiplier |
| Indicators.TrueRangeIsLargest | utils/indicators.ts:106-110 | the true range is the largest of its three candidates and non-negative |
| Indicators.TrueRangesAt | utils/indicators.ts:101-112 | entry j of the true-range list is the true range of bars j and j+1 |
| Indicators.TrueRangesNonNegative | utils/indicators.ts:101-112 | every true range is non-negative |
| Indicators.CalculateAtr | utils/indicators.ts:97-114 | the loop computes the ATR; it is 0 for short data and never negative |
| Indicators.VwapWindow | utils/indicators.ts:121-122 | the VWAP window is exactly the last min(length, 1000) bars |
| Indicators.WeightedBetween | utils/indicators.ts:124-128 | with non-negative volumes, the cumulative price-volume lies between the bounds of the typical prices times the cumulative volume |
| Indicators.VwapBetween | utils/indicators.ts:116-131 | with non-negative, non-zero volume, the VWAP lies between the bounds of the typical prices of its window |
| Indicators.VwapIgnoresOlderBars | utils/indicators.ts:121-124 | bars older than the last 1000 do not affect the VWAP |
| Indicators.CalculateVwap | utils/indicators.ts:116-131 | the loop computes the VWAP, 0 when the volume sums to 0 |
| Indicators.StochK | utils/indicators.ts:140-150 | the stochastic of an RSI window lies in [0, 100] |
| Indicators.StochRsi | utils/indicators.ts:133-157 | k lies in [0, 100], d is the constant 50, and k is 50 for a window shorter than the period |
| Indicators.StochOfFlatWindow | utils/indicators.ts:146-150 | a flat RSI window gives k = 50 |
| Indicators.StochAtExtremes | utils/indicators.ts:141-147 | k is 0 when the current RSI is the window's minimum and 100 when it is the maximum |
| Indicators.DirectionalMovementShape | utils/indicators.ts:169-173 | +DM and −DM are non-negative and never both positive; each is positive exactly when its move is the larger one and positive, and then equals that move |
| Indicators.DmsNonNegative | utils/indicators.ts:164-178 | every +DM and −DM in the lists is non-negative |
| Indicators.DmsAt | utils/indicators.ts:164-178 | entry j of each DM list is the directional movement of bars j and j+1 |
| Indicators.DirectionalIndexRange | utils/indicators.ts:187-190 | DX is NaN exactly when both DM sums are 0, and otherwise finite within [0, 100] |
| Indicators.SmoothedNonNegative | utils/indicators.ts:181-183 | the three smoothed sums are non-negative |
| Indicators.AdxRange | utils/indicators.ts:159-195 | the ADX proxy is never infinite, is NaN exactly when there is enough data, the true range is non-zero and both DM sums are 0, and otherwise lies in [0, 100] |
| Indicators.AdxNaNInRangeBoundMarket | utils/indicators.ts:185-190 | bars with one fixed high above one fixed low give NaN |
| Indicators.FlatBarsSmoothZero | utils/indicators.ts:182-183 | bars with a fixed high and low have zero smoothed DM |
| Indicators.FlatBarsMoveNowhere | utils/indicators.ts:164-178 | bars with a fixed high and low have zero DMs and true ranges of at least high − low |
| Indicators.CalculateAdx | utils/indicators.ts:159-195 | the loop computes the ADX proxy: 0 for short data, never infinite, and within [0, 100] when finite |
| Indicators.RsiSeriesAt | utils/indicators.ts:208-214 | entry j of the RSI series is the RSI of the matching prefix of the closes |
| Indicators.RsiHistoryShape | utils/indicators.ts:205-214 | the RSI history has min(closes − period, 30) entries (0 when too short); each is the RSI of a prefix, in time order, and the last is the RSI of all the closes |
| Indicators.HistoryStep | utils/indicators.ts:208-213 | one loop step prepends the RSI of the next shorter prefix, or nothing when the prefix is too short |
| Indicators.CollectRsiHistory | utils/indicators.ts:205-214 | the loop builds exactly the RSI history |
| Indicators.BundleRanges | utils/indicators.ts:197-231 | in the bundle, RSI and the stochastic pair lie in [0, 100]; ATR and the volume average are non-negative; ADX is finite in [0, 100] or NaN; histogram = macd − signal; the trend EMA is present exactly when a trend period is configured |
| Indicators.StochFallback | utils/indicators.ts:225 | the bundle's stochastic pair is (50, 50) while the RSI history is shorter than 14; d stays 50 while the history has at most 14 samples |
| Indicators.StochDLagsK | utils/indicators.ts:225 | with more than two RSI samples, d is the stochastic k of the history with its newest sample dropped |
| Indicators.GetIndicators | utils/indicators.ts:197-231 | the method assembles exactly the bundle |
| SignalEngine.ExecConfig | services/signalEngine.ts:17-23 | the execution configuration is valid and has a trend average exactly in SCALPING mode |
| SignalEngine.BiasConfig | services/signalEngine.ts:25-31 | the bias configuration is valid and has no trend average |
| SignalEngine.MetricsNearIndicators | services/signalEngine.ts:33-39 | the rounded metrics are within 0.05 of the bundle values; the volume ratio is finite exactly when the volume average is non-zero and NaN exactly for 0/0; the ADX keeps its NaN; the VWAP and EMA21 flags are the price comparisons |
| SignalEngine.CollectBuyBlockers | services/signalEngine.ts:98-107 | the four bullish checks yield exactly the buy blocker list |
| SignalEngine.CollectSellBlockers | services/signalEngine.ts:119-128 | the four bearish checks yield exactly the sell blocker list |
| SignalEngine.Gate | services/signalEngine.ts:79-138 | the gate yields the blockers, the side, the side's three reasons, and confidence 90 for a side or 0 for NONE |
| SignalEngine.PlaceStop | services/signalEngine.ts:150-178 | the stop and its reason for the side |
| SignalEngine.PlaceTargets | services/signalEngine.ts:155-178 | the two targets for the side |
| SignalEngine.Scan | services/signalEngine.ts:77-201 | a scanning tick produces the fresh signal |
| SignalEngine.AnalyzePair | services/signalEngine.ts:5-202 | the method computes analyzePair from both bundles, the metrics and the state machine |
| SignalEngine.DecideKeepsConsistent | services/signalEngine.ts:43-201 | a tick keeps the signal consistent (confidence 90 and three reasons for a trade, none on NONE), and a scanning tick stamps the result with now |
| SignalEngine.StopOutCloses | services/signalEngine.ts:46-55 | a trade at or through its stop becomes NONE with warning "SL Hit", entry at the price, reason "Stopped out at <price to 2 decimals>", new metrics, and every other field unchanged |
| SignalEngine.TimeoutCloses | services/signalEngine.ts:59-71 | a trade past 30 (VERY_SHORT) or 90 (SCALPING) minutes becomes NONE with warning "Expired", entry at the price, the time-limit reason and new metrics; every other field unchanged |
| SignalEngine.HoldKeepsTrade | services/signalEngine.ts:73-74 | a trade neither stopped nor expired is returned unchanged except for fresh metrics, whatever the bias bundle says |
| SignalEngine.ActiveNeverFlips | services/signalEngine.ts:43-75 | an active trade never turns to the other side; its pair, levels, targets, confidence, reasons, ratio and timestamp are kept |
| SignalEngine.ChoppyMarketBlocks | services/signalEngine.ts:88-91 | with bias ADX not above 20, no trade opens; confidence 0, no reasons, no stop or targets, ratio 0, and the choppy reason shown unless the zero-volatility guard fires |
| SignalEngine.FlatBiasMonitors | services/signalEngine.ts:142-147 | a strong but flat bias trend blocks nothing and shows "Monitoring Market Structure..." |
| SignalEngine.NoBuyBlockers | services/signalEngine.ts:98-109 | no buy check blocks exactly when the EMAs align, k crosses above d, k ≤ 40 and RSI < 65 |
| SignalEngine.NoSellBlockers | services/signalEngine.ts:119-130 | no sell check blocks exactly when the EMAs align down, k crosses below d, k ≥ 60 and RSI > 35 |
| SignalEngine.CheapEnoughOnlyAbove40 | services/signalEngine.ts:99-106 | the "not cheap enough" blocker appears exactly when k > 40 (the oversold test never matters) |
| SignalEngine.TooLowOnlyBelow60 | services/signalEngine.ts:120-127 | the "too low to sell" blocker appears exactly when k < 60 |
| SignalEngine.BuySideIff | services/signalEngine.ts:86-116 | the gate picks BUY exactly when the bias trend is strong and bullish and all buy checks pass |
| SignalEngine.SellSideIff | services/signalEngine.ts:86-137 | the gate picks SELL exactly when the bias trend is strong and bearish and all sell checks pass |
| SignalEngine.ScanOpensSide | services/signalEngine.ts:77-201 | a scanning tick returns the gate's side unless the zero-volatility guard fires; an opened trade has confidence 90, its reasons, no warnings, timestamp now and no scanning reason |
| SignalEngine.BuyOpensIff | services/signalEngine.ts:86-184 | a scanning tick opens a BUY exactly when all buy conditions hold and the buy stop is not within 1e-7 of the price |
| SignalEngine.SellOpensIff | services/signalEngine.ts:117-184 | a scanning tick opens a SELL exactly when all sell conditions hold and the sell stop is not within 1e-7 of the price |
| SignalEngine.TwiceTheRisk | services/signalEngine.ts:198 | a target twice the risk away gives a risk/reward ratio of exactly 2 |
| SignalEngine.RecentLowBelowBars | services/signalEngine.ts:157 | the recent low is at most the low of each of the last five bars |
| SignalEngine.RecentHighAboveBars | services/signalEngine.ts:169 | the recent high is at least the high of each of the last five bars |
| SignalEngine.BuyStopBounds | services/signalEngine.ts:153-158 | the buy stop is the recent low or price − 2·ATR, at most both, so at least two ATRs below the price |
| SignalEngine.SellStopBounds | services/signalEngine.ts:153-170 | the sell stop is the recent high or price + 2·ATR, at least both |
| SignalEngine.OpenedLevels | services/signalEngine.ts:149-201 | an opened trade's entry, stop, stop reason, targets and ratio are those of its side, and the stop is not within 1e-7 of the price |
| SignalEngine.BuyTargets | services/signalEngine.ts:161-165 | buy targets are price + 2·risk then the upper band, and the ratio is 2 (or 0 when the target or the stop is 0) |
| SignalEngine.SellTargets | services/signalEngine.ts:173-177 | sell targets are price − 2·risk then the lower band, and the ratio is 2 (or 0 when the target or the stop is 0) |
| SignalEngine.BuyRiskLevels | services/signalEngine.ts:155-198 | an opened BUY has entry at the price, the buy stop, two targets with the first at 2R, and ratio 2 unless a level is 0 |
| SignalEngine.SellRiskLevels | services/signalEngine.ts:167-198 | an opened SELL has entry at the price, the sell stop, two targets with the first at 2R, and ratio 2 unless a level is 0 |
| SignalEngine.ZeroVolatilityGuard | services/signalEngine.ts:180-184 | no trade opens with a stop within 1e-7 of the price; when the guard fires it shows "Volatility too low" and keeps the gate's confidence and reasons |
| SignalEngine.VolumeIgnoredByChecks | services/signalEngine.ts:101-122 | the volume average changes neither the blockers nor the side |
| SignalEngine.StopReadsOnlyAtr | services/signalEngine.ts:153-170 | the stop depends on the bundle only through its ATR |
| SignalEngine.VolumeIgnoredByTargets | services/signalEngine.ts:162-177 | the volume average does not change the targets |
| SignalEngine.VolumeIgnored | services/signalEngine.ts:101-122 | apart from the displayed metrics, the volume average never changes the signal (the volumeOk test is unused) |
| SignalEngine.EffectiveAtrPositive | services/signalEngine.ts:153 | with a positive price, the ATR used for the stop is positive (a zero ATR falls back to 0.5% of the price) |
| SignalEngine.ShortBiasHistoryNeverTrades | services/signalEngine.ts:88-91 | fewer than 28 bias bars give ADX 0, so a scanning instrument never trades |
| SignalEngine.BuyBracketsEntry | services/signalEngine.ts:155-165 | with a positive price, an opened BUY has stop < entry < first target |
| SignalEngine.SellBracketsEntry | services/signalEngine.ts:167-177 | with a positive price, an opened SELL has first target < entry < stop |
| HistoryService.Truncated | services/historyService.ts:30 | `slice(0, n)` is the prefix of length min(n, length) |
| HistoryService.HistoryStore.constructor | services/historyService.ts:3 | the store starts with the given slot |
| HistoryService.HistoryStore.GetHistory | services/historyService.ts:5-13 | getHistory returns the stored signals, or none when the slot is absent or unreadable |
| HistoryService.HistoryStore.Clear | services/historyService.ts:15-17 | clearHistory removes the slot, leaving an empty journal |
| HistoryService.HistoryStore.Save | services/historyService.ts:19-33 | a new trade is written in front, capped at 100; NONE and a recorded pair-and-timestamp leave the slot as it was, even when unreadable |
| HistoryService.SaveIgnoresNone | services/historyService.ts:20 | saving NONE changes nothing |
| HistoryService.SaveSkipsDuplicate | services/historyService.ts:26-28 | saving a signal whose pair and timestamp are recorded changes nothing |
| HistoryService.SavePrepends | services/historyService.ts:28-31 | a new trade becomes entry 0, followed by the old journal less its oldest entry at capacity |
| HistoryService.SaveBounded | services/historyService.ts:30 | a journal within 100 entries stays within 100 |
| HistoryService.SaveIdempotent | services/historyService.ts:19-33 | saving the same signal twice equals saving it once |
| HistoryService.SaveRecords | services/historyService.ts:19-33 | after saving a trade, the journal records it |
| HistoryService.SaveKeepsDistinct | services/historyService.ts:24-31 | saving keeps pair-and-timestamp pairs distinct |
| HistoryService.SaveKeepsTradesOnly | services/historyService.ts:20 | saving keeps the journal made of trades only |
| HistoryService.ClearThenSave | services/historyService.ts:15-33 | clearing and then saving a trade leaves exactly that trade |
| App.CandleWindow.constructor | App.tsx:71-72 | the window starts with the given bars |
| App.CandleWindow.Update | App.tsx:73-81 | the window becomes the updated window: the last bar amended, a newer bar pushed with the oldest shifted out past 200, an older bar ignored |
| App.UpdateAmends | App.tsx:75-76 | a bar with the last bar's time replaces it and leaves the rest |
| App.UpdateAppends | App.tsx:77-79 | a newer bar is appended, dropping the oldest bar once the window holds 200 |
| App.UpdateIgnoresOlder | App.tsx:74-80 | a bar older than the last one leaves the window unchanged |
| App.UpdateBounded | App.tsx:79 | a window of 1 to 200 bars keeps 1 to 200 bars |
| App.UpdateKeepsIncreasing | App.tsx:73-81 | a window with strictly increasing times keeps them increasing |
| App.ArchiveExactlyOpenings | App.tsx:102-114 | a tick's result goes to the journal exactly when the instrument was scanning and the result is a trade; an archived signal carries the current time |
| App.StampedAppend | App.tsx:106-113 | appending a trade stamped now keeps a list of such trades |
| App.AnalyzeInstrument | App.tsx:96-114 | one instrument's new signal is its analysis against its previous signal; it is archived exactly by the journal rule, and only as a trade stamped now |
| App.RunAnalysis | App.tsx:90-119 | exactly the instruments with a non-empty window get a signal, each its own analysis; the archived signals are the archive decisions in instrument order, all trades stamped now |
| App.CompareText | App.tsx:147 | the symbol comparison returns −1, 0 or 1 |
| App.CompareTextZero | App.tsx:147 | symbols compare equal exactly when they are equal |
| App.CompareTextFlips | App.tsx:147 | swapping the symbols flips the comparison |
| App.CompareTextTransitive | App.tsx:147 | the symbol comparison is transitive |
| App.InsertPermutes | App.tsx:143-147 | insertion adds exactly the one element |
| App.InsertKeepsBound | App.tsx:143-147 | a lower bound of the element and of the list bounds the result of the insertion |
| App.InsertOrdered | App.tsx:143-147 | insertion into an ordered list keeps it ordered |
| App.SortByPermutes | App.tsx:143-147 | sorting is a permutation |
| App.SortByOrdered | App.tsx:143-147 | sorting with a comparator yields an ordered list |
| App.FiltersPermute | App.tsx:142-147 | the two filters together are a permutation of the signals |
| App.TradesAreTrades | App.tsx:143 | the trade filter keeps only BUY and SELL |
| App.ScansAreNone | App.tsx:146 | the scanning filter keeps only NONE |
| App.GroupsPartition | App.tsx:142-147 | each signal lands in exactly one group: together the groups are a permutation of all signals, the active group holds trades and the scanning group NONE |
| App.ActiveByConfidence | App.tsx:143-144 | the active group runs from the highest confidence down |
| App.ScanningByPair | App.tsx:146-147 | the scanning group runs in ascending symbol order |

## Left out

- The WebSocket stream, REST history loading, mock data, React state and rendering, `setInterval` and `setTimeout` are not modelled. The journal write that `runAnalysis` defers with `setTimeout` is the `archived` output of `App.RunAnalysis`. Each archived signal is saved in that order with `HistoryService.HistoryStore.Save`.
- IEEE floating point: rounding, overflow and the integer width of `time` are not modelled. Values are exact reals, and NaN and the infinities appear only where a division by zero can produce them.
- `Math.sqrt` is a parameter, so no property of the Bollinger band width beyond the sign of the root is stated.
- `Date.now()` is read twice by the source, in the timeout test and in the new signal's timestamp. The model uses one value, `now`, for both.
- App.RunAnalysis: one clock value serves the whole pass. The source reads the clock inside each `analyzePair` call, so trades opened in one pass can carry different timestamps. The promise that every archived trade carries the pass's `now` relies on this frozen clock.
- `toFixed` for magnitudes of 1e21 and above switches to exponent notation in JavaScript. The model always prints fixed digits.
- `JSON.stringify` in the journal turns NaN and infinite ratios into `null`. The slot keeps the values as they are, and a slot that does not parse is the `Unreadable` case.
- `console.error` in `getHistory` is not modelled.
- `localeCompare` is modelled as the order of the code units. Locale collation rules are not modelled.
- App.SortBy: the sort is stable, as JavaScript's is, but the model does not state stability.
- `Object.values` order: the grouping starts from the list of signals, not from the record's key order.
- The unused `volumeOk` test of `analyzePair` is not modelled, because its value is never read. `SignalEngine.VolumeIgnored` proves that the volume average, which `volumeOk` derives from, changes nothing but the displayed metrics.
- The stochastic-RSI `d` returned by `calculateStochRSI` is always 50. `getIndicators` replaces it, and the model does the same.
- In App.tsx the bias window is fed the same 1-minute kline as the execution window. This is outside the `updateCandleArray` function that the model covers.
- The indicator periods are required to be at least 1. The source calls the indicators only with positive constants, so `slice(-0)` never occurs.
- analyzePair reads the last bar of the execution window, so it requires a non-empty window. `runAnalysis` guarantees that before calling it.
- `CandleWindow.Update` requires a non-empty window, as `arr[arr.length - 1].time` does in the source.
- App.RunAnalysis: the pass is modelled over the listed instruments with a map of bar windows. The instrument list is a parameter, not the constant list of `constants.ts`.
