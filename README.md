# aqt-stock-rs: indicators, signal rules and the Vecor strategy in Dafny

This project models the decision core of the aqt-stock-rs trading bot. A quote tick for a US stock arrives, and
the Vecor strategy (`VecorStrategy::execute`) does the following:

- It checks whether the symbol's next candle is due.
- It refreshes the symbol's freshness record from the last three candles.
- It looks up the position and sells it all when the take-profit exit fires.
- Otherwise it asks six signal sources for a vote: KDJ, MACD, Schaff Trend Cycle, UT Bot, CYC and TradingView
  technicals.
- The default rule sums the votes. A sum of at least 3 means buy; a sum of at most -3 means sell.
- A buy is dropped while a position is held near or below the price. A sell is dropped while the cost is not
  below 99% of the price.
- The quantity comes from the USD cash or from the position.
- An order goes out only when no recent (10 h) or open order of the symbol is in the way. An open order that
  is not recent is cancelled instead.

The indicators are modelled as classes whose `calculate` methods rebuild their series with loops. Each method
is proved equal to a recursive specification function, and the properties are proved about that function:

- RSV, K and D stay in [0, 100].
- MACD lines are bounded by the prices, and a flat market is silent.
- STC values are percentages.
- The UT Bot stop ratchets.
- CYC lies between the window's closes.

Other parts of the model:

- **Signal adapters.** The adapters (`BaseCalculate` implementations) are the constructors of one datatype
  `Calculator`, with a dispatching method.
- **Rule engine.** The engine (`Calculate`) is a class holding the list of calculators.
- **The tick.** `execute` is a method of the `VecorStrategy` class. It rewrites the freshness records and
  returns the broker action of the tick as an `Intent`: no order, submit, cancel, or abort (a panic of the
  tick's task).
- **Service helpers.** From the broker wrapper, the model keeps the period lookup, the order-status filter and
  the limit-price rounding.

Representation choices:

- `f64` and `Decimal` are `real`.
- `u64` arithmetic in `timestamp_to_time` wraps around explicitly (`Common.Wrap64`).
- An index out of range or an `unwrap` of `None` is a `Panic` outcome.

## Model

| member | source | states |
|---|---|---|
| KdjIndicator.Kdj.constructor | src/indicators/kdj.rs:29-41 | the periods are stored and every series starts empty |
| KdjIndicator.Kdj.Reset | src/indicators/kdj.rs:122-129 | all six series are emptied |
| KdjIndicator.Kdj.CalculateRsv | src/indicators/kdj.rs:98-119 | the RSV of bar `index` is 50 before a full window, else 100·(close − lowest low)/(highest − lowest), 50 for a flat window; the window extremes are appended only once the window is full |
| KdjIndicator.Kdj.UpdateKdj | src/indicators/kdj.rs:71-95 | appends RSV, K = (RSV + (d−1)·K')/d, starting from (RSV + 2·50)/3, D from K the same way, and J = 3K − 2D |
| KdjIndicator.Kdj.Step | src/indicators/kdj.rs:58-60 | one pass of the loop: after `update_kdj` on bar i the six series are those of the first i + 1 bars |
| KdjIndicator.Kdj.Calculate | src/indicators/kdj.rs:49-68 | resets; with fewer than k_period candles everything stays empty, otherwise the K, D, J, RSV and window series are those of the full candle list |
| KdjIndicator.Kdj.IsOverbought | src/indicators/kdj.rs:159-166 | true exactly when the lines hold values and the latest K and D are both above the threshold |
| KdjIndicator.Kdj.IsOversold | src/indicators/kdj.rs:168-175 | true exactly when the lines hold values and the latest K and D are both below the threshold; never together with overbought at the same threshold |
| KdjIndicator.Kdj.IsGoldenCross | src/indicators/kdj.rs:177-189 | needs two K and two D values and ends with K above D |
| KdjIndicator.Kdj.IsDeathCross | src/indicators/kdj.rs:191-203 | needs two K and two D values and ends with K below D; never together with a golden cross |
| KdjIndicator.RsvBounds | src/indicators/kdj.rs:98-119 | with well-formed bars (low ≤ close ≤ high) every RSV lies in [0, 100] |
| KdjIndicator.KdBounded | src/indicators/kdj.rs:71-95 | with well-formed bars every K and D value lies in [0, 100] |
| KdjIndicator.SmoothSeeds | src/indicators/kdj.rs:76-86 | the first smoothed value is the mean of the input and two seeds of 50 |
| KdjIndicator.SmoothRecurrence | src/indicators/kdj.rs:79-89 | each later smoothed value weighs the previous one by d − 1 |
| KdjIndicator.SmoothPrefix | src/indicators/kdj.rs:49-68 | smoothing a prefix of the input gives the prefix of the smoothed series (later bars never change earlier values) |
| KdjIndicator.JIdentity | src/indicators/kdj.rs:92-94 | J has one entry per K and equals 3K − 2D bar by bar |
| Common.Latest | src/indicators/kdj.rs:132-142 | None exactly when one of the three series is empty, else their three last values; the same accessor as `latest()` in src/indicators/macd.rs:139-149 and src/indicators/cyc.rs:120-130 |
| KdjIndicator.CrossesExclusive | src/indicators/kdj.rs:178-203 | a golden and a death cross never hold together, and neither holds with fewer than two values |
| KdjIndicator.OverAndUnderExclusive | src/indicators/kdj.rs:160-175 | with the oversold threshold not above the overbought one, the two states exclude each other |
| KdjIndicator.ShortHistoryIsSilent | src/indicators/kdj.rs:49-68 | fewer candles than k_period give empty lines, with no cross, overbought or oversold state |
| KdjIndicator.FullHistoryLengths | src/indicators/kdj.rs:49-68 | with enough candles K and D have one value per candle and the windows one per full window |
| MacdIndicator.Multiplier | src/indicators/macd.rs:29-35 | the EMA weight 2/(length+1) lies in (0, 2], and in (0, 1] for a length of at least 1 |
| MacdIndicator.Ema.constructor | src/indicators/macd.rs:29-35 | stores the length and its weight, with no EMA yet |
| MacdIndicator.Ema.Update | src/indicators/macd.rs:37-50 | the first value is taken as is, later ones move toward the value by the weight; the result becomes the last EMA |
| MacdIndicator.Ema.Reset | src/indicators/macd.rs:52-54 | forgets the last EMA |
| MacdIndicator.EmaSeriesBounds | src/indicators/macd.rs:37-50 | with a weight in [0, 1], an EMA of prices in [lo, hi] stays in [lo, hi] |
| MacdIndicator.EmaStepBetween | src/indicators/macd.rs:38-43 | one EMA step lands between the previous EMA and the new value |
| MacdIndicator.EmaSeriesConstant | src/indicators/macd.rs:37-50 | the EMA of a constant series is that constant |
| MacdIndicator.EmaSeriesFirst | src/indicators/macd.rs:37-50 | the EMA starts at the first price |
| MacdIndicator.EmaSeriesPrefix | src/indicators/macd.rs:111-126 | the EMA of a prefix is the prefix of the EMA |
| MacdIndicator.FeedStep | src/indicators/macd.rs:90-108 | feeding one more price appends exactly one MACD, signal and histogram value computed from the previous EMAs |
| MacdIndicator.FirstValuesZero | src/indicators/macd.rs:90-108 | the first MACD, signal and histogram values are 0 |
| MacdIndicator.FlatMarketIsSilent | src/indicators/macd.rs:167-188 | constant prices give a zero histogram and neither a buy nor a sell signal |
| MacdIndicator.BuySellExclusive | src/indicators/macd.rs:167-188 | buy and sell never hold together, a buy needs a positive last histogram, and fewer than two bars signal nothing |
| MacdIndicator.LatestAfterCalculate | src/indicators/macd.rs:111-149 | after a calculation, the latest values are None exactly for no prices |
| MacdIndicator.Macd.constructor | src/indicators/macd.rs:64-76 | three fresh EMAs with the given lengths and empty lines |
| MacdIndicator.Macd.Reset | src/indicators/macd.rs:129-136 | the EMAs forget their state and the lines are emptied |
| MacdIndicator.Macd.Update | src/indicators/macd.rs:90-108 | MACD = fast EMA − slow EMA, signal = EMA of MACD, histogram = MACD − signal, each appended to its line |
| MacdIndicator.Macd.Calculate | src/indicators/macd.rs:111-126 | after a reset, the three lines are the MACD, signal and histogram series of the closes |
| MacdIndicator.Macd.IsBuySignal | src/indicators/macd.rs:166-176 | needs two histogram values and ends on a positive one |
| MacdIndicator.Macd.IsSellSignal | src/indicators/macd.rs:178-188 | needs two histogram values and ends on a negative one; never together with a buy signal |
| StcIndicator.EffectivePeriod | src/indicators/schaff_trend_cycle.rs:162-163 | a period of 0 is used as 1, any other period as given |
| StcIndicator.StcEmaShape | src/indicators/schaff_trend_cycle.rs:159-190 | the EMA has one value per price, starts at the mean of the first `period` prices and then follows the EMA step |
| StcIndicator.MinRequired | src/indicators/schaff_trend_cycle.rs:24 | the minimum history is the largest of the three lengths |
| StcIndicator.Step | src/indicators/schaff_trend_cycle.rs:49-117 | one bar appends one value to each of the four stochastic series and keeps the earlier ones |
| StcIndicator.StochasticBounds | src/indicators/schaff_trend_cycle.rs:60-99 | a stochastic of a value within its window range is a percentage |
| StcIndicator.WindowStochasticBounds | src/indicators/schaff_trend_cycle.rs:60-99 | the windowed stochastic is always in [0, 100] |
| StcIndicator.SmoothingBounds | src/indicators/schaff_trend_cycle.rs:60-99 | smoothing two percentages with a factor in [0, 1] gives a percentage |
| StcIndicator.TraceBounds | src/indicators/schaff_trend_cycle.rs:49-117 | every intermediate stochastic and every STC value lies in [0, 100], whatever the prices |
| StcIndicator.SignalsWellBehaved | src/indicators/schaff_trend_cycle.rs:22-118 | a short history gives no tuples, otherwise one per candle; no tuple is both red and green, and every value is a percentage |
| StcIndicator.SchaffTrendCycle.constructor | src/indicators/schaff_trend_cycle.rs:12-20 | stores the lengths, the factor 0.5 and no values |
| StcIndicator.SchaffTrendCycle.CalculateEma | src/indicators/schaff_trend_cycle.rs:159-190 | the loop computes the seeded EMA of the prices |
| StcIndicator.SchaffTrendCycle.CalculateMacd | src/indicators/schaff_trend_cycle.rs:145-156 | the fast EMA minus the slow EMA, bar by bar |
| StcIndicator.SchaffTrendCycle.StepBar | src/indicators/schaff_trend_cycle.rs:49-117 | one iteration of the main loop equals one step of the stochastic trace |
| StcIndicator.SchaffTrendCycle.PushSignal | src/indicators/schaff_trend_cycle.rs:102-115 | the tuple appended for bar i is neutral before `length` bars, else the value with its red and green flags, so the tuples stay those of the stored values |
| StcIndicator.SchaffTrendCycle.Advance | src/indicators/schaff_trend_cycle.rs:49-116 | one pass of the loop: the four series, the stored values and the tuples become those of the first i + 1 bars |
| StcIndicator.SchaffTrendCycle.Calculate | src/indicators/schaff_trend_cycle.rs:22-118 | a short history changes nothing and answers no tuples; otherwise the tuples and the stored values are those of the trace of the closes |
| StcIndicator.SchaffTrendCycle.GetColors | src/indicators/schaff_trend_cycle.rs:126-142 | one colour per value: green exactly for the first value and for a rise, red otherwise |
| UtBotIndicator.HeikinAshi | src/indicators/utbot.rs:82-92 | one Heikin-Ashi close per bar |
| UtBotIndicator.Atr | src/indicators/utbot.rs:100-128 | one ATR value per bar |
| UtBotIndicator.AtrNonNegative | src/indicators/utbot.rs:100-128 | every ATR value is non-negative when the first bar's low is not above its high; later true ranges are non-negative whatever the prices |
| UtBotIndicator.RunningMeanNonNegative | src/indicators/utbot.rs:117-120 | the warm-up mean of non-negative ranges is non-negative |
| UtBotIndicator.WilderNonNegative | src/indicators/utbot.rs:121-125 | Wilder's smoothing of non-negative values is non-negative |
| UtBotIndicator.StopRatchet | src/indicators/utbot.rs:152-157 | while the source stays above the stop, the stop never falls; while it stays below, the stop never rises |
| UtBotIndicator.StopSide | src/indicators/utbot.rs:152-164 | with a non-negative loss distance, a rising source gets its stop at or below it and a falling source at or above it |
| UtBotIndicator.PositionsInRange | src/indicators/utbot.rs:170-194 | positions are −1, 0 or 1; the first is 0; a position changes only when the source crosses the previous stop |
| UtBotIndicator.SignalsExclusive | src/indicators/utbot.rs:196-221 | no bar is both buy and sell, the first bar has neither, and with the EMA(1) line a buy is exactly an upward cross of the stop (a sell a downward one) |
| UtBotIndicator.LongShortExclusive | src/indicators/utbot.rs:263-279 | long and short exclude each other, one holds when the last source differs from the last stop, and neither holds on empty series |
| UtBotIndicator.FullHistoryLengths | src/indicators/utbot.rs:53-78 | with enough candles every series has one entry per candle |
| UtBotIndicator.ShortHistoryIsFlat | src/indicators/utbot.rs:53-59 | fewer than atr_period candles leave every series empty, neither long nor short |
| UtBotIndicator.UtBot.constructor | src/indicators/utbot.rs:32-45 | stores the parameters, with every series empty |
| UtBotIndicator.UtBot.Reset | src/indicators/utbot.rs:223-231 | all seven series are emptied |
| UtBotIndicator.UtBot.PrepareSourceData | src/indicators/utbot.rs:81-97 | the source series becomes the Heikin-Ashi or plain closes; nothing else changes |
| UtBotIndicator.UtBot.CalculateAtr | src/indicators/utbot.rs:100-128 | the ATR series becomes the true-range average of the candles; nothing else changes |
| UtBotIndicator.UtBot.CalculateEma | src/indicators/utbot.rs:131-133 | the EMA(1) line is the source itself |
| UtBotIndicator.UtBot.UpdateTrailingStop | src/indicators/utbot.rs:136-167 | appends the new stop computed from the source, the previous source, the previous stop (0 at the start) and key·ATR |
| UtBotIndicator.UtBot.UpdatePosition | src/indicators/utbot.rs:170-193 | appends 0 for the first bar, otherwise the position after a cross of the previous stop |
| UtBotIndicator.UtBot.GenerateSignals | src/indicators/utbot.rs:196-220 | appends false/false for the first bar, otherwise the buy and sell flags of the bar |
| UtBotIndicator.UtBot.UpdateBar | src/indicators/utbot.rs:71-75 | one loop iteration extends every series by the bar's value |
| UtBotIndicator.UtBot.Calculate | src/indicators/utbot.rs:53-78 | resets and, with enough candles, rebuilds every series from the specification; returns the buy and sell flags |
| UtBotIndicator.UtBot.LatestStop | src/indicators/utbot.rs:234-236 | None exactly for no stops, else the last stop |
| UtBotIndicator.UtBot.LatestPosition | src/indicators/utbot.rs:239-241 | None exactly for no positions, else the last position |
| UtBotIndicator.UtBot.IsLong | src/indicators/utbot.rs:263-270 | needs a source value and a stop, and the last source is above the last stop |
| UtBotIndicator.UtBot.IsShort | src/indicators/utbot.rs:272-279 | needs a source value and a stop, and the last source is below the last stop; never together with long |
| CycIndicator.PriceVolumes | src/indicators/cyc.rs:69-74 | one close·volume per bar |
| CycIndicator.Volumes | src/indicators/cyc.rs:69-74 | one volume per bar |
| CycIndicator.CycSeries | src/indicators/cyc.rs:47-67 | one CYC value per bar, each the volume-weighted average of its window |
| CycIndicator.CycBetweenCloses | src/indicators/cyc.rs:78-108 | with non-negative volumes and a non-negligible volume sum, the CYC of a full window lies between the lowest and highest close of that window |
| CycIndicator.CycZeroCases | src/indicators/cyc.rs:78-108 | before a full window, or when the volume sum is below f64::EPSILON, the CYC is 0 |
| CycIndicator.BufferCycIsCycAt | src/indicators/cyc.rs:78-108 | the value computed from the running buffers equals the window definition |
| CycIndicator.CrossesExclusive | src/indicators/cyc.rs:166-191 | a golden and a death cross never hold together, and neither holds with fewer than two values |
| CycIndicator.OverAndUnderExclusive | src/indicators/cyc.rs:148-164 | with a non-negative long CYC and threshold, overbought and oversold exclude each other; with no values neither holds |
| CycIndicator.GenerateSignal | src/indicators/cyc.rs:193-201 | panics exactly when fewer than two short values exist and the price is oversold or overbought; otherwise −1, 0 or 1; 1 exactly for a golden cross, or oversold with the short line rising; −1 exactly otherwise for a death cross, or overbought with the short line falling |
| CycIndicator.EmptySeriesIsNeutral | src/indicators/cyc.rs:193-201 | no values give a neutral 0 |
| CycIndicator.Cyc.constructor | src/indicators/cyc.rs:28-40 | stores the three periods with empty buffers and series |
| CycIndicator.Cyc.Default | src/indicators/cyc.rs:42-44 | the 5/13/34 periods |
| CycIndicator.Cyc.Reset | src/indicators/cyc.rs:111-118 | empties the buffers and series |
| CycIndicator.Cyc.UpdateCyc | src/indicators/cyc.rs:69-109 | appends the bar's close·volume and volume, and each period's CYC over the buffers |
| CycIndicator.Cyc.WindowCyc | src/indicators/cyc.rs:78-108 | the window loop computes the buffered CYC |
| CycIndicator.Cyc.Calculate | src/indicators/cyc.rs:47-67 | resets; fewer than long_period candles leave the buffers and the three series empty, otherwise the buffers hold every bar's close·volume and volume and the series are the three CYC series of the candles |
| CycIndicator.Cyc.IsOverbought | src/indicators/cyc.rs:147-154 | true exactly when the series hold values and the price is above the latest long CYC raised by threshold percent |
| CycIndicator.Cyc.IsOversold | src/indicators/cyc.rs:156-163 | true exactly when the series hold values and the price is below the latest long CYC lowered by threshold percent; with a non-negative threshold and long CYC, never together with overbought |
| CycIndicator.Cyc.IsGoldenCross | src/indicators/cyc.rs:165-177 | needs two short and two long values and ends with the short line above the long one |
| CycIndicator.Cyc.IsDeathCross | src/indicators/cyc.rs:179-191 | needs two short and two long values and ends with the short line below the long one; never together with a golden cross |
| CycIndicator.Cyc.Signal | src/indicators/cyc.rs:192-201 | the object's `generate_signal`: a panic exactly with one short value while oversold or overbought; 1 exactly for a golden cross or oversold and rising; −1 exactly otherwise for a death cross or overbought and falling; else 0 |
| TradingviewTechnicals.BandCases | src/indicators/tradingview_technicals.rs:98-104 | each recommendation maps to −2…2; each nonzero band is taken exactly on its open interval |
| TradingviewTechnicals.BoundariesAreNeutral | src/indicators/tradingview_technicals.rs:98-104 | ±0.5, ±0.7 and a missing value map to 0 |
| TradingviewTechnicals.BandIsOdd | src/indicators/tradingview_technicals.rs:98-120 | the mapping is symmetric: −x maps to minus the band of x |
| TradingviewTechnicals.RecommendationsAreIndependent | src/indicators/tradingview_technicals.rs:96-122 | each of the three signals depends only on its own field |
| TradingviewTechnicals.TradingTechnicals.constructor | src/indicators/tradingview_technicals.rs:32-84 | the fetched fields are stored |
| TradingviewTechnicals.TradingTechnicals.Reset | src/indicators/tradingview_technicals.rs:125-127 | the fields are cleared, after which every signal is 0 |
| TradingviewTechnicals.TradingTechnicals.Calculate | src/indicators/tradingview_technicals.rs:96-122 | each of the three signals is −2, −1, 0, 1 or 2, and a field missing from the reply gives 0 |
| KdjCalculate.Calculate | src/calculates/kdj_calculate.rs:10-27 | answers the KDJ verdict of the default KDJ(9,3,3) over the candles |
| KdjCalculate.VerdictCases | src/calculates/kdj_calculate.rs:14-26 | 1 exactly for a golden cross or oversold(20); −1 exactly otherwise for a death cross or overbought(80); else 0 |
| KdjCalculate.SignalRange | src/calculates/kdj_calculate.rs:10-27 | the signal is −1, 0 or 1 |
| KdjCalculate.GoldenCrossBeatsOverbought | src/calculates/kdj_calculate.rs:14-25 | a golden cross wins over an overbought reading |
| KdjCalculate.ShortHistoryIsNeutral | src/calculates/kdj_calculate.rs:10-27 | fewer than nine candles give 0 |
| MacdCalculate.CalculateAsWritten | src/calculates/macd_calculate.rs:10-42 | the adapter as written, including the read of index −1 |
| MacdCalculate.Calculate | src/calculates/macd_calculate.rs:10-42 | the corrected adapter's loop answers the first deciding bar of the last three |
| MacdCalculate.StepPrecedence | src/calculates/macd_calculate.rs:24-38 | at one bar a buy flag beats a sell flag, which beats the two-bar line tests; outside the lines nothing decides |
| MacdCalculate.ScanFirstDecides | src/calculates/macd_calculate.rs:23-41 | the scan answers the decision of the first deciding bar, and 0 exactly when none decides |
| MacdCalculate.SignalRange | src/calculates/macd_calculate.rs:10-42 | the signal is −1, 0 or 1 |
| MacdCalculate.ShortHistoryIsNeutral | src/calculates/macd_calculate.rs:19-22 | fewer than three candles give 0, as written and corrected |
| MacdCalculate.ThreeBarsPanicAsWritten | src/calculates/macd_calculate.rs:23-32 | as written, three candles with no flag at bar 0 read index −1 and panic |
| MacdCalculate.StepAgrees | src/calculates/macd_calculate.rs:24-38 | from bar 1 on, the corrected step is the step as written |
| MacdCalculate.ScanAgrees | src/calculates/macd_calculate.rs:23-41 | from bar 1 on, the corrected scan is the scan as written |
| MacdCalculate.AsWrittenAgreesFromFourBars | src/calculates/macd_calculate.rs:10-42 | with four or more candles the adapter as written never panics and agrees with the corrected one |
| StcCalculate.Calculate | src/calculates/stc_calculate.rs:10-27 | answers the STC verdict of STC(12, 26, 50) over the candles |
| StcCalculate.TuplesConsistent | src/indicators/schaff_trend_cycle.rs:104-114 | a red tuple has a value above 75, a green one below 25, and none is both |
| StcCalculate.SignalCases | src/calculates/stc_calculate.rs:14-26 | −1 exactly when the last tuple is red, 1 exactly when it is green, else 0 |
| StcCalculate.ShortHistoryIsNeutral | src/calculates/stc_calculate.rs:14-17 | fewer than fifty candles give no tuples and 0 |
| UtBotCalculate.Calculate | src/calculates/utbot_calculate.rs:10-39 | answers the UT Bot verdict of UTBot(1.0, 10, false) over the candles |
| UtBotCalculate.FallbackUnreachable | src/calculates/utbot_calculate.rs:25-37 | the buy/sell fallback is reached only when neither long nor short, and then neither last flag is set |
| UtBotCalculate.SignalCases | src/calculates/utbot_calculate.rs:20-38 | 1 exactly when long, −1 exactly when short, else 0 |
| UtBotCalculate.ShortHistoryIsNeutral | src/calculates/utbot_calculate.rs:10-39 | fewer than ten candles give 0 |
| CycCalculate.Series | src/calculates/cyc_calculate.rs:12-13 | fewer than 34 candles give empty series, otherwise one value per candle |
| CycCalculate.Calculate | src/calculates/cyc_calculate.rs:11-22 | the corrected adapter answers the CYC signal at the last close with a 5% threshold |
| CycCalculate.CycSignal | src/calculates/cyc_calculate.rs:11-22 | the corrected signal is −1, 0 or 1, and 0 below 34 candles |
| CycCalculate.CycSignalAsWritten | src/calculates/cyc_calculate.rs:11-22 | as written, panics on an unwrap exactly for no candles, or a short history with info logging on; otherwise −1, 0 or 1 |
| CycCalculate.AsWrittenAgrees | src/calculates/cyc_calculate.rs:11-22 | otherwise the adapter as written answers the corrected signal |
| MarketCalculate.MarketSignal | src/calculates/market_calculate.rs:9-30 | the signal is −2, 0 or 2, and a sentiment above 70 always gives −2 |
| MarketCalculate.NeutralBand | src/calculates/market_calculate.rs:9-30 | 0 exactly when sentiment, temperature and valuation all sit in their neutral bands |
| MarketCalculate.FirstMatchWins | src/calculates/market_calculate.rs:11-28 | the full characterisation of 2 and −2 with first-match precedence |
| BaseCalculate.Calculate | src/calculates/base_calculate.rs:1-5 | dispatches `calculate()` to the implementation; TradingView answers 0 (src/calculates/technicals_calculate.rs) |
| BaseCalculate.SignalOf | src/calculates/base_calculate.rs:1-5 | every candle signal is −1, 0 or 1; only the market temperature reaches ±2 |
| BaseCalculate.NameAsWritten | src/calculates/cyc_calculate.rs:24-26 | as written, the name is "KDJ" exactly for the KDJ and the CYC adapters |
| BaseCalculate.CycNamedKdjAsWritten | src/calculates/cyc_calculate.rs:24-29 | as written, CYC and KDJ adapters have the same name and description though they differ |
| BaseCalculate.NamesIdentifyKind | src/calculates/cyc_calculate.rs:24-26 | with the corrected name, two adapters share a name exactly when they are the same kind |
| DefultRules.CulRules | src/computes/defult_rules.rs:17-30 | the loop answers 1 exactly when the votes sum to at least 3, −1 exactly when they sum to at most −3 |
| DefultRules.DecideBands | src/computes/defult_rules.rs:17-30 | the decision is −1, 0 or 1, with both directions of each band |
| DefultRules.EmptyIsNeutral | src/computes/defult_rules.rs:17-30 | no votes give 0 |
| DefultRules.SignalSumAppend | src/computes/defult_rules.rs:18-21 | the vote sum is additive over concatenation |
| DefultRules.SignalSumPermutation | src/computes/defult_rules.rs:18-21 | the vote sum does not depend on the order of the votes |
| DefultRules.DecidePermutation | src/computes/defult_rules.rs:17-30 | the decision does not depend on the order of the calculators |
| DefultRules.SignalSumUpdate | src/computes/defult_rules.rs:18-21 | replacing one vote changes the sum by the difference |
| DefultRules.DecideMonotone | src/computes/defult_rules.rs:17-30 | raising one vote never lowers the decision |
| Computes.Signals | src/computes/calculate.rs:24-28 | one vote per calculator, in order, each that calculator's signal |
| Computes.Calculate.constructor | src/computes/calculate.rs:11-16 | no calculators, with the given rule |
| Computes.Calculate.AddCalculator | src/computes/calculate.rs:18-20 | appends the calculator |
| Computes.Calculate.ExecuteRules | src/computes/calculate.rs:22-30 | collects one vote per calculator and answers the rule's decision on them |
| Computes.NoCalculatorsIsNeutral | src/computes/calculate.rs:22-30 | an engine without calculators answers 0 |
| Computes.SignalsAppend | src/computes/calculate.rs:18-28 | adding a calculator appends exactly its vote |
| Service.PeriodRoundTrip | src/services/service.rs:197-206 | every known period is reached from its own configuration string |
| Service.PeriodOf | src/services/service.rs:197-206 | a known period is answered only for its own configuration string; UnknownPeriod only for a string no known period has |
| Service.PeriodInjective | src/services/service.rs:197-206 | two strings naming the same known period are equal |
| Service.CandlesRequest | src/services/service.rs:193-207 | the request is always 365 unadjusted candles over all sessions, for the given symbol and looked-up period |
| Service.TodayOrdersRequestFor | src/services/service.rs:72-75 | today's orders are requested for the US market and never include partially filled or unreported orders |
| Service.RoundHalfEven | src/services/service.rs:101-104 | rounding moves a value by at most one half |
| Service.RoundDp2 | src/services/service.rs:101-104 | rounding to cents moves a price by at most half a cent |
| Service.RoundHalfEvenMonotone | src/services/service.rs:101-104 | rounding never reverses the order of two values |
| Service.SubmittedPrice | src/services/service.rs:99-105 | a buy limit is within half a cent of 105% of the price, a sell limit within half a cent of 95%; any other side passes the price |
| Service.SubmittedPricesOrdered | src/services/service.rs:99-105 | a non-negative price never gets a sell limit above its buy limit |
| VecorV1.LastConfigIndex | src/strategys/vecor_v1.rs:195-210 | the configuration `get_sym_info` returns: -1 (the default configuration) when no entry names the symbol, else an entry naming it with no later entry naming it |
| VecorV1.GetSymInfo | src/strategys/vecor_v1.rs:195-210 | the loop finds that configuration |
| VecorV1.LastRecordIndex | src/strategys/vecor_v1.rs:237-256 | the record `get_sym_time_info` should locate: -1 (index 0 and the default record) when the symbol has none, else a record of the symbol with no later record of it |
| VecorV1.GetSymTimeInfoAsWritten | src/strategys/vecor_v1.rs:237-256 | as written, the index is that of the last record scanned |
| VecorV1.GetSymTimeInfo | src/strategys/vecor_v1.rs:237-256 | with the corrected index, the loop locates the symbol's record |
| VecorV1.AsWrittenOverwritesOtherSymbol | src/strategys/vecor_v1.rs:86-90 | as written, refreshing the first of two symbols overwrites the second symbol's record |
| VecorV1.RefreshFindsFreshRecord | src/strategys/vecor_v1.rs:86-90 | with the corrected index, a refresh changes no other record and a later lookup finds the fresh one |
| VecorV1.TimestampToTime | src/strategys/vecor_v1.rs:212-234 | panics exactly with fewer than three candles; the record carries the symbol |
| VecorV1.WrapNegative | src/strategys/vecor_v1.rs:218-221 | a negative u64 difference wraps by 2^64 |
| VecorV1.TimestampToTimeOrdered | src/strategys/vecor_v1.rs:212-234 | for ordered candle times the record holds the plain interval, due time t2 + 2·interval and last time t2; the flag holds exactly when the last gap is at most the interval and at most 10 s shorter |
| VecorV1.LastPositionIndex | src/strategys/vecor_v1.rs:308-334 | the position `handler_positions` keeps: -1 (the empty position) when none names the symbol, else a position of the symbol with no later one |
| VecorV1.HandlerPositions | src/strategys/vecor_v1.rs:308-334 | the nested loops answer the symbol's last position over all channels |
| VecorV1.HandlerOrders | src/strategys/vecor_v1.rs:278-307 | the loop answers the first blocking order's verdict |
| VecorV1.CheckOrdersCases | src/strategys/vecor_v1.rs:278-307 | a new order may go out exactly when no order of the symbol is recent (10 h) or open; it never comes with a cancellation; a cancellation targets an open, not recent order of the symbol; a refusal without one comes from a recent order |
| VecorV1.TodayOrdersCancelNewOrWaiting | src/strategys/vecor_v1.rs:290-300 | among today's orders, a cancellation targets a New or WaitToNew order |
| VecorV1.ClosePosition | src/strategys/vecor_v1.rs:383-410 | the exit panics exactly when it reaches the division with a zero previous close; it fires only with three candles, an available position and a close above cost·(1 + tp/100), and, with a positive previous close, only after a fall |
| VecorV1.ClosePositionCases | src/strategys/vecor_v1.rs:383-410 | with a positive previous close the exit never panics and fires exactly when something is available, the close exceeds cost·(1 + tp/100) and fell more than 0.1% |
| VecorV1.DropBelowLevelKeepsPosition | src/strategys/vecor_v1.rs:383-410 | a fall of 2% from 1% above the take-profit level does not trigger the exit |
| VecorV1.HandlerIndicators | src/strategys/vecor_v1.rs:336-380 | registers the six calculators and maps the rule's decision to a side |
| VecorV1.IndicatorSideCases | src/strategys/vecor_v1.rs:336-380 | Buy exactly when the five votes sum to at least 3, Sell exactly when at most −3, otherwise no side |
| VecorV1.LastUsdIndex | src/strategys/vecor_v1.rs:136-146 | the cash entry whose figures become the balance: -1 (zeros) when there is no USD entry, else a USD entry with no later USD entry |
| VecorV1.UsdBalance | src/strategys/vecor_v1.rs:136-146 | the nested loops read those figures off the balances |
| VecorV1.Ceil | src/strategys/vecor_v1.rs:158 | the least integer not below the value |
| VecorV1.QuantityCases | src/strategys/vecor_v1.rs:147-168 | a funded buy is the least whole number of shares reaching the budget; an unfunded one is 0; a sell is the whole available position |
| VecorV1.OrderQuantity | src/strategys/vecor_v1.rs:152-163 | the order size is the one `QuantityCases` characterises: shares for a funded buy, the available position for a sell, otherwise 0 |
| VecorV1.PlaceOrder | src/strategys/vecor_v1.rs:126-181 | sizes the order and sends, cancels or holds as the order check says |
| VecorV1.Trade | src/strategys/vecor_v1.rs:93-181 | take-profit first, then indicators, suppression and the order |
| VecorV1.VecorStrategy.constructor | src/strategys/vecor_v1.rs:36-46 | the configuration is kept and there are no records yet |
| VecorV1.VecorStrategy.Execute | src/strategys/vecor_v1.rs:54-184 | (corrected) the new records and the tick's broker action are those of the one-tick specification |
| VecorV1.RecordsBeforeAccount | src/strategys/vecor_v1.rs:58-90 | the new records depend only on the records, the tick and the candles |
| VecorV1.HandledTickRefreshesRecord | src/strategys/vecor_v1.rs:58-90 | (corrected) a handled tick keeps every other symbol's record and a later lookup finds the fresh one |
| VecorV1.TakeProfitComesFirst | src/strategys/vecor_v1.rs:93-110 | when the exit fires, the tick sells the whole available position, whatever the indicators, balances or orders say |
| VecorV1.SubmitIsJustified | src/strategys/vecor_v1.rs:93-181 | every submitted order is either the take-profit sell or an unsuppressed indicator order of nonzero size with no blocking order in the way |
| VecorV1.CancelTargetsOpenOrder | src/strategys/vecor_v1.rs:171-180 | a cancellation targets an open, not recent order of the tick's symbol |
| VecorV1.RecentOrderThrottles | src/strategys/vecor_v1.rs:278-290 | with a recent order of the symbol, only the take-profit sell can still be submitted |
| VecorV1.FirstSightingWaits | src/strategys/vecor_v1.rs:79-85 | the first tick of a symbol whose last candle came on time only records the timing |
| VecorV1.IndicatorSideAgrees | src/strategys/vecor_v1.rs:336-380 | with at least four candles, a MACD flag for every candle, and 34 candles or info logging off, the indicators as written never panic and pick the corrected side |
| VecorV1.TradeIntentAgrees | src/strategys/vecor_v1.rs:93-181 | under the same conditions the trade as written is the corrected trade |
| VecorV1.ThreeCandlesAbortAsWritten | src/calculates/macd_calculate.rs:23-32 | as written, a tick with exactly three candles, no flag at bar 0 and no take-profit exit aborts |
| VecorV1.LastOrAbsentLookupAgrees | src/strategys/vecor_v1.rs:237-256 | when the symbol's record is the last one or it has none, the lookup as written finds the corrected record, and the corrected index whenever that record has a due time |
| VecorV1.AsWrittenTickAgrees | src/strategys/vecor_v1.rs:54-184 | under those conditions, and with the symbol's record last or absent, the tick as written writes the same records and takes the same action as the corrected tick |
| VecorV1.AsWrittenTickOverwritesOtherSymbol | src/strategys/vecor_v1.rs:58-90 | with records for AAPL.US then TSLA.US, a handled AAPL.US tick as written leaves no TSLA.US record, while the corrected tick keeps it |

## Left out

- Floating point: `f64` and `Decimal` are exact reals. NaN, infinities, IEEE rounding and Decimal's 28-digit precision (including the overflow that `checked_mul` reports) are not modelled.
- u64 overflow panics of debug builds: the model follows release builds, where `u64` arithmetic wraps around. The `i64` sum in `cul_rules` is unbounded.
- The network and the broker are not modelled. Candles, positions, balances, today's orders, the MACD flag vectors and the TradingView fields reach the model as the fields of `Feeds`, where a failed call is an empty sequence. The clock is `now`. The `Service` methods that only forward to the broker are not modelled: `get_history_orders`, `account_balance`, `fund_positions`, `stock_positions`, `cancel_order` and `get_market_temperature`.
- `submit_order` and `cancel_order` are not sent. The tick hands back a `Submit` or `CancelOrder` intent, and the order response is ignored, as in the source. The expiry date of the order is not modelled.
- `TradingTechnicals::new` (the HTTP fetch, its cache and the `.US` suffix handling) is not modelled. The constructor takes the fetched fields.
- Logging (`info!`, `println!`) is not modelled. `CycCalculate.CycSignalAsWritten` takes the log level as a flag because one log line unwraps.
- `VecorStrategy::run` and `stop` only log and are not modelled. `handle_candles` copies the broker's candles field by field and is not modelled either. Loading the configuration (`Configs::load()` and its `unwrap` in `VecorStrategy::new`, src/strategys/vecor_v1.rs:37-38) is not modelled; the loaded list is a constructor parameter.
- MacdCalculate.Calculate: the flag vectors the adapter destructures from the MACD result are parameters, and the corrected adapter (`MacdCalculate.Flag`) reads a flag past the end of its vector as false, where the source panics on the index. The adapter as written (`MacdCalculate.StepAsWritten`, `MacdCalculate.MacdSignalAsWritten`) panics there, and `MacdCalculate.AsWrittenAgreesFromFourBars` proves the two agree when both vectors hold a flag for every candle (and there are at least four). The MACD lines are the modelled MACD(5,10,5).
- VecorV1.VecorStrategy.Execute: the method follows the corrected record lookup and the corrected MACD and CYC adapters. The tick as written is `VecorV1.ExecuteSpecAsWritten`, where a panic of either adapter aborts the tick. `VecorV1.AsWrittenTickAgrees` proves the two ticks equal when the symbol's record is the last one or it has none, there are at least four candles with a MACD flag each, and there are 34 candles or info logging is off; `VecorV1.AsWrittenTickOverwritesOtherSymbol` and `VecorV1.ThreeCandlesAbortAsWritten` show where they part.
- VecorV1.HandledTickRefreshesRecord: holds for the corrected lookup only. As written, a handled tick writes to the last record, which replaces another symbol's record whenever the symbol's own record is not the last one (`VecorV1.AsWrittenTickOverwritesOtherSymbol`).
- `SymbolConfig::new()` is not part of this model. The default that `get_sym_info` returns for an unconfigured symbol (src/strategys/vecor_v1.rs:196) is `VecorV1.DEFAULT_CONFIG`, taken to have every field empty or zero. The configuration record follows the fields `get_sym_info` copies (symbol, symbol_type, volume, period, tp_ratio, sl_ratio, src/strategys/vecor_v1.rs:199-206), not the struct in src/config/config.rs:10-16, which has `line_level` and neither `symbol_type` nor `period`.
- Indicator periods of 0: the constructors of `Kdj` (K and D periods), `UtBot` (ATR period), `Cyc` (all three periods) and `SchaffTrendCycle` (cycle length) require them to be at least 1. The adapters only use positive constants; in the source a zero period underflows a `usize` subtraction, divides by zero or takes the extremes of an empty window.
- `set_display_options` and the `Display` formatting of the indicators are not modelled.
- Concurrency: one tick is one call of `Execute`, so no ticks interleave.

## Findings

| source | as written | input that shows it | evidently intended | confidence | as-written member | corrected member |
|---|---|---|---|---|---|---|
| src/strategys/vecor_v1.rs:241-255 | `index` is overwritten by the loop counter on every iteration, so it is the last record's position, not the matched one's; the refresh at line 89 then writes to the wrong record | records for AAPL.US then TSLA.US, tick for AAPL.US: TSLA.US's record is replaced by AAPL.US's | `index` set together with the matched record | not executed | VecorV1.AsWrittenOverwritesOtherSymbol | VecorV1.RefreshFindsFreshRecord |
| src/calculates/macd_calculate.rs:23-32 | with exactly three candles the loop starts at bar 0 and reads `macd_line()[i-1]`, an index underflow | three candles with no buy or sell flag at bar 0 | skip the two-bar test at bar 0 | not executed | MacdCalculate.ThreeBarsPanicAsWritten | MacdCalculate.ScanFirstDecides |
| src/calculates/cyc_calculate.rs:15-19 | `unwrap` on the last close and on the last CYC values, which are empty below 34 candles | no candles, or 20 candles with info logging on | a neutral 0 for a short history | not executed | CycCalculate.CycSignalAsWritten | CycCalculate.CycSignal |
| src/calculates/cyc_calculate.rs:24-29 | the CYC adapter names and describes itself as KDJ | any CYC adapter next to a KDJ adapter | "CYC" | not executed | BaseCalculate.CycNamedKdjAsWritten | BaseCalculate.NamesIdentifyKind |

Two notes that are not findings:

- The comment on the throttle window in `handler_orders` (src/strategys/vecor_v1.rs:280) speaks of two hours, but the constant is `10 * 60 * 60` seconds. The model follows the code: ten hours (`VecorV1.THROTTLE_SECONDS`).
- A drop of 2% from 1% above the take-profit level does not trigger the exit (`VecorV1.DropBelowLevelKeepsPosition`). The exit needs the last close itself to stay above the level.
