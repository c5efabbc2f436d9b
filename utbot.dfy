/** UT Bot: an ATR trailing stop with crossing signals (src/indicators/utbot.rs). */
module UtBotIndicator {
  import opened Common

  // ---------------------------------------------------------------------------
  // Specification functions, one series at a time.
  // ---------------------------------------------------------------------------

  /** Heikin-Ashi closes of the first `k` bars: the first is the OHLC mean, later ones average the previous one with the HLC mean. */
  function HeikinAshi(cs: seq<Candle>, k: nat): (r: seq<real>)
    requires k <= |cs|
    ensures |r| == k
  {
    if k == 0 then []
    else if k == 1 then [(cs[0].open + cs[0].high + cs[0].low + cs[0].close) / 4.0]
    else
      var p := HeikinAshi(cs, k - 1);
      p + [(p[k - 2] + (cs[k - 1].high + cs[k - 1].low + cs[k - 1].close) / 3.0) / 2.0]
  }

  /** The price source: Heikin-Ashi closes or plain closes. */
  function Source(cs: seq<Candle>, useHeikinAshi: bool): (r: seq<real>)
    ensures |r| == |cs|
  {
    if useHeikinAshi then HeikinAshi(cs, |cs|) else Closes(cs)
  }

  /** True range of bar `i`: the bar's own range for the first bar, else the largest gap to the previous close. */
  function TrueRange(cs: seq<Candle>, i: nat): real
    requires i < |cs|
  {
    if i == 0 then cs[0].high - cs[0].low
    else Max(Max(cs[i].high - cs[i].low, Abs(cs[i].high - cs[i - 1].close)), Abs(cs[i].low - cs[i - 1].close))
  }

  /** ATR of the first `k` bars: a running mean below `period`, then Wilder's smoothing. */
  function Atr(cs: seq<Candle>, period: nat, k: nat): (r: seq<real>)
    requires period >= 1 && k <= |cs|
    ensures |r| == k
  {
    if k == 0 then []
    else
      var p := Atr(cs, period, k - 1);
      var i := k - 1;
      var tr := TrueRange(cs, i);
      if i == 0 then [tr]
      else if i < period then p + [RunningMean(Sum(p), tr, i)]
      else p + [Wilder(p[i - 1], tr, period)]
  }

  /** The warm-up ATR: the mean of the `i` earlier values (summing to `sum`) and the new true range. */
  function RunningMean(sum: real, tr: real, i: nat): real
  {
    (sum + tr) / (i as real + 1.0)
  }

  /** Wilder's smoothing with weight `period - 1` on the previous ATR. */
  function Wilder(prev: real, tr: real, period: nat): real
    requires period >= 1
  {
    (prev * (period as real - 1.0) + tr) / (period as real)
  }

  lemma DivNonNegative(x: real, d: real)
    requires x >= 0.0 && d > 0.0
    ensures x / d >= 0.0
  {
  }

  lemma RunningMeanNonNegative(sum: real, tr: real, i: nat)
    requires sum >= 0.0 && tr >= 0.0
    ensures RunningMean(sum, tr, i) >= 0.0
  {
    DivNonNegative(sum + tr, i as real + 1.0);
  }

  lemma WilderNonNegative(prev: real, tr: real, period: nat)
    requires period >= 1 && prev >= 0.0 && tr >= 0.0
    ensures Wilder(prev, tr, period) >= 0.0
  {
    var a := prev * (period as real - 1.0);
    assert a >= 0.0;
    DivNonNegative(a + tr, period as real);
  }

  /** The new trailing stop from the source value, the previous source value, the previous stop and the loss distance. */
  function NewStop(src: real, prevSrc: real, prevStop: real, nLoss: real): real
  {
    if src > prevStop && prevSrc > prevStop then Max(prevStop, src - nLoss)
    else if src < prevStop && prevSrc < prevStop then Min(prevStop, src + nLoss)
    else if src > prevStop then src - nLoss
    else src + nLoss
  }

  /** The distance of the stop from the source: the sensitivity times the ATR. */
  function Loss(key: real, atr: real): real
  {
    key * atr
  }

  /** The stop before bar `i`: the stored one, or 0 for the first bar (and for a missing entry). */
  function PrevStop(stops: seq<real>, i: nat): real
  {
    if i > 0 && i - 1 < |stops| then stops[i - 1] else 0.0
  }

  function PrevSource(src: seq<real>, i: nat): real
    requires i < |src|
  {
    if i > 0 then src[i - 1] else src[i]
  }

  /** Trailing stops of the first `k` bars. */
  function Stops(src: seq<real>, atr: seq<real>, key: real, k: nat): (r: seq<real>)
    requires k <= |src| && k <= |atr|
    ensures |r| == k
  {
    if k == 0 then []
    else
      var p := Stops(src, atr, key, k - 1);
      p + [NewStop(src[k - 1], PrevSource(src, k - 1), PrevStop(p, k - 1), Loss(key, atr[k - 1]))]
  }

  /** The next position: long after the source crosses up through the previous stop, short after it crosses down, else unchanged. */
  function NextPosition(prevSrc: real, src: real, stop: real, prevPos: int): int
  {
    if prevSrc < stop && src > stop then 1
    else if prevSrc > stop && src < stop then -1
    else prevPos
  }

  /** Positions of the first `k` bars: 0 for the first, then `NextPosition` against the stop of the bar before. */
  function Positions(src: seq<real>, stops: seq<real>, k: nat): (r: seq<int>)
    requires k <= |src| && k <= |stops| + 1
    ensures |r| == k
  {
    if k == 0 then []
    else if k == 1 then [0]
    else
      var p := Positions(src, stops, k - 1);
      p + [NextPosition(src[k - 2], src[k - 1], stops[k - 2], p[k - 2])]
  }

  /** The buy flag of one bar: the source is above the stop and the EMA line goes from at-or-below the previous stop to above the stop. */
  predicate BuyFlag(src: real, stop: real, prevEma: real, ema: real, prevStop: real)
  {
    src > stop && prevEma <= prevStop && ema > stop
  }

  /** The sell flag of one bar: the source is below the stop and the EMA line goes from at-or-above the previous stop to below the stop. */
  predicate SellFlag(src: real, stop: real, prevEma: real, ema: real, prevStop: real)
  {
    src < stop && prevEma >= prevStop && ema < stop
  }

  /** Buy at bar `i`; the first bar never signals. */
  predicate BuyAt(src: seq<real>, ema: seq<real>, stops: seq<real>, i: nat)
    requires i < |src| && i < |ema| && i < |stops|
  {
    i > 0 && BuyFlag(src[i], stops[i], ema[i - 1], ema[i], stops[i - 1])
  }

  /** Sell at bar `i`; the first bar never signals. */
  predicate SellAt(src: seq<real>, ema: seq<real>, stops: seq<real>, i: nat)
    requires i < |src| && i < |ema| && i < |stops|
  {
    i > 0 && SellFlag(src[i], stops[i], ema[i - 1], ema[i], stops[i - 1])
  }

  function Buys(src: seq<real>, ema: seq<real>, stops: seq<real>, k: nat): (r: seq<bool>)
    requires k <= |src| && k <= |ema| && k <= |stops|
    ensures |r| == k
  {
    if k == 0 then [] else Buys(src, ema, stops, k - 1) + [BuyAt(src, ema, stops, k - 1)]
  }

  function Sells(src: seq<real>, ema: seq<real>, stops: seq<real>, k: nat): (r: seq<bool>)
    requires k <= |src| && k <= |ema| && k <= |stops|
    ensures |r| == k
  {
    if k == 0 then [] else Sells(src, ema, stops, k - 1) + [SellAt(src, ema, stops, k - 1)]
  }

  /** Everything `calculate` leaves behind for a run on enough candles. */
  datatype UtBotSeries = UtBotSeries(source: seq<real>, atr: seq<real>, stops: seq<real>,
                                     positions: seq<int>, buys: seq<bool>, sells: seq<bool>)

  function UtBotOf(cs: seq<Candle>, key: real, period: nat, useHeikinAshi: bool): (r: UtBotSeries)
    requires period >= 1
  {
    if |cs| < period then UtBotSeries([], [], [], [], [], [])
    else
      var src := Source(cs, useHeikinAshi);
      var atr := Atr(cs, period, |cs|);
      var stops := Stops(src, atr, key, |cs|);
      UtBotSeries(src, atr, stops, Positions(src, stops, |cs|), Buys(src, src, stops, |cs|), Sells(src, src, stops, |cs|))
  }

  /** `is_long`: the last source value is above the last stop. */
  predicate Long(src: seq<real>, stops: seq<real>)
  {
    src != [] && stops != [] && Last(src) > Last(stops)
  }

  /** `is_short`: the last source value is below the last stop. */
  predicate Short(src: seq<real>, stops: seq<real>)
  {
    src != [] && stops != [] && Last(src) < Last(stops)
  }

  // ---------------------------------------------------------------------------
  // Properties.
  // ---------------------------------------------------------------------------

  lemma {:induction false} StopsPrefix(src: seq<real>, atr: seq<real>, key: real, j: nat, k: nat)
    requires j <= k <= |src| && k <= |atr|
    ensures Stops(src, atr, key, j) == Stops(src, atr, key, k)[..j]
  {
    if j < k {
      StopsPrefix(src, atr, key, j, k - 1);
    }
  }

  lemma {:induction false} PositionsAt(src: seq<real>, stops: seq<real>, k: nat, i: nat)
    requires i < k <= |src| && k <= |stops| + 1
    ensures Positions(src, stops, k)[i] == Positions(src, stops, i + 1)[i]
  {
    if i < k - 1 {
      PositionsAt(src, stops, k - 1, i);
    }
  }

  /** Every true range after the first bar is non-negative whatever the prices, so the ATR is non-negative once the first bar's low is not above its high. */
  lemma {:induction false} AtrNonNegative(cs: seq<Candle>, period: nat, k: nat)
    requires period >= 1 && k <= |cs| && (cs != [] ==> cs[0].low <= cs[0].high)
    ensures forall i :: 0 <= i < k ==> Atr(cs, period, k)[i] >= 0.0
  {
    if k > 0 {
      AtrNonNegative(cs, period, k - 1);
      var p := Atr(cs, period, k - 1);
      var i := k - 1;
      var tr := TrueRange(cs, i);
      assert tr >= 0.0;
      if 0 < i < period {
        SumNonNegative(p);
        RunningMeanNonNegative(Sum(p), tr, i);
      } else if i >= period {
        WilderNonNegative(p[i - 1], tr, period);
      }
    }
  }

  /** The stop only ratchets: up while the source stays above it, down while it stays below. */
  lemma StopRatchet(src: seq<real>, atr: seq<real>, key: real, i: nat)
    requires 1 <= i < |src| == |atr|
    ensures var s := Stops(src, atr, key, |src|);
      s[i - 1] < src[i - 1] && s[i - 1] < src[i] ==> s[i] >= s[i - 1]
    ensures var s := Stops(src, atr, key, |src|);
      s[i - 1] > src[i - 1] && s[i - 1] > src[i] ==> s[i] <= s[i - 1]
  {
    StopsPrefix(src, atr, key, i, |src|);
    StopsPrefix(src, atr, key, i + 1, |src|);
  }

  /** With a non-negative loss distance the stop sits below a source above the previous stop and above a source below it. */
  lemma StopSide(src: seq<real>, atr: seq<real>, key: real, i: nat)
    requires i < |src| == |atr| && key >= 0.0 && atr[i] >= 0.0
    ensures var s := Stops(src, atr, key, |src|);
      (src[i] > PrevStop(s, i) ==> s[i] <= src[i]) && (src[i] <= PrevStop(s, i) ==> s[i] >= src[i])
  {
    StopsPrefix(src, atr, key, i, |src|);
    StopsPrefix(src, atr, key, i + 1, |src|);
    ScaleBounds(key, atr[i], atr[i]);
    assert Loss(key, atr[i]) >= 0.0;
    var s := Stops(src, atr, key, |src|);
    assert PrevStop(s, i) == PrevStop(Stops(src, atr, key, i), i);
  }

  /** Positions are always -1, 0 or 1, the first one is 0, and a position changes only when the source crosses the previous stop. */
  lemma {:induction false} PositionsInRange(src: seq<real>, stops: seq<real>, k: nat)
    requires k <= |src| && k <= |stops| + 1
    ensures forall i :: 0 <= i < k ==> -1 <= Positions(src, stops, k)[i] <= 1
    ensures k >= 1 ==> Positions(src, stops, k)[0] == 0
    ensures forall i :: 1 <= i < k && Positions(src, stops, k)[i] != Positions(src, stops, k)[i - 1] ==>
      (src[i - 1] < stops[i - 1] && src[i] > stops[i - 1]) || (src[i - 1] > stops[i - 1] && src[i] < stops[i - 1])
  {
    if k > 1 {
      PositionsInRange(src, stops, k - 1);
    }
  }

  /** A bar never carries both signals, the first bar carries none, and with the EMA(1) line (the source itself) a buy is exactly an upward cross of the stop. */
  lemma SignalsExclusive(src: seq<real>, stops: seq<real>, i: nat)
    requires i < |src| && i < |stops|
    ensures !(BuyAt(src, src, stops, i) && SellAt(src, src, stops, i))
    ensures i == 0 ==> !BuyAt(src, src, stops, i) && !SellAt(src, src, stops, i)
    ensures i > 0 ==> (BuyAt(src, src, stops, i) <==> src[i - 1] <= stops[i - 1] && src[i] > stops[i])
    ensures i > 0 ==> (SellAt(src, src, stops, i) <==> src[i - 1] >= stops[i - 1] && src[i] < stops[i])
  {
  }

  /** Long and short exclude each other, exactly one holds when the last source differs from the last stop, and neither holds on empty series. */
  lemma LongShortExclusive(src: seq<real>, stops: seq<real>)
    ensures !(Long(src, stops) && Short(src, stops))
    ensures src != [] && stops != [] && Last(src) != Last(stops) ==> Long(src, stops) || Short(src, stops)
    ensures src == [] || stops == [] ==> !Long(src, stops) && !Short(src, stops)
  {
  }

  /** With enough candles every series has one entry per candle. */
  lemma {:induction false} FullHistoryLengths(cs: seq<Candle>, key: real, period: nat, useHeikinAshi: bool)
    requires period >= 1 && |cs| >= period
    ensures var u := UtBotOf(cs, key, period, useHeikinAshi);
      |u.source| == |u.atr| == |u.stops| == |u.positions| == |u.buys| == |u.sells| == |cs|
  {
  }

  /** Fewer than `period` candles leave every series empty, so the indicator is neither long nor short. */
  lemma ShortHistoryIsFlat(cs: seq<Candle>, key: real, period: nat, useHeikinAshi: bool)
    requires period >= 1 && |cs| < period
    ensures var u := UtBotOf(cs, key, period, useHeikinAshi);
      u.stops == [] && u.buys == [] && u.sells == [] && !Long(u.source, u.stops) && !Short(u.source, u.stops)
  {
  }

  // ---------------------------------------------------------------------------
  // The indicator object.
  // ---------------------------------------------------------------------------

  class UtBot {
    const keyValue: real
    const atrPeriod: nat
    const useHeikinAshi: bool

    var atrValues: seq<real>
    var trailingStop: seq<real>
    var position: seq<int>
    var sourceValues: seq<real>
    var emaValues: seq<real>
    var buySignals: seq<bool>
    var sellSignals: seq<bool>

    constructor (keyValue: real, atrPeriod: nat, useHeikinAshi: bool)
      requires atrPeriod >= 1
      ensures this.keyValue == keyValue && this.atrPeriod == atrPeriod && this.useHeikinAshi == useHeikinAshi
      ensures atrValues == [] && trailingStop == [] && position == [] && sourceValues == []
      ensures emaValues == [] && buySignals == [] && sellSignals == []
    {
      this.keyValue, this.atrPeriod, this.useHeikinAshi := keyValue, atrPeriod, useHeikinAshi;
      atrValues, trailingStop, position, sourceValues := [], [], [], [];
      emaValues, buySignals, sellSignals := [], [], [];
    }

    method Reset()
      modifies this
      ensures atrValues == [] && trailingStop == [] && position == [] && sourceValues == []
      ensures emaValues == [] && buySignals == [] && sellSignals == []
    {
      atrValues, trailingStop, position, sourceValues := [], [], [], [];
      emaValues, buySignals, sellSignals := [], [], [];
    }

    /** `prepare_source_data`, run on a freshly reset indicator. */
    method PrepareSourceData(cs: seq<Candle>)
      requires sourceValues == []
      modifies this
      ensures sourceValues == Source(cs, useHeikinAshi)
      ensures atrValues == old(atrValues) && trailingStop == old(trailingStop) && position == old(position)
      ensures emaValues == old(emaValues) && buySignals == old(buySignals) && sellSignals == old(sellSignals)
    {
      if useHeikinAshi {
        for i := 0 to |cs|
          invariant sourceValues == HeikinAshi(cs, i)
          invariant atrValues == old(atrValues) && trailingStop == old(trailingStop) && position == old(position)
          invariant emaValues == old(emaValues) && buySignals == old(buySignals) && sellSignals == old(sellSignals)
        {
          var haClose;
          if i == 0 {
            haClose := (cs[i].open + cs[i].high + cs[i].low + cs[i].close) / 4.0;
          } else {
            haClose := (sourceValues[i - 1] + (cs[i].high + cs[i].low + cs[i].close) / 3.0) / 2.0;
          }
          sourceValues := sourceValues + [haClose];
        }
      } else {
        sourceValues := Closes(cs);
      }
    }

    /** `calculate_atr`, run on a freshly reset indicator. */
    method CalculateAtr(cs: seq<Candle>)
      requires atrPeriod >= 1 && atrValues == []
      modifies this
      ensures atrValues == Atr(cs, atrPeriod, |cs|)
      ensures sourceValues == old(sourceValues) && trailingStop == old(trailingStop) && position == old(position)
      ensures emaValues == old(emaValues) && buySignals == old(buySignals) && sellSignals == old(sellSignals)
    {
      for i := 0 to |cs|
        invariant atrValues == Atr(cs, atrPeriod, i)
        invariant sourceValues == old(sourceValues) && trailingStop == old(trailingStop) && position == old(position)
        invariant emaValues == old(emaValues) && buySignals == old(buySignals) && sellSignals == old(sellSignals)
      {
        if i == 0 {
          var tr := cs[i].high - cs[i].low;
          atrValues := atrValues + [tr];
          continue;
        }
        var tr1 := cs[i].high - cs[i].low;
        var tr2 := Abs(cs[i].high - cs[i - 1].close);
        var tr3 := Abs(cs[i].low - cs[i - 1].close);
        var tr := Max(Max(tr1, tr2), tr3);
        assert tr == TrueRange(cs, i);
        if i < atrPeriod {
          var sum := Sum(atrValues);
          atrValues := atrValues + [RunningMean(sum, tr, i)];
        } else {
          var prevAtr := atrValues[i - 1];
          atrValues := atrValues + [Wilder(prevAtr, tr, atrPeriod)];
        }
      }
    }

    /** `calculate_ema`: an EMA of length 1 is the source itself. */
    method CalculateEma()
      modifies this
      ensures emaValues == sourceValues
      ensures sourceValues == old(sourceValues) && atrValues == old(atrValues) && trailingStop == old(trailingStop)
      ensures position == old(position) && buySignals == old(buySignals) && sellSignals == old(sellSignals)
    {
      emaValues := sourceValues;
    }

    /** `update_trailing_stop`: appends the stop of bar `index`. */
    method UpdateTrailingStop(index: nat)
      requires index < |sourceValues| && index < |atrValues|
      modifies this
      ensures sourceValues == old(sourceValues) && atrValues == old(atrValues) && position == old(position)
      ensures emaValues == old(emaValues) && buySignals == old(buySignals) && sellSignals == old(sellSignals)
      ensures trailingStop == old(trailingStop) + [NewStop(sourceValues[index], PrevSource(sourceValues, index),
                                                            PrevStop(old(trailingStop), index), Loss(keyValue, atrValues[index]))]
    {
      var src := sourceValues[index];
      var nLoss := keyValue * atrValues[index];
      var prevStop := if index > 0 && index - 1 < |trailingStop| then trailingStop[index - 1] else 0.0;
      var prevSrc := if index > 0 then sourceValues[index - 1] else src;
      var newStop;
      if src > prevStop && prevSrc > prevStop {
        newStop := Max(prevStop, src - nLoss);
      } else if src < prevStop && prevSrc < prevStop {
        newStop := Min(prevStop, src + nLoss);
      } else if src > prevStop {
        newStop := src - nLoss;
      } else {
        newStop := src + nLoss;
      }
      trailingStop := trailingStop + [newStop];
    }

    /** `update_position`: appends the position of bar `index`. */
    method UpdatePosition(index: nat)
      requires index < |sourceValues| && index <= |trailingStop| && (index > 0 ==> index <= |position|)
      modifies this
      ensures sourceValues == old(sourceValues) && atrValues == old(atrValues) && trailingStop == old(trailingStop)
      ensures emaValues == old(emaValues) && buySignals == old(buySignals) && sellSignals == old(sellSignals)
      ensures index == 0 ==> position == old(position) + [0]
      ensures index > 0 ==> position == old(position) + [NextPosition(sourceValues[index - 1], sourceValues[index],
                                                                      trailingStop[index - 1], old(position)[index - 1])]
    {
      if index == 0 {
        position := position + [0];
        return;
      }
      var src := sourceValues[index];
      var prevSrc := sourceValues[index - 1];
      var stop := trailingStop[index - 1];
      var prevPos := position[index - 1];
      var newPos;
      if prevSrc < stop && src > stop {
        newPos := 1;
      } else if prevSrc > stop && src < stop {
        newPos := -1;
      } else {
        newPos := prevPos;
      }
      position := position + [newPos];
    }

    /** `generate_signals`: appends the buy and sell flags of bar `index`. */
    method GenerateSignals(index: nat)
      requires index < |sourceValues| && index < |trailingStop| && index < |emaValues|
      modifies this
      ensures sourceValues == old(sourceValues) && atrValues == old(atrValues) && trailingStop == old(trailingStop)
      ensures emaValues == old(emaValues) && position == old(position)
      ensures index == 0 ==> buySignals == old(buySignals) + [false] && sellSignals == old(sellSignals) + [false]
      ensures index > 0 ==>
        var src, stop, ema, prevEma, prevStop :=
          sourceValues[index], trailingStop[index], emaValues[index], emaValues[index - 1], trailingStop[index - 1];
        buySignals == old(buySignals) + [BuyFlag(src, stop, prevEma, ema, prevStop)] &&
        sellSignals == old(sellSignals) + [SellFlag(src, stop, prevEma, ema, prevStop)]
    {
      if index == 0 {
        buySignals := buySignals + [false];
        sellSignals := sellSignals + [false];
        return;
      }
      var src := sourceValues[index];
      var stop := trailingStop[index];
      var ema := emaValues[index];
      var prevEma := emaValues[index - 1];
      var prevStop := trailingStop[index - 1];
      var above := prevEma <= prevStop && ema > stop;
      var below := prevEma >= prevStop && ema < stop;
      buySignals := buySignals + [src > stop && above];
      sellSignals := sellSignals + [src < stop && below];
    }

    /** The series built so far are those of the first `i` bars of the given source and ATR. */
    ghost predicate BuiltUpTo(src: seq<real>, atr: seq<real>, i: nat)
      reads this
    {
      |src| == |atr| && i <= |src| &&
      sourceValues == src && atrValues == atr && emaValues == src &&
      trailingStop == Stops(src, atr, keyValue, i) &&
      position == Positions(src, Stops(src, atr, keyValue, |src|), i) &&
      buySignals == Buys(src, src, Stops(src, atr, keyValue, |src|), i) &&
      sellSignals == Sells(src, src, Stops(src, atr, keyValue, |src|), i)
    }

    /** One iteration of the main loop of `calculate`: stop, position and signals of bar `i`. */
    method UpdateBar(i: nat, ghost src: seq<real>, ghost atr: seq<real>)
      requires BuiltUpTo(src, atr, i) && i < |src|
      modifies this
      ensures BuiltUpTo(src, atr, i + 1)
    {
      ghost var stops := Stops(src, atr, keyValue, |src|);
      StopsPrefix(src, atr, keyValue, i, |src|);
      StopsPrefix(src, atr, keyValue, i + 1, |src|);
      UpdateTrailingStop(i);
      assert trailingStop == Stops(src, atr, keyValue, i + 1);
      UpdatePosition(i);
      assert position == Positions(src, stops, i + 1);
      GenerateSignals(i);
      assert buySignals == Buys(src, src, stops, i + 1);
      assert sellSignals == Sells(src, src, stops, i + 1);
    }

    /** `calculate`: resets, and with at least `atrPeriod` candles rebuilds every series bar by bar. */
    method Calculate(cs: seq<Candle>) returns (buys: seq<bool>, sells: seq<bool>)
      requires atrPeriod >= 1
      modifies this
      ensures var u := UtBotOf(cs, keyValue, atrPeriod, useHeikinAshi);
        sourceValues == u.source && atrValues == u.atr && trailingStop == u.stops && position == u.positions &&
        buySignals == u.buys && sellSignals == u.sells && emaValues == u.source
      ensures buys == buySignals && sells == sellSignals
    {
      Reset();
      if |cs| < atrPeriod {
        return buySignals, sellSignals;
      }
      PrepareSourceData(cs);
      CalculateAtr(cs);
      CalculateEma();
      ghost var src, atr := sourceValues, atrValues;
      for i := 0 to |cs|
        invariant BuiltUpTo(src, atr, i)
      {
        UpdateBar(i, src, atr);
      }
      buys, sells := buySignals, sellSignals;
    }

    /** `latest_stop`. */
    function LatestStop(): (r: Option<real>)
      reads this
      ensures r.None? <==> trailingStop == []
      ensures r.Some? ==> r.value == Last(trailingStop)
    {
      if trailingStop == [] then None else Some(Last(trailingStop))
    }

    /** `latest_position`. */
    function LatestPosition(): (r: Option<int>)
      reads this
      ensures r.None? <==> position == []
      ensures r.Some? ==> r.value == Last(position)
    {
      if position == [] then None else Some(Last(position))
    }

    /** The last source value is above the last stop; never before both exist. */
    predicate IsLong()
      reads this
      ensures IsLong() ==> sourceValues != [] && trailingStop != [] && Last(sourceValues) > Last(trailingStop)
    {
      Long(sourceValues, trailingStop)
    }

    /** The last source value is below the last stop; never together with long. */
    predicate IsShort()
      reads this
      ensures IsShort() ==> sourceValues != [] && trailingStop != [] && Last(sourceValues) < Last(trailingStop)
      ensures IsShort() ==> !IsLong()
    {
      Short(sourceValues, trailingStop)
    }
  }
}
