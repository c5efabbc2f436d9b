/** The Schaff Trend Cycle: a doubly smoothed stochastic of an EMA-difference line (src/indicators/schaff_trend_cycle.rs). */
module StcIndicator {
  import opened Common

  /** The smoothing factor every `SchaffTrendCycle` is built with. */
  const STC_FACTOR: real := 0.5

  datatype Color = Green | Red

  // ---------------------------------------------------------------------------
  // The EMA of `calculate_ema`: seeded with the mean of the first `period` prices.
  // ---------------------------------------------------------------------------

  /** `period`, with 0 replaced by 1 as `calculate_ema` does. */
  function EffectivePeriod(period: nat): (p: nat)
    ensures p >= 1 && (period >= 1 ==> p == period)
  {
    if period == 0 then 1 else period
  }

  /** The first `k` EMA values from seed `first` with multiplier `m`. */
  function EmaPrefix(prices: seq<real>, first: real, m: real, k: nat): (r: seq<real>)
    requires 1 <= k <= |prices|
    ensures |r| == k && r[0] == first
  {
    if k == 1 then [first]
    else
      var p := EmaPrefix(prices, first, m, k - 1);
      p + [EmaStep(p[k - 2], prices[k - 1], m)]
  }

  lemma EmaPrefixSnoc(prices: seq<real>, first: real, m: real, k: nat)
    requires 1 <= k < |prices|
    ensures EmaPrefix(prices, first, m, k + 1) == EmaPrefix(prices, first, m, k) +
      [EmaStep(EmaPrefix(prices, first, m, k)[k - 1], prices[k], m)]
  {
  }

  /** The seed of the EMA: the mean of the first min(period, n) prices. */
  function EmaSeed(prices: seq<real>, period: nat): real
    requires |prices| >= 1
  {
    var actual := Min2(EffectivePeriod(period), |prices|);
    Sum(prices[..actual]) / actual as real
  }

  function Min2(a: nat, b: nat): (r: nat)
    ensures r <= a && r <= b && (r == a || r == b)
  {
    if a < b then a else b
  }

  /** The whole output of `calculate_ema`. */
  function StcEma(prices: seq<real>, period: nat): (r: seq<real>)
    ensures |r| == |prices|
  {
    if prices == [] then []
    else EmaPrefix(prices, EmaSeed(prices, period), 2.0 / (EffectivePeriod(period) as real + 1.0), |prices|)
  }

  lemma {:induction false} EmaPrefixAt(prices: seq<real>, first: real, m: real, k: nat, i: nat)
    requires 1 <= i < k <= |prices|
    ensures EmaPrefix(prices, first, m, k)[i] == EmaStep(EmaPrefix(prices, first, m, k)[i - 1], prices[i], m)
  {
    if i < k - 1 {
      EmaPrefixAt(prices, first, m, k - 1, i);
    }
  }

  /** `calculate_ema` starts at the mean of the first `period` prices (all of them if fewer) and then follows the EMA recurrence. */
  lemma StcEmaShape(prices: seq<real>, period: nat)
    ensures |StcEma(prices, period)| == |prices|
    ensures |prices| >= 1 ==> (StcEma(prices, period)[0] ==
      Sum(prices[..Min2(EffectivePeriod(period), |prices|)]) / Min2(EffectivePeriod(period), |prices|) as real)
    ensures forall i :: 1 <= i < |prices| ==> (StcEma(prices, period)[i] ==
      (prices[i] - StcEma(prices, period)[i - 1]) * (2.0 / (EffectivePeriod(period) as real + 1.0)) + StcEma(prices, period)[i - 1])
  {
    if |prices| >= 1 {
      var m := 2.0 / (EffectivePeriod(period) as real + 1.0);
      forall i | 1 <= i < |prices|
        ensures StcEma(prices, period)[i] == EmaStep(StcEma(prices, period)[i - 1], prices[i], m)
      {
        EmaPrefixAt(prices, EmaSeed(prices, period), m, |prices|, i);
      }
    }
  }

  /** `calculate_macd`: fast EMA minus slow EMA, bar by bar. */
  function StcMacd(prices: seq<real>, fast: nat, slow: nat): (r: seq<real>)
    ensures |r| == |prices|
  {
    Diff(StcEma(prices, fast), StcEma(prices, slow))
  }

  // ---------------------------------------------------------------------------
  // The two stochastic stages.
  // ---------------------------------------------------------------------------

  /** The four series `calculate` builds: raw and smoothed stochastic of stage 1 and of stage 2. */
  datatype StcTrace = StcTrace(stoch1: seq<real>, smooth1: seq<real>, stoch2: seq<real>, smooth2: seq<real>)

  predicate Sized(t: StcTrace, n: nat)
  {
    |t.stoch1| == n && |t.smooth1| == n && |t.stoch2| == n && |t.smooth2| == n
  }

  /** Position of `x` in [lo, hi] as a percentage, or `fallback` when the range is not positive. */
  function Stochastic(x: real, lo: real, hi: real, fallback: real): real
  {
    if hi - lo > 0.0 then (x - lo) / (hi - lo) * 100.0 else fallback
  }

  /** The stochastic of `s[i]` within the trailing window of `length` values ending at `i`. */
  function WindowStochastic(s: seq<real>, length: nat, i: nat, fallback: real): real
    requires 1 <= length <= i < |s|
  {
    var w := s[i - length + 1..i + 1];
    Stochastic(s[i], SeqMin(w), SeqMax(w), fallback)
  }

  /** Exponential smoothing with `factor`: move from `prev` towards `x`. */
  function Smoothed(prev: real, x: real, factor: real): real
  {
    prev + factor * (x - prev)
  }

  /** One iteration of the `calculate` loop at bar `i`. Bars before `length` get the neutral 50; from
      `length` on, `i > 0` always holds, so the fallbacks are the previous bar's values. */
  function Step(t: StcTrace, macd: seq<real>, length: nat, factor: real, i: nat): (r: StcTrace)
    requires length >= 1 && i < |macd| && Sized(t, i)
    ensures Sized(r, i + 1)
    ensures r.stoch1[..i] == t.stoch1 && r.smooth1[..i] == t.smooth1
    ensures r.stoch2[..i] == t.stoch2 && r.smooth2[..i] == t.smooth2
  {
    if i < length then
      StcTrace(t.stoch1 + [50.0], t.smooth1 + [50.0], t.stoch2 + [50.0], t.smooth2 + [50.0])
    else
      var stoch1 := WindowStochastic(macd, length, i, t.stoch1[i - 1]);
      var s1 := t.smooth1 + [Smoothed(t.smooth1[i - 1], stoch1, factor)];
      var stoch2 := WindowStochastic(s1, length, i, t.stoch2[i - 1]);
      StcTrace(t.stoch1 + [stoch1], s1, t.stoch2 + [stoch2], t.smooth2 + [Smoothed(t.smooth2[i - 1], stoch2, factor)])
  }

  /** The four series after the first `k` bars. */
  function TraceOf(macd: seq<real>, length: nat, factor: real, k: nat): (r: StcTrace)
    requires length >= 1 && k <= |macd|
    ensures Sized(r, k)
  {
    if k == 0 then StcTrace([], [], [], [])
    else Step(TraceOf(macd, length, factor, k - 1), macd, length, factor, k - 1)
  }

  /** A red signal at bar `i`: the STC peaked two bars back and the current value is above 75. */
  predicate RedAt(stc: seq<real>, i: nat)
    requires i < |stc|
  {
    i >= 3 && stc[i - 3] <= stc[i - 2] && stc[i - 2] > stc[i - 1] && stc[i] > 75.0
  }

  /** A green signal at bar `i`: the STC bottomed two bars back and the current value is below 25. */
  predicate GreenAt(stc: seq<real>, i: nat)
    requires i < |stc|
  {
    i >= 3 && stc[i - 3] >= stc[i - 2] && stc[i - 2] < stc[i - 1] && stc[i] < 25.0
  }

  function SignalAt(stc: seq<real>, length: nat, i: nat): (real, bool, bool)
    requires i < |stc|
  {
    if i < length then (50.0, false, false) else (stc[i], RedAt(stc, i), GreenAt(stc, i))
  }

  /** The (value, red, green) tuples `calculate` returns, one per bar. */
  function SignalsOf(stc: seq<real>, length: nat): (r: seq<(real, bool, bool)>)
    ensures |r| == |stc|
  {
    seq(|stc|, i requires 0 <= i < |stc| => SignalAt(stc, length, i))
  }

  lemma SignalsSnoc(stc: seq<real>, x: real, length: nat)
    ensures SignalsOf(stc + [x], length) == SignalsOf(stc, length) + [SignalAt(stc + [x], length, |stc|)]
  {
    var s := stc + [x];
    forall i | 0 <= i < |stc| ensures SignalAt(s, length, i) == SignalAt(stc, length, i) {
      assert s[i] == stc[i];
      if i >= 3 { assert s[i - 3] == stc[i - 3] && s[i - 2] == stc[i - 2] && s[i - 1] == stc[i - 1]; }
    }
  }

  /** The minimum bar count `calculate` demands: the largest of its three lengths. */
  function MinRequired(length: nat, fast: nat, slow: nat): (r: nat)
    ensures r >= length && r >= fast && r >= slow
    ensures r == length || r == fast || r == slow
  {
    var m := if length < fast then fast else length;
    if m < slow then slow else m
  }

  /** What `calculate` returns for the candles `cs`. */
  function StcSignals(cs: seq<Candle>, length: nat, fast: nat, slow: nat): (r: seq<(real, bool, bool)>)
    requires length >= 1
  {
    if |cs| < MinRequired(length, fast, slow) then []
    else
      var macd := StcMacd(Closes(cs), fast, slow);
      SignalsOf(TraceOf(macd, length, STC_FACTOR, |cs|).smooth2, length)
  }

  // ---------------------------------------------------------------------------
  // Properties.
  // ---------------------------------------------------------------------------

  predicate InPercent(s: seq<real>)
  {
    forall i :: 0 <= i < |s| ==> 0.0 <= s[i] <= 100.0
  }

  /** The stochastic of a value inside its window is a percentage, and so is every fallback value. */
  lemma StochasticBounds(x: real, lo: real, hi: real, fallback: real)
    requires lo <= x <= hi && 0.0 <= fallback <= 100.0
    ensures 0.0 <= Stochastic(x, lo, hi, fallback) <= 100.0
  {
    if hi - lo > 0.0 {
      var q := (x - lo) / (hi - lo);
      assert q * (hi - lo) == x - lo;
      assert 0.0 <= q <= 1.0;
    }
  }

  lemma SmoothingBounds(p: real, x: real, factor: real)
    requires 0.0 <= factor <= 1.0 && 0.0 <= p <= 100.0 && 0.0 <= x <= 100.0
    ensures 0.0 <= Smoothed(p, x, factor) <= 100.0
  {
    var g := x - p;
    var fg := factor * g;
    if g >= 0.0 {
      ScaleBounds(g, factor, 1.0);
      assert g * factor == fg;
      assert 0.0 <= fg <= g;
    } else {
      ScaleBounds(-g, factor, 1.0);
      assert (-g) * factor == -fg;
      assert g <= fg <= 0.0;
    }
    assert Smoothed(p, x, factor) == p + fg;
  }

  lemma WindowStochasticBounds(s: seq<real>, length: nat, i: nat, fallback: real)
    requires 1 <= length <= i < |s| && 0.0 <= fallback <= 100.0
    ensures 0.0 <= WindowStochastic(s, length, i, fallback) <= 100.0
  {
    var w := s[i - length + 1..i + 1];
    SeqMinMaxBounds(w);
    assert w[|w| - 1] == s[i];
    StochasticBounds(s[i], SeqMin(w), SeqMax(w), fallback);
  }

  lemma StepBounds(t: StcTrace, macd: seq<real>, length: nat, factor: real, i: nat)
    requires length >= 1 && i < |macd| && Sized(t, i) && 0.0 <= factor <= 1.0
    requires InPercent(t.stoch1) && InPercent(t.smooth1) && InPercent(t.stoch2) && InPercent(t.smooth2)
    ensures var r := Step(t, macd, length, factor, i);
      InPercent(r.stoch1) && InPercent(r.smooth1) && InPercent(r.stoch2) && InPercent(r.smooth2)
  {
    if i >= length {
      var stoch1 := WindowStochastic(macd, length, i, t.stoch1[i - 1]);
      WindowStochasticBounds(macd, length, i, t.stoch1[i - 1]);
      var e1 := Smoothed(t.smooth1[i - 1], stoch1, factor);
      SmoothingBounds(t.smooth1[i - 1], stoch1, factor);
      var s1 := t.smooth1 + [e1];
      assert InPercent(s1);
      var stoch2 := WindowStochastic(s1, length, i, t.stoch2[i - 1]);
      WindowStochasticBounds(s1, length, i, t.stoch2[i - 1]);
      SmoothingBounds(t.smooth2[i - 1], stoch2, factor);
    }
  }

  /** Every STC value (and every intermediate stochastic) is a percentage in [0, 100], whatever the prices. */
  lemma {:induction false} TraceBounds(macd: seq<real>, length: nat, factor: real, k: nat)
    requires length >= 1 && k <= |macd| && 0.0 <= factor <= 1.0
    ensures var t := TraceOf(macd, length, factor, k);
      InPercent(t.stoch1) && InPercent(t.smooth1) && InPercent(t.stoch2) && InPercent(t.smooth2)
  {
    if k > 0 {
      TraceBounds(macd, length, factor, k - 1);
      StepBounds(TraceOf(macd, length, factor, k - 1), macd, length, factor, k - 1);
    }
  }

  /** A bar is never both red and green, and every reported value is a percentage. */
  lemma SignalsWellBehaved(cs: seq<Candle>, length: nat, fast: nat, slow: nat)
    requires length >= 1
    ensures var r := StcSignals(cs, length, fast, slow);
      (|cs| < MinRequired(length, fast, slow) ==> r == []) &&
      (|cs| >= MinRequired(length, fast, slow) ==> |r| == |cs|) &&
      forall i :: 0 <= i < |r| ==> !(r[i].1 && r[i].2) && 0.0 <= r[i].0 <= 100.0
  {
    if |cs| >= MinRequired(length, fast, slow) {
      var macd := StcMacd(Closes(cs), fast, slow);
      TraceBounds(macd, length, STC_FACTOR, |cs|);
      var stc := TraceOf(macd, length, STC_FACTOR, |cs|).smooth2;
      var r := SignalsOf(stc, length);
      forall i | 0 <= i < |r| ensures !(r[i].1 && r[i].2) && 0.0 <= r[i].0 <= 100.0 {
        assert r[i] == SignalAt(stc, length, i);
        assert 0.0 <= stc[i] <= 100.0;
      }
    }
  }

  class SchaffTrendCycle {
    const length: nat
    const fastLength: nat
    const slowLength: nat
    const factor: real
    var stcValues: seq<real>

    constructor (length: nat, fastLength: nat, slowLength: nat)
      requires length >= 1
      ensures this.length == length && this.fastLength == fastLength && this.slowLength == slowLength
      ensures factor == STC_FACTOR && stcValues == []
    {
      this.length, this.fastLength, this.slowLength := length, fastLength, slowLength;
      factor := STC_FACTOR;
      stcValues := [];
    }

    /** `calculate_ema`. */
    method CalculateEma(prices: seq<real>, period: nat) returns (ema: seq<real>)
      ensures ema == StcEma(prices, period)
    {
      var p := if period == 0 then 1 else period;
      var multiplier := 2.0 / (p as real + 1.0);
      var sum := 0.0;
      var actual := if p < |prices| then p else |prices|;
      if actual == 0 {
        return [];
      }
      for i := 0 to actual
        invariant sum == Sum(prices[..i])
      {
        SumPrefixStep(prices, i);
        sum := sum + prices[i];
      }
      assert prices[..actual] == prices[..Min2(EffectivePeriod(period), |prices|)];
      ghost var seed := EmaSeed(prices, period);
      ema := [sum / actual as real];
      assert ema == EmaPrefix(prices, seed, multiplier, 1);
      for i := 1 to |prices|
        invariant ema == EmaPrefix(prices, seed, multiplier, i)
      {
        var prevEma := ema[i - 1];
        ema := ema + [EmaStep(prevEma, prices[i], multiplier)];
        EmaPrefixSnoc(prices, seed, multiplier, i);
      }
      assert multiplier == 2.0 / (EffectivePeriod(period) as real + 1.0);
    }

    /** `calculate_macd`: the two EMAs zipped into their difference. */
    method CalculateMacd(prices: seq<real>) returns (macd: seq<real>)
      ensures macd == StcMacd(prices, fastLength, slowLength)
    {
      var fastEma := CalculateEma(prices, fastLength);
      var slowEma := CalculateEma(prices, slowLength);
      macd := [];
      for i := 0 to |prices|
        invariant macd == Diff(fastEma[..i], slowEma[..i])
      {
        macd := macd + [fastEma[i] - slowEma[i]];
      }
      assert fastEma[..|prices|] == fastEma && slowEma[..|prices|] == slowEma;
    }

    /** The body of the `calculate` loop for bar `i`: appends one value to each of the four stochastic series. */
    method StepBar(macd: seq<real>, i: nat, stoch1Values: seq<real>, stoch1Smooth: seq<real>,
                   stoch2Values: seq<real>, stoch2Smooth: seq<real>)
      returns (stoch1Values': seq<real>, stoch1Smooth': seq<real>, stoch2Values': seq<real>, stoch2Smooth': seq<real>)
      requires length >= 1 && i < |macd|
      requires Sized(StcTrace(stoch1Values, stoch1Smooth, stoch2Values, stoch2Smooth), i)
      ensures StcTrace(stoch1Values', stoch1Smooth', stoch2Values', stoch2Smooth') ==
        Step(StcTrace(stoch1Values, stoch1Smooth, stoch2Values, stoch2Smooth), macd, length, factor, i)
    {
      if i < length {
        stoch1Values', stoch1Smooth' := stoch1Values + [50.0], stoch1Smooth + [50.0];
        stoch2Values', stoch2Smooth' := stoch2Values + [50.0], stoch2Smooth + [50.0];
        return;
      }
      var startIdx := i - length + 1;
      var lowestMacd := SeqMin(macd[startIdx..i + 1]);
      var highestMacd := SeqMax(macd[startIdx..i + 1]);
      var stoch1 := Stochastic(macd[i], lowestMacd, highestMacd, stoch1Values[i - 1]);
      stoch1Values' := stoch1Values + [stoch1];
      var stoch1Ema := Smoothed(stoch1Smooth[i - 1], stoch1, factor);
      stoch1Smooth' := stoch1Smooth + [stoch1Ema];
      var lowestStoch1 := SeqMin(stoch1Smooth'[startIdx..i + 1]);
      var highestStoch1 := SeqMax(stoch1Smooth'[startIdx..i + 1]);
      var stoch2 := Stochastic(stoch1Ema, lowestStoch1, highestStoch1, stoch2Values[i - 1]);
      stoch2Values' := stoch2Values + [stoch2];
      var stc := Smoothed(stoch2Smooth[i - 1], stoch2, factor);
      stoch2Smooth' := stoch2Smooth + [stc];
    }

    /** The tuple the loop of `calculate` appends for bar `i`, whose STC value is the last of `stc`: neutral
        before `length` bars, else the value with its red and green flags. */
    method PushSignal(signals: seq<(real, bool, bool)>, stc: seq<real>, i: nat) returns (signals': seq<(real, bool, bool)>)
      requires |stc| == i + 1 && signals == SignalsOf(stc[..i], length)
      ensures signals' == SignalsOf(stc, length)
    {
      if i < length {
        signals' := signals + [(50.0, false, false)];
      } else {
        signals' := signals + [(stc[i], RedAt(stc, i), GreenAt(stc, i))];
      }
      assert stc == stc[..i] + [stc[i]];
      SignalsSnoc(stc[..i], stc[i], length);
    }

    /** One pass of the loop in `calculate`: the four series, the stored STC values and the signals all grow by bar `i`. */
    method Advance(macd: seq<real>, i: nat, stoch1Values: seq<real>, stoch1Smooth: seq<real>,
                   stoch2Values: seq<real>, stoch2Smooth: seq<real>, signals: seq<(real, bool, bool)>)
      returns (stoch1Values': seq<real>, stoch1Smooth': seq<real>, stoch2Values': seq<real>, stoch2Smooth': seq<real>,
               signals': seq<(real, bool, bool)>)
      requires length >= 1 && i < |macd|
      requires StcTrace(stoch1Values, stoch1Smooth, stoch2Values, stoch2Smooth) == TraceOf(macd, length, factor, i)
      requires stcValues == stoch2Smooth && signals == SignalsOf(stcValues, length)
      modifies this
      ensures StcTrace(stoch1Values', stoch1Smooth', stoch2Values', stoch2Smooth') == TraceOf(macd, length, factor, i + 1)
      ensures stcValues == stoch2Smooth' && signals' == SignalsOf(stcValues, length)
    {
      stoch1Values', stoch1Smooth', stoch2Values', stoch2Smooth' :=
        StepBar(macd, i, stoch1Values, stoch1Smooth, stoch2Values, stoch2Smooth);
      var stc := stoch2Smooth'[i];
      assert stoch2Smooth' == stoch2Smooth + [stc];
      stcValues := stcValues + [stc];
      assert stcValues[..i] == stoch2Smooth;
      signals' := PushSignal(signals, stcValues, i);
    }

    /** `calculate`: rebuilds the STC series bar by bar and returns one (value, red, green) tuple per bar. */
    method Calculate(cs: seq<Candle>) returns (signals: seq<(real, bool, bool)>)
      requires length >= 1 && factor == STC_FACTOR
      modifies this
      ensures signals == StcSignals(cs, length, fastLength, slowLength)
      ensures |cs| < MinRequired(length, fastLength, slowLength) ==> stcValues == old(stcValues)
      ensures |cs| >= MinRequired(length, fastLength, slowLength) ==>
        stcValues == TraceOf(StcMacd(Closes(cs), fastLength, slowLength), length, STC_FACTOR, |cs|).smooth2
    {
      var minRequired := MinRequired(length, fastLength, slowLength);
      if |cs| < minRequired {
        return [];
      }
      var prices := Closes(cs);
      var macd := CalculateMacd(prices);
      stcValues := [];
      signals := [];
      var stoch1Values, stoch1Smooth, stoch2Values, stoch2Smooth := [], [], [], [];
      for i := 0 to |cs|
        invariant StcTrace(stoch1Values, stoch1Smooth, stoch2Values, stoch2Smooth) == TraceOf(macd, length, factor, i)
        invariant stcValues == stoch2Smooth
        invariant signals == SignalsOf(stcValues, length)
      {
        stoch1Values, stoch1Smooth, stoch2Values, stoch2Smooth, signals :=
          Advance(macd, i, stoch1Values, stoch1Smooth, stoch2Values, stoch2Smooth, signals);
      }
    }

    /** `stc_values()`. */
    function StcValues(): seq<real>
      reads this
    {
      stcValues
    }

    /** `get_colors`: one colour per stored STC value. */
    method GetColors() returns (colors: seq<Color>)
      ensures |colors| == |stcValues|
      ensures forall i :: 0 <= i < |colors| ==> (colors[i] == Green <==> (i == 0 || stcValues[i] > stcValues[i - 1]))
    {
      colors := [];
      for i := 0 to |stcValues|
        invariant |colors| == i
        invariant forall j :: 0 <= j < i ==> (colors[j] == Green <==> (j == 0 || stcValues[j] > stcValues[j - 1]))
      {
        if i == 0 {
          colors := colors + [Green];
        } else {
          if stcValues[i] > stcValues[i - 1] {
            colors := colors + [Green];
          } else {
            colors := colors + [Red];
          }
        }
      }
    }
  }
}
