/** MACD: fast EMA minus slow EMA, its signal EMA and the histogram (src/indicators/macd.rs). */
module MacdIndicator {
  import opened Common

  /** The multiplier 2/(length + 1) of an EMA. */
  function Multiplier(length: nat): (m: real)
    ensures 0.0 < m <= 2.0
    ensures length >= 1 ==> m <= 1.0
  {
    2.0 / (length as real + 1.0)
  }

  /** One EMA update: the first value is taken as is, later ones move from the last EMA by `m` times the gap. */
  function EmaNext(last: Option<real>, value: real, m: real): real
  {
    match last
    case None => value
    case Some(l) => EmaStep(l, value, m)
  }

  function LastOpt(s: seq<real>): (r: Option<real>)
    ensures r.None? <==> s == []
    ensures r.Some? ==> r.value == s[|s| - 1]
  {
    if s == [] then None else Some(s[|s| - 1])
  }

  /** The EMA values produced by feeding `xs` one by one into a freshly reset EMA. */
  function EmaSeries(xs: seq<real>, m: real): (r: seq<real>)
    ensures |r| == |xs|
  {
    if xs == [] then []
    else
      var p := EmaSeries(xs[..|xs| - 1], m);
      p + [EmaNext(LastOpt(p), xs[|xs| - 1], m)]
  }

  lemma EmaSeriesSnoc(xs: seq<real>, x: real, m: real)
    ensures EmaSeries(xs + [x], m) == EmaSeries(xs, m) + [EmaNext(LastOpt(EmaSeries(xs, m)), x, m)]
  {
    assert (xs + [x])[..|xs|] == xs;
  }

  /** The EMA with a multiplier in [0, 1] never leaves the range of its inputs. */
  lemma {:induction false} EmaSeriesBounds(xs: seq<real>, m: real, lo: real, hi: real)
    requires 0.0 <= m <= 1.0
    requires forall i :: 0 <= i < |xs| ==> lo <= xs[i] <= hi
    ensures forall i :: 0 <= i < |xs| ==> lo <= EmaSeries(xs, m)[i] <= hi
  {
    if xs != [] {
      var init := xs[..|xs| - 1];
      assert forall i :: 0 <= i < |init| ==> init[i] == xs[i];
      EmaSeriesBounds(init, m, lo, hi);
      var p := EmaSeries(init, m);
      var x := xs[|xs| - 1];
      assert lo <= x <= hi;
      if p != [] {
        var l := p[|p| - 1];
        assert lo <= l <= hi;
        EmaStepBetween(l, x, m);
      }
      assert EmaSeries(xs, m) == p + [EmaNext(LastOpt(p), x, m)];
    }
  }

  /** An EMA step lies between the last EMA and the new value when 0 <= m <= 1. */
  lemma EmaStepBetween(l: real, v: real, m: real)
    requires 0.0 <= m <= 1.0
    ensures Min(l, v) <= EmaStep(l, v, m) <= Max(l, v)
  {
    var g := v - l;
    assert g * m + g * (1.0 - m) == g;
    if l <= v {
      assert g * m >= 0.0 && g * (1.0 - m) >= 0.0;
    } else {
      assert g * m <= 0.0 && g * (1.0 - m) <= 0.0;
    }
  }

  /** A constant input keeps the EMA at that constant. */
  lemma {:induction false} EmaSeriesConstant(xs: seq<real>, m: real, c: real)
    requires forall i :: 0 <= i < |xs| ==> xs[i] == c
    ensures forall i :: 0 <= i < |xs| ==> EmaSeries(xs, m)[i] == c
  {
    if xs != [] {
      var init := xs[..|xs| - 1];
      assert forall i :: 0 <= i < |init| ==> init[i] == xs[i];
      EmaSeriesConstant(init, m, c);
      assert EmaSeries(xs, m) == EmaSeries(init, m) + [EmaNext(LastOpt(EmaSeries(init, m)), c, m)];
    }
  }

  /** Every EMA starts at its first input. */
  lemma EmaSeriesFirst(xs: seq<real>, m: real)
    requires |xs| >= 1
    ensures EmaSeries(xs, m)[0] == xs[0]
  {
    EmaSeriesPrefix(xs, m, 1);
    assert xs[..1][..0] == [];
  }

  lemma {:induction false} EmaSeriesPrefix(xs: seq<real>, m: real, k: nat)
    requires k <= |xs|
    ensures EmaSeries(xs[..k], m) == EmaSeries(xs, m)[..k]
    decreases |xs|
  {
    if k < |xs| {
      var init := xs[..|xs| - 1];
      EmaSeriesPrefix(init, m, k);
      assert init[..k] == xs[..k];
    } else {
      assert xs[..k] == xs;
    }
  }

  /** The MACD line of `calculate` over the closes `xs`. */
  function MacdLine(xs: seq<real>, fastM: real, slowM: real): (r: seq<real>)
    ensures |r| == |xs|
  {
    Diff(EmaSeries(xs, fastM), EmaSeries(xs, slowM))
  }

  function SignalLine(xs: seq<real>, fastM: real, slowM: real, signalM: real): (r: seq<real>)
    ensures |r| == |xs|
  {
    EmaSeries(MacdLine(xs, fastM, slowM), signalM)
  }

  function Histogram(xs: seq<real>, fastM: real, slowM: real, signalM: real): (r: seq<real>)
    ensures |r| == |xs|
  {
    Diff(MacdLine(xs, fastM, slowM), SignalLine(xs, fastM, slowM, signalM))
  }

  lemma DiffSnoc(a: seq<real>, b: seq<real>, x: real, y: real)
    requires |a| == |b|
    ensures Diff(a + [x], b + [y]) == Diff(a, b) + [x - y]
  {
  }

  /** The MACD value a new close `x` produces after the closes `xs`. */
  function NextMacd(xs: seq<real>, x: real, fastM: real, slowM: real): real
  {
    EmaNext(LastOpt(EmaSeries(xs, fastM)), x, fastM) - EmaNext(LastOpt(EmaSeries(xs, slowM)), x, slowM)
  }

  /** The signal value a new close `x` produces after the closes `xs`. */
  function NextSignal(xs: seq<real>, x: real, fastM: real, slowM: real, signalM: real): real
  {
    EmaNext(LastOpt(SignalLine(xs, fastM, slowM, signalM)), NextMacd(xs, x, fastM, slowM), signalM)
  }

  /** Feeding one more close appends one value to each EMA and to each of the three series. */
  lemma FeedStep(xs: seq<real>, x: real, fastM: real, slowM: real, signalM: real)
    ensures EmaSeries(xs + [x], fastM) == EmaSeries(xs, fastM) + [EmaNext(LastOpt(EmaSeries(xs, fastM)), x, fastM)]
    ensures EmaSeries(xs + [x], slowM) == EmaSeries(xs, slowM) + [EmaNext(LastOpt(EmaSeries(xs, slowM)), x, slowM)]
    ensures MacdLine(xs + [x], fastM, slowM) == MacdLine(xs, fastM, slowM) + [NextMacd(xs, x, fastM, slowM)]
    ensures SignalLine(xs + [x], fastM, slowM, signalM) ==
      SignalLine(xs, fastM, slowM, signalM) + [NextSignal(xs, x, fastM, slowM, signalM)]
    ensures Histogram(xs + [x], fastM, slowM, signalM) == Histogram(xs, fastM, slowM, signalM) +
      [NextMacd(xs, x, fastM, slowM) - NextSignal(xs, x, fastM, slowM, signalM)]
  {
    var fv := EmaNext(LastOpt(EmaSeries(xs, fastM)), x, fastM);
    var lv := EmaNext(LastOpt(EmaSeries(xs, slowM)), x, slowM);
    EmaSeriesSnoc(xs, x, fastM);
    EmaSeriesSnoc(xs, x, slowM);
    DiffSnoc(EmaSeries(xs, fastM), EmaSeries(xs, slowM), fv, lv);
    var mv := NextMacd(xs, x, fastM, slowM);
    var ml := MacdLine(xs, fastM, slowM);
    var sl := SignalLine(xs, fastM, slowM, signalM);
    assert MacdLine(xs + [x], fastM, slowM) == ml + [mv];
    EmaSeriesSnoc(ml, mv, signalM);
    DiffSnoc(ml, sl, mv, NextSignal(xs, x, fastM, slowM, signalM));
  }

  /** All three series start at 0: both EMAs are seeded with the same first close. */
  lemma FirstValuesZero(xs: seq<real>, fastM: real, slowM: real, signalM: real)
    requires |xs| >= 1
    ensures MacdLine(xs, fastM, slowM)[0] == 0.0
    ensures SignalLine(xs, fastM, slowM, signalM)[0] == 0.0
    ensures Histogram(xs, fastM, slowM, signalM)[0] == 0.0
  {
    EmaSeriesFirst(xs, fastM);
    EmaSeriesFirst(xs, slowM);
    EmaSeriesFirst(MacdLine(xs, fastM, slowM), signalM);
  }

  /** On a flat market every MACD, signal and histogram value is 0, so neither crossing signal fires. */
  lemma FlatMarketIsSilent(xs: seq<real>, fastM: real, slowM: real, signalM: real, c: real)
    requires forall i :: 0 <= i < |xs| ==> xs[i] == c
    ensures forall i :: 0 <= i < |xs| ==> Histogram(xs, fastM, slowM, signalM)[i] == 0.0
    ensures !BuySignal(Histogram(xs, fastM, slowM, signalM)) && !SellSignal(Histogram(xs, fastM, slowM, signalM))
  {
    EmaSeriesConstant(xs, fastM, c);
    EmaSeriesConstant(xs, slowM, c);
    var ml := MacdLine(xs, fastM, slowM);
    assert forall i :: 0 <= i < |ml| ==> ml[i] == 0.0;
    EmaSeriesConstant(ml, signalM, 0.0);
  }

  /** `is_buy_signal`: the histogram turns from negative to positive on the last bar. */
  predicate BuySignal(h: seq<real>)
  {
    |h| >= 2 && h[|h| - 2] < 0.0 && h[|h| - 1] > 0.0
  }

  /** `is_sell_signal`: the histogram turns from positive to negative on the last bar. */
  predicate SellSignal(h: seq<real>)
  {
    |h| >= 2 && h[|h| - 2] > 0.0 && h[|h| - 1] < 0.0
  }

  lemma BuySellExclusive(h: seq<real>)
    ensures !(BuySignal(h) && SellSignal(h))
    ensures BuySignal(h) ==> h[|h| - 1] > 0.0 && !SellSignal(h)
    ensures |h| < 2 ==> !BuySignal(h) && !SellSignal(h)
  {
  }

  /** After `calculate` there is a latest value exactly when there was at least one candle. */
  lemma LatestAfterCalculate(xs: seq<real>, fastM: real, slowM: real, signalM: real)
    ensures var r := Latest(MacdLine(xs, fastM, slowM), SignalLine(xs, fastM, slowM, signalM),
                            Histogram(xs, fastM, slowM, signalM));
      r.None? <==> xs == []
  {
  }

  /** An exponential moving average that remembers only its last value. */
  class Ema {
    const length: nat
    const multiplier: real
    var lastEma: Option<real>

    constructor (length: nat)
      ensures this.length == length && multiplier == Multiplier(length) && lastEma == None
    {
      this.length := length;
      multiplier := Multiplier(length);
      lastEma := None;
    }

    method Update(value: real) returns (ema: real)
      modifies this
      ensures ema == EmaNext(old(lastEma), value, multiplier)
      ensures lastEma == Some(ema)
    {
      if lastEma.Some? {
        ema := EmaStep(lastEma.value, value, multiplier);
      } else {
        ema := value;
      }
      lastEma := Some(ema);
    }

    method Reset()
      modifies this
      ensures lastEma == None
    {
      lastEma := None;
    }
  }

  /** The MACD calculator: three EMAs and the series `calculate` rebuilds. */
  class Macd {
    const fastLength: nat
    const slowLength: nat
    const signalLength: nat
    const fastEma: Ema
    const slowEma: Ema
    const signalEma: Ema

    var macdLine: seq<real>
    var signalLine: seq<real>
    var histogram: seq<real>

    /** The closes fed since the last reset. */
    ghost var fed: seq<real>

    /** The three EMAs are distinct objects built from the three lengths. */
    predicate Valid()
    {
      fastEma != slowEma && fastEma != signalEma && slowEma != signalEma &&
      fastEma.multiplier == Multiplier(fastLength) &&
      slowEma.multiplier == Multiplier(slowLength) &&
      signalEma.multiplier == Multiplier(signalLength)
    }

    /** The EMAs and the three series are exactly what feeding `fed` into a reset calculator gives. */
    ghost predicate Consistent()
      reads this, fastEma, slowEma, signalEma
    {
      var fm, sm, gm := Multiplier(fastLength), Multiplier(slowLength), Multiplier(signalLength);
      fastEma.lastEma == LastOpt(EmaSeries(fed, fm)) &&
      slowEma.lastEma == LastOpt(EmaSeries(fed, sm)) &&
      signalEma.lastEma == LastOpt(signalLine) &&
      macdLine == MacdLine(fed, fm, sm) &&
      signalLine == SignalLine(fed, fm, sm, gm) &&
      histogram == Histogram(fed, fm, sm, gm)
    }

    constructor (fastLength: nat, slowLength: nat, signalLength: nat)
      ensures Valid() && Consistent() && fed == []
      ensures fresh(fastEma) && fresh(slowEma) && fresh(signalEma)
      ensures this.fastLength == fastLength && this.slowLength == slowLength && this.signalLength == signalLength
      ensures fastEma.lastEma == None && slowEma.lastEma == None && signalEma.lastEma == None
      ensures macdLine == [] && signalLine == [] && histogram == []
    {
      this.fastLength, this.slowLength, this.signalLength := fastLength, slowLength, signalLength;
      fastEma := new Ema(fastLength);
      slowEma := new Ema(slowLength);
      signalEma := new Ema(signalLength);
      macdLine, signalLine, histogram := [], [], [];
      fed := [];
    }

    method Reset()
      requires Valid()
      modifies this, fastEma, slowEma, signalEma
      ensures Consistent() && fed == []
      ensures fastEma.lastEma == None && slowEma.lastEma == None && signalEma.lastEma == None
      ensures macdLine == [] && signalLine == [] && histogram == []
    {
      fastEma.Reset();
      slowEma.Reset();
      signalEma.Reset();
      macdLine, signalLine, histogram := [], [], [];
      fed := [];
    }

    /** `update`: feeds one price and appends one value to each series. */
    method Update(price: real) returns (m: real, s: real, h: real)
      requires Valid() && Consistent()
      modifies this, fastEma, slowEma, signalEma
      ensures Consistent() && fed == old(fed) + [price]
      ensures m == EmaNext(old(fastEma.lastEma), price, fastEma.multiplier) -
                   EmaNext(old(slowEma.lastEma), price, slowEma.multiplier)
      ensures s == EmaNext(old(signalEma.lastEma), m, signalEma.multiplier) && h == m - s
      ensures macdLine == old(macdLine) + [m] && signalLine == old(signalLine) + [s]
      ensures histogram == old(histogram) + [h]
    {
      ghost var fm, sm, gm := Multiplier(fastLength), Multiplier(slowLength), Multiplier(signalLength);
      ghost var fed' := fed + [price];
      FeedStep(fed, price, fm, sm, gm);
      var fast := fastEma.Update(price);
      var slow := slowEma.Update(price);
      m := fast - slow;
      macdLine := macdLine + [m];
      s := signalEma.Update(m);
      signalLine := signalLine + [s];
      h := m - s;
      histogram := histogram + [h];
      fed := fed';
      assert fastEma.lastEma == Some(fast) == LastOpt(EmaSeries(fed, fm));
      assert slowEma.lastEma == Some(slow) == LastOpt(EmaSeries(fed, sm));
      assert signalEma.lastEma == Some(s) == LastOpt(signalLine);
    }

    /** `calculate`: resets, feeds every close, and leaves the three series of the closes. */
    method Calculate(cs: seq<Candle>) returns (ml: seq<real>, sl: seq<real>, h: seq<real>)
      requires Valid()
      modifies this, fastEma, slowEma, signalEma
      ensures Consistent() && fed == Closes(cs)
      ensures ml == macdLine == MacdLine(Closes(cs), Multiplier(fastLength), Multiplier(slowLength))
      ensures sl == signalLine ==
        SignalLine(Closes(cs), Multiplier(fastLength), Multiplier(slowLength), Multiplier(signalLength))
      ensures h == histogram ==
        Histogram(Closes(cs), Multiplier(fastLength), Multiplier(slowLength), Multiplier(signalLength))
    {
      Reset();
      var prices := Closes(cs);
      for i := 0 to |prices|
        invariant Consistent() && fed == prices[..i]
      {
        assert prices[..i + 1] == prices[..i] + [prices[i]];
        var _, _, _ := Update(prices[i]);
      }
      assert prices[..|prices|] == prices;
      ml, sl, h := macdLine, signalLine, histogram;
    }

    function LatestValues(): Option<(real, real, real)>
      reads this
    {
      Latest(macdLine, signalLine, histogram)
    }

    /** The histogram turns positive on the last bar, which needs two values. */
    predicate IsBuySignal()
      reads this
      ensures IsBuySignal() ==> |histogram| >= 2 && Last(histogram) > 0.0
    {
      BuySignal(histogram)
    }

    /** The histogram turns negative on the last bar; never together with a buy signal. */
    predicate IsSellSignal()
      reads this
      ensures IsSellSignal() ==> |histogram| >= 2 && Last(histogram) < 0.0
      ensures IsSellSignal() ==> !IsBuySignal()
    {
      SellSignal(histogram)
    }
  }
}
