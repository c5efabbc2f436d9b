/** CYC: volume-weighted cost averages over three trailing windows (src/indicators/cyc.rs). */
module CycIndicator {
  import opened Common

  // ---------------------------------------------------------------------------
  // Specification functions.
  // ---------------------------------------------------------------------------

  /** The traded value of one bar as recorded in `price_volume_sums`: close times volume. */
  function Weighted(price: real, volume: real): real
  {
    price * volume
  }

  /** Sum of the traded values of bars `lo .. hi - 1`, accumulated left to right. */
  function PvSum(cs: seq<Candle>, lo: nat, hi: nat): real
    requires lo <= hi <= |cs|
    decreases hi
  {
    if hi == lo then 0.0 else PvSum(cs, lo, hi - 1) + Weighted(cs[hi - 1].close, cs[hi - 1].volume)
  }

  /** Sum of the volumes of bars `lo .. hi - 1`, accumulated left to right. */
  function VolSum(cs: seq<Candle>, lo: nat, hi: nat): real
    requires lo <= hi <= |cs|
    decreases hi
  {
    if hi == lo then 0.0 else VolSum(cs, lo, hi - 1) + cs[hi - 1].volume
  }

  /** The quotient of two window sums, or 0 when the volume sum is within `f64::EPSILON` of zero. */
  function Average(pvSum: real, vSum: real): real
  {
    if Abs(vSum) < F64_EPSILON then 0.0 else pvSum / vSum
  }

  /** The first `k` entries of `price_volume_sums` for these candles. */
  function PriceVolumes(cs: seq<Candle>, k: nat): (r: seq<real>)
    requires k <= |cs|
    ensures |r| == k && forall j :: 0 <= j < k ==> r[j] == Weighted(cs[j].close, cs[j].volume)
  {
    seq(k, j requires 0 <= j < k && k <= |cs| => Weighted(cs[j].close, cs[j].volume))
  }

  /** The first `k` entries of `volume_sums` for these candles. */
  function Volumes(cs: seq<Candle>, k: nat): (r: seq<real>)
    requires k <= |cs|
    ensures |r| == k && forall j :: 0 <= j < k ==> r[j] == cs[j].volume
  {
    seq(k, j requires 0 <= j < k && k <= |cs| => cs[j].volume)
  }

  /** CYC of one period at bar `i`: 0 before the first full window, else the volume-weighted average close of the window ending at `i`. */
  function CycAt(cs: seq<Candle>, period: nat, i: nat): real
    requires period >= 1 && i < |cs|
  {
    if i >= period - 1 then
      var start := i + 1 - period;
      Average(PvSum(cs, start, i + 1), VolSum(cs, start, i + 1))
    else 0.0
  }

  /** The first `k` CYC values of one period. */
  function CycSeries(cs: seq<Candle>, period: nat, k: nat): (r: seq<real>)
    requires period >= 1 && k <= |cs|
    ensures |r| == k && forall i :: 0 <= i < k ==> r[i] == CycAt(cs, period, i)
  {
    seq(k, i requires 0 <= i < k && period >= 1 && k <= |cs| => CycAt(cs, period, i))
  }

  /** The CYC value of one period read off the recorded buffers, as `update_cyc` does at bar `index`. */
  function BufferCyc(pvs: seq<real>, vs: seq<real>, period: nat, index: nat): real
    requires period >= 1 && index < |pvs| && index < |vs|
  {
    if index >= period - 1 then
      var start := index + 1 - period;
      Average(Sum(pvs[start..index + 1]), Sum(vs[start..index + 1]))
    else 0.0
  }

  /** The price is more than `threshold` percent above the latest long CYC. */
  predicate Overbought(short: seq<real>, mid: seq<real>, long: seq<real>, price: real, threshold: real)
  {
    match Latest(short, mid, long)
    case None => false
    case Some((_, _, l)) => price > l * (1.0 + threshold / 100.0)
  }

  /** The price is more than `threshold` percent below the latest long CYC. */
  predicate Oversold(short: seq<real>, mid: seq<real>, long: seq<real>, price: real, threshold: real)
  {
    match Latest(short, mid, long)
    case None => false
    case Some((_, _, l)) => price < l * (1.0 - threshold / 100.0)
  }

  /** Short CYC crosses above long CYC on the last bar. */
  predicate GoldenCross(short: seq<real>, long: seq<real>)
  {
    |short| >= 2 && |long| >= 2 &&
    short[|short| - 2] <= long[|long| - 2] && Last(short) > Last(long)
  }

  /** Short CYC crosses below long CYC on the last bar. */
  predicate DeathCross(short: seq<real>, long: seq<real>)
  {
    |short| >= 2 && |long| >= 2 &&
    short[|short| - 2] >= long[|long| - 2] && Last(short) < Last(long)
  }

  /**
   * `generate_signal`: 1 on a golden cross or when oversold with the short line rising, else -1 on a
   * death cross or when overbought with the short line falling, else 0. The rising and falling tests
   * read the second-to-last short value, which panics when there is only one.
   */
  function GenerateSignal(short: seq<real>, mid: seq<real>, long: seq<real>, price: real, threshold: real): (r: Outcome<int>)
    ensures r.Panic? <==> |short| < 2 && (Oversold(short, mid, long, price, threshold) || Overbought(short, mid, long, price, threshold))
    ensures r.Ok? ==> -1 <= r.value <= 1
    ensures r == Ok(1) <==> GoldenCross(short, long) ||
                            (|short| >= 2 && Oversold(short, mid, long, price, threshold) && Last(short) > short[|short| - 2])
    ensures r == Ok(-1) <==> !GoldenCross(short, long) &&
                             !(|short| >= 2 && Oversold(short, mid, long, price, threshold) && Last(short) > short[|short| - 2]) &&
                             (DeathCross(short, long) ||
                              (|short| >= 2 && Overbought(short, mid, long, price, threshold) && Last(short) < short[|short| - 2]))
  {
    if GoldenCross(short, long) then Ok(1)
    else if Oversold(short, mid, long, price, threshold) && |short| < 2 then Panic
    else if Oversold(short, mid, long, price, threshold) && Last(short) > short[|short| - 2] then Ok(1)
    else if DeathCross(short, long) then Ok(-1)
    else if Overbought(short, mid, long, price, threshold) && |short| < 2 then Panic
    else if Overbought(short, mid, long, price, threshold) && Last(short) < short[|short| - 2] then Ok(-1)
    else Ok(0)
  }

  // ---------------------------------------------------------------------------
  // Properties.
  // ---------------------------------------------------------------------------

  lemma WeightedStep(s: real, p: real, x: real, w: real, lo: real, hi: real, s': real, p': real)
    requires lo * s <= p <= hi * s && w >= 0.0 && lo <= x <= hi
    requires s' == s + w && p' == p + Weighted(x, w)
    ensures lo * s' <= p' <= hi * s'
  {
    assert (x - lo) * w >= 0.0;
    assert (hi - x) * w >= 0.0;
  }

  /** With non-negative volumes the traded value of a window lies between its volume times the lowest and the highest close. */
  lemma {:induction false} PvSumBounds(cs: seq<Candle>, lo: nat, hi: nat, low: real, high: real)
    requires lo <= hi <= |cs|
    requires forall j :: lo <= j < hi ==> cs[j].volume >= 0.0 && low <= cs[j].close <= high
    ensures low * VolSum(cs, lo, hi) <= PvSum(cs, lo, hi) <= high * VolSum(cs, lo, hi)
    decreases hi
  {
    if hi > lo {
      PvSumBounds(cs, lo, hi - 1, low, high);
      var c := cs[hi - 1];
      WeightedStep(VolSum(cs, lo, hi - 1), PvSum(cs, lo, hi - 1), c.close, c.volume, low, high,
                   VolSum(cs, lo, hi), PvSum(cs, lo, hi));
    }
  }

  lemma {:induction false} VolSumNonNegative(cs: seq<Candle>, lo: nat, hi: nat)
    requires lo <= hi <= |cs|
    requires forall j :: lo <= j < hi ==> cs[j].volume >= 0.0
    ensures VolSum(cs, lo, hi) >= 0.0
    decreases hi
  {
    if hi > lo {
      VolSumNonNegative(cs, lo, hi - 1);
    }
  }

  lemma DivBounds(x: real, d: real, lo: real, hi: real)
    requires d > 0.0 && lo * d <= x <= hi * d
    ensures lo <= x / d <= hi
  {
  }

  /**
   * With non-negative volumes in the window and a window volume above `f64::EPSILON`, a CYC value lies
   * between the smallest and the largest close of its window.
   */
  lemma CycBetweenCloses(cs: seq<Candle>, period: nat, i: nat)
    requires period >= 1 && period - 1 <= i < |cs|
    requires forall j :: i + 1 - period <= j <= i ==> cs[j].volume >= 0.0
    requires Abs(VolSum(cs, i + 1 - period, i + 1)) >= F64_EPSILON
    ensures var w := Closes(cs)[i + 1 - period..i + 1];
      SeqMin(w) <= CycAt(cs, period, i) <= SeqMax(w)
  {
    var start := i + 1 - period;
    var w := Closes(cs)[start..i + 1];
    WindowClosesWithin(cs, start, i + 1);
    var lo, hi := SeqMin(w), SeqMax(w);
    var p, v := PvSum(cs, start, i + 1), VolSum(cs, start, i + 1);
    PvSumBounds(cs, start, i + 1, lo, hi);
    VolSumNonNegative(cs, start, i + 1);
    DivBounds(p, v, lo, hi);
    assert CycAt(cs, period, i) == p / v;
  }

  lemma WindowClosesWithin(cs: seq<Candle>, lo: nat, hi: nat)
    requires lo < hi <= |cs|
    ensures var w := Closes(cs)[lo..hi];
      forall j :: lo <= j < hi ==> SeqMin(w) <= cs[j].close <= SeqMax(w)
  {
    var w := Closes(cs)[lo..hi];
    SeqMinMaxBounds(w);
    forall j | lo <= j < hi
      ensures SeqMin(w) <= cs[j].close <= SeqMax(w)
    {
      assert w[j - lo] == cs[j].close;
    }
  }

  /** Before the first full window a CYC value is 0, and with a vanishing window volume it is 0 as well. */
  lemma CycZeroCases(cs: seq<Candle>, period: nat, i: nat)
    requires period >= 1 && i < |cs|
    ensures i < period - 1 ==> CycAt(cs, period, i) == 0.0
    ensures i >= period - 1 && Abs(VolSum(cs, i + 1 - period, i + 1)) < F64_EPSILON ==> CycAt(cs, period, i) == 0.0
  {
  }

  /** Summing a recorded buffer over a window gives the window sums of the candles it came from. */
  lemma {:induction false} BufferSums(cs: seq<Candle>, pvs: seq<real>, vs: seq<real>, lo: nat, hi: nat)
    requires lo <= hi <= |pvs| == |vs| <= |cs|
    requires forall j :: 0 <= j < |pvs| ==> pvs[j] == Weighted(cs[j].close, cs[j].volume)
    requires forall j :: 0 <= j < |vs| ==> vs[j] == cs[j].volume
    ensures Sum(pvs[lo..hi]) == PvSum(cs, lo, hi) && Sum(vs[lo..hi]) == VolSum(cs, lo, hi)
    decreases hi
  {
    if hi > lo {
      BufferSums(cs, pvs, vs, lo, hi - 1);
      assert pvs[lo..hi][..hi - 1 - lo] == pvs[lo..hi - 1];
      assert vs[lo..hi][..hi - 1 - lo] == vs[lo..hi - 1];
    }
  }

  /** Reading the recorded buffers gives the specified CYC value. */
  lemma BufferCycIsCycAt(cs: seq<Candle>, period: nat, index: nat)
    requires period >= 1 && index < |cs|
    ensures BufferCyc(PriceVolumes(cs, index + 1), Volumes(cs, index + 1), period, index) == CycAt(cs, period, index)
  {
    if index >= period - 1 {
      BufferSums(cs, PriceVolumes(cs, index + 1), Volumes(cs, index + 1), index + 1 - period, index + 1);
    }
  }

  /** Golden and death crosses exclude each other, and neither is possible with fewer than two values. */
  lemma CrossesExclusive(short: seq<real>, long: seq<real>)
    ensures !(GoldenCross(short, long) && DeathCross(short, long))
    ensures |short| < 2 || |long| < 2 ==> !GoldenCross(short, long) && !DeathCross(short, long)
  {
  }

  /** With a non-negative long CYC and threshold, overbought and oversold exclude each other; with no values neither holds. */
  lemma OverAndUnderExclusive(short: seq<real>, mid: seq<real>, long: seq<real>, price: real, threshold: real)
    requires threshold >= 0.0
    requires long != [] ==> Last(long) >= 0.0
    ensures !(Overbought(short, mid, long, price, threshold) && Oversold(short, mid, long, price, threshold))
    ensures short == [] || mid == [] || long == [] ==>
      !Overbought(short, mid, long, price, threshold) && !Oversold(short, mid, long, price, threshold)
  {
    if Latest(short, mid, long).Some? {
      var l := Last(long);
      var t := threshold / 100.0;
      assert l * t >= 0.0;
      assert l * (1.0 + t) == l + l * t;
      assert l * (1.0 - t) == l - l * t;
    }
  }

  /** With no values at all the signal is a neutral 0. */
  lemma EmptySeriesIsNeutral(price: real, threshold: real)
    ensures GenerateSignal([], [], [], price, threshold) == Ok(0)
  {
  }

  // ---------------------------------------------------------------------------
  // The indicator object.
  // ---------------------------------------------------------------------------

  class Cyc {
    const shortPeriod: nat
    const midPeriod: nat
    const longPeriod: nat

    var priceVolumeSums: seq<real>
    var volumeSums: seq<real>
    var shortCyc: seq<real>
    var midCyc: seq<real>
    var longCyc: seq<real>

    predicate Valid()
      reads this
    {
      shortPeriod >= 1 && midPeriod >= 1 && longPeriod >= 1
    }

    constructor (shortPeriod: nat, midPeriod: nat, longPeriod: nat)
      requires shortPeriod >= 1 && midPeriod >= 1 && longPeriod >= 1
      ensures Valid()
      ensures this.shortPeriod == shortPeriod && this.midPeriod == midPeriod && this.longPeriod == longPeriod
      ensures priceVolumeSums == [] && volumeSums == [] && shortCyc == [] && midCyc == [] && longCyc == []
    {
      this.shortPeriod, this.midPeriod, this.longPeriod := shortPeriod, midPeriod, longPeriod;
      priceVolumeSums, volumeSums, shortCyc, midCyc, longCyc := [], [], [], [], [];
    }

    /** `CYC::default()`: periods 5, 13 and 34. */
    constructor Default()
      ensures Valid()
      ensures shortPeriod == 5 && midPeriod == 13 && longPeriod == 34
      ensures priceVolumeSums == [] && volumeSums == [] && shortCyc == [] && midCyc == [] && longCyc == []
    {
      shortPeriod, midPeriod, longPeriod := 5, 13, 34;
      priceVolumeSums, volumeSums, shortCyc, midCyc, longCyc := [], [], [], [], [];
    }

    method Reset()
      modifies this
      ensures priceVolumeSums == [] && volumeSums == [] && shortCyc == [] && midCyc == [] && longCyc == []
    {
      priceVolumeSums, volumeSums, shortCyc, midCyc, longCyc := [], [], [], [], [];
    }

    /** `update_cyc`: records bar `index` and appends its three CYC values, read off the recorded buffers. */
    method UpdateCyc(cs: seq<Candle>, index: nat)
      requires Valid() && index < |cs| && index <= |priceVolumeSums| && index <= |volumeSums|
      modifies this
      ensures priceVolumeSums == old(priceVolumeSums) + [Weighted(cs[index].close, cs[index].volume)]
      ensures volumeSums == old(volumeSums) + [cs[index].volume]
      ensures shortCyc == old(shortCyc) + [BufferCyc(priceVolumeSums, volumeSums, shortPeriod, index)]
      ensures midCyc == old(midCyc) + [BufferCyc(priceVolumeSums, volumeSums, midPeriod, index)]
      ensures longCyc == old(longCyc) + [BufferCyc(priceVolumeSums, volumeSums, longPeriod, index)]
    {
      var price := cs[index].close;
      var volume := cs[index].volume;
      var traded := price * volume;
      assert traded == Weighted(cs[index].close, cs[index].volume);
      priceVolumeSums := priceVolumeSums + [traded];
      volumeSums := volumeSums + [volume];

      var shortValue := WindowCyc(shortPeriod, index);
      shortCyc := shortCyc + [shortValue];
      var midValue := WindowCyc(midPeriod, index);
      midCyc := midCyc + [midValue];
      var longValue := WindowCyc(longPeriod, index);
      longCyc := longCyc + [longValue];
    }

    /** One of the three identical blocks of `update_cyc`: the CYC value of `period` at bar `index`, read off the buffers. */
    method WindowCyc(period: nat, index: nat) returns (value: real)
      requires period >= 1 && index < |priceVolumeSums| && index < |volumeSums|
      ensures value == BufferCyc(priceVolumeSums, volumeSums, period, index)
    {
      if index >= period - 1 {
        var start := index + 1 - period;
        var pvSum := Sum(priceVolumeSums[start..index + 1]);
        var vSum := Sum(volumeSums[start..index + 1]);
        value := if Abs(vSum) < F64_EPSILON then 0.0 else pvSum / vSum;
      } else {
        value := 0.0;
      }
    }

    /** `calculate`: resets, and with at least `longPeriod` candles rebuilds the two buffers and the three CYC series, one value per candle. */
    method Calculate(cs: seq<Candle>) returns (short: seq<real>, mid: seq<real>, long: seq<real>)
      requires Valid()
      modifies this
      ensures |cs| < longPeriod ==> short == [] && mid == [] && long == [] && shortCyc == [] && midCyc == [] && longCyc == []
      ensures |cs| >= longPeriod ==>
        shortCyc == CycSeries(cs, shortPeriod, |cs|) && midCyc == CycSeries(cs, midPeriod, |cs|) &&
        longCyc == CycSeries(cs, longPeriod, |cs|)
      ensures short == shortCyc && mid == midCyc && long == longCyc
      ensures |cs| < longPeriod ==> priceVolumeSums == [] && volumeSums == []
      ensures |cs| >= longPeriod ==> priceVolumeSums == PriceVolumes(cs, |cs|) && volumeSums == Volumes(cs, |cs|)
    {
      Reset();
      if |cs| < longPeriod {
        return [], [], [];
      }
      for i := 0 to |cs|
        invariant priceVolumeSums == PriceVolumes(cs, i) && volumeSums == Volumes(cs, i)
        invariant shortCyc == CycSeries(cs, shortPeriod, i) && midCyc == CycSeries(cs, midPeriod, i)
        invariant longCyc == CycSeries(cs, longPeriod, i)
      {
        UpdateCyc(cs, i);
        assert priceVolumeSums == PriceVolumes(cs, i + 1);
        assert volumeSums == Volumes(cs, i + 1);
        BufferCycIsCycAt(cs, shortPeriod, i);
        BufferCycIsCycAt(cs, midPeriod, i);
        BufferCycIsCycAt(cs, longPeriod, i);
      }
      short, mid, long := shortCyc, midCyc, longCyc;
    }

    function LatestValues(): Option<(real, real, real)>
      reads this
    {
      Latest(shortCyc, midCyc, longCyc)
    }

    /** The price is more than `threshold` percent above the latest long CYC; never before a value exists. */
    predicate IsOverbought(price: real, threshold: real)
      reads this
      ensures IsOverbought(price, threshold) <==>
                shortCyc != [] && midCyc != [] && longCyc != [] && price > Last(longCyc) * (1.0 + threshold / 100.0)
    {
      Overbought(shortCyc, midCyc, longCyc, price, threshold)
    }

    /**
     * The price is more than `threshold` percent below the latest long CYC; with a non-negative threshold
     * and long CYC, never together with overbought.
     */
    predicate IsOversold(price: real, threshold: real)
      reads this
      ensures IsOversold(price, threshold) <==>
                shortCyc != [] && midCyc != [] && longCyc != [] && price < Last(longCyc) * (1.0 - threshold / 100.0)
      ensures threshold >= 0.0 && (longCyc != [] ==> Last(longCyc) >= 0.0) ==>
                !(IsOversold(price, threshold) && IsOverbought(price, threshold))
    {
      if threshold >= 0.0 && (longCyc != [] ==> Last(longCyc) >= 0.0) then
        OverAndUnderExclusive(shortCyc, midCyc, longCyc, price, threshold);
        Oversold(shortCyc, midCyc, longCyc, price, threshold)
      else
        Oversold(shortCyc, midCyc, longCyc, price, threshold)
    }

    /** Short CYC crosses above long CYC on the last bar, which needs two values of each. */
    predicate IsGoldenCross()
      reads this
      ensures IsGoldenCross() ==> |shortCyc| >= 2 && |longCyc| >= 2 && Last(shortCyc) > Last(longCyc)
    {
      GoldenCross(shortCyc, longCyc)
    }

    /** Short CYC crosses below long CYC on the last bar; never together with a golden cross. */
    predicate IsDeathCross()
      reads this
      ensures IsDeathCross() ==> |shortCyc| >= 2 && |longCyc| >= 2 && Last(shortCyc) < Last(longCyc)
      ensures IsDeathCross() ==> !IsGoldenCross()
    {
      DeathCross(shortCyc, longCyc)
    }

    /**
     * `generate_signal` in the object's terms: 1 on a golden cross or when oversold with the short line
     * rising; otherwise -1 on a death cross or when overbought with the short line falling; otherwise 0. The
     * rising and falling tests panic with a single short value.
     */
    function Signal(price: real, threshold: real): (r: Outcome<int>)
      reads this
      ensures r.Panic? <==> |shortCyc| < 2 && (IsOversold(price, threshold) || IsOverbought(price, threshold))
      ensures r == Ok(1) <==> IsGoldenCross() ||
                              (|shortCyc| >= 2 && IsOversold(price, threshold) && Last(shortCyc) > shortCyc[|shortCyc| - 2])
      ensures r == Ok(-1) <==> !IsGoldenCross() &&
                               !(|shortCyc| >= 2 && IsOversold(price, threshold) && Last(shortCyc) > shortCyc[|shortCyc| - 2]) &&
                               (IsDeathCross() ||
                                (|shortCyc| >= 2 && IsOverbought(price, threshold) && Last(shortCyc) < shortCyc[|shortCyc| - 2]))
      ensures r == Ok(0) <==> r.Ok? && r.value != 1 && r.value != -1
    {
      GenerateSignal(shortCyc, midCyc, longCyc, price, threshold)
    }
  }
}
