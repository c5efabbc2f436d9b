/** The KDJ stochastic oscillator (src/indicators/kdj.rs). */
module KdjIndicator {
  import opened Common

  /** RSV of bar `i`: the close's position in the trailing `kPeriod`-bar high/low range, scaled to 0..100. */
  function RsvAt(cs: seq<Candle>, kPeriod: nat, i: nat): real
    requires kPeriod >= 1 && i < |cs|
  {
    if i < kPeriod - 1 then 50.0
    else
      var highest := SeqMax(Highs(cs)[i + 1 - kPeriod..i + 1]);
      var lowest := SeqMin(Lows(cs)[i + 1 - kPeriod..i + 1]);
      if Abs(highest - lowest) < F64_EPSILON then 50.0
      else 100.0 * (cs[i].close - lowest) / (highest - lowest)
  }

  /** The RSV of the first `m` bars. */
  function RsvPrefix(cs: seq<Candle>, kPeriod: nat, m: nat): (r: seq<real>)
    requires kPeriod >= 1 && m <= |cs|
    ensures |r| == m
  {
    if m == 0 then [] else RsvPrefix(cs, kPeriod, m - 1) + [RsvAt(cs, kPeriod, m - 1)]
  }

  /** The window highs (or lows) that `calculate_rsv` records: one per bar from index `kPeriod - 1` on. */
  function WindowPrefix(cs: seq<Candle>, kPeriod: nat, m: nat, highs: bool): (r: seq<real>)
    requires kPeriod >= 1 && m <= |cs|
    ensures |r| == if m < kPeriod then 0 else m - kPeriod + 1
  {
    if m == 0 then []
    else
      var p := WindowPrefix(cs, kPeriod, m - 1, highs);
      var i := m - 1;
      if i < kPeriod - 1 then p
      else if highs then p + [SeqMax(Highs(cs)[i + 1 - kPeriod..i + 1])]
      else p + [SeqMin(Lows(cs)[i + 1 - kPeriod..i + 1])]
  }

  /** One smoothing step: seeded as (x + 2*50)/3, then (x + (d-1)*previous)/d. */
  function SmoothStep(prev: seq<real>, x: real, d: nat): real
    requires d >= 1
  {
    if prev == [] then (x + 2.0 * 50.0) / 3.0
    else (x + (d as real - 1.0) * prev[|prev| - 1]) / d as real
  }

  /** The smoothed series: K from the RSV series and D from the K series. */
  function Smooth(xs: seq<real>, d: nat): (r: seq<real>)
    requires d >= 1
    ensures |r| == |xs|
  {
    if xs == [] then [] else
      var p := Smooth(xs[..|xs| - 1], d);
      p + [SmoothStep(p, xs[|xs| - 1], d)]
  }

  lemma SmoothSnoc(xs: seq<real>, x: real, d: nat)
    requires d >= 1
    ensures Smooth(xs + [x], d) == Smooth(xs, d) + [SmoothStep(Smooth(xs, d), x, d)]
  {
    assert (xs + [x])[..|xs|] == xs;
  }

  lemma RsvPrefixSnoc(cs: seq<Candle>, kPeriod: nat, m: nat)
    requires kPeriod >= 1 && m < |cs|
    ensures RsvPrefix(cs, kPeriod, m + 1) == RsvPrefix(cs, kPeriod, m) + [RsvAt(cs, kPeriod, m)]
  {
  }

  /** K line of `calculate`: empty below `kPeriod` bars, else the smoothed RSV. */
  function KLine(cs: seq<Candle>, kPeriod: nat, dPeriod: nat): seq<real>
    requires kPeriod >= 1 && dPeriod >= 1
  {
    if |cs| < kPeriod then [] else Smooth(RsvPrefix(cs, kPeriod, |cs|), dPeriod)
  }

  function DLine(cs: seq<Candle>, kPeriod: nat, dPeriod: nat): seq<real>
    requires kPeriod >= 1 && dPeriod >= 1
  {
    Smooth(KLine(cs, kPeriod, dPeriod), dPeriod)
  }

  function JLine(k: seq<real>, d: seq<real>): (r: seq<real>)
    requires |k| == |d|
  {
    seq(|k|, i requires 0 <= i < |k| && |k| == |d| => 3.0 * k[i] - 2.0 * d[i])
  }

  predicate Overbought(k: seq<real>, d: seq<real>, j: seq<real>, threshold: real)
  {
    match Latest(k, d, j)
    case Some((lk, ld, _)) => lk > threshold && ld > threshold
    case None => false
  }

  predicate Oversold(k: seq<real>, d: seq<real>, j: seq<real>, threshold: real)
  {
    match Latest(k, d, j)
    case Some((lk, ld, _)) => lk < threshold && ld < threshold
    case None => false
  }

  predicate GoldenCross(k: seq<real>, d: seq<real>)
  {
    |k| >= 2 && |d| >= 2 && k[|k| - 2] < d[|d| - 2] && Last(k) > Last(d)
  }

  predicate DeathCross(k: seq<real>, d: seq<real>)
  {
    |k| >= 2 && |d| >= 2 && k[|k| - 2] > d[|d| - 2] && Last(k) < Last(d)
  }

  /** The two crosses exclude each other, and neither fires on fewer than two values. */
  lemma CrossesExclusive(k: seq<real>, d: seq<real>)
    ensures !(GoldenCross(k, d) && DeathCross(k, d))
    ensures (|k| < 2 || |d| < 2) ==> !GoldenCross(k, d) && !DeathCross(k, d)
  {
  }

  /** Overbought at `t1` and oversold at `t2 <= t1` cannot hold together. */
  lemma OverAndUnderExclusive(k: seq<real>, d: seq<real>, j: seq<real>, t1: real, t2: real)
    requires t2 <= t1
    ensures !(Overbought(k, d, j, t1) && Oversold(k, d, j, t2))
  {
  }

  /** A value between `lowest` and `highest` maps to [0, 100] under 100*(c - lowest)/(highest - lowest). */
  lemma ScaledPositionBounds(c: real, lowest: real, highest: real)
    requires lowest <= c <= highest && lowest < highest
    ensures 0.0 <= 100.0 * (c - lowest) / (highest - lowest) <= 100.0
  {
    var range := highest - lowest;
    var q := (c - lowest) / range;
    assert q * range == c - lowest;
    assert 0.0 <= q <= 1.0;
    assert 100.0 * (c - lowest) / range == 100.0 * q;
  }

  /** With well-formed bars every RSV lies in [0, 100]. */
  lemma RsvBounds(cs: seq<Candle>, kPeriod: nat, i: nat)
    requires kPeriod >= 1 && i < |cs| && WellFormed(cs)
    ensures 0.0 <= RsvAt(cs, kPeriod, i) <= 100.0
  {
    if i >= kPeriod - 1 {
      var hs := Highs(cs)[i + 1 - kPeriod..i + 1];
      var ls := Lows(cs)[i + 1 - kPeriod..i + 1];
      SeqMinMaxBounds(hs);
      SeqMinMaxBounds(ls);
      var highest, lowest := SeqMax(hs), SeqMin(ls);
      assert hs[kPeriod - 1] == cs[i].high && ls[kPeriod - 1] == cs[i].low;
      assert lowest <= cs[i].close <= highest;
      if !(Abs(highest - lowest) < F64_EPSILON) {
        ScaledPositionBounds(cs[i].close, lowest, highest);
      }
    }
  }

  /** (x + (d-1)*prev)/d stays in [0, 100] when x and prev do. */
  lemma WeightedStepBounds(x: real, prev: real, d: nat)
    requires d >= 1 && 0.0 <= x <= 100.0 && 0.0 <= prev <= 100.0
    ensures 0.0 <= (x + (d as real - 1.0) * prev) / d as real
    ensures (x + (d as real - 1.0) * prev) / d as real <= 100.0
  {
    var n := d as real;
    var w := n - 1.0;
    assert w >= 0.0;
    assert w * prev <= w * 100.0 by {
      assert w * (100.0 - prev) >= 0.0;
    }
    var t := x + w * prev;
    assert 0.0 <= t <= 100.0 * n;
    var s := t / n;
    assert s * n == t;
    assert s >= 0.0;
    assert s <= 100.0;
  }

  /** Smoothing a [0, 100] series stays in [0, 100]: each step is a convex combination. */
  lemma {:induction false} SmoothBounds(xs: seq<real>, d: nat)
    requires d >= 1
    requires forall i :: 0 <= i < |xs| ==> 0.0 <= xs[i] <= 100.0
    ensures forall i :: 0 <= i < |xs| ==> 0.0 <= Smooth(xs, d)[i] <= 100.0
  {
    if xs != [] {
      var init := xs[..|xs| - 1];
      assert forall i :: 0 <= i < |init| ==> init[i] == xs[i];
      SmoothBounds(init, d);
      var p := Smooth(init, d);
      var x := xs[|xs| - 1];
      assert 0.0 <= x <= 100.0;
      var s := SmoothStep(p, x, d);
      if p != [] {
        var prev := p[|p| - 1];
        assert 0.0 <= prev <= 100.0;
        WeightedStepBounds(x, prev, d);
        assert s == (x + (d as real - 1.0) * prev) / d as real;
        assert 0.0 <= s;
      } else {
        assert s == (x + 100.0) / 3.0;
      }
      assert 0.0 <= s <= 100.0;
      assert Smooth(xs, d) == p + [s];
    }
  }

  /** With well-formed bars and `dPeriod >= 1`, every K and D value lies in [0, 100]. */
  lemma KdBounded(cs: seq<Candle>, kPeriod: nat, dPeriod: nat)
    requires kPeriod >= 1 && dPeriod >= 1 && WellFormed(cs)
    ensures forall i :: 0 <= i < |KLine(cs, kPeriod, dPeriod)| ==> 0.0 <= KLine(cs, kPeriod, dPeriod)[i] <= 100.0
    ensures forall i :: 0 <= i < |DLine(cs, kPeriod, dPeriod)| ==> 0.0 <= DLine(cs, kPeriod, dPeriod)[i] <= 100.0
  {
    if |cs| >= kPeriod {
      var rsv := RsvPrefix(cs, kPeriod, |cs|);
      forall i | 0 <= i < |rsv| ensures 0.0 <= rsv[i] <= 100.0 {
        RsvPrefixAt(cs, kPeriod, |cs|, i);
        RsvBounds(cs, kPeriod, i);
      }
      SmoothBounds(rsv, dPeriod);
    }
    SmoothBounds(KLine(cs, kPeriod, dPeriod), dPeriod);
  }

  lemma {:induction false} RsvPrefixAt(cs: seq<Candle>, kPeriod: nat, m: nat, i: nat)
    requires kPeriod >= 1 && i < m <= |cs|
    ensures RsvPrefix(cs, kPeriod, m)[i] == RsvAt(cs, kPeriod, i)
  {
    if i < m - 1 {
      RsvPrefixAt(cs, kPeriod, m - 1, i);
    }
  }

  /** The first K is (RSV + 100)/3 and the first D is (K + 100)/3, whatever `dPeriod` is. */
  lemma SmoothSeeds(xs: seq<real>, d: nat)
    requires d >= 1 && |xs| >= 1
    ensures Smooth(xs, d)[0] == (xs[0] + 100.0) / 3.0
  {
    if |xs| > 1 {
      SmoothPrefix(xs, d, 1);
      assert xs[..1][..0] == [];
    }
  }

  /** Later values follow (x + (d-1)*previous)/d. */
  lemma SmoothRecurrence(xs: seq<real>, d: nat, i: nat)
    requires d >= 1 && 1 <= i < |xs|
    ensures Smooth(xs, d)[i] == (xs[i] + (d as real - 1.0) * Smooth(xs, d)[i - 1]) / d as real
  {
    var s := Smooth(xs, d);
    var p := xs[..i + 1];
    SmoothPrefix(xs, d, i + 1);
    SmoothPrefix(xs, d, i);
    assert p[..i] == xs[..i];
    assert Smooth(p, d) == s[..i] + [SmoothStep(s[..i], xs[i], d)];
    assert s[i] == Smooth(p, d)[i];
    assert s[..i] != [] && s[..i][i - 1] == s[i - 1];
  }

  /** The smoothed prefix is the prefix of the smoothed series. */
  lemma {:induction false} SmoothPrefix(xs: seq<real>, d: nat, m: nat)
    requires d >= 1 && m <= |xs|
    ensures Smooth(xs[..m], d) == Smooth(xs, d)[..m]
    decreases |xs|
  {
    if m < |xs| {
      var init := xs[..|xs| - 1];
      SmoothPrefix(init, d, m);
      assert init[..m] == xs[..m];
    } else {
      assert xs[..m] == xs;
    }
  }

  /** The KDJ calculator: six series that `calculate` clears and rebuilds bar by bar. */
  class Kdj {
    const kPeriod: nat
    const dPeriod: nat
    const jPeriod: nat

    var highestHigh: seq<real>
    var lowestLow: seq<real>
    var rsvValues: seq<real>
    var kValues: seq<real>
    var dValues: seq<real>
    var jValues: seq<real>

    constructor (kPeriod: nat, dPeriod: nat, jPeriod: nat)
      requires kPeriod >= 1 && dPeriod >= 1
      ensures this.kPeriod == kPeriod && this.dPeriod == dPeriod && this.jPeriod == jPeriod
      ensures highestHigh == [] && lowestLow == [] && rsvValues == []
      ensures kValues == [] && dValues == [] && jValues == []
    {
      this.kPeriod, this.dPeriod, this.jPeriod := kPeriod, dPeriod, jPeriod;
      highestHigh, lowestLow, rsvValues := [], [], [];
      kValues, dValues, jValues := [], [], [];
    }

    method Reset()
      modifies this
      ensures highestHigh == [] && lowestLow == [] && rsvValues == []
      ensures kValues == [] && dValues == [] && jValues == []
    {
      highestHigh, lowestLow, rsvValues := [], [], [];
      kValues, dValues, jValues := [], [], [];
    }

    /** `calculate_rsv`: returns the RSV of bar `index` and records the window extremes once the window is full. */
    method CalculateRsv(cs: seq<Candle>, index: nat) returns (rsv: real)
      requires kPeriod >= 1 && index < |cs|
      modifies this
      ensures rsv == RsvAt(cs, kPeriod, index)
      ensures index < kPeriod - 1 ==> highestHigh == old(highestHigh) && lowestLow == old(lowestLow)
      ensures index >= kPeriod - 1 ==>
        highestHigh == old(highestHigh) + [SeqMax(Highs(cs)[index + 1 - kPeriod..index + 1])] &&
        lowestLow == old(lowestLow) + [SeqMin(Lows(cs)[index + 1 - kPeriod..index + 1])]
      ensures rsvValues == old(rsvValues) && kValues == old(kValues)
      ensures dValues == old(dValues) && jValues == old(jValues)
    {
      if index < kPeriod - 1 {
        return 50.0;
      }
      var start := index + 1 - kPeriod;
      var highest := SeqMax(Highs(cs)[start..index + 1]);
      var lowest := SeqMin(Lows(cs)[start..index + 1]);
      highestHigh := highestHigh + [highest];
      lowestLow := lowestLow + [lowest];
      if Abs(highest - lowest) < F64_EPSILON {
        rsv := 50.0;
      } else {
        rsv := 100.0 * (cs[index].close - lowest) / (highest - lowest);
      }
    }

    /** `update_kdj`: appends one RSV, K, D and J value for bar `index`. */
    method UpdateKdj(cs: seq<Candle>, index: nat)
      requires kPeriod >= 1 && dPeriod >= 1 && index < |cs|
      modifies this
      ensures rsvValues == old(rsvValues) + [RsvAt(cs, kPeriod, index)]
      ensures kValues == old(kValues) + [SmoothStep(old(kValues), RsvAt(cs, kPeriod, index), dPeriod)]
      ensures dValues == old(dValues) + [SmoothStep(old(dValues), Last(kValues), dPeriod)]
      ensures jValues == old(jValues) + [3.0 * Last(kValues) - 2.0 * Last(dValues)]
      ensures index < kPeriod - 1 ==> highestHigh == old(highestHigh) && lowestLow == old(lowestLow)
      ensures index >= kPeriod - 1 ==>
        highestHigh == old(highestHigh) + [SeqMax(Highs(cs)[index + 1 - kPeriod..index + 1])] &&
        lowestLow == old(lowestLow) + [SeqMin(Lows(cs)[index + 1 - kPeriod..index + 1])]
    {
      var rsv := CalculateRsv(cs, index);
      rsvValues := rsvValues + [rsv];
      var k;
      if kValues == [] {
        k := (rsv + 2.0 * 50.0) / 3.0;
      } else {
        k := (rsv + (dPeriod as real - 1.0) * kValues[|kValues| - 1]) / dPeriod as real;
      }
      assert k == SmoothStep(kValues, rsv, dPeriod);
      kValues := kValues + [k];
      var d;
      if dValues == [] {
        d := (k + 2.0 * 50.0) / 3.0;
      } else {
        d := (k + (dPeriod as real - 1.0) * dValues[|dValues| - 1]) / dPeriod as real;
      }
      assert d == SmoothStep(dValues, k, dPeriod);
      dValues := dValues + [d];
      jValues := jValues + [3.0 * k - 2.0 * d];
    }

    /** The six series as `calculate` leaves them after its first `i` bars. */
    ghost predicate Built(cs: seq<Candle>, i: nat)
      requires kPeriod >= 1 && dPeriod >= 1 && i <= |cs|
      reads this
    {
      && rsvValues == RsvPrefix(cs, kPeriod, i)
      && kValues == Smooth(rsvValues, dPeriod)
      && dValues == Smooth(kValues, dPeriod)
      && jValues == JLine(kValues, dValues)
      && highestHigh == WindowPrefix(cs, kPeriod, i, true)
      && lowestLow == WindowPrefix(cs, kPeriod, i, false)
    }

    /** One pass of the loop in `calculate`: `update_kdj` on bar `i` extends every series by that bar. */
    method Step(cs: seq<Candle>, i: nat)
      requires kPeriod >= 1 && dPeriod >= 1 && i < |cs| && Built(cs, i)
      modifies this
      ensures Built(cs, i + 1)
    {
      ghost var rsv0, k0 := rsvValues, kValues;
      UpdateKdj(cs, i);
      SmoothSnoc(rsv0, RsvAt(cs, kPeriod, i), dPeriod);
      SmoothSnoc(k0, Last(kValues), dPeriod);
      assert jValues == JLine(kValues, dValues);
    }

    /** `calculate`: resets, then with at least `kPeriod` bars fills K, D and J with one value per bar. */
    method Calculate(cs: seq<Candle>) returns (k: seq<real>, d: seq<real>, j: seq<real>)
      requires kPeriod >= 1 && dPeriod >= 1
      modifies this
      ensures kValues == KLine(cs, kPeriod, dPeriod) && dValues == DLine(cs, kPeriod, dPeriod)
      ensures jValues == JLine(kValues, dValues)
      ensures rsvValues == if |cs| < kPeriod then [] else RsvPrefix(cs, kPeriod, |cs|)
      ensures highestHigh == if |cs| < kPeriod then [] else WindowPrefix(cs, kPeriod, |cs|, true)
      ensures lowestLow == if |cs| < kPeriod then [] else WindowPrefix(cs, kPeriod, |cs|, false)
      ensures k == kValues && d == dValues && j == jValues
    {
      Reset();
      if |cs| < kPeriod {
        assert JLine([], []) == [];
        return [], [], [];
      }
      assert JLine([], []) == [];
      for i := 0 to |cs|
        invariant Built(cs, i)
      {
        Step(cs, i);
      }
      k, d, j := kValues, dValues, jValues;
    }

    function LatestValues(): Option<(real, real, real)>
      reads this
    {
      Latest(kValues, dValues, jValues)
    }

    /** Both the latest K and the latest D are above the threshold; never before a value exists. */
    predicate IsOverbought(threshold: real)
      reads this
      ensures IsOverbought(threshold) <==>
                kValues != [] && dValues != [] && jValues != [] && Last(kValues) > threshold && Last(dValues) > threshold
    {
      Overbought(kValues, dValues, jValues, threshold)
    }

    /** Both the latest K and the latest D are below the threshold; never together with overbought. */
    predicate IsOversold(threshold: real)
      reads this
      ensures IsOversold(threshold) <==>
                kValues != [] && dValues != [] && jValues != [] && Last(kValues) < threshold && Last(dValues) < threshold
      ensures IsOversold(threshold) ==> !IsOverbought(threshold)
    {
      Oversold(kValues, dValues, jValues, threshold)
    }

    /** K crosses above D on the last bar, which needs two values of each. */
    predicate IsGoldenCross()
      reads this
      ensures IsGoldenCross() ==> |kValues| >= 2 && |dValues| >= 2 && Last(kValues) > Last(dValues)
    {
      GoldenCross(kValues, dValues)
    }

    /** K crosses below D on the last bar; never together with a golden cross. */
    predicate IsDeathCross()
      reads this
      ensures IsDeathCross() ==> |kValues| >= 2 && |dValues| >= 2 && Last(kValues) < Last(dValues)
      ensures IsDeathCross() ==> !IsGoldenCross()
    {
      DeathCross(kValues, dValues)
    }
  }

  /** J is 3K - 2D at every index. */
  lemma JIdentity(k: seq<real>, d: seq<real>)
    requires |k| == |d|
    ensures |JLine(k, d)| == |k| && forall i :: 0 <= i < |k| ==> JLine(k, d)[i] == 3.0 * k[i] - 2.0 * d[i]
  {
  }

  /** Fewer than `kPeriod` bars give empty series, no latest value and no signal. */
  lemma ShortHistoryIsSilent(cs: seq<Candle>, kPeriod: nat, dPeriod: nat, t1: real, t2: real)
    requires kPeriod >= 1 && dPeriod >= 1 && |cs| < kPeriod
    ensures var k, d := KLine(cs, kPeriod, dPeriod), DLine(cs, kPeriod, dPeriod);
      k == [] && d == [] && Latest(k, d, JLine(k, d)).None? &&
      !GoldenCross(k, d) && !DeathCross(k, d) &&
      !Overbought(k, d, JLine(k, d), t1) && !Oversold(k, d, JLine(k, d), t2)
  {
  }

  /** With at least `kPeriod` bars every series has one value per bar, and the window buffers one per full window. */
  lemma FullHistoryLengths(cs: seq<Candle>, kPeriod: nat, dPeriod: nat)
    requires kPeriod >= 1 && dPeriod >= 1 && |cs| >= kPeriod
    ensures |KLine(cs, kPeriod, dPeriod)| == |cs| && |DLine(cs, kPeriod, dPeriod)| == |cs|
    ensures |WindowPrefix(cs, kPeriod, |cs|, true)| == |cs| - kPeriod + 1
    ensures |WindowPrefix(cs, kPeriod, |cs|, false)| == |cs| - kPeriod + 1
  {
  }
}
