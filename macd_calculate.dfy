/**
 * The MACD signal adapter (src/calculates/macd_calculate.rs): a MACD(5, 10, 5) over the closes, then a scan
 * of the last three bars in which the first bar that decides anything decides the signal. The per-bar buy
 * and sell flag vectors are inputs here: `MACD::calculate` returns the three series, not flags, so their
 * origin is not part of this model.
 */
module MacdCalculate {
  import opened Common
  import opened MacdIndicator

  const FAST: nat := 5
  const SLOW: nat := 10
  const SIGNAL: nat := 5

  function FastM(): real { Multiplier(FAST) }
  function SlowM(): real { Multiplier(SLOW) }
  function SignalM(): real { Multiplier(SIGNAL) }

  /** The MACD line is above the signal line on bars `i - 1` and `i`. */
  predicate AboveTwice(ml: seq<real>, sl: seq<real>, i: nat)
    requires 1 <= i < |ml| && i < |sl|
  {
    ml[i - 1] > sl[i - 1] && ml[i] > sl[i]
  }

  /** The MACD line is below the signal line on bars `i - 1` and `i`. */
  predicate BelowTwice(ml: seq<real>, sl: seq<real>, i: nat)
    requires 1 <= i < |ml| && i < |sl|
  {
    ml[i - 1] < sl[i - 1] && ml[i] < sl[i]
  }

  /** Bar `i` lies inside all three MACD series, the only bars the loop looks at. */
  predicate InSeries(ml: seq<real>, sl: seq<real>, h: seq<real>, i: nat)
  {
    i < |ml| && i < |sl| && i < |h|
  }

  // ---------------------------------------------------------------------------
  // The loop as written: flags read by index, and bar i - 1 read even at i == 0.
  // ---------------------------------------------------------------------------

  /**
   * What the loop body does at bar `i` as written: decides nothing (None), returns a signal, or panics
   * on an out-of-range read (a flag vector shorter than the series, or index `i - 1` at `i == 0`).
   */
  function StepAsWritten(ml: seq<real>, sl: seq<real>, h: seq<real>, buys: seq<bool>, sells: seq<bool>, i: nat)
    : Option<Outcome<int>>
  {
    if !InSeries(ml, sl, h, i) then None
    else if i >= |buys| then Some(Panic)
    else if buys[i] then Some(Ok(1))
    else if i >= |sells| then Some(Panic)
    else if sells[i] then Some(Ok(-1))
    else if i == 0 then Some(Panic)
    else if AboveTwice(ml, sl, i) then Some(Ok(1))
    else if BelowTwice(ml, sl, i) then Some(Ok(-1))
    else None
  }

  function ScanAsWritten(ml: seq<real>, sl: seq<real>, h: seq<real>, buys: seq<bool>, sells: seq<bool>, i: nat, l: nat)
    : Outcome<int>
    decreases l - i
  {
    if i >= l then Ok(0)
    else match StepAsWritten(ml, sl, h, buys, sells, i)
      case Some(o) => o
      case None => ScanAsWritten(ml, sl, h, buys, sells, i + 1, l)
  }

  function MacdSignalAsWritten(cs: seq<Candle>, buys: seq<bool>, sells: seq<bool>): Outcome<int>
  {
    var xs := Closes(cs);
    if |cs| < 3 then Ok(0)
    else ScanAsWritten(MacdLine(xs, FastM(), SlowM()), SignalLine(xs, FastM(), SlowM(), SignalM()),
                       Histogram(xs, FastM(), SlowM(), SignalM()), buys, sells, |cs| - 3, |cs|)
  }

  /** `calculate` as written, a panic included. */
  method CalculateAsWritten(cs: seq<Candle>, buys: seq<bool>, sells: seq<bool>) returns (r: Outcome<int>)
    ensures r == MacdSignalAsWritten(cs, buys, sells)
  {
    var macd := new Macd(FAST, SLOW, SIGNAL);
    var ml, sl, h := macd.Calculate(cs);
    var l := |cs|;
    if l < 3 {
      return Ok(0);
    }
    ghost var target := ScanAsWritten(ml, sl, h, buys, sells, l - 3, l);
    assert target == MacdSignalAsWritten(cs, buys, sells);
    var i := l - 3;
    while i < l
      invariant l - 3 <= i <= l
      invariant target == ScanAsWritten(ml, sl, h, buys, sells, i, l)
    {
      ghost var step := StepAsWritten(ml, sl, h, buys, sells, i);
      assert target == if step.Some? then step.value else ScanAsWritten(ml, sl, h, buys, sells, i + 1, l);
      if i < |ml| && i < |sl| && i < |h| {
        if i >= |buys| {
          return Panic;
        }
        if buys[i] {
          return Ok(1);
        }
        if i >= |sells| {
          return Panic;
        }
        if sells[i] {
          return Ok(-1);
        }
        if i == 0 {
          return Panic;
        }
        if ml[i - 1] > sl[i - 1] && ml[i] > sl[i] {
          return Ok(1);
        }
        if ml[i - 1] < sl[i - 1] && ml[i] < sl[i] {
          return Ok(-1);
        }
      }
      i := i + 1;
    }
    r := Ok(0);
  }

  // ---------------------------------------------------------------------------
  // The corrected loop: a missing flag reads as false and bar 0 has no two-bar test.
  // ---------------------------------------------------------------------------

  function Flag(flags: seq<bool>, i: nat): bool
  {
    i < |flags| && flags[i]
  }

  /** What bar `i` decides: 1 or -1, or nothing. */
  function Step(ml: seq<real>, sl: seq<real>, h: seq<real>, buys: seq<bool>, sells: seq<bool>, i: nat): Option<int>
  {
    if !InSeries(ml, sl, h, i) then None
    else if Flag(buys, i) then Some(1)
    else if Flag(sells, i) then Some(-1)
    else if i >= 1 && AboveTwice(ml, sl, i) then Some(1)
    else if i >= 1 && BelowTwice(ml, sl, i) then Some(-1)
    else None
  }

  /** The bars `i..l` in increasing order; the first that decides wins. */
  function Scan(ml: seq<real>, sl: seq<real>, h: seq<real>, buys: seq<bool>, sells: seq<bool>, i: nat, l: nat): int
    decreases l - i
  {
    if i >= l then 0
    else match Step(ml, sl, h, buys, sells, i)
      case Some(v) => v
      case None => Scan(ml, sl, h, buys, sells, i + 1, l)
  }

  /** The signal the corrected adapter returns for the candles `cs`. */
  function MacdSignal(cs: seq<Candle>, buys: seq<bool>, sells: seq<bool>): int
  {
    var xs := Closes(cs);
    if |cs| < 3 then 0
    else Scan(MacdLine(xs, FastM(), SlowM()), SignalLine(xs, FastM(), SlowM(), SignalM()),
              Histogram(xs, FastM(), SlowM(), SignalM()), buys, sells, |cs| - 3, |cs|)
  }

  /** `calculate` with the corrected bar-0 and flag reads. */
  method Calculate(cs: seq<Candle>, buys: seq<bool>, sells: seq<bool>) returns (r: int)
    ensures r == MacdSignal(cs, buys, sells)
  {
    var macd := new Macd(FAST, SLOW, SIGNAL);
    var ml, sl, h := macd.Calculate(cs);
    var l := |cs|;
    if l < 3 {
      return 0;
    }
    var i := l - 3;
    while i < l
      invariant l - 3 <= i <= l
      invariant Scan(ml, sl, h, buys, sells, l - 3, l) == Scan(ml, sl, h, buys, sells, i, l)
    {
      if i < |ml| && i < |sl| && i < |h| {
        if i < |buys| && buys[i] {
          return 1;
        }
        if i < |sells| && sells[i] {
          return -1;
        }
        if i >= 1 && ml[i - 1] > sl[i - 1] && ml[i] > sl[i] {
          return 1;
        }
        if i >= 1 && ml[i - 1] < sl[i - 1] && ml[i] < sl[i] {
          return -1;
        }
      }
      i := i + 1;
    }
    r := 0;
  }

  // ---------------------------------------------------------------------------
  // Properties.
  // ---------------------------------------------------------------------------

  /** Within one bar: the buy flag first, then the sell flag, then the two-bar tests; out-of-series bars decide nothing. */
  lemma StepPrecedence(ml: seq<real>, sl: seq<real>, h: seq<real>, buys: seq<bool>, sells: seq<bool>, i: nat)
    ensures !InSeries(ml, sl, h, i) ==> Step(ml, sl, h, buys, sells, i).None?
    ensures InSeries(ml, sl, h, i) && Flag(buys, i) ==> Step(ml, sl, h, buys, sells, i) == Some(1)
    ensures InSeries(ml, sl, h, i) && !Flag(buys, i) && Flag(sells, i) ==> Step(ml, sl, h, buys, sells, i) == Some(-1)
    ensures Step(ml, sl, h, buys, sells, i).Some? ==> Step(ml, sl, h, buys, sells, i).value in {-1, 1}
  {
  }

  /**
   * The scan returns the decision of the first deciding bar in `i..l`, and 0 exactly when no bar decides;
   * in particular it is always -1, 0 or 1.
   */
  lemma {:induction false} ScanFirstDecides(ml: seq<real>, sl: seq<real>, h: seq<real>, buys: seq<bool>, sells: seq<bool>, i: nat, l: nat)
    ensures var r := Scan(ml, sl, h, buys, sells, i, l);
      r in {-1, 0, 1} &&
      (r == 0 <==> forall j :: i <= j < l ==> Step(ml, sl, h, buys, sells, j).None?) &&
      (r != 0 ==> exists j :: i <= j < l && Step(ml, sl, h, buys, sells, j) == Some(r) &&
                              forall m :: i <= m < j ==> Step(ml, sl, h, buys, sells, m).None?)
    decreases l - i
  {
    if i < l {
      ScanFirstDecides(ml, sl, h, buys, sells, i + 1, l);
      var r := Scan(ml, sl, h, buys, sells, i, l);
      if Step(ml, sl, h, buys, sells, i).None? {
        if r != 0 {
          var j :| i + 1 <= j < l && Step(ml, sl, h, buys, sells, j) == Some(r) &&
                   forall m :: i + 1 <= m < j ==> Step(ml, sl, h, buys, sells, m).None?;
          assert forall m :: i <= m < j ==> Step(ml, sl, h, buys, sells, m).None?;
        }
      } else {
        StepPrecedence(ml, sl, h, buys, sells, i);
        assert Step(ml, sl, h, buys, sells, i) == Some(r);
      }
    }
  }

  /** The corrected signal is always -1, 0 or 1. */
  lemma SignalRange(cs: seq<Candle>, buys: seq<bool>, sells: seq<bool>)
    ensures MacdSignal(cs, buys, sells) in {-1, 0, 1}
  {
    if |cs| >= 3 {
      var xs := Closes(cs);
      ScanFirstDecides(MacdLine(xs, FastM(), SlowM()), SignalLine(xs, FastM(), SlowM(), SignalM()),
                       Histogram(xs, FastM(), SlowM(), SignalM()), buys, sells, |cs| - 3, |cs|);
    }
  }

  /** Fewer than three candles give 0, as written and corrected. */
  lemma ShortHistoryIsNeutral(cs: seq<Candle>, buys: seq<bool>, sells: seq<bool>)
    requires |cs| < 3
    ensures MacdSignalAsWritten(cs, buys, sells) == Ok(0) && MacdSignal(cs, buys, sells) == 0
  {
  }

  /** Exactly three candles and no flag at bar 0: as written the loop reads bar -1 and panics. */
  lemma ThreeBarsPanicAsWritten(cs: seq<Candle>, buys: seq<bool>, sells: seq<bool>)
    requires |cs| == 3 && |buys| >= 1 && |sells| >= 1 && !buys[0] && !sells[0]
    ensures MacdSignalAsWritten(cs, buys, sells) == Panic
  {
  }

  /** As written and corrected agree on bar `i` when bar `i - 1` exists and both flags are there. */
  lemma StepAgrees(ml: seq<real>, sl: seq<real>, h: seq<real>, buys: seq<bool>, sells: seq<bool>, i: nat)
    requires i >= 1 && i < |buys| && i < |sells|
    ensures StepAsWritten(ml, sl, h, buys, sells, i) ==
      match Step(ml, sl, h, buys, sells, i) case Some(v) => Some(Ok(v)) case None => None
  {
  }

  lemma {:induction false} ScanAgrees(ml: seq<real>, sl: seq<real>, h: seq<real>, buys: seq<bool>, sells: seq<bool>, i: nat, l: nat)
    requires i >= 1 && l <= |buys| && l <= |sells|
    ensures ScanAsWritten(ml, sl, h, buys, sells, i, l) == Ok(Scan(ml, sl, h, buys, sells, i, l))
    decreases l - i
  {
    if i < l {
      StepAgrees(ml, sl, h, buys, sells, i);
      ScanAgrees(ml, sl, h, buys, sells, i + 1, l);
    }
  }

  /** With at least four candles and a flag for every candle, the code as written computes the corrected signal. */
  lemma AsWrittenAgreesFromFourBars(cs: seq<Candle>, buys: seq<bool>, sells: seq<bool>)
    requires |cs| >= 4 && |buys| >= |cs| && |sells| >= |cs|
    ensures MacdSignalAsWritten(cs, buys, sells) == Ok(MacdSignal(cs, buys, sells))
  {
    var xs := Closes(cs);
    ScanAgrees(MacdLine(xs, FastM(), SlowM()), SignalLine(xs, FastM(), SlowM(), SignalM()),
               Histogram(xs, FastM(), SlowM(), SignalM()), buys, sells, |cs| - 3, |cs|);
  }
}
