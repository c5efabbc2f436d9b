/** The STC signal adapter (src/calculates/stc_calculate.rs): STC(12, 26, 50) and a look at its last tuple. */
module StcCalculate {
  import opened Common
  import opened StcIndicator

  const LENGTH: nat := 12
  const FAST: nat := 26
  const SLOW: nat := 50

  /** The signal read off the last (value, red, green) tuple; no tuples give 0. */
  function StcVerdict(signals: seq<(real, bool, bool)>): int
  {
    if signals == [] then 0
    else
      var (value, red, green) := Last(signals);
      if red && value > 75.0 then -1
      else if green && value < 25.0 then 1
      else 0
  }

  function StcSignal(cs: seq<Candle>): int
  {
    StcVerdict(StcSignals(cs, LENGTH, FAST, SLOW))
  }

  /** `calculate`: runs a fresh STC over the candles and inspects the last tuple. */
  method Calculate(cs: seq<Candle>) returns (r: int)
    ensures r == StcSignal(cs)
  {
    var stc := new SchaffTrendCycle(LENGTH, FAST, SLOW);
    var signals := stc.Calculate(cs);
    if signals == [] {
      return 0;
    }
    var (value, red, green) := signals[|signals| - 1];
    if red && value > 75.0 {
      return -1;
    }
    if green && value < 25.0 {
      return 1;
    }
    r := 0;
  }

  // ---------------------------------------------------------------------------
  // Properties.
  // ---------------------------------------------------------------------------

  /** Every tuple `calculate` returns: red only above 75, green only below 25, never both. */
  lemma TuplesConsistent(cs: seq<Candle>, length: nat, fast: nat, slow: nat)
    requires length >= 1
    ensures var r := StcSignals(cs, length, fast, slow);
      forall i :: 0 <= i < |r| ==> (r[i].1 ==> r[i].0 > 75.0) && (r[i].2 ==> r[i].0 < 25.0) && !(r[i].1 && r[i].2)
  {
  }

  /**
   * The signal is -1 exactly when the last tuple is red and +1 exactly when it is green; the value tests
   * the adapter adds are implied by the colours, and the order of the two tests does not matter.
   */
  lemma SignalCases(cs: seq<Candle>)
    ensures var s, r := StcSignals(cs, LENGTH, FAST, SLOW), StcSignal(cs);
      r in {-1, 0, 1} &&
      (r == -1 <==> s != [] && Last(s).1) &&
      (r == 1 <==> s != [] && Last(s).2)
  {
    TuplesConsistent(cs, LENGTH, FAST, SLOW);
  }

  /** Fewer than fifty candles give no tuples and so a neutral signal. */
  lemma ShortHistoryIsNeutral(cs: seq<Candle>)
    requires |cs| < SLOW
    ensures StcSignals(cs, LENGTH, FAST, SLOW) == [] && StcSignal(cs) == 0
  {
  }
}
