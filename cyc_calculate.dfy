/**
 * The CYC signal adapter (src/calculates/cyc_calculate.rs): the default CYC(5, 13, 34) and its
 * `generate_signal` at the last close with a 5% threshold.
 */
module CycCalculate {
  import opened Common
  import opened CycIndicator

  const SHORT: nat := 5
  const MID: nat := 13
  const LONG: nat := 34
  const THRESHOLD: real := 5.0

  /** The three series `calculate` of the default CYC returns. */
  function Series(cs: seq<Candle>): (r: (seq<real>, seq<real>, seq<real>))
    ensures |cs| < LONG ==> r == ([], [], [])
    ensures |cs| >= LONG ==> |r.0| == |r.1| == |r.2| == |cs|
  {
    if |cs| < LONG then ([], [], [])
    else (CycSeries(cs, SHORT, |cs|), CycSeries(cs, MID, |cs|), CycSeries(cs, LONG, |cs|))
  }

  /**
   * `calculate` as written. The last candle is unwrapped (a panic on no candles), and the log line unwraps
   * the last value of each series, a panic below 34 candles; that line only evaluates its arguments when
   * info-level logging is enabled, which `infoLogging` stands for.
   */
  function CycSignalAsWritten(cs: seq<Candle>, infoLogging: bool): (r: Outcome<int>)
    ensures r.Panic? <==> cs == [] || (infoLogging && |cs| < LONG)
    ensures r.Ok? ==> r.value in {-1, 0, 1}
  {
    if cs == [] then Panic
    else
      var (short, mid, long) := Series(cs);
      var signal := GenerateSignal(short, mid, long, Last(cs).close, THRESHOLD);
      if signal.Panic? then Panic
      else if infoLogging && (short == [] || mid == [] || long == []) then Panic
      else signal
  }

  /** The corrected adapter: always -1, 0 or 1, and no candles, or too few for the long series, give a neutral 0. */
  function CycSignal(cs: seq<Candle>): (r: int)
    ensures r in {-1, 0, 1}
    ensures |cs| < LONG ==> r == 0
  {
    if cs == [] then 0
    else
      var (short, mid, long) := Series(cs);
      GenerateSignal(short, mid, long, Last(cs).close, THRESHOLD).value
  }

  /** `calculate`, corrected: the same signal without the unwraps that abort on short histories. */
  method Calculate(cs: seq<Candle>) returns (r: int)
    ensures r == CycSignal(cs)
  {
    var cyc := new Cyc.Default();
    var short, mid, long := cyc.Calculate(cs);
    if cs == [] {
      return 0;
    }
    var currentPrice := cs[|cs| - 1].close;
    var signal := cyc.Signal(currentPrice, THRESHOLD);
    r := signal.value;
  }

  // ---------------------------------------------------------------------------
  // Properties.
  // ---------------------------------------------------------------------------

  /** From 34 candles on, or with info logging off and at least one candle, the code as written gives the corrected signal. */
  lemma AsWrittenAgrees(cs: seq<Candle>, infoLogging: bool)
    requires cs != [] && (|cs| >= LONG || !infoLogging)
    ensures CycSignalAsWritten(cs, infoLogging) == Ok(CycSignal(cs))
  {
    var (short, mid, long) := Series(cs);
  }
}
