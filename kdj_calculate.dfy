/** The KDJ signal adapter (src/calculates/kdj_calculate.rs): a default KDJ and a four-step priority chain. */
module KdjCalculate {
  import opened Common
  import opened KdjIndicator

  /** `KDJ::default()` periods. */
  const K_PERIOD: nat := 9
  const D_PERIOD: nat := 3
  const J_PERIOD: nat := 3

  const OVERSOLD: real := 20.0
  const OVERBOUGHT: real := 80.0

  /** The signal of a K and D series: golden cross, then oversold, then death cross, then overbought. */
  function KdjVerdict(k: seq<real>, d: seq<real>): int
    requires |k| == |d|
  {
    var j := JLine(k, d);
    if GoldenCross(k, d) then 1
    else if Oversold(k, d, j, OVERSOLD) then 1
    else if DeathCross(k, d) then -1
    else if Overbought(k, d, j, OVERBOUGHT) then -1
    else 0
  }

  /** The signal `KdjCalculate::calculate` returns for the candles `cs`. */
  function KdjSignal(cs: seq<Candle>): int
  {
    KdjVerdict(KLine(cs, K_PERIOD, D_PERIOD), DLine(cs, K_PERIOD, D_PERIOD))
  }

  /** `calculate`: runs a fresh default KDJ over the candles and walks the priority chain. */
  method Calculate(cs: seq<Candle>) returns (r: int)
    ensures r == KdjSignal(cs)
  {
    var kdj := new Kdj(K_PERIOD, D_PERIOD, J_PERIOD);
    var _, _, _ := kdj.Calculate(cs);
    if kdj.IsGoldenCross() {
      return 1;
    }
    if kdj.IsOversold(OVERSOLD) {
      return 1;
    }
    if kdj.IsDeathCross() {
      return -1;
    }
    if kdj.IsOverbought(OVERBOUGHT) {
      return -1;
    }
    r := 0;
  }

  // ---------------------------------------------------------------------------
  // Properties.
  // ---------------------------------------------------------------------------

  /**
   * The signal is 1 exactly on a golden cross or an oversold reading, -1 exactly when neither holds and
   * there is a death cross or an overbought reading, and 0 when none of the four checks holds.
   */
  lemma VerdictCases(k: seq<real>, d: seq<real>)
    requires |k| == |d|
    ensures var j, r := JLine(k, d), KdjVerdict(k, d);
      r in {-1, 0, 1} &&
      (r == 1 <==> GoldenCross(k, d) || Oversold(k, d, j, OVERSOLD)) &&
      (r == -1 <==> !GoldenCross(k, d) && !Oversold(k, d, j, OVERSOLD) &&
                    (DeathCross(k, d) || Overbought(k, d, j, OVERBOUGHT))) &&
      (r == 0 <==> !GoldenCross(k, d) && !Oversold(k, d, j, OVERSOLD) &&
                   !DeathCross(k, d) && !Overbought(k, d, j, OVERBOUGHT))
  {
  }

  /** The adapter's signal is always -1, 0 or 1. */
  lemma SignalRange(cs: seq<Candle>)
    ensures KdjSignal(cs) in {-1, 0, 1}
  {
    VerdictCases(KLine(cs, K_PERIOD, D_PERIOD), DLine(cs, K_PERIOD, D_PERIOD));
  }

  /** A golden cross is a buy even when K and D are both overbought. */
  lemma GoldenCrossBeatsOverbought(k: seq<real>, d: seq<real>)
    requires |k| == |d| && GoldenCross(k, d) && Overbought(k, d, JLine(k, d), OVERBOUGHT)
    ensures KdjVerdict(k, d) == 1
  {
  }

  /** Fewer than nine candles give empty series and so a neutral signal. */
  lemma ShortHistoryIsNeutral(cs: seq<Candle>)
    requires |cs| < K_PERIOD
    ensures KdjSignal(cs) == 0
  {
    ShortHistoryIsSilent(cs, K_PERIOD, D_PERIOD, OVERBOUGHT, OVERSOLD);
  }
}
