/** The UT-Bot signal adapter (src/calculates/utbot_calculate.rs): UT-Bot(1.0, 10, no Heikin-Ashi), long/short first, then the last flags. */
module UtBotCalculate {
  import opened Common
  import opened UtBotIndicator

  const KEY_VALUE: real := 1.0
  const ATR_PERIOD: nat := 10
  const USE_HEIKIN_ASHI: bool := false

  /** Long gives 1 and short -1; otherwise the last buy flag gives 1 and the last sell flag -1. */
  function UtBotVerdict(u: UtBotSeries): int
  {
    if Long(u.source, u.stops) then 1
    else if Short(u.source, u.stops) then -1
    else if u.buys != [] && Last(u.buys) then 1
    else if u.sells != [] && Last(u.sells) then -1
    else 0
  }

  function UtBotSignal(cs: seq<Candle>): int
  {
    UtBotVerdict(UtBotOf(cs, KEY_VALUE, ATR_PERIOD, USE_HEIKIN_ASHI))
  }

  /** `calculate`: runs a fresh UT-Bot over the candles and walks the chain. */
  method Calculate(cs: seq<Candle>) returns (r: int)
    ensures r == UtBotSignal(cs)
  {
    var ubot := new UtBot(KEY_VALUE, ATR_PERIOD, USE_HEIKIN_ASHI);
    var _, _ := ubot.Calculate(cs);
    if ubot.IsLong() {
      return 1;
    } else if ubot.IsShort() {
      return -1;
    }
    var buySignals := ubot.buySignals;
    if buySignals != [] && buySignals[|buySignals| - 1] {
      return 1;
    }
    var sellSignals := ubot.sellSignals;
    if sellSignals != [] && sellSignals[|sellSignals| - 1] {
      return -1;
    }
    r := 0;
  }

  // ---------------------------------------------------------------------------
  // Properties.
  // ---------------------------------------------------------------------------

  /**
   * The buy/sell fallback never fires: it is reached only when the last source equals the last stop (or the
   * series are empty), while a buy or sell flag needs the source strictly above or below the stop.
   */
  lemma FallbackUnreachable(cs: seq<Candle>, key: real, period: nat, useHeikinAshi: bool)
    requires period >= 1
    ensures var u := UtBotOf(cs, key, period, useHeikinAshi);
      !Long(u.source, u.stops) && !Short(u.source, u.stops) ==>
        !(u.buys != [] && Last(u.buys)) && !(u.sells != [] && Last(u.sells))
  {
    if |cs| >= period {
      FullHistoryLengths(cs, key, period, useHeikinAshi);
    }
  }

  /** The signal is 1 exactly when long, -1 exactly when short, and 0 otherwise. */
  lemma SignalCases(cs: seq<Candle>)
    ensures var u, r := UtBotOf(cs, KEY_VALUE, ATR_PERIOD, USE_HEIKIN_ASHI), UtBotSignal(cs);
      r in {-1, 0, 1} &&
      (r == 1 <==> u.source != [] && u.stops != [] && Last(u.source) > Last(u.stops)) &&
      (r == -1 <==> u.source != [] && u.stops != [] && Last(u.source) < Last(u.stops))
  {
    FallbackUnreachable(cs, KEY_VALUE, ATR_PERIOD, USE_HEIKIN_ASHI);
  }

  /** Fewer than ten candles give a neutral signal. */
  lemma ShortHistoryIsNeutral(cs: seq<Candle>)
    requires |cs| < ATR_PERIOD
    ensures UtBotSignal(cs) == 0
  {
  }
}
