/**
 * The `BaseCalculate` capability (src/calculates/base_calculate.rs): every signal source answers
 * `calculate()`, `get_name()` and `get_description()`. The program's seven implementations become the
 * seven constructors of one datatype, each carrying the input its struct holds.
 */
module BaseCalculate {
  import opened Common
  import KdjCalculate
  import MacdCalculate
  import StcCalculate
  import UtBotCalculate
  import CycCalculate
  import MarketCalculate
  import TradingviewTechnicals

  datatype Calculator =
    | Kdj(candles: seq<Candle>)
    | Macd(candles: seq<Candle>, buys: seq<bool>, sells: seq<bool>)
    | Stc(candles: seq<Candle>)
    | UtBot(candles: seq<Candle>)
    | Cyc(candles: seq<Candle>)
    | Market(market: MarketCalculate.MarketTemperature)
    | Technicals(technicals: TradingviewTechnicals.Fields)

  /** The signal each implementation's `calculate()` returns; the TradingView adapter always answers 0. */
  function SignalOf(c: Calculator): (r: int)
    ensures r in {-2, -1, 0, 1, 2}
    ensures !c.Market? ==> r in {-1, 0, 1}
  {
    match c
    case Kdj(cs) => KdjCalculate.SignalRange(cs); KdjCalculate.KdjSignal(cs)
    case Macd(cs, buys, sells) => MacdCalculate.SignalRange(cs, buys, sells); MacdCalculate.MacdSignal(cs, buys, sells)
    case Stc(cs) => StcCalculate.SignalCases(cs); StcCalculate.StcSignal(cs)
    case UtBot(cs) => UtBotCalculate.SignalCases(cs); UtBotCalculate.UtBotSignal(cs)
    case Cyc(cs) => CycCalculate.CycSignal(cs)
    case Market(m) => MarketCalculate.MarketSignal(m)
    case Technicals(_) => 0
  }

  /** `calculate()`, dispatched to the implementation. */
  method Calculate(c: Calculator) returns (r: int)
    ensures r == SignalOf(c)
  {
    match c
    case Kdj(cs) => r := KdjCalculate.Calculate(cs);
    case Macd(cs, buys, sells) => r := MacdCalculate.Calculate(cs, buys, sells);
    case Stc(cs) => r := StcCalculate.Calculate(cs);
    case UtBot(cs) => r := UtBotCalculate.Calculate(cs);
    case Cyc(cs) => r := CycCalculate.Calculate(cs);
    case Market(m) => r := MarketCalculate.MarketSignal(m);
    case Technicals(_) => r := 0;
  }

  /** `get_name()` as written: the CYC adapter reports itself as "KDJ". */
  function NameAsWritten(c: Calculator): (r: string)
    ensures r == "KDJ" <==> c.Kdj? || c.Cyc?
  {
    match c
    case Kdj(_) => "KDJ"
    case Macd(_, _, _) => "MACD"
    case Stc(_) => "STC"
    case UtBot(_) => "UTBOT"
    case Cyc(_) => "KDJ"
    case Market(_) => "Market Temperature"
    case Technicals(_) => "Tradingview Technicals"
  }

  /** `get_name()` with the CYC adapter named after itself. */
  function Name(c: Calculator): string
  {
    match c
    case Cyc(_) => "CYC"
    case _ => NameAsWritten(c)
  }

  /** `get_description()` as written: the CYC adapter describes itself as the KDJ indicator. */
  function DescriptionAsWritten(c: Calculator): string
  {
    match c
    case Kdj(_) => "KDJ指标"
    case Macd(_, _, _) => "MACD指标"
    case Stc(_) => "STC指标"
    case UtBot(_) => "UTBOT指标"
    case Cyc(_) => "KDJ指标"
    case Market(_) => "Market Temperature指标"
    case Technicals(_) => "Tradingview Technicals 指标"
  }

  /** Which of the seven implementations `c` is. */
  function Kind(c: Calculator): nat
  {
    match c
    case Kdj(_) => 0
    case Macd(_, _, _) => 1
    case Stc(_) => 2
    case UtBot(_) => 3
    case Cyc(_) => 4
    case Market(_) => 5
    case Technicals(_) => 6
  }

  /** As written, a CYC adapter and a KDJ adapter cannot be told apart by name. */
  lemma CycNamedKdjAsWritten(a: seq<Candle>, b: seq<Candle>)
    ensures NameAsWritten(Cyc(a)) == NameAsWritten(Kdj(b))
    ensures DescriptionAsWritten(Cyc(a)) == DescriptionAsWritten(Kdj(b))
    ensures Kind(Cyc(a)) != Kind(Kdj(b))
  {
  }

  /** With the corrected name, different implementations have different names. */
  lemma NamesIdentifyKind(c1: Calculator, c2: Calculator)
    ensures Name(c1) == Name(c2) <==> Kind(c1) == Kind(c2)
  {
  }
}
