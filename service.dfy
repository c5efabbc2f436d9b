/**
 * The two pure pieces of the broker wrapper (src/services/service.rs): the period-string lookup of
 * `get_candlesticks` with the request it builds, the status filter of `get_today_orders`, and the price
 * adjustment of `submit_order`. The broker calls themselves are not part of this model.
 */
module Service {
  import opened Longport

  // ---------------------------------------------------------------------------
  // get_candlesticks
  // ---------------------------------------------------------------------------

  /** The configured period string to the quote API's period; anything else is `UnknownPeriod`. */
  function PeriodOf(period: string): (r: Period)
    ensures r != UnknownPeriod ==> PeriodString(r) == period
    ensures r == UnknownPeriod ==> forall p :: p != UnknownPeriod ==> PeriodString(p) != period
  {
    match period
    case "1d" => Day
    case "1w" => Week
    case "15m" => FifteenMinute
    case "2h" => TwoHour
    case "3h" => ThreeHour
    case "4h" => FourHour
    case "5m" => FiveMinute
    case _ => UnknownPeriod
  }

  /** The string each known period is configured with. */
  function PeriodString(p: Period): string
    requires p != UnknownPeriod
  {
    match p
    case Day => "1d"
    case Week => "1w"
    case FifteenMinute => "15m"
    case TwoHour => "2h"
    case ThreeHour => "3h"
    case FourHour => "4h"
    case FiveMinute => "5m"
  }

  /** Every known period is reached from exactly its own string. */
  lemma PeriodRoundTrip(p: Period)
    requires p != UnknownPeriod
    ensures PeriodOf(PeriodString(p)) == p
  {
  }

  /** The lookup is injective on the seven known strings. */
  lemma PeriodInjective(s1: string, s2: string)
    requires PeriodOf(s1) != UnknownPeriod && PeriodOf(s1) == PeriodOf(s2)
    ensures s1 == s2
  {
  }

  datatype CandleRequest = CandleRequest(symbol: string, period: Period, count: nat, adjust: AdjustType, sessions: TradeSessions)

  /** The candle request: always the last 365 unadjusted candles over all trading sessions. */
  function CandlesRequest(symbol: string, period: string): (r: CandleRequest)
    ensures r.count == 365 && r.adjust == NoAdjust && r.sessions == All
    ensures r.symbol == symbol && r.period == PeriodOf(period)
  {
    CandleRequest(symbol, PeriodOf(period), 365, NoAdjust, All)
  }

  // ---------------------------------------------------------------------------
  // get_today_orders
  // ---------------------------------------------------------------------------

  /** The statuses today's orders are requested with. */
  const TODAY_ORDER_STATUSES: set<OrderStatus> := {Filled, New, WaitToNew}

  datatype TodayOrdersRequest = TodayOrdersRequest(symbol: string, statuses: set<OrderStatus>, market: Market)

  function TodayOrdersRequestFor(symbol: string): (r: TodayOrdersRequest)
    ensures r.symbol == symbol && r.market == US
    ensures PartialFilled !in r.statuses && NotReported !in r.statuses
  {
    TodayOrdersRequest(symbol, TODAY_ORDER_STATUSES, US)
  }

  /** Orders the broker answers that request with: only the requested statuses. */
  predicate FromTodayOrders(orders: seq<Order>)
  {
    forall k :: 0 <= k < |orders| ==> orders[k].status in TODAY_ORDER_STATUSES
  }

  // ---------------------------------------------------------------------------
  // submit_order
  // ---------------------------------------------------------------------------

  /** Round half to even to an integer, as `Decimal::round_dp` rounds. */
  function RoundHalfEven(y: real): (r: int)
    ensures y - 0.5 <= r as real <= y + 0.5
  {
    var f := y.Floor;
    var frac := y - f as real;
    if frac < 0.5 then f
    else if frac > 0.5 then f + 1
    else if f % 2 == 0 then f
    else f + 1
  }

  /** `round_dp(2)`: two decimal places, half to even. */
  function RoundDp2(x: real): (r: real)
    ensures x - 0.005 <= r <= x + 0.005
  {
    var y := x * 100.0;
    assert y - 0.5 <= RoundHalfEven(y) as real <= y + 0.5;
    RoundHalfEven(y) as real / 100.0
  }

  /** The limit price sent with an order: 5% above the market for a buy, 5% below for a sell, both rounded to cents. */
  function SubmittedPrice(side: OrderSide, price: real): (r: real)
    ensures side == Buy ==> price * 1.05 - 0.005 <= r <= price * 1.05 + 0.005
    ensures side == Sell ==> price * 0.95 - 0.005 <= r <= price * 0.95 + 0.005
    ensures side == Unknown ==> r == price
  {
    if side == Buy then RoundDp2(price * 1.05)
    else if side == Sell then RoundDp2(price * 0.95)
    else price
  }

  /** Rounding half to even never reverses the order of two values. */
  lemma RoundHalfEvenMonotone(a: real, b: real)
    requires a <= b
    ensures RoundHalfEven(a) <= RoundHalfEven(b)
  {
    var fa, fb := a.Floor, b.Floor;
    assert fa <= fb;
    if fa < fb {
      assert RoundHalfEven(a) <= fa + 1 <= fb <= RoundHalfEven(b);
    }
  }

  /** A non-negative price never gets a sell limit above its buy limit. */
  lemma SubmittedPricesOrdered(price: real)
    ensures price >= 0.0 ==> SubmittedPrice(Sell, price) <= SubmittedPrice(Buy, price)
  {
    if price >= 0.0 {
      RoundHalfEvenMonotone(price * 0.95 * 100.0, price * 1.05 * 100.0);
    }
  }
}
