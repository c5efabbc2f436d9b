/**
 * The broker SDK's value types the strategy reads (longport `trade` and `quote` records), reduced to the
 * fields the strategy uses. `Decimal` amounts are reals.
 */
module Longport {

  datatype OrderSide = Buy | Sell | Unknown

  datatype OrderStatus =
    | NotReported | Filled | WaitToNew | New | PartialFilled
    | WaitToCancel | Canceled | Rejected | Expired | OtherStatus

  /** One of today's orders; `submittedAt` is its submission time in Unix seconds. */
  datatype Order = Order(orderId: string, symbol: string, status: OrderStatus, submittedAt: int)

  datatype StockPosition = StockPosition(symbol: string, quantity: real, availableQuantity: real, costPrice: real)

  /** One account channel's positions. */
  datatype StockPositionChannel = StockPositionChannel(positions: seq<StockPosition>)

  datatype CashInfo = CashInfo(currency: string, withdrawCash: real, availableCash: real)

  /** One account's balance, with one cash entry per currency. */
  datatype AccountBalance = AccountBalance(cashInfos: seq<CashInfo>)

  /** Candle periods of the quote API. */
  datatype Period = UnknownPeriod | FiveMinute | FifteenMinute | TwoHour | ThreeHour | FourHour | Day | Week

  datatype AdjustType = NoAdjust | ForwardAdjust

  datatype TradeSessions = Intraday | All

  datatype Market = US | HK | CN | SG
}
