/**
 * The VecorStrategy decision logic (src/strategys/vecor_v1.rs). On each quote tick the strategy checks
 * the symbol's freshness record, refreshes it from the latest candles, and then decides on at most one
 * broker action: a take-profit sell, an indicator-driven buy or sell, or the cancellation of an order
 * still open. The broker's answers (candles, positions, balances, today's orders), the MACD flag vectors,
 * the TradingView fields and the clock reach the model as parameters; the broker action comes back as an
 * `Intent`.
 */
module VecorV1 {
  import opened Common
  import opened Longport
  import opened BaseCalculate
  import opened DefultRules
  import Computes
  import TradingviewTechnicals
  import MacdCalculate
  import CycCalculate

  // ---------------------------------------------------------------------------
  // Records.
  // ---------------------------------------------------------------------------

  /** A symbol's configuration; `tpRatio` is the take-profit percentage. */
  datatype SymbolConfig = SymbolConfig(symbol: string, symbolType: string, volume: real, period: string, tpRatio: int, slRatio: int)

  /** The configuration `SymbolConfig::new()` stands for, taken to have every field empty or zero. */
  const DEFAULT_CONFIG: SymbolConfig := SymbolConfig("", "", 0.0, "", 0, 0)

  /** The per-symbol freshness record: the candle interval, the time the next candle is due and the last closed candle's time. */
  datatype SymbolTimeData = SymbolTimeData(symbol: string, intervalTime: u64, nextTime: u64, lastTime: u64)

  /** `SymbolTimeData::new()`. */
  const DEFAULT_TIME_DATA: SymbolTimeData := SymbolTimeData("", 0, 0, 0)

  /** A quote tick; `ts` is its time in Unix seconds. */
  datatype MarketData = MarketData(symbol: string, price: real, change: real, volume: int,
                                   high: real, low: real, open: real, close: real, ts: int)

  /** The empty position `handler_positions` starts from. */
  const DEFAULT_POSITION: StockPosition := StockPosition("", 0.0, 0.0, 0.0)

  /** The broker action one tick leads to; `Abort` is a panic of the tick's task. */
  datatype Intent =
    | NoOrder
    | Submit(side: OrderSide, price: real, quantity: real)
    | CancelOrder(orderId: string)
    | Abort

  /**
   * What the collaborators answer during one tick: the candles (a failed fetch is empty), the MACD flag
   * vectors, the TradingView fields, the positions, balances and today's orders, and the clock.
   */
  datatype Feeds = Feeds(candles: seq<Candle>, macdBuys: seq<bool>, macdSells: seq<bool>,
                         technicals: TradingviewTechnicals.Fields,
                         positions: seq<StockPositionChannel>, balances: seq<AccountBalance>,
                         orders: seq<Order>, now: int)

  // ---------------------------------------------------------------------------
  // get_sym_info
  // ---------------------------------------------------------------------------

  /** Where `get_sym_info` finds `symbol`: the index of the last entry naming it, or -1 when none does. */
  function LastConfigIndex(cfgs: seq<SymbolConfig>, symbol: string): (r: int)
    ensures -1 <= r < |cfgs|
    ensures r >= 0 ==> cfgs[r].symbol == symbol
    ensures forall k :: r < k < |cfgs| ==> cfgs[k].symbol != symbol
  {
    if cfgs == [] then -1
    else if Last(cfgs).symbol == symbol then |cfgs| - 1
    else
      var p := cfgs[..|cfgs| - 1];
      assert forall k :: 0 <= k < |p| ==> p[k] == cfgs[k];
      LastConfigIndex(p, symbol)
  }

  /** The configuration of `symbol`: the last entry naming it, or the default when none does. */
  function SymInfo(cfgs: seq<SymbolConfig>, symbol: string): SymbolConfig
  {
    var i := LastConfigIndex(cfgs, symbol);
    if i < 0 then DEFAULT_CONFIG else cfgs[i]
  }

  method GetSymInfo(symConfig: seq<SymbolConfig>, symbol: string) returns (sym: SymbolConfig)
    ensures sym == SymInfo(symConfig, symbol)
  {
    sym := DEFAULT_CONFIG;
    for i := 0 to |symConfig|
      invariant sym == SymInfo(symConfig[..i], symbol)
    {
      assert symConfig[..i + 1][..i] == symConfig[..i];
      assert LastConfigIndex(symConfig[..i + 1], symbol) ==
        if symConfig[i].symbol == symbol then i else LastConfigIndex(symConfig[..i], symbol);
      if symConfig[i].symbol == symbol {
        sym := symConfig[i];
      }
    }
    assert symConfig[..|symConfig|] == symConfig;
  }

  // ---------------------------------------------------------------------------
  // get_sym_time_info
  // ---------------------------------------------------------------------------

  /** Where `get_sym_time_info` should find `symbol`: the index of its last freshness record, or -1 when it has none. */
  function LastRecordIndex(records: seq<SymbolTimeData>, symbol: string): (r: int)
    ensures -1 <= r < |records|
    ensures r >= 0 ==> records[r].symbol == symbol
    ensures forall k :: r < k < |records| ==> records[k].symbol != symbol
  {
    if records == [] then -1
    else if Last(records).symbol == symbol then |records| - 1
    else
      var p := records[..|records| - 1];
      assert forall k :: 0 <= k < |p| ==> p[k] == records[k];
      LastRecordIndex(p, symbol)
  }

  /** The position and value of the symbol's last freshness record, or (0, default) when it has none. */
  function SymTimeInfo(records: seq<SymbolTimeData>, symbol: string): (nat, SymbolTimeData)
  {
    var i := LastRecordIndex(records, symbol);
    if i < 0 then (0, DEFAULT_TIME_DATA) else (i, records[i])
  }

  /** As written: the index is that of the last record scanned, whichever record matched. */
  function SymTimeInfoAsWritten(records: seq<SymbolTimeData>, symbol: string): (nat, SymbolTimeData)
  {
    (if records == [] then 0 else |records| - 1, SymTimeInfo(records, symbol).1)
  }

  /** `get_sym_time_info` as written: `index` follows the loop counter on every iteration. */
  method GetSymTimeInfoAsWritten(symConfig: seq<SymbolTimeData>, symbol: string) returns (index: nat, sym: SymbolTimeData)
    ensures (index, sym) == SymTimeInfoAsWritten(symConfig, symbol)
  {
    sym := DEFAULT_TIME_DATA;
    index := 0;
    for i := 0 to |symConfig|
      invariant index == if i == 0 then 0 else i - 1
      invariant sym == SymTimeInfo(symConfig[..i], symbol).1
    {
      assert symConfig[..i + 1][..i] == symConfig[..i];
      assert LastRecordIndex(symConfig[..i + 1], symbol) ==
        if symConfig[i].symbol == symbol then i else LastRecordIndex(symConfig[..i], symbol);
      index := i;
      if symConfig[i].symbol == symbol {
        sym := symConfig[i];
      }
    }
    assert symConfig[..|symConfig|] == symConfig;
  }

  /** `get_sym_time_info`, corrected: `index` is set together with the record it locates. */
  method GetSymTimeInfo(symConfig: seq<SymbolTimeData>, symbol: string) returns (index: nat, sym: SymbolTimeData)
    ensures (index, sym) == SymTimeInfo(symConfig, symbol)
  {
    sym := DEFAULT_TIME_DATA;
    index := 0;
    for i := 0 to |symConfig|
      invariant (index, sym) == SymTimeInfo(symConfig[..i], symbol)
    {
      assert symConfig[..i + 1][..i] == symConfig[..i];
      assert LastRecordIndex(symConfig[..i + 1], symbol) ==
        if symConfig[i].symbol == symbol then i else LastRecordIndex(symConfig[..i], symbol);
      if symConfig[i].symbol == symbol {
        index, sym := i, symConfig[i];
      }
    }
    assert symConfig[..|symConfig|] == symConfig;
  }

  /**
   * As written, refreshing the record of the first of two symbols overwrites the record of the second:
   * afterwards the second symbol has no record and the first has two.
   */
  lemma AsWrittenOverwritesOtherSymbol()
    ensures var records := [SymbolTimeData("AAPL.US", 60, 300, 180), SymbolTimeData("TSLA.US", 60, 300, 180)];
            var (index, rec) := SymTimeInfoAsWritten(records, "AAPL.US");
            var updated := records[index := SymbolTimeData("AAPL.US", 60, 360, 240)];
            rec.nextTime != 0 && index == 1 &&
            SymTimeInfo(updated, "TSLA.US") == (0, DEFAULT_TIME_DATA) &&
            updated[0].symbol == updated[1].symbol == "AAPL.US"
  {
    var records := [SymbolTimeData("AAPL.US", 60, 300, 180), SymbolTimeData("TSLA.US", 60, 300, 180)];
    var updated := records[1 := SymbolTimeData("AAPL.US", 60, 360, 240)];
    assert forall k :: 0 <= k < |updated| ==> updated[k].symbol != "TSLA.US";
  }

  /**
   * With the corrected index, writing a fresh record of the symbol at the located position changes no other
   * record, and a later lookup finds exactly the fresh record.
   */
  lemma RefreshFindsFreshRecord(records: seq<SymbolTimeData>, symts: SymbolTimeData)
    requires SymTimeInfo(records, symts.symbol).1.nextTime != 0
    ensures var index := SymTimeInfo(records, symts.symbol).0;
            index < |records| &&
            (forall k :: 0 <= k < |records| && k != index ==> records[index := symts][k] == records[k]) &&
            records[index].symbol == symts.symbol &&
            SymTimeInfo(records[index := symts], symts.symbol) == (index, symts)
  {
    var symbol := symts.symbol;
    var index := SymTimeInfo(records, symbol).0;
    var updated := records[index := symts];
    assert updated[index].symbol == symbol;
  }

  // ---------------------------------------------------------------------------
  // timestamp_to_time
  // ---------------------------------------------------------------------------

  /**
   * `timestamp_to_time`: from the last three candles t3, t2, t1, the interval is t2 - t3, the last closed
   * candle is t2 and the next one is due at t2 + 2·interval; the flag is false when the interval exceeds
   * the last gap t1 - t2 by more than 10 seconds. All arithmetic is on `u64`. Fewer than three candles
   * index out of range.
   */
  function TimestampToTime(cs: seq<Candle>, symbol: string): (r: Outcome<(SymbolTimeData, bool)>)
    ensures r.Panic? <==> |cs| < 3
    ensures r.Ok? ==> r.value.0.symbol == symbol
  {
    if |cs| < 3 then Panic
    else
      var t1 := cs[|cs| - 1].timestamp;
      var t2 := cs[|cs| - 2].timestamp;
      var t3 := cs[|cs| - 3].timestamp;
      var pts := Wrap64(t2 - t3);
      var lts := Wrap64(t1 - t2);
      var symts := SymbolTimeData(symbol, pts, Wrap64(t2 + Wrap64(pts * 2)), t2);
      if Wrap64(pts - lts) > 10 then Ok((symts, false)) else Ok((symts, true))
  }

  lemma WrapNegative(x: int)
    requires -U64_MODULUS < x < 0
    ensures Wrap64(x) == x + U64_MODULUS
  {
  }

  /**
   * For candle times in order and below 2^62, the record holds the plain interval and due time, and the
   * flag is true exactly when the last gap is no longer than the interval and at most 10 seconds shorter:
   * a last gap longer than the interval wraps the unsigned difference around and clears the flag.
   */
  lemma TimestampToTimeOrdered(cs: seq<Candle>, symbol: string)
    requires |cs| >= 3
    requires cs[|cs| - 3].timestamp <= cs[|cs| - 2].timestamp <= cs[|cs| - 1].timestamp < 0x4000_0000_0000_0000
    ensures var t1, t2, t3 := cs[|cs| - 1].timestamp, cs[|cs| - 2].timestamp, cs[|cs| - 3].timestamp;
            TimestampToTime(cs, symbol) ==
              Ok((SymbolTimeData(symbol, t2 - t3, t2 + 2 * (t2 - t3), t2),
                  t1 - t2 <= t2 - t3 <= t1 - t2 + 10))
  {
    var t1, t2, t3 := cs[|cs| - 1].timestamp, cs[|cs| - 2].timestamp, cs[|cs| - 3].timestamp;
    var pts: int, lts: int := t2 - t3, t1 - t2;
    if pts < lts {
      WrapNegative(pts - lts);
    }
  }

  // ---------------------------------------------------------------------------
  // handler_positions
  // ---------------------------------------------------------------------------

  /** All positions of all channels, channel by channel. */
  function Flatten(channels: seq<StockPositionChannel>): seq<StockPosition>
  {
    if channels == [] then []
    else Flatten(channels[..|channels| - 1]) + Last(channels).positions
  }

  /** Where the last position naming `symbol` sits, or -1 when none names it. */
  function LastPositionIndex(ps: seq<StockPosition>, symbol: string): (r: int)
    ensures -1 <= r < |ps|
    ensures r >= 0 ==> ps[r].symbol == symbol
    ensures forall k :: r < k < |ps| ==> ps[k].symbol != symbol
  {
    if ps == [] then -1
    else if Last(ps).symbol == symbol then |ps| - 1
    else
      var p := ps[..|ps| - 1];
      assert forall k :: 0 <= k < |p| ==> p[k] == ps[k];
      LastPositionIndex(p, symbol)
  }

  /** The last position of `symbol`, or the empty position when none names it. */
  function LastPosition(ps: seq<StockPosition>, symbol: string): StockPosition
  {
    var i := LastPositionIndex(ps, symbol);
    if i < 0 then DEFAULT_POSITION else ps[i]
  }

  /** The position `handler_positions` answers for `symbol`: over all channels, the last one naming it. */
  function PositionOf(channels: seq<StockPositionChannel>, symbol: string): StockPosition
  {
    LastPosition(Flatten(channels), symbol)
  }

  lemma LastPositionSnoc(ps: seq<StockPosition>, p: StockPosition, symbol: string)
    ensures LastPosition(ps + [p], symbol) == if p.symbol == symbol then p else LastPosition(ps, symbol)
  {
    assert (ps + [p])[..|ps|] == ps;
    assert LastPositionIndex(ps + [p], symbol) == if p.symbol == symbol then |ps| else LastPositionIndex(ps, symbol);
  }

  lemma FlattenStep(channels: seq<StockPositionChannel>, i: nat)
    requires i < |channels|
    ensures Flatten(channels[..i + 1]) == Flatten(channels[..i]) + channels[i].positions
  {
    assert channels[..i + 1][..i] == channels[..i];
  }

  method HandlerPositions(positions: seq<StockPositionChannel>, symbol: string) returns (symPosition: StockPosition)
    ensures symPosition == PositionOf(positions, symbol)
  {
    symPosition := DEFAULT_POSITION;
    for i := 0 to |positions|
      invariant symPosition == LastPosition(Flatten(positions[..i]), symbol)
    {
      var ps := positions[i].positions;
      var before := Flatten(positions[..i]);
      assert before + ps[..0] == before;
      for j := 0 to |ps|
        invariant symPosition == LastPosition(before + ps[..j], symbol)
      {
        assert before + ps[..j + 1] == (before + ps[..j]) + [ps[j]];
        LastPositionSnoc(before + ps[..j], ps[j], symbol);
        if ps[j].symbol == symbol {
          symPosition := ps[j];
        }
      }
      assert ps[..|ps|] == ps;
      FlattenStep(positions, i);
    }
    assert positions[..|positions|] == positions;
  }

  // ---------------------------------------------------------------------------
  // handler_orders
  // ---------------------------------------------------------------------------

  /** The throttle window: ten hours, in seconds. */
  const THROTTLE_SECONDS: int := 10 * 60 * 60

  /** Submitted within the throttle window before `now`. */
  predicate Recent(o: Order, now: int)
  {
    o.submittedAt > now - THROTTLE_SECONDS
  }

  /** A status the strategy treats as an order still open. */
  predicate Open(status: OrderStatus)
  {
    status == New || status == WaitToNew || status == PartialFilled || status == NotReported
  }

  /** An order that stops a new one: one for the symbol that is recent or still open. */
  predicate Blocks(o: Order, symbol: string, now: int)
  {
    o.symbol == symbol && (Recent(o, now) || Open(o.status))
  }

  /** Whether a new order may go out, and the order to cancel instead. */
  datatype OrderCheck = OrderCheck(eligible: bool, cancel: Option<string>)

  /** `handler_orders`: the first blocking order decides, cancelling it when it is open but not recent. */
  function CheckOrders(orders: seq<Order>, symbol: string, now: int): OrderCheck
  {
    if orders == [] then OrderCheck(true, None)
    else
      var o := orders[0];
      if o.symbol == symbol && Recent(o, now) then OrderCheck(false, None)
      else if o.symbol == symbol && Open(o.status) then OrderCheck(false, Some(o.orderId))
      else CheckOrders(orders[1..], symbol, now)
  }

  /** `handler_orders`, with the cancellation handed back instead of sent and the clock as `now`. */
  method HandlerOrders(orders: seq<Order>, symbol: string, now: int) returns (eligible: bool, cancel: Option<string>)
    ensures OrderCheck(eligible, cancel) == CheckOrders(orders, symbol, now)
  {
    for i := 0 to |orders|
      invariant CheckOrders(orders[i..], symbol, now) == CheckOrders(orders, symbol, now)
    {
      assert orders[i..][1..] == orders[i + 1..];
      var o := orders[i];
      if o.symbol == symbol {
        if o.submittedAt > now - THROTTLE_SECONDS {
          return false, None;
        }
        if o.status == New || o.status == WaitToNew || o.status == PartialFilled || o.status == NotReported {
          return false, Some(o.orderId);
        }
      }
    }
    return true, None;
  }

  /**
   * A new order may go out exactly when no order for the symbol is recent or open; it never comes with a
   * cancellation; a cancellation targets an open order of the symbol that is not recent; and a refusal
   * without a cancellation comes from a recent order of the symbol. Orders for other symbols never matter.
   */
  lemma {:induction false} CheckOrdersCases(orders: seq<Order>, symbol: string, now: int)
    ensures var c := CheckOrders(orders, symbol, now);
            (c.eligible <==> forall k :: 0 <= k < |orders| ==> !Blocks(orders[k], symbol, now)) &&
            (c.eligible ==> c.cancel == None) &&
            (c.cancel.Some? ==> exists k :: 0 <= k < |orders| && orders[k].symbol == symbol &&
                                 Open(orders[k].status) && !Recent(orders[k], now) &&
                                 orders[k].orderId == c.cancel.value) &&
            (!c.eligible && c.cancel == None ==> exists k :: 0 <= k < |orders| && orders[k].symbol == symbol &&
                                                  Recent(orders[k], now))
  {
    if orders != [] {
      var rest := orders[1..];
      CheckOrdersCases(rest, symbol, now);
      assert forall k :: 0 <= k < |rest| ==> rest[k] == orders[k + 1];
      var c := CheckOrders(orders, symbol, now);
      if !Blocks(orders[0], symbol, now) {
        assert c == CheckOrders(rest, symbol, now);
        if c.cancel.Some? {
          var k :| 0 <= k < |rest| && rest[k].symbol == symbol && Open(rest[k].status) &&
                   !Recent(rest[k], now) && rest[k].orderId == c.cancel.value;
          assert orders[k + 1] == rest[k];
        }
        if !c.eligible && c.cancel == None {
          var k :| 0 <= k < |rest| && rest[k].symbol == symbol && Recent(rest[k], now);
          assert orders[k + 1] == rest[k];
        }
        if !c.eligible {
          var k :| 0 <= k < |rest| && Blocks(rest[k], symbol, now);
          assert Blocks(orders[k + 1], symbol, now);
        }
      }
    }
  }

  /** Today's orders carry only Filled, New or WaitToNew, so a cancellation then targets a New or WaitToNew order. */
  lemma TodayOrdersCancelNewOrWaiting(orders: seq<Order>, symbol: string, now: int)
    requires forall k :: 0 <= k < |orders| ==> orders[k].status in {Filled, New, WaitToNew}
    requires CheckOrders(orders, symbol, now).cancel.Some?
    ensures exists k :: 0 <= k < |orders| && orders[k].symbol == symbol &&
              orders[k].status in {New, WaitToNew} &&
              orders[k].orderId == CheckOrders(orders, symbol, now).cancel.value
  {
    CheckOrdersCases(orders, symbol, now);
  }

  // ---------------------------------------------------------------------------
  // handler_close_position
  // ---------------------------------------------------------------------------

  /**
   * `handler_close_position`: with at least three candles and something to sell, take profit when the last
   * close is above cost·(1 + tp_ratio/100) and has fallen more than 0.1% from the close before it. A zero
   * previous close makes the decimal division panic.
   */
  function ClosePosition(sym: SymbolConfig, cs: seq<Candle>, stock: StockPosition): (r: Outcome<bool>)
    ensures r.Panic? <==> |cs| >= 3 && stock.availableQuantity != 0.0 &&
                          (sym.tpRatio as real * 0.01 + 1.0) * stock.costPrice < Last(cs).close && cs[|cs| - 2].close == 0.0
    ensures r == Ok(true) ==> |cs| >= 3 && stock.availableQuantity != 0.0 &&
                              (sym.tpRatio as real * 0.01 + 1.0) * stock.costPrice < Last(cs).close
    ensures r == Ok(true) && |cs| >= 3 && cs[|cs| - 2].close > 0.0 ==> Last(cs).close < cs[|cs| - 2].close
  {
    if |cs| < 3 || stock.availableQuantity == 0.0 then Ok(false)
    else
      var curPrice := Last(cs).close;
      var tpRatio := sym.tpRatio as real * 0.01 + 1.0;
      if tpRatio * stock.costPrice < curPrice then
        var prevPrice := cs[|cs| - 2].close;
        if prevPrice == 0.0 then Panic
        else Ok((prevPrice - curPrice) / prevPrice > 0.001)
      else Ok(false)
  }

  /** With a positive previous close, the exit fires exactly when the take-profit level is passed and the last close fell more than 0.1%. */
  lemma ClosePositionCases(sym: SymbolConfig, cs: seq<Candle>, stock: StockPosition)
    requires |cs| >= 3 ==> cs[|cs| - 2].close > 0.0
    ensures ClosePosition(sym, cs, stock).Ok?
    ensures ClosePosition(sym, cs, stock).value <==>
              |cs| >= 3 && stock.availableQuantity != 0.0 &&
              (sym.tpRatio as real * 0.01 + 1.0) * stock.costPrice < Last(cs).close &&
              cs[|cs| - 2].close - Last(cs).close > 0.001 * cs[|cs| - 2].close
  {
    if |cs| >= 3 {
      DivAbove(cs[|cs| - 2].close - Last(cs).close, cs[|cs| - 2].close, 0.001);
    }
  }

  lemma DivAbove(a: real, p: real, c: real)
    requires p > 0.0
    ensures a / p > c <==> a > c * p
  {
    assert a / p * p == a;
    if a / p > c {
      MulStrict(c, a / p, p);
    } else {
      MulMonotone(a / p, c, p);
    }
  }

  lemma MulPositive(a: real, b: real)
    requires a > 0.0 && b > 0.0
    ensures a * b > 0.0
  {
  }

  lemma MulMonotone(a: real, b: real, c: real)
    requires a <= b && c > 0.0
    ensures a * c <= b * c
  {
  }

  lemma MulStrict(a: real, b: real, c: real)
    requires a < b && c > 0.0
    ensures a * c < b * c
  {
  }

  /**
   * A close 1% above the take-profit level followed by a 2% drop does not exit: the drop takes the last
   * close below the level again.
   */
  lemma DropBelowLevelKeepsPosition(sym: SymbolConfig, cs: seq<Candle>, stock: StockPosition)
    requires |cs| >= 3 && stock.costPrice > 0.0 && sym.tpRatio > -100
    requires cs[|cs| - 2].close == (sym.tpRatio as real * 0.01 + 1.0) * stock.costPrice * 1.01
    requires Last(cs).close == cs[|cs| - 2].close * 0.98
    ensures ClosePosition(sym, cs, stock) == Ok(false)
  {
    var tp := sym.tpRatio as real * 0.01 + 1.0;
    assert tp > 0.0;
    var level := tp * stock.costPrice;
    MulPositive(tp, stock.costPrice);
    assert Last(cs).close == level * 0.9898;
  }

  // ---------------------------------------------------------------------------
  // handler_indicators
  // ---------------------------------------------------------------------------

  /** The calculators `handler_indicators` registers, in its order. */
  function IndicatorCalculators(cs: seq<Candle>, buys: seq<bool>, sells: seq<bool>,
                                technicals: TradingviewTechnicals.Fields): seq<Calculator>
  {
    [Kdj(cs), Macd(cs, buys, sells), Stc(cs), UtBot(cs), Cyc(cs), Technicals(technicals)]
  }

  /** The rule result as an order side. */
  function SideOf(res: int): OrderSide
  {
    if res > 0 then Buy else if res < 0 then Sell else Unknown
  }

  function IndicatorSide(cs: seq<Candle>, buys: seq<bool>, sells: seq<bool>,
                         technicals: TradingviewTechnicals.Fields): OrderSide
  {
    SideOf(Decide(DefultRules, Computes.Signals(IndicatorCalculators(cs, buys, sells, technicals))))
  }

  /** `handler_indicators`, with the TradingView fetch replaced by its result. */
  method HandlerIndicators(cs: seq<Candle>, buys: seq<bool>, sells: seq<bool>,
                           technicals: TradingviewTechnicals.Fields) returns (side: OrderSide)
    ensures side == IndicatorSide(cs, buys, sells, technicals)
  {
    var rules := Create(DefultRules);
    var calculate := new Computes.Calculate(rules);
    calculate.AddCalculator(Kdj(cs));
    calculate.AddCalculator(Macd(cs, buys, sells));
    calculate.AddCalculator(Stc(cs));
    calculate.AddCalculator(UtBot(cs));
    calculate.AddCalculator(Cyc(cs));
    calculate.AddCalculator(Technicals(technicals));
    assert calculate.calculators == IndicatorCalculators(cs, buys, sells, technicals);
    var res := calculate.ExecuteRules();
    if res > 0 {
      return Buy;
    }
    if res < 0 {
      return Sell;
    }
    return Unknown;
  }

  /**
   * The strategy buys when the five candle indicators' signals add up to at least 3 and sells when they add
   * up to at most -3 (the TradingView adapter adds 0); otherwise it has no side.
   */
  lemma IndicatorSideCases(cs: seq<Candle>, buys: seq<bool>, sells: seq<bool>, technicals: TradingviewTechnicals.Fields)
    ensures var total := SignalOf(Kdj(cs)) + SignalOf(Macd(cs, buys, sells)) + SignalOf(Stc(cs)) +
                         SignalOf(UtBot(cs)) + SignalOf(Cyc(cs));
            (IndicatorSide(cs, buys, sells, technicals) == Buy <==> total >= 3) &&
            (IndicatorSide(cs, buys, sells, technicals) == Sell <==> total <= -3)
  {
    var k, m, s, u, c := SignalOf(Kdj(cs)), SignalOf(Macd(cs, buys, sells)), SignalOf(Stc(cs)), SignalOf(UtBot(cs)), SignalOf(Cyc(cs));
    SignalsOfCalculators(cs, buys, sells, technicals);
    SignalSumSix(k, m, s, u, c, 0);
    DecideBands(DefultRules, [k, m, s, u, c, 0]);
  }

  /** The six signals `handler_indicators` adds up, in the order its calculators are listed. */
  lemma SignalsOfCalculators(cs: seq<Candle>, buys: seq<bool>, sells: seq<bool>, technicals: TradingviewTechnicals.Fields)
    ensures Computes.Signals(IndicatorCalculators(cs, buys, sells, technicals)) ==
            [SignalOf(Kdj(cs)), SignalOf(Macd(cs, buys, sells)), SignalOf(Stc(cs)), SignalOf(UtBot(cs)), SignalOf(Cyc(cs)), 0]
  {
    var calcs := IndicatorCalculators(cs, buys, sells, technicals);
    assert Computes.Signals(calcs) == [SignalOf(calcs[0]), SignalOf(calcs[1]), SignalOf(calcs[2]), SignalOf(calcs[3]), SignalOf(calcs[4]), SignalOf(calcs[5])];
  }

  lemma SignalSumSix(a: int, b: int, c: int, d: int, e: int, f: int)
    ensures SignalSum([a, b, c, d, e, f]) == a + b + c + d + e + f
  {
    assert SignalSum([a]) == a by { assert [a][..0] == []; }
    assert SignalSum([a, b]) == a + b by { assert [a, b][..1] == [a]; }
    assert SignalSum([a, b, c]) == a + b + c by { assert [a, b, c][..2] == [a, b]; }
    assert SignalSum([a, b, c, d]) == a + b + c + d by { assert [a, b, c, d][..3] == [a, b, c]; }
    assert SignalSum([a, b, c, d, e]) == a + b + c + d + e by { assert [a, b, c, d, e][..4] == [a, b, c, d]; }
    assert [a, b, c, d, e, f][..5] == [a, b, c, d, e];
  }

  // ---------------------------------------------------------------------------
  // Suppression and sizing
  // ---------------------------------------------------------------------------

  /** A buy is dropped while a position is held at a cost whose 99% is not above the price. */
  predicate BuySuppressed(costPrice: real, price: real)
  {
    costPrice != 0.0 && costPrice * 0.99 <= price
  }

  /** A sell is dropped while a position is held at a cost not below 99% of the price. */
  predicate SellSuppressed(costPrice: real, price: real)
  {
    costPrice != 0.0 && costPrice >= price * 0.99
  }

  /** The cash entries of all accounts, account by account. */
  function CashInfos(balances: seq<AccountBalance>): seq<CashInfo>
  {
    if balances == [] then []
    else CashInfos(balances[..|balances| - 1]) + Last(balances).cashInfos
  }

  /** Where the last USD entry sits, or -1 when there is none. */
  function LastUsdIndex(infos: seq<CashInfo>): (r: int)
    ensures -1 <= r < |infos|
    ensures r >= 0 ==> infos[r].currency == "USD"
    ensures forall k :: r < k < |infos| ==> infos[k].currency != "USD"
  {
    if infos == [] then -1
    else if Last(infos).currency == "USD" then |infos| - 1
    else
      var p := infos[..|infos| - 1];
      assert forall k :: 0 <= k < |p| ==> p[k] == infos[k];
      LastUsdIndex(p)
  }

  /** The withdrawable and available cash of the last USD entry, or zeros when there is none. */
  function UsdCash(infos: seq<CashInfo>): (real, real)
  {
    var i := LastUsdIndex(infos);
    if i < 0 then (0.0, 0.0) else (infos[i].withdrawCash, infos[i].availableCash)
  }

  lemma UsdCashSnoc(infos: seq<CashInfo>, c: CashInfo)
    ensures UsdCash(infos + [c]) == if c.currency == "USD" then (c.withdrawCash, c.availableCash) else UsdCash(infos)
  {
    assert (infos + [c])[..|infos|] == infos;
    assert LastUsdIndex(infos + [c]) == if c.currency == "USD" then |infos| else LastUsdIndex(infos);
  }

  lemma CashInfosStep(balances: seq<AccountBalance>, i: nat)
    requires i < |balances|
    ensures CashInfos(balances[..i + 1]) == CashInfos(balances[..i]) + balances[i].cashInfos
  {
    assert balances[..i + 1][..i] == balances[..i];
  }

  /** The loop of `execute` that reads the USD figures off the balances. */
  method UsdBalance(balance: seq<AccountBalance>) returns (usdBal: real, totalCash: real)
    ensures (usdBal, totalCash) == UsdCash(CashInfos(balance))
  {
    usdBal, totalCash := 0.0, 0.0;
    for i := 0 to |balance|
      invariant (usdBal, totalCash) == UsdCash(CashInfos(balance[..i]))
    {
      var infos := balance[i].cashInfos;
      var before := CashInfos(balance[..i]);
      assert before + infos[..0] == before;
      for j := 0 to |infos|
        invariant (usdBal, totalCash) == UsdCash(before + infos[..j])
      {
        assert before + infos[..j + 1] == (before + infos[..j]) + [infos[j]];
        UsdCashSnoc(before + infos[..j], infos[j]);
        if infos[j].currency == "USD" {
          usdBal, totalCash := infos[j].withdrawCash, infos[j].availableCash;
        }
      }
      assert infos[..|infos|] == infos;
      CashInfosStep(balance, i);
    }
    assert balance[..|balance|] == balance;
  }

  /** `Decimal::ceil`. */
  function Ceil(x: real): (r: int)
    ensures x <= r as real < x + 1.0
  {
    -((-x).Floor)
  }

  /** The whole number of shares `cash` buys at `price`, rounded up. */
  function Shares(cash: real, price: real): real
    requires price != 0.0
  {
    Ceil(cash / price) as real
  }

  /**
   * The order quantity: for a buy, enough shares to spend `volume` of the available USD cash, rounded up,
   * provided the withdrawable cash is positive and covers that amount with 5% to spare; for a sell, the
   * whole available position; otherwise 0.
   */
  function Quantity(side: OrderSide, usdBal: real, totalCash: real, volume: real, price: real, available: real): real
    requires price != 0.0
  {
    var cash := totalCash * volume;
    var buy := if usdBal > 0.0 && side == Buy && usdBal >= cash * 1.05 then Shares(cash, price) else 0.0;
    if available != 0.0 && side == Sell then available else buy
  }

  /** A buy quantity is the least whole number of shares whose value reaches the budget; a sell quantity is the whole position. */
  lemma QuantityCases(usdBal: real, totalCash: real, volume: real, price: real, available: real)
    requires price > 0.0
    ensures var cash := totalCash * volume;
            var q := Quantity(Buy, usdBal, totalCash, volume, price, available);
            (usdBal > 0.0 && usdBal >= cash * 1.05 ==> q * price >= cash && (q - 1.0) * price < cash) &&
            (!(usdBal > 0.0 && usdBal >= cash * 1.05) ==> q == 0.0)
    ensures Quantity(Sell, usdBal, totalCash, volume, price, available) == available
    ensures Quantity(Unknown, usdBal, totalCash, volume, price, available) == 0.0
  {
    var cash := totalCash * volume;
    if usdBal > 0.0 && usdBal >= cash * 1.05 {
      var x := cash / price;
      var q := Ceil(x) as real;
      assert q == Shares(cash, price);
      assert x * price == cash;
      MulMonotone(x, q, price);
      MulStrict(q - 1.0, x, price);
      assert Quantity(Buy, usdBal, totalCash, volume, price, available) == q;
    }
  }

  // ---------------------------------------------------------------------------
  // execute
  // ---------------------------------------------------------------------------

  /** A tick is handled when the symbol's next candle is due (or unknown) and the price is not zero. */
  predicate Due(rec: SymbolTimeData, event: MarketData)
  {
    (rec.nextTime == 0 || rec.nextTime < Wrap64(event.ts)) && event.price != 0.0
  }

  /**
   * Lines 126-181 of `execute`: a side the indicators chose, sized from the USD cash or the position, and
   * sent only when no order of the symbol is recent or open, else the open one is cancelled.
   */
  function OrderIntent(sym: SymbolConfig, event: MarketData, f: Feeds, pos: StockPosition, side: OrderSide): Intent
    requires event.price != 0.0
  {
    if side == Unknown || f.balances == [] then NoOrder
    else
      var (usdBal, totalCash) := UsdCash(CashInfos(f.balances));
      var quantity := Quantity(side, usdBal, totalCash, sym.volume, event.price, pos.availableQuantity);
      if quantity == 0.0 then NoOrder
      else
        var check := CheckOrders(f.orders, event.symbol, f.now);
        if check.eligible then Submit(side, event.price, quantity)
        else if check.cancel.Some? then CancelOrder(check.cancel.value)
        else NoOrder
  }

  /** Lines 112-181 of `execute`: a suppressed side holds, any other goes on to the order. */
  function SideIntent(sym: SymbolConfig, event: MarketData, f: Feeds, pos: StockPosition, side: OrderSide): Intent
    requires event.price != 0.0
  {
    if side == Buy && BuySuppressed(pos.costPrice, event.price) then NoOrder
    else if side == Sell && SellSuppressed(pos.costPrice, event.price) then NoOrder
    else OrderIntent(sym, event, f, pos, side)
  }

  /** Lines 93-181 of `execute`: the take-profit exit first, then the indicators, suppression and the order. */
  function TradeIntent(sym: SymbolConfig, event: MarketData, f: Feeds): Intent
    requires event.price != 0.0
  {
    var pos := PositionOf(f.positions, event.symbol);
    match ClosePosition(sym, f.candles, pos)
    case Panic => Abort
    case Ok(exit) =>
      if exit then Submit(Sell, event.price, pos.availableQuantity)
      else SideIntent(sym, event, f, pos, IndicatorSide(f.candles, f.macdBuys, f.macdSells, f.technicals))
  }

  /** The new freshness records and the broker action of one tick. */
  function ExecuteSpec(records: seq<SymbolTimeData>, symConfig: seq<SymbolConfig>, event: MarketData, f: Feeds)
    : (seq<SymbolTimeData>, Intent)
  {
    var (index, rec) := SymTimeInfo(records, event.symbol);
    if !Due(rec, event) || f.candles == [] then (records, NoOrder)
    else
      match TimestampToTime(f.candles, event.symbol)
      case Panic => (records, Abort)
      case Ok(stamp) =>
        var sym := SymInfo(symConfig, event.symbol);
        if rec.nextTime == 0 then
          (records + [stamp.0], if stamp.1 then NoOrder else TradeIntent(sym, event, f))
        else
          (records[index := stamp.0], TradeIntent(sym, event, f))
  }

  // ---------------------------------------------------------------------------
  // The tick as written.
  // ---------------------------------------------------------------------------

  /**
   * `handler_indicators` with the adapters as written: the MACD adapter panics on a read before bar 0 or
   * past a flag vector, the CYC adapter on its unwraps, and a panic in either ends the tick. `infoLogging`
   * says whether info-level logging is on.
   */
  function IndicatorSideAsWritten(cs: seq<Candle>, buys: seq<bool>, sells: seq<bool>,
                                  technicals: TradingviewTechnicals.Fields, infoLogging: bool): Outcome<OrderSide>
  {
    var m := MacdCalculate.MacdSignalAsWritten(cs, buys, sells);
    var c := CycCalculate.CycSignalAsWritten(cs, infoLogging);
    if m.Panic? || c.Panic? then Panic
    else Ok(SideOf(Decide(DefultRules, [SignalOf(Kdj(cs)), m.value, SignalOf(Stc(cs)), SignalOf(UtBot(cs)), c.value, 0])))
  }

  /** Lines 93-181 of `execute` as written: a panicking adapter aborts the tick. */
  function TradeIntentAsWritten(sym: SymbolConfig, event: MarketData, f: Feeds, infoLogging: bool): Intent
    requires event.price != 0.0
  {
    var pos := PositionOf(f.positions, event.symbol);
    match ClosePosition(sym, f.candles, pos)
    case Panic => Abort
    case Ok(exit) =>
      if exit then Submit(Sell, event.price, pos.availableQuantity)
      else match IndicatorSideAsWritten(f.candles, f.macdBuys, f.macdSells, f.technicals, infoLogging)
        case Panic => Abort
        case Ok(side) => SideIntent(sym, event, f, pos, side)
  }

  /** `execute` as written: the record is written at the index `get_sym_time_info` returns, the last record scanned. */
  function ExecuteSpecAsWritten(records: seq<SymbolTimeData>, symConfig: seq<SymbolConfig>, event: MarketData, f: Feeds,
                                infoLogging: bool): (seq<SymbolTimeData>, Intent)
  {
    var (index, rec) := SymTimeInfoAsWritten(records, event.symbol);
    if !Due(rec, event) || f.candles == [] then (records, NoOrder)
    else
      match TimestampToTime(f.candles, event.symbol)
      case Panic => (records, Abort)
      case Ok(stamp) =>
        var sym := SymInfo(symConfig, event.symbol);
        if rec.nextTime == 0 then
          (records + [stamp.0], if stamp.1 then NoOrder else TradeIntentAsWritten(sym, event, f, infoLogging))
        else
          (records[index := stamp.0], TradeIntentAsWritten(sym, event, f, infoLogging))
  }

  /** Lines 152-163 of `execute`: the order size. */
  method OrderQuantity(inds: OrderSide, usdBal: real, totalCash: real, volume: real, price: real, available: real)
    returns (quantity: real)
    requires price != 0.0
    ensures quantity == Quantity(inds, usdBal, totalCash, volume, price, available)
  {
    quantity := 0.0;
    if usdBal > 0.0 && inds == Buy {
      var cash := totalCash * volume;
      if usdBal >= cash * 1.05 {
        quantity := Shares(cash, price);
      }
    }
    if available != 0.0 && inds == Sell {
      quantity := available;
    }
  }

  /** Lines 126-181 of `execute`: balances, sizing and the order check. */
  method PlaceOrder(sym: SymbolConfig, event: MarketData, f: Feeds, symPosition: StockPosition, inds: OrderSide)
    returns (intent: Intent)
    requires event.price != 0.0
    ensures intent == OrderIntent(sym, event, f, symPosition, inds)
  {
    if inds == Unknown || |f.balances| == 0 {
      return NoOrder;
    }
    var usdBal, totalCash := UsdBalance(f.balances);
    var quantity := OrderQuantity(inds, usdBal, totalCash, sym.volume, event.price, symPosition.availableQuantity);
    if quantity == 0.0 {
      return NoOrder;
    }
    var eligible, cancel := HandlerOrders(f.orders, event.symbol, f.now);
    if eligible {
      return Submit(inds, event.price, quantity);
    }
    if cancel.Some? {
      return CancelOrder(cancel.value);
    }
    return NoOrder;
  }

  /** Lines 93-181 of `execute`, run after the freshness record is written. */
  method Trade(sym: SymbolConfig, event: MarketData, f: Feeds) returns (intent: Intent)
    requires event.price != 0.0
    ensures intent == TradeIntent(sym, event, f)
  {
    var symPosition := HandlerPositions(f.positions, event.symbol);
    var exit := ClosePosition(sym, f.candles, symPosition);
    if exit.Panic? {
      return Abort;
    }
    if exit.value {
      return Submit(Sell, event.price, symPosition.availableQuantity);
    }
    var inds := HandlerIndicators(f.candles, f.macdBuys, f.macdSells, f.technicals);
    assert TradeIntent(sym, event, f) == SideIntent(sym, event, f, symPosition, inds);
    if inds == Buy && symPosition.costPrice != 0.0 && symPosition.costPrice * 0.99 <= event.price {
      return NoOrder;
    }
    if inds == Sell && symPosition.costPrice != 0.0 && symPosition.costPrice >= event.price * 0.99 {
      return NoOrder;
    }
    intent := PlaceOrder(sym, event, f, symPosition, inds);
  }

  class VecorStrategy {
    const symConfig: seq<SymbolConfig>
    var nextRunTime: seq<SymbolTimeData>

    /** `new`, with the loaded symbol configuration as a parameter: no freshness records yet. */
    constructor (symConfig: seq<SymbolConfig>)
      ensures this.symConfig == symConfig && nextRunTime == []
    {
      this.symConfig := symConfig;
      nextRunTime := [];
    }

    /** `execute`: updates the freshness records and answers the broker action of one tick. */
    method Execute(event: MarketData, f: Feeds) returns (intent: Intent)
      modifies this
      ensures (nextRunTime, intent) == ExecuteSpec(old(nextRunTime), symConfig, event, f)
    {
      var ts := event.ts;
      var marketPx := event.price;
      var index, nextTimes := GetSymTimeInfo(nextRunTime, event.symbol);
      if !((nextTimes.nextTime == 0 || nextTimes.nextTime < Wrap64(ts)) && marketPx != 0.0) {
        return NoOrder;
      }
      var sym := GetSymInfo(symConfig, event.symbol);
      if |f.candles| == 0 {
        return NoOrder;
      }
      var stamp := TimestampToTime(f.candles, event.symbol);
      if stamp.Panic? {
        return Abort;
      }
      var (symts, isNext) := stamp.value;
      if nextTimes.nextTime == 0 {
        nextRunTime := nextRunTime + [symts];
        if isNext {
          return NoOrder;
        }
      } else {
        nextRunTime := nextRunTime[index := symts];
      }
      intent := Trade(sym, event, f);
    }
  }

  // ---------------------------------------------------------------------------
  // Properties of one tick.
  // ---------------------------------------------------------------------------

  /** The freshness records depend only on the records, the tick and the candles: they are written before any position, balance or order is read. */
  lemma RecordsBeforeAccount(records: seq<SymbolTimeData>, symConfig: seq<SymbolConfig>, event: MarketData, f: Feeds, g: Feeds)
    requires f.candles == g.candles
    ensures ExecuteSpec(records, symConfig, event, f).0 == ExecuteSpec(records, symConfig, event, g).0
  {
  }

  /**
   * A handled tick with at least three candles leaves every other symbol's records as they were and makes
   * the fresh record the one a later lookup finds.
   */
  lemma HandledTickRefreshesRecord(records: seq<SymbolTimeData>, symConfig: seq<SymbolConfig>, event: MarketData, f: Feeds)
    requires Due(SymTimeInfo(records, event.symbol).1, event) && |f.candles| >= 3
    ensures var updated := ExecuteSpec(records, symConfig, event, f).0;
            |updated| >= |records| &&
            (forall k :: 0 <= k < |records| && records[k].symbol != event.symbol ==> updated[k] == records[k]) &&
            SymTimeInfo(updated, event.symbol).1 == TimestampToTime(f.candles, event.symbol).value.0
  {
    var symts := TimestampToTime(f.candles, event.symbol).value.0;
    var rec := SymTimeInfo(records, event.symbol).1;
    if rec.nextTime != 0 {
      RefreshFindsFreshRecord(records, symts);
    } else {
      assert (records + [symts])[|records|] == symts;
    }
  }

  /**
   * Once a handled tick has refreshed the record, an exit signal sells the whole available position at
   * the tick's price, whatever the indicators, balances or orders say.
   */
  lemma TakeProfitComesFirst(records: seq<SymbolTimeData>, symConfig: seq<SymbolConfig>, event: MarketData, f: Feeds)
    requires var rec := SymTimeInfo(records, event.symbol).1;
             Due(rec, event) && |f.candles| >= 3 &&
             !(rec.nextTime == 0 && TimestampToTime(f.candles, event.symbol).value.1)
    requires ClosePosition(SymInfo(symConfig, event.symbol), f.candles, PositionOf(f.positions, event.symbol)) == Ok(true)
    ensures ExecuteSpec(records, symConfig, event, f).1 ==
              Submit(Sell, event.price, PositionOf(f.positions, event.symbol).availableQuantity)
  {
  }

  /**
   * Every order the strategy submits is either the take-profit sell, or goes the indicators' way, in a
   * nonzero quantity, unsuppressed, and with no recent or open order of the symbol in the way.
   */
  lemma SubmitIsJustified(records: seq<SymbolTimeData>, symConfig: seq<SymbolConfig>, event: MarketData, f: Feeds)
    requires ExecuteSpec(records, symConfig, event, f).1.Submit?
    ensures var intent := ExecuteSpec(records, symConfig, event, f).1;
            var pos := PositionOf(f.positions, event.symbol);
            var sym := SymInfo(symConfig, event.symbol);
            intent.price == event.price && event.price != 0.0 &&
            (ClosePosition(sym, f.candles, pos) == Ok(true) ==>
               intent.side == Sell && intent.quantity == pos.availableQuantity) &&
            (ClosePosition(sym, f.candles, pos) != Ok(true) ==>
               intent.side == IndicatorSide(f.candles, f.macdBuys, f.macdSells, f.technicals) &&
               intent.side != Unknown && intent.quantity != 0.0 &&
               !(intent.side == Buy && BuySuppressed(pos.costPrice, event.price)) &&
               !(intent.side == Sell && SellSuppressed(pos.costPrice, event.price)) &&
               forall k :: 0 <= k < |f.orders| ==> !Blocks(f.orders[k], event.symbol, f.now))
  {
    CheckOrdersCases(f.orders, event.symbol, f.now);
  }

  /** A cancellation always targets an open, not recent, order of the tick's symbol. */
  lemma CancelTargetsOpenOrder(records: seq<SymbolTimeData>, symConfig: seq<SymbolConfig>, event: MarketData, f: Feeds)
    requires ExecuteSpec(records, symConfig, event, f).1.CancelOrder?
    ensures exists k :: 0 <= k < |f.orders| && f.orders[k].symbol == event.symbol &&
              Open(f.orders[k].status) && !Recent(f.orders[k], f.now) &&
              f.orders[k].orderId == ExecuteSpec(records, symConfig, event, f).1.orderId
  {
    CheckOrdersCases(f.orders, event.symbol, f.now);
  }

  /**
   * An order of the symbol submitted within the last ten hours holds back every indicator-driven order; only
   * the take-profit sell still goes out.
   */
  lemma RecentOrderThrottles(records: seq<SymbolTimeData>, symConfig: seq<SymbolConfig>, event: MarketData, f: Feeds, k: nat)
    requires k < |f.orders| && f.orders[k].symbol == event.symbol && Recent(f.orders[k], f.now)
    requires ExecuteSpec(records, symConfig, event, f).1.Submit?
    ensures ClosePosition(SymInfo(symConfig, event.symbol), f.candles, PositionOf(f.positions, event.symbol)) == Ok(true)
  {
    SubmitIsJustified(records, symConfig, event, f);
  }

  /** The first tick of a symbol whose last candle arrived on time only records the timing and trades nothing. */
  lemma FirstSightingWaits(records: seq<SymbolTimeData>, symConfig: seq<SymbolConfig>, event: MarketData, f: Feeds)
    requires event.price != 0.0 && |f.candles| >= 3
    requires forall k :: 0 <= k < |records| ==> records[k].symbol != event.symbol
    requires TimestampToTime(f.candles, event.symbol).value.1
    ensures ExecuteSpec(records, symConfig, event, f) ==
              (records + [TimestampToTime(f.candles, event.symbol).value.0], NoOrder)
  {
  }

  // ---------------------------------------------------------------------------
  // The tick as written against the corrected tick.
  // ---------------------------------------------------------------------------

  /** With four candles, a flag for every candle, and 34 candles or info logging off, the adapters as written decide as the corrected ones. */
  lemma IndicatorSideAgrees(cs: seq<Candle>, buys: seq<bool>, sells: seq<bool>,
                            technicals: TradingviewTechnicals.Fields, infoLogging: bool)
    requires |cs| >= 4 && |buys| >= |cs| && |sells| >= |cs| && (|cs| >= CycCalculate.LONG || !infoLogging)
    ensures IndicatorSideAsWritten(cs, buys, sells, technicals, infoLogging) == Ok(IndicatorSide(cs, buys, sells, technicals))
  {
    MacdCalculate.AsWrittenAgreesFromFourBars(cs, buys, sells);
    CycCalculate.AsWrittenAgrees(cs, infoLogging);
    SignalsOfCalculators(cs, buys, sells, technicals);
  }

  /** Under the same conditions the trade as written is the corrected trade. */
  lemma TradeIntentAgrees(sym: SymbolConfig, event: MarketData, f: Feeds, infoLogging: bool)
    requires event.price != 0.0
    requires |f.candles| >= 4 && |f.macdBuys| >= |f.candles| && |f.macdSells| >= |f.candles|
    requires |f.candles| >= CycCalculate.LONG || !infoLogging
    ensures TradeIntentAsWritten(sym, event, f, infoLogging) == TradeIntent(sym, event, f)
  {
    IndicatorSideAgrees(f.candles, f.macdBuys, f.macdSells, f.technicals, infoLogging);
  }

  /** With exactly three candles and no flag at bar 0, the MACD adapter as written aborts a tick the corrected model trades on. */
  lemma ThreeCandlesAbortAsWritten(sym: SymbolConfig, event: MarketData, f: Feeds, infoLogging: bool)
    requires event.price != 0.0 && |f.candles| == 3
    requires |f.macdBuys| >= 1 && |f.macdSells| >= 1 && !f.macdBuys[0] && !f.macdSells[0]
    requires ClosePosition(sym, f.candles, PositionOf(f.positions, event.symbol)) == Ok(false)
    ensures TradeIntentAsWritten(sym, event, f, infoLogging) == Abort
  {
    MacdCalculate.ThreeBarsPanicAsWritten(f.candles, f.macdBuys, f.macdSells);
  }

  /** The symbol's freshness record, if it has one, is the last record. */
  predicate LastOrAbsent(records: seq<SymbolTimeData>, symbol: string)
  {
    records == [] || Last(records).symbol == symbol || forall k :: 0 <= k < |records| ==> records[k].symbol != symbol
  }

  /** Where the record is last or absent, the lookup as written finds what the corrected lookup finds. */
  lemma LastOrAbsentLookupAgrees(records: seq<SymbolTimeData>, symbol: string)
    requires LastOrAbsent(records, symbol)
    ensures SymTimeInfoAsWritten(records, symbol).1 == SymTimeInfo(records, symbol).1
    ensures SymTimeInfo(records, symbol).1.nextTime != 0 ==> SymTimeInfoAsWritten(records, symbol) == SymTimeInfo(records, symbol)
  {
  }

  /**
   * When the symbol's record is the last one or it has none, with four candles, a flag for every candle, and
   * 34 candles or info logging off, the tick as written writes the same records and takes the same action as
   * the corrected tick.
   */
  lemma AsWrittenTickAgrees(records: seq<SymbolTimeData>, symConfig: seq<SymbolConfig>, event: MarketData, f: Feeds,
                            infoLogging: bool)
    requires LastOrAbsent(records, event.symbol)
    requires |f.candles| >= 4 && |f.macdBuys| >= |f.candles| && |f.macdSells| >= |f.candles|
    requires |f.candles| >= CycCalculate.LONG || !infoLogging
    ensures ExecuteSpecAsWritten(records, symConfig, event, f, infoLogging) == ExecuteSpec(records, symConfig, event, f)
  {
    LastOrAbsentLookupAgrees(records, event.symbol);
    if Due(SymTimeInfo(records, event.symbol).1, event) {
      TradeIntentAgrees(SymInfo(symConfig, event.symbol), event, f, infoLogging);
    }
  }

  /**
   * The two-symbol overwrite at the level of a tick: with records for AAPL.US then TSLA.US, a handled AAPL.US
   * tick as written replaces TSLA.US's record, which the corrected tick keeps.
   */
  lemma AsWrittenTickOverwritesOtherSymbol(symConfig: seq<SymbolConfig>, event: MarketData, f: Feeds, infoLogging: bool)
    requires event.symbol == "AAPL.US" && event.price != 0.0 && Wrap64(event.ts) > 300 && |f.candles| >= 3
    ensures var records := [SymbolTimeData("AAPL.US", 60, 300, 180), SymbolTimeData("TSLA.US", 60, 300, 180)];
            var asWritten := ExecuteSpecAsWritten(records, symConfig, event, f, infoLogging).0;
            var corrected := ExecuteSpec(records, symConfig, event, f).0;
            |asWritten| == 2 && asWritten[0] == records[0] && asWritten[1].symbol == "AAPL.US" &&
            (forall k :: 0 <= k < |asWritten| ==> asWritten[k].symbol != "TSLA.US") &&
            |corrected| == 2 && corrected[1] == records[1] && corrected[0].symbol == "AAPL.US"
  {
    var records := [SymbolTimeData("AAPL.US", 60, 300, 180), SymbolTimeData("TSLA.US", 60, 300, 180)];
    assert LastRecordIndex(records, "AAPL.US") == 0;
  }
}
