/** The market-temperature adapter (src/calculates/market_calculate.rs): fixed bands, first match wins. */
module MarketCalculate {

  /** The broker's market temperature reading (its description and timestamp play no part). */
  datatype MarketTemperature = MarketTemperature(temperature: int, valuation: int, sentiment: int)

  /** `calculate`: -2 (too hot) or 2 (too cold) at the first band that matches, else 0. */
  function MarketSignal(m: MarketTemperature): (r: int)
    ensures r in {-2, 0, 2}
    ensures m.sentiment > 70 ==> r == -2
  {
    if m.sentiment > 70 then -2
    else if m.sentiment < 24 then 2
    else if m.temperature < 30 then 2
    else if m.temperature > 55 then -2
    else if m.valuation > 50 then -2
    else if m.valuation < 30 then 2
    else 0
  }

  /** The signal is 0 exactly when all three readings sit inside their neutral bands. */
  lemma NeutralBand(m: MarketTemperature)
    ensures MarketSignal(m) == 0 <==>
      24 <= m.sentiment <= 70 && 30 <= m.temperature <= 55 && 30 <= m.valuation <= 50
  {
  }

  /**
   * The first matching band decides: a later band only counts when every earlier band missed. In
   * particular an exuberant sentiment outranks a cold temperature and a cheap valuation.
   */
  lemma FirstMatchWins(m: MarketTemperature)
    ensures MarketSignal(m) == 2 <==>
      m.sentiment <= 70 &&
      (m.sentiment < 24 || m.temperature < 30 ||
       (m.temperature <= 55 && m.valuation <= 50 && m.valuation < 30))
    ensures MarketSignal(m) == -2 <==>
      m.sentiment > 70 ||
      (24 <= m.sentiment && 30 <= m.temperature && (m.temperature > 55 || m.valuation > 50))
  {
  }
}
