/**
 * TradingView recommendation bands (src/indicators/tradingview_technicals.rs). The scanner's JSON reply
 * is a map from field name to the field's numeric value, `None` standing for a field that is not a number.
 */
module TradingviewTechnicals {
  import opened Common

  const RECOMMEND_ALL: string := "Recommend.All"
  const RECOMMEND_MA: string := "Recommend.MA"
  const RECOMMEND_OTHER: string := "Recommend.Other"

  /** The scanner fields as `get(..).and_then(as_f64)` sees them: a missing or non-numeric field reads as `None`. */
  type Fields = map<string, Option<real>>

  function Lookup(values: Fields, key: string): Option<real>
  {
    if key in values then values[key] else None
  }

  /** One recommendation band: strong (2) and plain (1) buy, plain (-1) and strong (-2) sell, else neutral. */
  function Band(v: Option<real>): real
  {
    match v
    case Some(x) =>
      if x > 0.5 && x < 0.7 then 1.0
      else if x > 0.7 then 2.0
      else if x < -0.5 && x > -0.7 then -1.0
      else if x < -0.7 then -2.0
      else 0.0
    case None => 0.0
  }

  /** The summary, moving-average and oscillator recommendations. */
  datatype Recommendation = Recommendation(summary: real, ma: real, osc: real)

  function Recommend(values: Fields): Recommendation
  {
    Recommendation(Band(Lookup(values, RECOMMEND_ALL)), Band(Lookup(values, RECOMMEND_MA)),
                   Band(Lookup(values, RECOMMEND_OTHER)))
  }

  // ---------------------------------------------------------------------------
  // Properties.
  // ---------------------------------------------------------------------------

  /** Every band lies in {-2, -1, 0, 1, 2}, and each non-zero value is taken on exactly its open interval. */
  lemma BandCases(v: Option<real>)
    ensures Band(v) in {-2.0, -1.0, 0.0, 1.0, 2.0}
    ensures Band(v) == 1.0 <==> v.Some? && 0.5 < v.value < 0.7
    ensures Band(v) == 2.0 <==> v.Some? && v.value > 0.7
    ensures Band(v) == -1.0 <==> v.Some? && -0.7 < v.value < -0.5
    ensures Band(v) == -2.0 <==> v.Some? && v.value < -0.7
    ensures Band(v) == 0.0 <==> v.None? || -0.5 <= v.value <= 0.5 || v.value == 0.7 || v.value == -0.7
  {
  }

  /** The comparisons are strict, so the boundaries themselves are neutral, and so is a missing field. */
  lemma BoundariesAreNeutral()
    ensures Band(Some(0.5)) == 0.0 && Band(Some(0.7)) == 0.0
    ensures Band(Some(-0.5)) == 0.0 && Band(Some(-0.7)) == 0.0
    ensures Band(None) == 0.0
  {
  }

  /** The band map is odd. */
  lemma BandIsOdd(x: real)
    ensures Band(Some(-x)) == -Band(Some(x))
  {
  }

  /** Each recommendation reads only its own field: changing any other field leaves it as it was. */
  lemma RecommendationsAreIndependent(values: Fields, key: string, v: Option<real>)
    ensures key != RECOMMEND_ALL ==> Recommend(values[key := v]).summary == Recommend(values).summary
    ensures key != RECOMMEND_MA ==> Recommend(values[key := v]).ma == Recommend(values).ma
    ensures key != RECOMMEND_OTHER ==> Recommend(values[key := v]).osc == Recommend(values).osc
  {
  }

  class TradingTechnicals {
    var values: Fields

    /** A reply fetched elsewhere; a failed fetch or parse gives JSON null, that is no fields. */
    constructor (values: Fields)
      ensures this.values == values
    {
      this.values := values;
    }

    /** `calculate`: the three recommendation bands of the current reply; a field the reply lacks is neutral. */
    function Calculate(): (r: Recommendation)
      reads this
      ensures r.summary in {-2.0, -1.0, 0.0, 1.0, 2.0} && r.ma in {-2.0, -1.0, 0.0, 1.0, 2.0} && r.osc in {-2.0, -1.0, 0.0, 1.0, 2.0}
      ensures RECOMMEND_ALL !in values ==> r.summary == 0.0
      ensures RECOMMEND_MA !in values ==> r.ma == 0.0
      ensures RECOMMEND_OTHER !in values ==> r.osc == 0.0
    {
      BandCases(Lookup(values, RECOMMEND_ALL));
      BandCases(Lookup(values, RECOMMEND_MA));
      BandCases(Lookup(values, RECOMMEND_OTHER));
      Recommend(values)
    }

    /** `reset`: forget the reply, after which every recommendation is neutral. */
    method Reset()
      modifies this
      ensures values == map[]
      ensures Calculate() == Recommendation(0.0, 0.0, 0.0)
    {
      values := map[];
    }
  }
}
