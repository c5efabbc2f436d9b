/**
 * The signal aggregator (src/computes/calculate.rs): an ordered list of calculators and a rule that
 * reduces their signals to one decision.
 */
module Computes {
  import opened BaseCalculate
  import opened DefultRules

  /** The signals of the calculators, in insertion order. */
  function Signals(calculators: seq<Calculator>): (r: seq<int>)
    ensures |r| == |calculators|
    ensures forall k :: 0 <= k < |calculators| ==> r[k] == SignalOf(calculators[k])
  {
    if calculators == [] then []
    else Signals(calculators[..|calculators| - 1]) + [SignalOf(calculators[|calculators| - 1])]
  }

  class Calculate {
    var calculators: seq<Calculator>
    const rules: Rules

    /** `new`: no calculators yet, and the given rule. */
    constructor (rules: Rules)
      ensures calculators == [] && this.rules == rules
    {
      calculators := [];
      this.rules := rules;
    }

    /** `add_calculator`: appends one calculator at the end. */
    method AddCalculator(calculator: Calculator)
      modifies this
      ensures calculators == old(calculators) + [calculator]
    {
      calculators := calculators + [calculator];
    }

    /**
     * `execute_rules`: collects one signal per calculator, in insertion order, and hands that vector to the
     * rule. The list is left as it was.
     */
    method ExecuteRules() returns (r: int)
      ensures r == Decide(rules, Signals(calculators))
    {
      var culRes := [];
      for k := 0 to |calculators|
        invariant culRes == Signals(calculators[..k])
      {
        var cul := BaseCalculate.Calculate(calculators[k]);
        assert calculators[..k + 1][..k] == calculators[..k];
        culRes := culRes + [cul];
      }
      assert calculators[..|calculators|] == calculators;
      r := CulRules(rules, culRes);
    }
  }

  /** With the default rule and no calculators the decision is 0. */
  lemma NoCalculatorsIsNeutral()
    ensures Decide(DefultRules, Signals([])) == 0
  {
  }

  /** Appending a calculator appends its signal and leaves the earlier signals as they were. */
  lemma {:induction false} SignalsAppend(calculators: seq<Calculator>, c: Calculator)
    ensures Signals(calculators + [c]) == Signals(calculators) + [SignalOf(c)]
  {
    assert (calculators + [c])[..|calculators|] == calculators;
  }
}
