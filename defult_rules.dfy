/**
 * The default aggregation rule (src/computes/defult_rules.rs): sum the per-calculator signals and
 * threshold the sum at +3 and -3. The `CulRules` trait has exactly one implementation, so it is a
 * datatype with one constructor here.
 */
module DefultRules {

  /** The replaceable rule object; `DefultRules` is the only rule the program defines. */
  datatype Rules = DefultRules

  /** `create`: a fresh rule object of the same kind. */
  function Create(rules: Rules): (r: Rules)
    ensures r == DefultRules
  {
    DefultRules
  }

  /** Left-to-right sum of the signals, as the `cul_res += i` loop accumulates it. */
  function SignalSum(res: seq<int>): int
  {
    if res == [] then 0 else SignalSum(res[..|res| - 1]) + res[|res| - 1]
  }

  /** The decision the rule takes on a signal vector: 1 (buy), -1 (sell) or 0. */
  function Decide(rules: Rules, res: seq<int>): int
  {
    var total := SignalSum(res);
    if total >= 3 then 1 else if total <= -3 then -1 else 0
  }

  /** `cul_rules`: accumulates the signals one by one and thresholds the sum. */
  method CulRules(rules: Rules, res: seq<int>) returns (r: int)
    ensures r == Decide(rules, res)
    ensures r == 1 <==> SignalSum(res) >= 3
    ensures r == -1 <==> SignalSum(res) <= -3
  {
    var culRes := 0;
    for i := 0 to |res|
      invariant culRes == SignalSum(res[..i])
    {
      assert res[..i + 1][..i] == res[..i];
      culRes := culRes + res[i];
    }
    assert res[..|res|] == res;
    if culRes >= 3 {
      return 1;
    }
    if culRes <= -3 {
      return -1;
    }
    r := 0;
  }

  // ---------------------------------------------------------------------------
  // Properties.
  // ---------------------------------------------------------------------------

  /** The decision is 1 exactly at sums of 3 or more, -1 exactly at sums of -3 or less, and 0 otherwise. */
  lemma DecideBands(rules: Rules, res: seq<int>)
    ensures Decide(rules, res) in {-1, 0, 1}
    ensures Decide(rules, res) == 1 <==> SignalSum(res) >= 3
    ensures Decide(rules, res) == -1 <==> SignalSum(res) <= -3
    ensures Decide(rules, res) == 0 <==> -3 < SignalSum(res) < 3
  {
  }

  /** No signals decide nothing. */
  lemma EmptyIsNeutral(rules: Rules)
    ensures Decide(rules, []) == 0
  {
  }

  /** Adding a signal in front adds it to the sum, just as adding it at the back does. */
  lemma {:induction false} SignalSumCons(x: int, res: seq<int>)
    ensures SignalSum([x] + res) == x + SignalSum(res)
  {
    if res != [] {
      var init := res[..|res| - 1];
      SignalSumCons(x, init);
      assert ([x] + res)[..|[x] + res| - 1] == [x] + init;
    }
  }

  /** The sum of a concatenation is the sum of the parts. */
  lemma {:induction false} SignalSumAppend(a: seq<int>, b: seq<int>)
    ensures SignalSum(a + b) == SignalSum(a) + SignalSum(b)
  {
    if b == [] {
      assert a + b == a;
    } else {
      var init := b[..|b| - 1];
      SignalSumAppend(a, init);
      assert (a + b)[..|a + b| - 1] == a + init;
    }
  }

  /** Taking one signal out of the vector lowers the sum by exactly that signal. */
  lemma SignalSumRemove(b: seq<int>, k: nat)
    requires k < |b|
    ensures SignalSum(b) == b[k] + SignalSum(b[..k] + b[k + 1..])
  {
    var l, v, r := b[..k], b[k], b[k + 1..];
    assert b == (l + [v]) + r;
    SignalSumAppend(l + [v], r);
    SignalSumAppend(l, [v]);
    SignalSumAppend(l, r);
    assert [v][..0] == [];
  }

  /** When `b` holds the same signals as `a` and `b[k]` is the last of `a`, the rest of `b` holds the rest of `a`. */
  lemma MultisetRemove(a: seq<int>, b: seq<int>, k: nat)
    requires multiset(a) == multiset(b) && a != [] && k < |b| && b[k] == a[|a| - 1]
    ensures multiset(a[..|a| - 1]) == multiset(b[..k] + b[k + 1..])
  {
    assert a == a[..|a| - 1] + [b[k]];
    assert b == b[..k] + [b[k]] + b[k + 1..];
    var p, q := a[..|a| - 1], b[..k] + b[k + 1..];
    assert multiset(a) == multiset(p) + multiset{b[k]};
    assert multiset(b) == multiset(q) + multiset{b[k]};
    forall y ensures multiset(p)[y] == multiset(q)[y] {
      assert multiset(a)[y] == multiset(b)[y];
    }
  }

  /** The sum depends only on the multiset of signals. */
  lemma {:induction false} SignalSumPermutation(a: seq<int>, b: seq<int>)
    requires multiset(a) == multiset(b)
    ensures SignalSum(a) == SignalSum(b)
    decreases |a|
  {
    if a == [] {
      assert |b| == |multiset(b)| == 0;
    } else {
      var x := a[|a| - 1];
      assert x in multiset(b);
      var k :| 0 <= k < |b| && b[k] == x;
      MultisetRemove(a, b, k);
      SignalSumPermutation(a[..|a| - 1], b[..k] + b[k + 1..]);
      SignalSumRemove(b, k);
    }
  }

  /** Reordering the signals never changes the decision. */
  lemma DecidePermutation(rules: Rules, a: seq<int>, b: seq<int>)
    requires multiset(a) == multiset(b)
    ensures Decide(rules, a) == Decide(rules, b)
  {
    SignalSumPermutation(a, b);
  }

  /** Replacing one signal changes the sum by the difference. */
  lemma {:induction false} SignalSumUpdate(res: seq<int>, k: nat, v: int)
    requires k < |res|
    ensures SignalSum(res[k := v]) == SignalSum(res) - res[k] + v
  {
    var u := res[k := v];
    assert res == res[..k] + [res[k]] + res[k + 1..];
    assert u == res[..k] + [v] + res[k + 1..];
    SignalSumAppend(res[..k] + [res[k]], res[k + 1..]);
    SignalSumAppend(res[..k], [res[k]]);
    SignalSumAppend(res[..k] + [v], res[k + 1..]);
    SignalSumAppend(res[..k], [v]);
    assert SignalSum([v]) == v && SignalSum([res[k]]) == res[k];
  }

  /** Raising any single signal never lowers the decision. */
  lemma DecideMonotone(rules: Rules, res: seq<int>, k: nat, v: int)
    requires k < |res| && v >= res[k]
    ensures Decide(rules, res[k := v]) >= Decide(rules, res)
  {
    SignalSumUpdate(res, k, v);
  }
}
