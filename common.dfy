/** Shared value types and sequence helpers used by every indicator and by the strategy. */
module Common {

  datatype Option<+T> = None | Some(value: T)

  /** The result of a computation that may abort the way a Rust `unwrap` or an out-of-range index does. */
  datatype Outcome<+T> = Ok(value: T) | Panic

  /** Unsigned 64-bit integers (`u64`), used for timestamps. */
  const U64_MODULUS: int := 0x1_0000_0000_0000_0000
  type u64 = x: int | 0 <= x < U64_MODULUS

  /** Two's-complement wrap-around into `u64`, as an `as u64` cast or a release-build overflow does. */
  function Wrap64(x: int): (r: u64)
    ensures 0 <= x < U64_MODULUS ==> r == x
    ensures (r - x) % U64_MODULUS == 0
  {
    x % U64_MODULUS
  }

  /** `f64::EPSILON`, that is 2^-52, exactly. */
  const F64_EPSILON: real := 0.0000000000000002220446049250313080847263336181640625

  function Abs(x: real): real { if x < 0.0 then -x else x }

  function Max(a: real, b: real): real { if a < b then b else a }

  function Min(a: real, b: real): real { if a < b then a else b }

  /** One OHLCV bar as the indicators see it. */
  datatype Candle = Candle(timestamp: u64, open: real, high: real, low: real, close: real, volume: real)

  /** Every bar's low is at most its close and its close at most its high. */
  ghost predicate WellFormed(cs: seq<Candle>)
  {
    forall i :: 0 <= i < |cs| ==> cs[i].low <= cs[i].close <= cs[i].high
  }

  function Closes(cs: seq<Candle>): (r: seq<real>)
    ensures |r| == |cs| && forall i :: 0 <= i < |cs| ==> r[i] == cs[i].close
  {
    seq(|cs|, i requires 0 <= i < |cs| => cs[i].close)
  }

  function Highs(cs: seq<Candle>): (r: seq<real>)
    ensures |r| == |cs| && forall i :: 0 <= i < |cs| ==> r[i] == cs[i].high
  {
    seq(|cs|, i requires 0 <= i < |cs| => cs[i].high)
  }

  function Lows(cs: seq<Candle>): (r: seq<real>)
    ensures |r| == |cs| && forall i :: 0 <= i < |cs| ==> r[i] == cs[i].low
  {
    seq(|cs|, i requires 0 <= i < |cs| => cs[i].low)
  }

  /** Left-to-right sum, the way `iter().sum()` and `sum += x` loops accumulate. */
  function Sum(s: seq<real>): real
  {
    if s == [] then 0.0 else Sum(s[..|s| - 1]) + s[|s| - 1]
  }

  lemma {:induction false} SumNonNegative(s: seq<real>)
    requires forall i :: 0 <= i < |s| ==> s[i] >= 0.0
    ensures Sum(s) >= 0.0
  {
    if s != [] {
      SumNonNegative(s[..|s| - 1]);
    }
  }

  /** A running sum over a growing prefix adds the next element. */
  lemma SumPrefixStep(s: seq<real>, i: nat)
    requires i < |s|
    ensures Sum(s[..i + 1]) == Sum(s[..i]) + s[i]
  {
    assert s[..i + 1][..i] == s[..i];
  }

  /** Products of non-negative reals are monotone in the second factor. */
  lemma ScaleBounds(a: real, x: real, hi: real)
    requires a >= 0.0 && 0.0 <= x <= hi
    ensures 0.0 <= a * x <= a * hi
  {
    assert a * (hi - x) >= 0.0;
  }

  /** One exponential-moving-average update: move from `last` towards `value` by `m` times the gap. */
  function EmaStep(last: real, value: real, m: real): real
  {
    (value - last) * m + last
  }

  /** Pointwise difference of two series of equal length. */
  function Diff(a: seq<real>, b: seq<real>): (r: seq<real>)
    requires |a| == |b|
    ensures |r| == |a| && forall i :: 0 <= i < |a| ==> r[i] == a[i] - b[i]
  {
    seq(|a|, i requires 0 <= i < |a| && |a| == |b| => a[i] - b[i])
  }

  /** Largest element, the fold of `f64::max` from negative infinity over a non-empty window. */
  function SeqMax(s: seq<real>): real
    requires |s| > 0
  {
    if |s| == 1 then s[0] else Max(SeqMax(s[..|s| - 1]), s[|s| - 1])
  }

  /** Smallest element, the fold of `f64::min` from positive infinity over a non-empty window. */
  function SeqMin(s: seq<real>): real
    requires |s| > 0
  {
    if |s| == 1 then s[0] else Min(SeqMin(s[..|s| - 1]), s[|s| - 1])
  }

  /** A position where the window reaches its maximum. */
  function ArgMax(s: seq<real>): (k: nat)
    requires |s| > 0
    ensures k < |s| && SeqMax(s) == s[k]
  {
    if |s| == 1 then 0
    else
      var p := s[..|s| - 1];
      var j := ArgMax(p);
      assert p[j] == s[j];
      if SeqMax(p) < s[|s| - 1] then |s| - 1 else j
  }

  /** A position where the window reaches its minimum. */
  function ArgMin(s: seq<real>): (k: nat)
    requires |s| > 0
    ensures k < |s| && SeqMin(s) == s[k]
  {
    if |s| == 1 then 0
    else
      var p := s[..|s| - 1];
      var j := ArgMin(p);
      assert p[j] == s[j];
      if SeqMin(p) < s[|s| - 1] then j else |s| - 1
  }

  /** Every element of a window lies between its minimum and its maximum. */
  lemma {:induction false} SeqBounds(s: seq<real>)
    requires |s| > 0
    ensures forall k :: 0 <= k < |s| ==> SeqMin(s) <= s[k] <= SeqMax(s)
  {
    if |s| > 1 {
      var p := s[..|s| - 1];
      SeqBounds(p);
      assert forall k :: 0 <= k < |p| ==> p[k] == s[k];
    }
  }

  /** Every element of a window lies between its minimum and its maximum, and both are attained. */
  lemma SeqMinMaxBounds(s: seq<real>)
    requires |s| > 0
    ensures forall k :: 0 <= k < |s| ==> SeqMin(s) <= s[k] <= SeqMax(s)
    ensures exists k :: 0 <= k < |s| && SeqMax(s) == s[k]
    ensures exists k :: 0 <= k < |s| && SeqMin(s) == s[k]
  {
    SeqBounds(s);
    var km, kn := ArgMax(s), ArgMin(s);
  }

  function Last<T>(s: seq<T>): T
    requires |s| > 0
  {
    s[|s| - 1]
  }

  /** `latest()` of the KDJ, MACD and CYC indicators: the last value of each of their three series, or None when any is empty. */
  function Latest(a: seq<real>, b: seq<real>, c: seq<real>): (r: Option<(real, real, real)>)
    ensures r.None? <==> (a == [] || b == [] || c == [])
    ensures r.Some? ==> r.value == (Last(a), Last(b), Last(c))
  {
    if a == [] || b == [] || c == [] then None else Some((Last(a), Last(b), Last(c)))
  }
}
