/** The numpy reductions the analyzers apply to per-frame series:
    `np.mean`, `np.var` (population variance; `np.std` is its square root)
    and `np.max`, over exact reals. */
module Stats {

  /** A measure that cannot be negative: a standard deviation, a variance,
      an energy, a pixel statistic or a density. */
  type NonNegReal = x: real | x >= 0.0

  function Sum(s: seq<real>): real
  {
    if |s| == 0 then 0.0 else Sum(s[..|s| - 1]) + s[|s| - 1]
  }

  /** `np.mean`; numpy returns NaN on an empty array, so callers handle that case. */
  function Mean(s: seq<real>): real
    requires |s| > 0
  {
    Sum(s) / (|s| as real)
  }

  /** Sum of squared deviations from `m`. */
  function SquaredDeviations(s: seq<real>, m: real): (r: real)
    ensures r >= 0.0
  {
    if |s| == 0 then 0.0
    else
      var d := s[|s| - 1] - m;
      SquareNonNegative(d);
      SquaredDeviations(s[..|s| - 1], m) + d * d
  }

  lemma SquareNonNegative(x: real)
    ensures x * x >= 0.0
  {
    if x < 0.0 {
      assert x * x == (-x) * (-x);
    }
  }

  lemma QuotientOfProduct(n: real, c: real)
    requires n > 0.0
    ensures (n * c) / n == c
  {
  }

  lemma QuotientBelow(a: real, n: real, b: real)
    requires n > 0.0 && a <= n * b
    ensures a / n <= b
  {
    assert a / n * n == a;
  }

  /** `np.var` with `ddof = 0`; `np.std(s)` is the non-negative square root of this. */
  function Variance(s: seq<real>): (r: real)
    requires |s| > 0
    ensures r >= 0.0
  {
    SquaredDeviations(s, Mean(s)) / (|s| as real)
  }

  /** `np.max` */
  function Max(s: seq<real>): (r: real)
    requires |s| > 0
    ensures r in s
    ensures forall i :: 0 <= i < |s| ==> s[i] <= r
  {
    if |s| == 1 then s[0]
    else
      var m := Max(s[..|s| - 1]);
      assert forall i :: 0 <= i < |s| - 1 ==> s[..|s| - 1][i] == s[i];
      if s[|s| - 1] > m then s[|s| - 1] else m
  }

  /** Sequence of reals read from a sequence of integers (numpy upcasting). */
  function ToReals(s: seq<int>): (r: seq<real>)
    ensures |r| == |s|
    ensures forall i :: 0 <= i < |s| ==> r[i] == s[i] as real
  {
    if |s| == 0 then [] else ToReals(s[..|s| - 1]) + [s[|s| - 1] as real]
  }

  predicate Constant(s: seq<real>, c: real)
  {
    forall i :: 0 <= i < |s| ==> s[i] == c
  }

  lemma {:induction false} SumConstant(s: seq<real>, c: real)
    requires Constant(s, c)
    ensures Sum(s) == (|s| as real) * c
  {
    if |s| > 0 {
      SumConstant(s[..|s| - 1], c);
    }
  }

  lemma {:induction false} SquaredDeviationsAtConstant(s: seq<real>, c: real)
    requires Constant(s, c)
    ensures SquaredDeviations(s, c) == 0.0
  {
    if |s| > 0 {
      SquaredDeviationsAtConstant(s[..|s| - 1], c);
    }
  }

  /** A series whose entries are all `c` has mean `c`, maximum `c` and variance 0. */
  lemma {:induction false} ConstantSeries(s: seq<real>, c: real)
    requires |s| > 0 && Constant(s, c)
    ensures Mean(s) == c
    ensures Max(s) == c
    ensures Variance(s) == 0.0
  {
    SumConstant(s, c);
    QuotientOfProduct(|s| as real, c);
    SquaredDeviationsAtConstant(s, c);
  }

  lemma {:induction false} SumBoundedByMax(s: seq<real>, b: real)
    requires forall i :: 0 <= i < |s| ==> s[i] <= b
    ensures Sum(s) <= (|s| as real) * b
  {
    if |s| > 0 {
      SumBoundedByMax(s[..|s| - 1], b);
    }
  }

  /** The mean never exceeds the maximum. */
  lemma {:induction false} MeanAtMostMax(s: seq<real>)
    requires |s| > 0
    ensures Mean(s) <= Max(s)
  {
    SumBoundedByMax(s, Max(s));
    QuotientBelow(Sum(s), |s| as real, Max(s));
  }
}
