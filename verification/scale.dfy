/** Scale estimation: the per-dimension population variance of the history's
    input vectors, computed as the mean of squares minus the square of the
    mean, with shorter inputs read as zero-padded. */
module Scale {
  import opened Vectors
  import opened History

  function Sum(c: seq<real>): real {
    if c == [] then 0.0 else Sum(c[..|c| - 1]) + c[|c| - 1]
  }

  function SumOfSquares(c: seq<real>): real {
    if c == [] then 0.0 else SumOfSquares(c[..|c| - 1]) + Sq(c[|c| - 1])
  }

  /** Sum of `(c[k] - x)^2`: the centred form the source does not use. */
  function SumOfSquaredDeviations(c: seq<real>, x: real): real {
    if c == [] then 0.0
    else SumOfSquaredDeviations(c[..|c| - 1], x) + Sq(c[|c| - 1] - x)
  }

  /** Population variance by the sum-of-squares formula: mean of the squares
      minus the square of the mean. */
  function Variance(c: seq<real>): real
    requires |c| > 0
  {
    VarianceFromSums(Sum(c), SumOfSquares(c), |c|)
  }

  /** `sumSq / count - (sum / count)^2`, with the divisions the source does. */
  function VarianceFromSums(sum: real, sumSq: real, count: nat): real
    requires count > 0
  {
    var n := count as real;
    sumSq / n - Sq(sum / n)
  }

  /** One scale per dimension of the longest input; empty for an empty history. */
  function EstimateScale(h: seq<Sample>): (dx: seq<real>)
    ensures |dx| == MaxInputLength(h)
    ensures h == [] ==> dx == []
    ensures forall i :: 0 <= i < |dx| ==> dx[i] >= 0.0
  {
    if h == [] then []
    else
      ColumnVariancesNonNegative(h);
      seq(MaxInputLength(h), i requires 0 <= i < MaxInputLength(h) => Variance(Column(h, i)))
  }

  // ---------------------------------------------------------------------
  // The source's accumulation

  /** The arithmetic of the history-reading loop: running sums and sums of
      squares per dimension, grown with zeros as longer inputs arrive, then
      divided by the number of samples and combined. */
  method EstimateScaleLoop(h: seq<Sample>) returns (dx: seq<real>)
    ensures dx == EstimateScale(h)
  {
    var m1, m2 := AccumulateSums(h);
    dx := FinishScale(m1, m2, |h|);
    FinishedSumsAreScale(h, m1, m2, dx);
  }

  /** The per-sample loop: after it, `m1` and `m2` are the running sums of
      the whole history. */
  method AccumulateSums(h: seq<Sample>) returns (m1: seq<real>, m2: seq<real>)
    ensures RunningSums(h, m1, m2)
  {
    m1, m2 := [], [];
    var k := 0;
    while k < |h|
      invariant k <= |h|
      invariant RunningSums(h[..k], m1, m2)
    {
      ghost var m1', m2' := m1, m2;
      m1, m2 := AddSample(m1, m2, h[k].input);
      SumsAfterSample(h[..k], h[k], m1', m2', m1, m2);
      assert h[..k + 1] == h[..k] + [h[k]];
      k := k + 1;
    }
    assert h[..k] == h;
  }

  lemma FinishedSumsAreScale(h: seq<Sample>, m1: seq<real>, m2: seq<real>, dx: seq<real>)
    requires RunningSums(h, m1, m2)
    requires |dx| == |m1|
    requires forall j :: 0 <= j < |dx| ==> dx[j] == VarianceFromSums(m1[j], m2[j], |h|)
    ensures dx == EstimateScale(h)
  {
    if h != [] {
      var e := EstimateScale(h);
      forall j | 0 <= j < |dx|
        ensures dx[j] == e[j]
      {
        var c := Column(h, j);
        assert e[j] == Variance(c);
        assert |c| == |h|;
      }
    }
  }

  /** `m1` and `m2` hold, per dimension, the sum and the sum of squares of the
      inputs of `h`, and are as long as its longest input. */
  ghost predicate RunningSums(h: seq<Sample>, m1: seq<real>, m2: seq<real>) {
    && |m1| == |m2| == MaxInputLength(h)
    && (forall j :: 0 <= j < |m1| ==> m1[j] == Sum(Column(h, j)))
    && (forall j :: 0 <= j < |m2| ==> m2[j] == SumOfSquares(Column(h, j)))
  }

  /** `r1` and `r2` are the running sums `m1` and `m2`, zero-extended to the
      length of `x`, with `x` and its squares added. */
  predicate SampleAdded(m1: seq<real>, m2: seq<real>, x: seq<real>, r1: seq<real>, r2: seq<real>) {
    && |r1| == |r2| == Max(|m1|, |x|)
    && (forall j :: 0 <= j < |r1| ==> r1[j] == Pad(m1, j) + Pad(x, j))
    && (forall j :: 0 <= j < |r2| ==> r2[j] == Pad(m2, j) + Sq(Pad(x, j)))
  }

  /** Inner loop of the history reader: grow the running sums to the length
      of `x` and add `x` and its squares coordinate by coordinate. */
  method AddSample(m1: seq<real>, m2: seq<real>, x: seq<real>) returns (r1: seq<real>, r2: seq<real>)
    requires |m1| == |m2|
    ensures SampleAdded(m1, m2, x, r1, r2)
  {
    r1, r2 := m1, m2;
    var i := 0;
    while i < |x|
      invariant i <= |x|
      invariant |r1| == |r2| == Max(|m1|, i)
      invariant forall j :: 0 <= j < |r1| ==> r1[j] == Pad(m1, j) + (if j < i then x[j] else 0.0)
      invariant forall j :: 0 <= j < |r2| ==> r2[j] == Pad(m2, j) + (if j < i then Sq(x[j]) else 0.0)
    {
      if i >= |r1| {
        r1 := r1 + [0.0];
      }
      if i >= |r2| {
        r2 := r2 + [0.0];
      }
      r1 := r1[i := r1[i] + x[i]];
      r2 := r2[i := r2[i] + x[i] * x[i]];
      i := i + 1;
    }
  }

  /** Divides both running sums by the sample count and forms
      `mean of squares - square of mean` per dimension. */
  method FinishScale(m1: seq<real>, m2: seq<real>, count: nat) returns (dx: seq<real>)
    requires |m1| == |m2|
    requires |m1| > 0 ==> count > 0
    ensures |dx| == |m1|
    ensures forall j :: 0 <= j < |dx| ==> dx[j] == VarianceFromSums(m1[j], m2[j], count)
  {
    dx := [];
    var i := 0;
    while i < |m1|
      invariant i <= |m1|
      invariant |dx| == i
      invariant forall j :: 0 <= j < i ==> dx[j] == VarianceFromSums(m1[j], m2[j], count)
    {
      var n := count as real;
      dx := dx + [m2[i] / n - (m1[i] / n) * (m1[i] / n)];
      i := i + 1;
    }
  }

  /** Adding one sample's coordinates to the running sums of `h` gives the
      running sums of `h + [s]`. */
  lemma SumsAfterSample(h: seq<Sample>, s: Sample, m1: seq<real>, m2: seq<real>, r1: seq<real>, r2: seq<real>)
    requires RunningSums(h, m1, m2)
    requires SampleAdded(m1, m2, s.input, r1, r2)
    ensures RunningSums(h + [s], r1, r2)
  {
    assert (h + [s])[..|h|] == h;
    forall j | 0 <= j < |r1|
      ensures r1[j] == Sum(Column(h + [s], j))
      ensures r2[j] == SumOfSquares(Column(h + [s], j))
    {
      ColumnSumsSnoc(h, s, j);
      if |m1| <= j {
        ColumnPastLongest(h, j);
      }
    }
  }

  lemma ColumnSumsSnoc(h: seq<Sample>, s: Sample, j: nat)
    ensures Sum(Column(h + [s], j)) == Sum(Column(h, j)) + Pad(s.input, j)
    ensures SumOfSquares(Column(h + [s], j)) == SumOfSquares(Column(h, j)) + Sq(Pad(s.input, j))
  {
    ColumnSnoc(h, s, j);
    var c := Column(h + [s], j);
    assert c[..|c| - 1] == Column(h, j);
  }

  /** Past the longest input every coordinate is padding, so the sums vanish. */
  lemma {:induction false} ColumnPastLongest(h: seq<Sample>, i: nat)
    requires MaxInputLength(h) <= i
    ensures Sum(Column(h, i)) == 0.0
    ensures SumOfSquares(Column(h, i)) == 0.0
  {
    if h != [] {
      var h' := h[..|h| - 1];
      ColumnSnoc(h', h[|h| - 1], i);
      assert h == h' + [h[|h| - 1]];
      ColumnPastLongest(h', i);
      var c := Column(h, i);
      assert c[..|c| - 1] == Column(h', i);
    }
  }

  // ---------------------------------------------------------------------
  // Non-negativity of the variance

  lemma {:induction false} DeviationsNonNegative(c: seq<real>, x: real)
    ensures SumOfSquaredDeviations(c, x) >= 0.0
  {
    if c != [] {
      DeviationsNonNegative(c[..|c| - 1], x);
      var d := c[|c| - 1] - x;
      assert Sq(d) >= 0.0;
    }
  }

  /** The centred sum expands into the raw sums the source accumulates. */
  lemma {:induction false} DeviationsExpand(c: seq<real>, x: real)
    ensures SumOfSquaredDeviations(c, x) == Expanded(SumOfSquares(c), Sum(c), |c|, x)
  {
    if c != [] {
      var c' := c[..|c| - 1];
      var v := c[|c| - 1];
      DeviationsExpand(c', x);
      ExpandStep(SumOfSquares(c'), Sum(c'), |c'|, v, x);
    }
  }

  /** `sum((c[k] - x)^2)` written through the raw sums of `c`. */
  function Expanded(sumSq: real, sum: real, count: nat, x: real): real {
    sumSq - 2.0 * x * sum + (count as real) * Sq(x)
  }

  lemma ExpandStep(q: real, t: real, k: nat, v: real, x: real)
    ensures Expanded(q, t, k, x) + Sq(v - x) == Expanded(q + Sq(v), t + v, k + 1, x)
  {
  }

  lemma SpreadStep(q: real, t: real, k: nat, v: real)
    ensures SpreadFromSums(q + Sq(v), t + v, k + 1) == SpreadFromSums(q, t, k) + Expanded(q, t, k, v)
  {
  }

  /** `n * sum(x^2) - (sum x)^2`, which is `n^2` times the variance. */
  function Spread(c: seq<real>): real {
    SpreadFromSums(SumOfSquares(c), Sum(c), |c|)
  }

  function SpreadFromSums(sumSq: real, sum: real, count: nat): real {
    (count as real) * sumSq - Sq(sum)
  }

  lemma {:induction false} SpreadNonNegative(c: seq<real>)
    ensures Spread(c) >= 0.0
  {
    if c != [] {
      var c' := c[..|c| - 1];
      var v := c[|c| - 1];
      SpreadNonNegative(c');
      DeviationsExpand(c', v);
      DeviationsNonNegative(c', v);
      SpreadStep(SumOfSquares(c'), Sum(c'), |c'|, v);
      assert Spread(c) == SpreadFromSums(SumOfSquares(c') + Sq(v), Sum(c') + v, |c'| + 1);
      assert Spread(c) == Spread(c') + SumOfSquaredDeviations(c', v);
    }
  }

  /** The mean of the squares is never below the square of the mean. */
  lemma VarianceNonNegative(c: seq<real>)
    requires |c| > 0
    ensures Variance(c) >= 0.0
  {
    var n := |c| as real;
    SpreadNonNegative(c);
    assert Variance(c) == Spread(c) / (n * n);
  }

  lemma ColumnVariancesNonNegative(h: seq<Sample>)
    requires h != []
    ensures forall i :: 0 <= i < MaxInputLength(h) ==> Variance(Column(h, i)) >= 0.0
  {
    forall i | 0 <= i < MaxInputLength(h)
      ensures Variance(Column(h, i)) >= 0.0
    {
      VarianceNonNegative(Column(h, i));
    }
  }

  /** Over the reals the sum-of-squares formula agrees with the centred,
      two-pass definition of the population variance. */
  lemma VarianceIsMeanSquaredDeviation(c: seq<real>)
    requires |c| > 0
    ensures Variance(c) == SumOfSquaredDeviations(c, Sum(c) / (|c| as real)) / (|c| as real)
  {
    var x := Sum(c) / (|c| as real);
    DeviationsExpand(c, x);
    CentredFormula(SumOfSquares(c), Sum(c), |c|, x, SumOfSquaredDeviations(c, x));
  }

  lemma CentredFormula(q: real, t: real, count: nat, x: real, d: real)
    requires count > 0
    requires x == t / (count as real)
    requires d == Expanded(q, t, count, x)
    ensures VarianceFromSums(t, q, count) == d / (count as real)
  {
    var n := count as real;
    assert t == x * n;
    assert d == q - n * (x * x);
    assert d / n == q / n - x * x;
  }
}
