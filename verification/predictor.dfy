/** The extrapolation step: each kept neighbour's output is multiplied by a
    correction ratio against every other kept neighbour, and the products
    are summed. A ratio whose denominator is zero makes the source divide by
    zero; the model reports that as `Undefined`, which, like the infinities
    and NaNs of the source, absorbs every later product and sum. */
module Predictor {
  import opened Vectors
  import opened History
  import opened Metric
  import opened Neighbours

  datatype Prediction = Finite(value: real) | Undefined

  /** Number of neighbours kept when the command line does not say. */
  const DefaultNeighbourCount: nat := 3

  /** `num / den`, non-finite exactly when `den` is zero. */
  function Quotient(num: real, den: real): (r: Prediction)
    ensures r.Undefined? <==> den == 0.0
  {
    if den == 0.0 then Undefined else Finite(num / den)
  }

  function Times(a: Prediction, b: Prediction): (r: Prediction)
    ensures r.Undefined? <==> a.Undefined? || b.Undefined?
  {
    if a.Finite? && b.Finite? then Finite(a.value * b.value) else Undefined
  }

  function Plus(a: Prediction, b: Prediction): (r: Prediction)
    ensures r.Undefined? <==> a.Undefined? || b.Undefined?
  {
    if a.Finite? && b.Finite? then Finite(a.value + b.value) else Undefined
  }

  lemma QuotientSelf(d: real)
    requires d != 0.0
    ensures Quotient(d, d) == Finite(1.0)
  {
  }

  lemma QuotientOfZero(d: real)
    requires d != 0.0
    ensures Quotient(0.0, d) == Finite(0.0)
  {
  }

  lemma TimesOne(a: Prediction)
    ensures Times(a, Finite(1.0)) == a
  {
  }

  lemma TimesZero(a: Prediction)
    requires a.Finite?
    ensures Times(a, Finite(0.0)) == Finite(0.0)
    ensures Times(Finite(0.0), a) == Finite(0.0)
  {
  }

  lemma PlusZero(a: Prediction)
    ensures Plus(Finite(0.0), a) == a
    ensures Plus(a, Finite(0.0)) == a
  {
  }

  /** Projection of `xi - xj` on itself: the denominator of the ratio of
      neighbour `i` against neighbour `j`. */
  function Denominator(kept: seq<Sample>, i: nat, j: nat, dx: seq<real>): real
    requires i < |kept| && j < |kept|
  {
    var d := Diff(kept[i].input, kept[j].input);
    Scalar(d, d, dx)
  }

  /** Correction ratio of neighbour `xi` against neighbour `xj` for query `x`:
      the projection of `x - xj` on `xi - xj` over that of `xi - xj` on
      itself, both differences truncated to the common length. */
  function Ratio(x: seq<real>, xi: seq<real>, xj: seq<real>, dx: seq<real>): Prediction {
    var xxj := Diff(x, xj);
    var xixj := Diff(xi, xj);
    Quotient(Scalar(xxj, xixj, dx), Scalar(xixj, xixj, dx))
  }

  /** `m` is an `n` by `n` matrix. */
  predicate IsSquare(m: seq<seq<Prediction>>, n: nat) {
    |m| == n && forall i :: 0 <= i < n ==> |m[i]| == n
  }

  /** `Ratios(x, kept, dx)[i][j]` is the ratio of kept neighbour `i`
      against kept neighbour `j`, the factor the inner loop multiplies in. */
  function Ratios(x: seq<real>, kept: seq<Sample>, dx: seq<real>): (m: seq<seq<Prediction>>)
    ensures IsSquare(m, |kept|)
  {
    seq(|kept|, i requires 0 <= i < |kept| =>
      seq(|kept|, j requires 0 <= j < |kept| => Ratio(x, kept[i].input, kept[j].input, dx)))
  }

  /** The running product `s` for neighbour `i` after the inner loop has
      visited the first `n` neighbours, skipping `i` itself. */
  function Term(kept: seq<Sample>, m: seq<seq<Prediction>>, i: nat, n: nat): Prediction
    requires IsSquare(m, |kept|)
    requires i < |kept| && n <= |kept|
  {
    if n == 0 then Finite(kept[i].output)
    else if n - 1 == i then Term(kept, m, i, n - 1)
    else Times(Term(kept, m, i, n - 1), m[i][n - 1])
  }

  /** The running sum `y` after the outer loop has visited the first `n`
      neighbours. */
  function Accumulate(kept: seq<Sample>, m: seq<seq<Prediction>>, n: nat): Prediction
    requires IsSquare(m, |kept|)
    requires n <= |kept|
  {
    if n == 0 then Finite(0.0)
    else Plus(Accumulate(kept, m, n - 1), Term(kept, m, n - 1, |kept|))
  }

  /** The combination over the kept neighbours, in the order given. */
  function Combine(x: seq<real>, kept: seq<Sample>, dx: seq<real>): Prediction {
    Accumulate(kept, Ratios(x, kept, dx), |kept|)
  }

  /** The source's nested loops: for each kept neighbour, multiply its output
      by its ratio against every other kept neighbour, and add the product
      to the running sum. The ratios are computed up front; the source
      computes each one inside the inner loop, which yields the same values. */
  method CombineLoop(x: seq<real>, kept: seq<Sample>, dx: seq<real>) returns (y: Prediction)
    ensures y == Combine(x, kept, dx)
  {
    var m := ComputeRatios(x, kept, dx);
    y := SumOfRows(kept, m);
  }

  /** The outer loop over a matrix of ratios. */
  method SumOfRows(kept: seq<Sample>, m: seq<seq<Prediction>>) returns (y: Prediction)
    requires IsSquare(m, |kept|)
    ensures y == Accumulate(kept, m, |kept|)
  {
    y := Finite(0.0);
    var i := 0;
    while i < |kept|
      invariant i <= |kept|
      invariant y == Accumulate(kept, m, i)
    {
      var s := RowProduct(kept, m, i);
      y := Plus(y, s);
      i := i + 1;
    }
  }

  /** The inner loop: neighbour `i`'s output times its ratios against every
      other kept neighbour. */
  method RowProduct(kept: seq<Sample>, m: seq<seq<Prediction>>, i: nat) returns (s: Prediction)
    requires IsSquare(m, |kept|) && i < |kept|
    ensures s == Term(kept, m, i, |kept|)
  {
    s := Finite(kept[i].output);
    var j := 0;
    while j < |kept|
      invariant j <= |kept|
      invariant s == Term(kept, m, i, j)
    {
      if i != j {
        s := Times(s, m[i][j]);
      }
      j := j + 1;
    }
  }

  /** Every ratio, row by row. */
  method ComputeRatios(x: seq<real>, kept: seq<Sample>, dx: seq<real>) returns (m: seq<seq<Prediction>>)
    ensures m == Ratios(x, kept, dx)
  {
    m := [];
    var i := 0;
    while i < |kept|
      invariant i <= |kept|
      invariant m == Ratios(x, kept, dx)[..i]
    {
      var row := ComputeRatioRow(x, kept, dx, i);
      m := m + [row];
      i := i + 1;
    }
  }

  method ComputeRatioRow(x: seq<real>, kept: seq<Sample>, dx: seq<real>, i: nat) returns (row: seq<Prediction>)
    requires i < |kept|
    ensures row == Ratios(x, kept, dx)[i]
  {
    row := [];
    var j := 0;
    while j < |kept|
      invariant j <= |kept|
      invariant row == Ratios(x, kept, dx)[i][..j]
    {
      var r := ComputeRatio(x, kept, dx, i, j);
      row := row + [r];
      j := j + 1;
    }
  }

  /** One ratio as the source computes it: build both truncated differences,
      then divide their projections. */
  method ComputeRatio(x: seq<real>, kept: seq<Sample>, dx: seq<real>, i: nat, j: nat) returns (r: Prediction)
    requires i < |kept| && j < |kept|
    ensures r == Ratios(x, kept, dx)[i][j]
  {
    var xi := kept[i].input;
    var xj := kept[j].input;
    var xxj := Diff(x, xj);
    var xixj := Diff(xi, xj);
    var num := ComputeScalar(xxj, xixj, dx);
    var den := ComputeScalar(xixj, xixj, dx);
    r := Quotient(num, den);
  }

  /** Some ratio between two distinct kept neighbours divides by zero. */
  ghost predicate ZeroDenominator(kept: seq<Sample>, dx: seq<real>) {
    exists i, j :: 0 <= i < |kept| && 0 <= j < |kept| && i != j && Denominator(kept, i, j, dx) == 0.0
  }

  /** The source's `predict`: select the `min(p, n)` nearest samples and
      combine their outputs. */
  function Predict(x: seq<real>, h: seq<Sample>, dx: seq<real>, p: nat): (r: Prediction)
    ensures p == 0 || h == [] ==> r == Finite(0.0)
    ensures p == 1 && h != [] ==>
      exists k :: 0 <= k < |h| && r == Finite(h[k].output) &&
                  forall j :: 0 <= j < |h| ==> Delta(x, h[k].input, dx) <= Delta(x, h[j].input, dx)
    ensures 2 <= p && 2 <= |h| && NoPositiveScale(dx) ==> r == Undefined
    ensures exists sel :: IsSelection(x, h, dx, p, sel) && r == Combine(x, Samples(sel), dx)
  {
    var sel := SelectNeighbours(x, h, dx, p);
    if p == 1 && h != [] then
      SingleNeighbour(x, h, dx, p, sel);
      Combine(x, Samples(sel), dx)
    else if 2 <= p && 2 <= |h| && NoPositiveScale(dx) then
      NoPositiveScaleUndefined(x, Samples(sel), dx);
      Combine(x, Samples(sel), dx)
    else
      Combine(x, Samples(sel), dx)
  }

  // ---------------------------------------------------------------------
  // When the result is non-finite

  lemma RatioUndefinedIff(x: seq<real>, kept: seq<Sample>, dx: seq<real>, i: nat, j: nat)
    requires i < |kept| && j < |kept|
    ensures Ratios(x, kept, dx)[i][j].Undefined? <==> Denominator(kept, i, j, dx) == 0.0
  {
  }

  /** Some entry of row `i` before column `n`, off the diagonal, is non-finite. */
  ghost predicate UndefinedBefore(m: seq<seq<Prediction>>, k: nat, i: nat, n: nat)
    requires IsSquare(m, k) && i < k && n <= k
  {
    exists j :: 0 <= j < n && j != i && m[i][j].Undefined?
  }

  lemma {:induction false} TermUndefinedIff(kept: seq<Sample>, m: seq<seq<Prediction>>, i: nat, n: nat)
    requires IsSquare(m, |kept|)
    requires i < |kept| && n <= |kept|
    ensures Term(kept, m, i, n).Undefined? <==> UndefinedBefore(m, |kept|, i, n)
  {
    if n > 0 {
      TermUndefinedIff(kept, m, i, n - 1);
      if UndefinedBefore(m, |kept|, i, n) {
        var j :| 0 <= j < n && j != i && m[i][j].Undefined?;
        if j < n - 1 {
          assert UndefinedBefore(m, |kept|, i, n - 1);
        }
      }
    }
  }

  /** Some row before `n` holds a non-finite entry off the diagonal. */
  ghost predicate UndefinedAmong(m: seq<seq<Prediction>>, k: nat, n: nat)
    requires IsSquare(m, k) && n <= k
  {
    exists i :: 0 <= i < n && UndefinedBefore(m, k, i, k)
  }

  lemma {:induction false} AccumulateUndefinedIff(kept: seq<Sample>, m: seq<seq<Prediction>>, n: nat)
    requires IsSquare(m, |kept|)
    requires n <= |kept|
    ensures Accumulate(kept, m, n).Undefined? <==> UndefinedAmong(m, |kept|, n)
  {
    if n > 0 {
      AccumulateUndefinedIff(kept, m, n - 1);
      TermUndefinedIff(kept, m, n - 1, |kept|);
      if UndefinedAmong(m, |kept|, n) {
        var i :| 0 <= i < n && UndefinedBefore(m, |kept|, i, |kept|);
        if i < n - 1 {
          assert UndefinedAmong(m, |kept|, n - 1);
        }
      }
    }
  }

  lemma UndefinedAmongRatios(x: seq<real>, kept: seq<Sample>, dx: seq<real>)
    ensures UndefinedAmong(Ratios(x, kept, dx), |kept|, |kept|) <==> ZeroDenominator(kept, dx)
  {
    var m := Ratios(x, kept, dx);
    if ZeroDenominator(kept, dx) {
      var i, j :| 0 <= i < |kept| && 0 <= j < |kept| && i != j && Denominator(kept, i, j, dx) == 0.0;
      RatioUndefinedIff(x, kept, dx, i, j);
      assert UndefinedBefore(m, |kept|, i, |kept|);
    }
    if UndefinedAmong(m, |kept|, |kept|) {
      var i :| 0 <= i < |kept| && UndefinedBefore(m, |kept|, i, |kept|);
      var j :| 0 <= j < |kept| && j != i && m[i][j].Undefined?;
      RatioUndefinedIff(x, kept, dx, i, j);
    }
  }

  /** The combination is non-finite exactly when some pair of distinct kept
      neighbours has a zero denominator; otherwise it is a finite real. */
  lemma CombineUndefinedIff(x: seq<real>, kept: seq<Sample>, dx: seq<real>)
    ensures Combine(x, kept, dx).Undefined? <==> ZeroDenominator(kept, dx)
  {
    AccumulateUndefinedIff(kept, Ratios(x, kept, dx), |kept|);
    UndefinedAmongRatios(x, kept, dx);
  }

  /** Without a positive scale every projection is zero, so any two kept
      neighbours make the result non-finite. */
  lemma NoPositiveScaleUndefined(x: seq<real>, kept: seq<Sample>, dx: seq<real>)
    requires NoPositiveScale(dx)
    requires |kept| >= 2
    ensures Combine(x, kept, dx) == Undefined
  {
    var d := Diff(kept[0].input, kept[1].input);
    NoPositiveScaleMetricsVanish(d, d, dx);
    assert Denominator(kept, 0, 1, dx) == 0.0;
    CombineUndefinedIff(x, kept, dx);
  }

  // ---------------------------------------------------------------------
  // Degenerate neighbour counts

  /** No neighbours: the empty sum. */
  lemma CombineEmpty(x: seq<real>, dx: seq<real>)
    ensures Combine(x, [], dx) == Finite(0.0)
  {
  }

  /** One neighbour: the inner loop only meets the neighbour itself and
      skips it, so its output is returned unchanged. */
  lemma CombineSingle(x: seq<real>, s: Sample, dx: seq<real>)
    ensures Combine(x, [s], dx) == Finite(s.output)
  {
    var kept := [s];
    var m := Ratios(x, kept, dx);
    assert Term(kept, m, 0, 1) == Term(kept, m, 0, 0) == Finite(s.output);
    assert Accumulate(kept, m, 1) == Plus(Accumulate(kept, m, 0), Term(kept, m, 0, 1));
    PlusZero(Finite(s.output));
  }

  /** With `p == 1` any admissible selection predicts the output of a sample
      at minimal distance from the query. */
  lemma SingleNeighbour(x: seq<real>, h: seq<Sample>, dx: seq<real>, p: nat, sel: seq<Neighbour>)
    requires IsSelection(x, h, dx, p, sel)
    requires p == 1 && h != []
    ensures exists k :: 0 <= k < |h| && Combine(x, Samples(sel), dx) == Finite(h[k].output) &&
              forall j :: 0 <= j < |h| ==> Delta(x, h[k].input, dx) <= Delta(x, h[j].input, dx)
  {
    SelectionProperties(x, h, dx, p, sel);
    FirstIsNearest(x, h, dx, p, sel);
    var ranked := Rank(x, h, dx);
    assert sel[0] in multiset(sel);
    assert sel[0] in multiset(ranked);
    var k :| 0 <= k < |ranked| && ranked[k] == sel[0];
    assert Samples(sel) == [h[k]];
    CombineSingle(x, h[k], dx);
  }

  /** With `p == 0` or an empty history nothing is kept and the result is 0. */
  lemma NothingKept(x: seq<real>, h: seq<Sample>, dx: seq<real>, p: nat, sel: seq<Neighbour>)
    requires IsSelection(x, h, dx, p, sel)
    requires p == 0 || h == []
    ensures Combine(x, Samples(sel), dx) == Finite(0.0)
  {
    SelectionProperties(x, h, dx, p, sel);
    assert Samples(sel) == [];
  }

  // ---------------------------------------------------------------------
  // Interpolation at a kept sample

  /** Row `k` of `m` is 1 off the diagonal, column `k` is 0 off the
      diagonal, and every other off-diagonal entry is finite: the shape of
      the ratios when the query sits on kept neighbour `k`. */
  predicate PivotAt(m: seq<seq<Prediction>>, size: nat, k: nat)
    requires IsSquare(m, size) && k < size
  {
    && (forall j :: 0 <= j < size && j != k ==> m[k][j] == Finite(1.0))
    && (forall i :: 0 <= i < size && i != k ==> m[i][k] == Finite(0.0))
    && (forall i, j :: 0 <= i < size && 0 <= j < size && i != j ==> m[i][j].Finite?)
  }

  lemma {:induction false} TermAtPivot(kept: seq<Sample>, m: seq<seq<Prediction>>, k: nat, n: nat)
    requires IsSquare(m, |kept|) && k < |kept| && n <= |kept|
    requires PivotAt(m, |kept|, k)
    ensures Term(kept, m, k, n) == Finite(kept[k].output)
  {
    if n > 0 {
      TermAtPivot(kept, m, k, n - 1);
      if n - 1 != k {
        TimesOne(Term(kept, m, k, n - 1));
      }
    }
  }

  lemma {:induction false} TermFinite(kept: seq<Sample>, m: seq<seq<Prediction>>, i: nat, n: nat)
    requires IsSquare(m, |kept|) && i < |kept| && n <= |kept|
    requires forall a, b :: 0 <= a < |kept| && 0 <= b < |kept| && a != b ==> m[a][b].Finite?
    ensures Term(kept, m, i, n).Finite?
  {
    if n > 0 {
      TermFinite(kept, m, i, n - 1);
    }
  }

  lemma {:induction false} TermOffPivot(kept: seq<Sample>, m: seq<seq<Prediction>>, k: nat, i: nat, n: nat)
    requires IsSquare(m, |kept|) && k < |kept| && i < |kept| && i != k && k < n <= |kept|
    requires PivotAt(m, |kept|, k)
    ensures Term(kept, m, i, n) == Finite(0.0)
  {
    if n - 1 == k {
      TermFinite(kept, m, i, n - 1);
      TimesZero(Term(kept, m, i, n - 1));
    } else {
      TermOffPivot(kept, m, k, i, n - 1);
      if n - 1 != i {
        TimesZero(m[i][n - 1]);
      }
    }
  }

  lemma {:induction false} AccumulateAtPivot(kept: seq<Sample>, m: seq<seq<Prediction>>, k: nat, n: nat)
    requires IsSquare(m, |kept|) && k < |kept| && n <= |kept|
    requires PivotAt(m, |kept|, k)
    ensures Accumulate(kept, m, n) == Finite(if k < n then kept[k].output else 0.0)
  {
    if n > 0 {
      AccumulateAtPivot(kept, m, k, n - 1);
      if n - 1 == k {
        TermAtPivot(kept, m, k, |kept|);
        PlusZero(Finite(kept[k].output));
      } else {
        TermOffPivot(kept, m, k, n - 1, |kept|);
        PlusZero(Accumulate(kept, m, n - 1));
      }
    }
  }

  /** The ratio of neighbour `k` against any other is 1 when the query sits
      on `k`; that of any other neighbour against `k` is 0. */
  lemma RatiosAtQuery(x: seq<real>, kept: seq<Sample>, dx: seq<real>, k: nat)
    requires k < |kept|
    requires x == kept[k].input
    requires !ZeroDenominator(kept, dx)
    ensures PivotAt(Ratios(x, kept, dx), |kept|, k)
  {
    var m := Ratios(x, kept, dx);
    forall j | 0 <= j < |kept| && j != k
      ensures m[k][j] == Finite(1.0)
    {
      QuotientSelf(Denominator(kept, k, j, dx));
    }
    forall i | 0 <= i < |kept| && i != k
      ensures m[i][k] == Finite(0.0)
    {
      DiffSelf(x);
      ScalarZeroLeft(Diff(x, kept[k].input), Diff(kept[i].input, kept[k].input), dx);
      QuotientOfZero(Denominator(kept, i, k, dx));
    }
    forall i, j | 0 <= i < |kept| && 0 <= j < |kept| && i != j
      ensures m[i][j].Finite?
    {
      RatioUndefinedIff(x, kept, dx, i, j);
    }
  }

  /** The combination interpolates: a query equal to a kept neighbour's input
      gets that neighbour's output back, whenever no ratio divides by zero. */
  lemma CombineInterpolates(x: seq<real>, kept: seq<Sample>, dx: seq<real>, k: nat)
    requires k < |kept|
    requires x == kept[k].input
    requires !ZeroDenominator(kept, dx)
    ensures Combine(x, kept, dx) == Finite(kept[k].output)
  {
    RatiosAtQuery(x, kept, dx, k);
    AccumulateAtPivot(kept, Ratios(x, kept, dx), k, |kept|);
  }
}
