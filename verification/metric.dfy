/** The two metrics of the predictor: a scale-weighted squared distance that
    zero-pads the shorter vector (`delta`) and a scale-weighted inner product
    that sums only over the common length (`scalar`). A dimension contributes
    only when it lies inside the scale vector and its scale is positive. */
module Metric {
  import opened Vectors

  /** Dimension `i` takes part in a metric under scale `dx`. */
  predicate Counted(dx: seq<real>, i: nat) {
    i < |dx| && dx[i] > 0.0
  }

  /** No dimension of `dx` is counted. */
  predicate NoPositiveScale(dx: seq<real>) {
    forall i :: 0 <= i < |dx| ==> dx[i] <= 0.0
  }

  /** Contribution of dimension `i` to the distance, with both vectors padded. */
  function DeltaTerm(a: seq<real>, b: seq<real>, dx: seq<real>, i: nat): real {
    if Counted(dx, i) then Sq(Pad(a, i) - Pad(b, i)) / dx[i] else 0.0
  }

  /** Sum of the distance terms over the dimensions below `n`. */
  function DeltaUpTo(a: seq<real>, b: seq<real>, dx: seq<real>, n: nat): real {
    if n == 0 then 0.0 else DeltaUpTo(a, b, dx, n - 1) + DeltaTerm(a, b, dx, n - 1)
  }

  /** Weighted squared distance: every dimension below the longer length. */
  function Delta(a: seq<real>, b: seq<real>, dx: seq<real>): real {
    DeltaUpTo(a, b, dx, Max(|a|, |b|))
  }

  /** Contribution of dimension `i` to the projection; only called below the
      common length of `a` and `b`. */
  function ScalarTerm(a: seq<real>, b: seq<real>, dx: seq<real>, i: nat): real
    requires i < |a| && i < |b|
  {
    if Counted(dx, i) then a[i] * b[i] / dx[i] else 0.0
  }

  function ScalarUpTo(a: seq<real>, b: seq<real>, dx: seq<real>, n: nat): real
    requires n <= |a| && n <= |b|
  {
    if n == 0 then 0.0 else ScalarUpTo(a, b, dx, n - 1) + ScalarTerm(a, b, dx, n - 1)
  }

  /** Weighted inner product over the overlap of `a`, `b` and `dx`. */
  function Scalar(a: seq<real>, b: seq<real>, dx: seq<real>): real {
    ScalarUpTo(a, b, dx, Min(Min(|a|, |b|), |dx|))
  }

  // ---------------------------------------------------------------------
  // The source's loops

  /** `delta` as written: a loop over the common length of the three vectors,
      then a loop over the rest of `a`, then one over the rest of `b`, each
      stopping at the end of `dx`. It computes the zero-padded sum. */
  method ComputeDelta(a: seq<real>, b: seq<real>, dx: seq<real>) returns (s: real)
    ensures s == Delta(a, b, dx)
  {
    s := 0.0;
    var i := 0;
    while i < |a| && i < |b| && i < |dx|
      invariant i <= |a| && i <= |b| && i <= |dx|
      invariant s == DeltaUpTo(a, b, dx, i)
    {
      if dx[i] > 0.0 {
        s := s + Sq(a[i] - b[i]) / dx[i];
      }
      i := i + 1;
    }
    while i < |a| && i < |dx|
      invariant i <= Max(|a|, |b|) && i <= |dx|
      invariant i < |a| && i < |dx| ==> |b| <= i
      invariant s == DeltaUpTo(a, b, dx, i)
    {
      if dx[i] > 0.0 {
        s := s + Sq(a[i]) / dx[i];
      }
      i := i + 1;
    }
    while i < |b| && i < |dx|
      invariant i <= Max(|a|, |b|) && i <= |dx|
      invariant |a| <= i || |dx| <= i
      invariant s == DeltaUpTo(a, b, dx, i)
    {
      if dx[i] > 0.0 {
        SqNegate(b[i]);
        s := s + Sq(b[i]) / dx[i];
      }
      i := i + 1;
    }
    DeltaBeyondScale(a, b, dx, i, Max(|a|, |b|));
  }

  /** `scalar` as written: one loop over the common length of the three vectors. */
  method ComputeScalar(a: seq<real>, b: seq<real>, dx: seq<real>) returns (s: real)
    ensures s == Scalar(a, b, dx)
  {
    s := 0.0;
    var i := 0;
    while i < |a| && i < |b| && i < |dx|
      invariant i <= |a| && i <= |b| && i <= |dx|
      invariant s == ScalarUpTo(a, b, dx, i)
    {
      if dx[i] > 0.0 {
        s := s + (a[i] * b[i]) / dx[i];
      }
      i := i + 1;
    }
  }

  // ---------------------------------------------------------------------
  // Properties of the distance

  /** Dimensions at or past the end of `dx` add nothing to the distance. */
  lemma {:induction false} DeltaBeyondScale(a: seq<real>, b: seq<real>, dx: seq<real>, m: nat, n: nat)
    requires m <= n
    requires |dx| <= m || Max(|a|, |b|) <= m
    ensures DeltaUpTo(a, b, dx, n) == DeltaUpTo(a, b, dx, m)
    decreases n
  {
    if n > m {
      DeltaBeyondScale(a, b, dx, m, n - 1);
      assert !Counted(dx, n - 1) || Pad(a, n - 1) - Pad(b, n - 1) == 0.0;
    }
  }

  lemma {:induction false} DeltaUpToNonNegative(a: seq<real>, b: seq<real>, dx: seq<real>, n: nat)
    ensures DeltaUpTo(a, b, dx, n) >= 0.0
  {
    if n > 0 {
      DeltaUpToNonNegative(a, b, dx, n - 1);
      DeltaTermNonNegative(a, b, dx, n - 1);
    }
  }

  lemma DeltaTermNonNegative(a: seq<real>, b: seq<real>, dx: seq<real>, i: nat)
    ensures DeltaTerm(a, b, dx, i) >= 0.0
  {
    if Counted(dx, i) {
      assert Sq(Pad(a, i) - Pad(b, i)) >= 0.0;
    }
  }

  /** The distance is never negative. */
  lemma DeltaNonNegative(a: seq<real>, b: seq<real>, dx: seq<real>)
    ensures Delta(a, b, dx) >= 0.0
  {
    DeltaUpToNonNegative(a, b, dx, Max(|a|, |b|));
  }

  lemma {:induction false} DeltaUpToSymmetric(a: seq<real>, b: seq<real>, dx: seq<real>, n: nat)
    ensures DeltaUpTo(a, b, dx, n) == DeltaUpTo(b, a, dx, n)
  {
    if n > 0 {
      DeltaUpToSymmetric(a, b, dx, n - 1);
      var d := Pad(a, n - 1) - Pad(b, n - 1);
      assert Sq(d) == Sq(-d);
    }
  }

  /** Swapping the two vectors swaps the roles of the source's second and
      third loops and leaves the distance unchanged. */
  lemma DeltaSymmetric(a: seq<real>, b: seq<real>, dx: seq<real>)
    ensures Delta(a, b, dx) == Delta(b, a, dx)
  {
    DeltaUpToSymmetric(a, b, dx, Max(|a|, |b|));
  }

  lemma {:induction false} DeltaUpToSelf(a: seq<real>, dx: seq<real>, n: nat)
    ensures DeltaUpTo(a, a, dx, n) == 0.0
  {
    if n > 0 {
      DeltaUpToSelf(a, dx, n - 1);
    }
  }

  /** Every vector is at distance zero from itself, whatever the scale. */
  lemma DeltaSelf(a: seq<real>, dx: seq<real>)
    ensures Delta(a, a, dx) == 0.0
  {
    DeltaUpToSelf(a, dx, |a|);
  }

  // ---------------------------------------------------------------------
  // Properties of the projection

  lemma {:induction false} ScalarUpToSymmetric(a: seq<real>, b: seq<real>, dx: seq<real>, n: nat)
    requires n <= |a| && n <= |b|
    ensures ScalarUpTo(a, b, dx, n) == ScalarUpTo(b, a, dx, n)
  {
    if n > 0 {
      ScalarUpToSymmetric(a, b, dx, n - 1);
      assert a[n - 1] * b[n - 1] == b[n - 1] * a[n - 1];
    }
  }

  /** The projection is symmetric in its two vectors. */
  lemma ScalarSymmetric(a: seq<real>, b: seq<real>, dx: seq<real>)
    ensures Scalar(a, b, dx) == Scalar(b, a, dx)
  {
    ScalarUpToSymmetric(a, b, dx, Min(Min(|a|, |b|), |dx|));
  }

  lemma {:induction false} ScalarUpToSquareNonNegative(a: seq<real>, dx: seq<real>, n: nat)
    requires n <= |a|
    ensures ScalarUpTo(a, a, dx, n) >= 0.0
  {
    if n > 0 {
      ScalarUpToSquareNonNegative(a, dx, n - 1);
      assert a[n - 1] * a[n - 1] >= 0.0;
    }
  }

  /** The projection of a vector on itself is a weighted squared norm. */
  lemma ScalarSquareNonNegative(a: seq<real>, dx: seq<real>)
    ensures Scalar(a, a, dx) >= 0.0
  {
    ScalarUpToSquareNonNegative(a, dx, Min(|a|, |dx|));
  }

  lemma {:induction false} ScalarUpToZeroLeft(a: seq<real>, b: seq<real>, dx: seq<real>, n: nat)
    requires n <= |a| && n <= |b|
    requires AllZero(a)
    ensures ScalarUpTo(a, b, dx, n) == 0.0
  {
    if n > 0 {
      ScalarUpToZeroLeft(a, b, dx, n - 1);
    }
  }

  /** Projecting the zero vector gives zero. */
  lemma ScalarZeroLeft(a: seq<real>, b: seq<real>, dx: seq<real>)
    requires AllZero(a)
    ensures Scalar(a, b, dx) == 0.0
  {
    ScalarUpToZeroLeft(a, b, dx, Min(Min(|a|, |b|), |dx|));
  }

  // ---------------------------------------------------------------------
  // The scale guard, padding against truncation

  lemma {:induction false} NoPositiveScaleDeltaUpTo(a: seq<real>, b: seq<real>, dx: seq<real>, n: nat)
    requires NoPositiveScale(dx)
    ensures DeltaUpTo(a, b, dx, n) == 0.0
  {
    if n > 0 {
      NoPositiveScaleDeltaUpTo(a, b, dx, n - 1);
    }
  }

  lemma {:induction false} NoPositiveScaleScalarUpTo(a: seq<real>, b: seq<real>, dx: seq<real>, n: nat)
    requires n <= |a| && n <= |b|
    requires NoPositiveScale(dx)
    ensures ScalarUpTo(a, b, dx, n) == 0.0
  {
    if n > 0 {
      NoPositiveScaleScalarUpTo(a, b, dx, n - 1);
    }
  }

  /** With no positive scale (in particular with an empty scale vector) both
      metrics vanish for every pair of vectors. */
  lemma NoPositiveScaleMetricsVanish(a: seq<real>, b: seq<real>, dx: seq<real>)
    requires NoPositiveScale(dx)
    ensures Delta(a, b, dx) == 0.0
    ensures Scalar(a, b, dx) == 0.0
  {
    NoPositiveScaleDeltaUpTo(a, b, dx, Max(|a|, |b|));
    NoPositiveScaleScalarUpTo(a, b, dx, Min(Min(|a|, |b|), |dx|));
  }

  lemma {:induction false} DeltaUpToAgainstEmpty(a: seq<real>, dx: seq<real>, n: nat)
    requires n <= |a|
    ensures DeltaUpTo(a, [], dx, n) == ScalarUpTo(a, a, dx, n)
  {
    if n > 0 {
      DeltaUpToAgainstEmpty(a, dx, n - 1);
      assert Sq(a[n - 1] - 0.0) == a[n - 1] * a[n - 1];
    }
  }

  /** The asymmetry between the metrics: against the empty vector the
      distance pads and sees the full weighted norm of `a`, while the
      projection truncates to nothing. */
  lemma DeltaPadsScalarTruncates(a: seq<real>, dx: seq<real>)
    ensures Delta(a, [], dx) == Scalar(a, a, dx)
    ensures Scalar(a, [], dx) == 0.0
  {
    DeltaUpToAgainstEmpty(a, dx, Min(|a|, |dx|));
    DeltaBeyondScale(a, [], dx, Min(|a|, |dx|), |a|);
  }

  lemma {:induction false} DeltaUpToEqualLengths(a: seq<real>, b: seq<real>, dx: seq<real>, n: nat)
    requires |a| == |b| && n <= |a|
    ensures DeltaUpTo(a, b, dx, n) == ScalarUpTo(Diff(a, b), Diff(a, b), dx, n)
  {
    if n > 0 {
      DeltaUpToEqualLengths(a, b, dx, n - 1);
    }
  }

  /** On vectors of equal length the distance is the projection of their
      difference on itself. */
  lemma DeltaEqualLengths(a: seq<real>, b: seq<real>, dx: seq<real>)
    requires |a| == |b|
    ensures Delta(a, b, dx) == Scalar(Diff(a, b), Diff(a, b), dx)
  {
    DeltaUpToEqualLengths(a, b, dx, Min(|a|, |dx|));
    DeltaBeyondScale(a, b, dx, Min(|a|, |dx|), |a|);
  }
}
