/** Vectors of reals as the predictor sees them: ragged sequences that are
    either zero-padded (for distances) or truncated to the common length
    (for projections and differences). */
module Vectors {

  function Min(a: nat, b: nat): nat {
    if a <= b then a else b
  }

  function Max(a: nat, b: nat): nat {
    if a <= b then b else a
  }

  function Sq(x: real): real {
    x * x
  }

  lemma SqNegate(x: real)
    ensures Sq(-x) == Sq(x)
    ensures Sq(0.0 - x) == Sq(x)
  {
  }

  /** The i-th coordinate of `v`, reading 0 past its end. */
  function Pad(v: seq<real>, i: nat): (r: real)
    ensures i < |v| ==> r == v[i]
    ensures |v| <= i ==> r == 0.0
  {
    if i < |v| then v[i] else 0.0
  }

  /** Elementwise `a - b` over the overlap of the two lengths, without padding. */
  function Diff(a: seq<real>, b: seq<real>): (r: seq<real>)
    ensures |r| == Min(|a|, |b|)
    ensures forall k :: 0 <= k < |r| ==> r[k] == a[k] - b[k]
  {
    seq(Min(|a|, |b|), k requires 0 <= k < Min(|a|, |b|) => a[k] - b[k])
  }

  predicate AllZero(v: seq<real>) {
    forall k :: 0 <= k < |v| ==> v[k] == 0.0
  }

  /** A vector minus itself is the zero vector of the same length. */
  lemma DiffSelf(a: seq<real>)
    ensures |Diff(a, a)| == |a|
    ensures AllZero(Diff(a, a))
  {
  }
}
