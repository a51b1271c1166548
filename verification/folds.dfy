/** Folds of a per-sample value over a sequence of samples, by product or by
    sum. Both operations are associative and commutative on predictions, so
    a fold depends only on the multiset of samples folded. */
module Folds {
  import opened History
  import opened Predictor

  datatype Op = Product | Sum

  function Unit(op: Op): Prediction {
    if op.Product? then Finite(1.0) else Finite(0.0)
  }

  function Apply(op: Op, a: Prediction, b: Prediction): Prediction {
    if op.Product? then Times(a, b) else Plus(a, b)
  }

  /** `f` of every element of `c`, combined by `op` from the left. */
  function Fold(op: Op, f: Sample -> Prediction, c: seq<Sample>): Prediction {
    if c == [] then Unit(op) else Apply(op, Fold(op, f, c[..|c| - 1]), f(c[|c| - 1]))
  }

  lemma ProductSwap(p: real, q: real, r: real)
    ensures (p * q) * r == (p * r) * q
  {
  }

  lemma ProductAssociates(p: real, q: real, r: real)
    ensures (p * q) * r == p * (q * r)
  {
  }

  /** The last two operands of a fold may be exchanged. */
  lemma ApplySwap(op: Op, p: Prediction, q: Prediction, r: Prediction)
    ensures Apply(op, Apply(op, p, q), r) == Apply(op, Apply(op, p, r), q)
  {
    if op.Product? && p.Finite? && q.Finite? && r.Finite? {
      ProductSwap(p.value, q.value, r.value);
    }
  }

  lemma ApplyAssociates(op: Op, p: Prediction, q: Prediction, r: Prediction)
    ensures Apply(op, Apply(op, p, q), r) == Apply(op, p, Apply(op, q, r))
  {
    if op.Product? && p.Finite? && q.Finite? && r.Finite? {
      ProductAssociates(p.value, q.value, r.value);
    }
  }

  lemma FoldSnoc(op: Op, f: Sample -> Prediction, c: seq<Sample>, v: Sample)
    ensures Fold(op, f, c + [v]) == Apply(op, Fold(op, f, c), f(v))
  {
    assert (c + [v])[..|c|] == c;
  }

  /** Taking an element out of the middle of a fold and applying it last
      changes nothing. */
  lemma {:induction false} FoldRemove(op: Op, f: Sample -> Prediction, a: seq<Sample>, v: Sample, b: seq<Sample>)
    ensures Fold(op, f, a + [v] + b) == Apply(op, Fold(op, f, a + b), f(v))
    decreases |b|
  {
    if b == [] {
      assert a + [v] + b == a + [v];
      assert a + b == a;
      FoldSnoc(op, f, a, v);
    } else {
      var b' := b[..|b| - 1];
      var w := b[|b| - 1];
      assert b == b' + [w];
      assert a + [v] + b == (a + [v] + b') + [w];
      assert a + b == (a + b') + [w];
      FoldSnoc(op, f, a + [v] + b', w);
      FoldRemove(op, f, a, v, b');
      ApplySwap(op, Fold(op, f, a + b'), f(v), f(w));
      FoldSnoc(op, f, a + b', w);
    }
  }

  /** A fold depends only on the multiset of elements folded. */
  lemma {:induction false} FoldPermutation(op: Op, f: Sample -> Prediction, c: seq<Sample>, d: seq<Sample>)
    requires multiset(c) == multiset(d)
    ensures Fold(op, f, c) == Fold(op, f, d)
    decreases |c|
  {
    if c != [] {
      var c' := c[..|c| - 1];
      var v := c[|c| - 1];
      assert c == c' + [v];
      assert v in multiset(d);
      var k :| 0 <= k < |d| && d[k] == v;
      assert d == d[..k] + [v] + d[k + 1..];
      var rest := d[..k] + d[k + 1..];
      calc {
        multiset(d);
        multiset(d[..k] + [v] + d[k + 1..]);
        multiset(d[..k]) + multiset{v} + multiset(d[k + 1..]);
        multiset(rest) + multiset{v};
      }
      assert multiset(c) == multiset(c') + multiset{v};
      assert multiset(c') == multiset(c) - multiset{v};
      assert multiset(rest) == multiset(d) - multiset{v};
      FoldPermutation(op, f, c', rest);
      FoldRemove(op, f, d[..k], v, d[k + 1..]);
    } else {
      assert |d| == |multiset(d)| == 0;
    }
  }

  /** Folds of two functions that agree on every element are equal. */
  lemma {:induction false} FoldCongruence(op: Op, f: Sample -> Prediction, g: Sample -> Prediction, c: seq<Sample>)
    requires forall k :: 0 <= k < |c| ==> f(c[k]) == g(c[k])
    ensures Fold(op, f, c) == Fold(op, g, c)
  {
    if c != [] {
      FoldCongruence(op, f, g, c[..|c| - 1]);
    }
  }
}
