/** The combination does not depend on the order of the kept neighbours.
    Each kept sample contributes its output times its ratios against the
    other kept samples, and both the products and the final sum commute. So
    the order in which the source's unstable sort leaves tied neighbours
    cannot change the prediction once the set of kept samples is fixed. */
module Reorder {
  import opened History
  import opened Neighbours
  import opened Predictor
  import opened Folds

  /** Ratios of sample `s` against other samples. */
  function RatioAgainst(x: seq<real>, dx: seq<real>, s: Sample): Sample -> Prediction {
    (t: Sample) => Ratio(x, s.input, t.input, dx)
  }

  /** `c` without its element at position `i`. */
  function Without(c: seq<Sample>, i: nat): (r: seq<Sample>)
    requires i < |c|
    ensures |r| == |c| - 1
    ensures multiset(r) == multiset(c) - multiset{c[i]}
  {
    assert c == c[..i] + [c[i]] + c[i + 1..];
    c[..i] + c[i + 1..]
  }

  /** `c` without the first occurrence of `s`; `c` itself when `s` is absent. */
  function RemoveFirst(c: seq<Sample>, s: Sample): (r: seq<Sample>)
    ensures multiset(r) == multiset(c) - multiset{s}
  {
    if c == [] then []
    else if c[0] == s then
      assert c == [c[0]] + c[1..];
      c[1..]
    else
      assert c == [c[0]] + c[1..];
      [c[0]] + RemoveFirst(c[1..], s)
  }

  /** What kept sample `s` adds to the sum: its output times its ratios
      against the rest of `kept`. */
  function Contribution(x: seq<real>, dx: seq<real>, kept: seq<Sample>, s: Sample): Prediction {
    Times(Finite(s.output), Fold(Product, RatioAgainst(x, dx, s), RemoveFirst(kept, s)))
  }

  function ContributionIn(x: seq<real>, dx: seq<real>, kept: seq<Sample>): Sample -> Prediction {
    (s: Sample) => Contribution(x, dx, kept, s)
  }

  /** The first `n` kept samples with position `i` left out. */
  function SkipUpTo(kept: seq<Sample>, i: nat, n: nat): seq<Sample>
    requires i < |kept| && n <= |kept|
  {
    if i < n then kept[..i] + kept[i + 1..n] else kept[..n]
  }

  // ---------------------------------------------------------------------
  // The loops as folds

  /** The inner loop is a product fold over the other neighbours, started
      from the neighbour's output. */
  lemma {:induction false} TermAsFold(kept: seq<Sample>, m: seq<seq<Prediction>>, i: nat, n: nat, f: Sample -> Prediction)
    requires IsSquare(m, |kept|) && i < |kept| && n <= |kept|
    requires forall j :: 0 <= j < |kept| ==> m[i][j] == f(kept[j])
    ensures Term(kept, m, i, n) == Times(Finite(kept[i].output), Fold(Product, f, SkipUpTo(kept, i, n)))
  {
    var y := Finite(kept[i].output);
    if n == 0 {
      TimesOne(y);
    } else if n - 1 == i {
      TermAsFold(kept, m, i, n - 1, f);
      assert SkipUpTo(kept, i, n) == SkipUpTo(kept, i, n - 1);
    } else {
      TermAsFold(kept, m, i, n - 1, f);
      var before := SkipUpTo(kept, i, n - 1);
      assert SkipUpTo(kept, i, n) == before + [kept[n - 1]];
      FoldSnoc(Product, f, before, kept[n - 1]);
      ApplyAssociates(Product, y, Fold(Product, f, before), f(kept[n - 1]));
    }
  }

  /** The outer loop is a sum fold of the per-neighbour products. */
  lemma {:induction false} AccumulateAsFold(kept: seq<Sample>, m: seq<seq<Prediction>>, n: nat, g: Sample -> Prediction)
    requires IsSquare(m, |kept|) && n <= |kept|
    requires forall i :: 0 <= i < |kept| ==> Term(kept, m, i, |kept|) == g(kept[i])
    ensures Accumulate(kept, m, n) == Fold(Sum, g, kept[..n])
  {
    if n > 0 {
      AccumulateAsFold(kept, m, n - 1, g);
      assert kept[..n] == kept[..n - 1] + [kept[n - 1]];
      FoldSnoc(Sum, g, kept[..n - 1], kept[n - 1]);
    }
  }

  lemma RatiosRow(x: seq<real>, kept: seq<Sample>, dx: seq<real>, i: nat)
    requires i < |kept|
    ensures forall j :: 0 <= j < |kept| ==> Ratios(x, kept, dx)[i][j] == RatioAgainst(x, dx, kept[i])(kept[j])
  {
  }

  /** The product the inner loop builds for neighbour `i` is that sample's
      contribution. */
  lemma TermIsContribution(x: seq<real>, kept: seq<Sample>, dx: seq<real>, i: nat)
    requires i < |kept|
    ensures Term(kept, Ratios(x, kept, dx), i, |kept|) == Contribution(x, dx, kept, kept[i])
  {
    RatiosRow(x, kept, dx, i);
    TermAsRowFold(kept, Ratios(x, kept, dx), i, RatioAgainst(x, dx, kept[i]));
  }

  lemma TermAsRowFold(kept: seq<Sample>, m: seq<seq<Prediction>>, i: nat, f: Sample -> Prediction)
    requires IsSquare(m, |kept|) && i < |kept|
    requires forall j :: 0 <= j < |kept| ==> m[i][j] == f(kept[j])
    ensures Term(kept, m, i, |kept|) == Times(Finite(kept[i].output), Fold(Product, f, RemoveFirst(kept, kept[i])))
  {
    TermAsFold(kept, m, i, |kept|, f);
    assert SkipUpTo(kept, i, |kept|) == Without(kept, i);
    FoldPermutation(Product, f, Without(kept, i), RemoveFirst(kept, kept[i]));
  }

  /** The combination is the sum of the kept samples' contributions. */
  lemma CombineAsFold(x: seq<real>, kept: seq<Sample>, dx: seq<real>)
    ensures Combine(x, kept, dx) == Fold(Sum, ContributionIn(x, dx, kept), kept)
  {
    var g := ContributionIn(x, dx, kept);
    forall i | 0 <= i < |kept|
      ensures Term(kept, Ratios(x, kept, dx), i, |kept|) == g(kept[i])
    {
      TermIsContribution(x, kept, dx, i);
    }
    AccumulateAsFold(kept, Ratios(x, kept, dx), |kept|, g);
    assert kept[..|kept|] == kept;
  }

  // ---------------------------------------------------------------------
  // Order independence

  lemma ContributionPermutation(x: seq<real>, dx: seq<real>, a: seq<Sample>, b: seq<Sample>, s: Sample)
    requires multiset(a) == multiset(b)
    ensures Contribution(x, dx, a, s) == Contribution(x, dx, b, s)
  {
    FoldPermutation(Product, RatioAgainst(x, dx, s), RemoveFirst(a, s), RemoveFirst(b, s));
  }

  /** Reordering the kept neighbours does not change the combination. */
  lemma CombinePermutation(x: seq<real>, a: seq<Sample>, b: seq<Sample>, dx: seq<real>)
    requires multiset(a) == multiset(b)
    ensures Combine(x, a, dx) == Combine(x, b, dx)
  {
    var ga := ContributionIn(x, dx, a);
    var gb := ContributionIn(x, dx, b);
    CombineAsFold(x, a, dx);
    CombineAsFold(x, b, dx);
    FoldPermutation(Sum, ga, a, b);
    forall k | 0 <= k < |b|
      ensures ga(b[k]) == gb(b[k])
    {
      ContributionPermutation(x, dx, a, b, b[k]);
    }
    FoldCongruence(Sum, ga, gb, b);
  }

  // ---------------------------------------------------------------------
  // Consequences for the selection

  lemma SamplesConcat(a: seq<Neighbour>, b: seq<Neighbour>)
    ensures Samples(a + b) == Samples(a) + Samples(b)
  {
  }

  /** Neighbour lists with the same elements have the same samples. */
  lemma {:induction false} SamplesPermutation(s: seq<Neighbour>, t: seq<Neighbour>)
    requires multiset(s) == multiset(t)
    ensures multiset(Samples(s)) == multiset(Samples(t))
    decreases |s|
  {
    if s == [] {
      assert |t| == |multiset(t)| == 0;
    } else {
      var s' := s[..|s| - 1];
      var v := s[|s| - 1];
      assert s == s' + [v];
      assert v in multiset(t);
      var k :| 0 <= k < |t| && t[k] == v;
      assert t == t[..k] + [v] + t[k + 1..];
      var rest := t[..k] + t[k + 1..];
      calc {
        multiset(t);
        multiset(t[..k]) + multiset{v} + multiset(t[k + 1..]);
        multiset(rest) + multiset{v};
      }
      assert multiset(s') == multiset(s) - multiset{v};
      assert multiset(rest) == multiset(t) - multiset{v};
      SamplesPermutation(s', rest);
      SamplesConcat(s', [v]);
      SamplesConcat(t[..k], [v]);
      SamplesConcat(t[..k] + [v], t[k + 1..]);
      SamplesConcat(t[..k], t[k + 1..]);
    }
  }

  lemma RankSamples(x: seq<real>, h: seq<Sample>, dx: seq<real>)
    ensures Samples(Rank(x, h, dx)) == h
  {
  }

  /** With `p >= n` every admissible selection keeps the whole history, so
      the prediction is the combination of the history in its own order,
      whatever order the sort left it in. */
  lemma WholeHistoryKept(x: seq<real>, h: seq<Sample>, dx: seq<real>, p: nat, sel: seq<Neighbour>)
    requires IsSelection(x, h, dx, p, sel)
    requires |h| <= p
    ensures Combine(x, Samples(sel), dx) == Combine(x, h, dx)
  {
    SelectionProperties(x, h, dx, p, sel);
    SamplesPermutation(sel, Rank(x, h, dx));
    RankSamples(x, h, dx);
    CombinePermutation(x, Samples(sel), h, dx);
  }

  /** With `p >= n` the prediction is the combination over the whole
      history, in history order. */
  lemma PredictWholeHistory(x: seq<real>, h: seq<Sample>, dx: seq<real>, p: nat)
    requires |h| <= p
    ensures Predict(x, h, dx, p) == Combine(x, h, dx)
  {
    WholeHistoryKept(x, h, dx, p, SelectNeighbours(x, h, dx, p));
  }
}
