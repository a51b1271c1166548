/** A worked example: four history samples in the unit square, unit scale,
    query at the centre and three neighbours kept. */
module Scenario {
  import opened Vectors
  import opened History
  import opened Metric
  import opened Neighbours
  import opened Predictor
  import opened Reorder

  /** Weighted inner product of two planar vectors under unit scale. */
  lemma ScalarUnitPlane(a: seq<real>, b: seq<real>)
    requires |a| == 2 && |b| == 2
    ensures Scalar(a, b, [1.0, 1.0]) == a[0] * b[0] + a[1] * b[1]
  {
    var dx := [1.0, 1.0];
    assert Counted(dx, 0) && Counted(dx, 1);
    assert ScalarUpTo(a, b, dx, 2) == ScalarUpTo(a, b, dx, 1) + ScalarTerm(a, b, dx, 1);
    assert ScalarUpTo(a, b, dx, 1) == ScalarUpTo(a, b, dx, 0) + ScalarTerm(a, b, dx, 0);
  }

  lemma RatioPlane(x: seq<real>, xi: seq<real>, xj: seq<real>, num: real, den: real)
    requires |x| == 2 && |xi| == 2 && |xj| == 2
    requires num == (x[0] - xj[0]) * (xi[0] - xj[0]) + (x[1] - xj[1]) * (xi[1] - xj[1])
    requires den == (xi[0] - xj[0]) * (xi[0] - xj[0]) + (xi[1] - xj[1]) * (xi[1] - xj[1])
    requires den != 0.0
    ensures Ratio(x, xi, xj, [1.0, 1.0]) == Finite(num / den)
  {
    ScalarUnitPlane(Diff(x, xj), Diff(xi, xj));
    ScalarUnitPlane(Diff(xi, xj), Diff(xi, xj));
  }

  /** Combining the corner samples (0,0) -> 0, (1,0) -> 1 and (0,1) -> 1 at
      the centre of the square gives 0.5. */
  lemma CentreOfSquare()
    ensures Combine([0.5, 0.5], [Sample([0.0, 0.0], 0.0), Sample([1.0, 0.0], 1.0), Sample([0.0, 1.0], 1.0)], [1.0, 1.0])
            == Finite(0.5)
  {
    var x := [0.5, 0.5];
    var kept := [Sample([0.0, 0.0], 0.0), Sample([1.0, 0.0], 1.0), Sample([0.0, 1.0], 1.0)];
    var dx := [1.0, 1.0];
    var m := Ratios(x, kept, dx);
    RatioPlane(x, kept[0].input, kept[1].input, 0.5, 1.0);
    RatioPlane(x, kept[0].input, kept[2].input, 0.5, 1.0);
    RatioPlane(x, kept[1].input, kept[0].input, 0.5, 1.0);
    RatioPlane(x, kept[1].input, kept[2].input, 1.0, 2.0);
    RatioPlane(x, kept[2].input, kept[0].input, 0.5, 1.0);
    RatioPlane(x, kept[2].input, kept[1].input, 1.0, 2.0);
    assert m[0][1] == Finite(0.5) && m[0][2] == Finite(0.5);
    assert m[1][0] == Finite(0.5) && m[1][2] == Finite(0.5);
    assert m[2][0] == Finite(0.5) && m[2][1] == Finite(0.5);
    assert Term(kept, m, 0, 1) == Finite(0.0);
    assert Term(kept, m, 0, 2) == Times(Finite(0.0), Finite(0.5)) == Finite(0.0);
    assert Term(kept, m, 0, 3) == Times(Finite(0.0), Finite(0.5)) == Finite(0.0);
    assert Term(kept, m, 1, 1) == Times(Finite(1.0), Finite(0.5)) == Finite(0.5);
    assert Term(kept, m, 1, 2) == Finite(0.5);
    assert Term(kept, m, 1, 3) == Times(Finite(0.5), Finite(0.5)) == Finite(0.25);
    assert Term(kept, m, 2, 1) == Times(Finite(1.0), Finite(0.5)) == Finite(0.5);
    assert Term(kept, m, 2, 2) == Times(Finite(0.5), Finite(0.5)) == Finite(0.25);
    assert Term(kept, m, 2, 3) == Finite(0.25);
    assert Accumulate(kept, m, 1) == Finite(0.0);
    assert Accumulate(kept, m, 2) == Finite(0.25);
    assert Accumulate(kept, m, 3) == Finite(0.5);
  }

  /** Squared distance between two planar vectors under unit scale. */
  lemma DeltaUnitPlane(a: seq<real>, b: seq<real>)
    requires |a| == 2 && |b| == 2
    ensures Delta(a, b, [1.0, 1.0]) == Sq(a[0] - b[0]) + Sq(a[1] - b[1])
  {
    var dx := [1.0, 1.0];
    assert Max(|a|, |b|) == 2;
    assert Counted(dx, 0) && Counted(dx, 1);
    assert DeltaUpTo(a, b, dx, 2) == DeltaUpTo(a, b, dx, 1) + DeltaTerm(a, b, dx, 1);
    assert DeltaUpTo(a, b, dx, 1) == DeltaUpTo(a, b, dx, 0) + DeltaTerm(a, b, dx, 0);
  }

  function Corners(): seq<Sample> {
    [Sample([0.0, 0.0], 0.0), Sample([1.0, 0.0], 1.0), Sample([0.0, 1.0], 1.0), Sample([2.0, 2.0], 4.0)]
  }

  /** The three corners are at distance 0.5 from the centre, the far sample
      at 4.5. */
  lemma CornerDistances()
    ensures Rank([0.5, 0.5], Corners(), [1.0, 1.0]) ==
      [Neighbour(Corners()[0], 0.5), Neighbour(Corners()[1], 0.5),
       Neighbour(Corners()[2], 0.5), Neighbour(Corners()[3], 4.5)]
  {
    var x := [0.5, 0.5];
    var h := Corners();
    DeltaUnitPlane(x, h[0].input);
    DeltaUnitPlane(x, h[1].input);
    DeltaUnitPlane(x, h[2].input);
    DeltaUnitPlane(x, h[3].input);
  }

  /** With three of four neighbours kept, every admissible selection keeps
      exactly the three tied corners, in some order. */
  lemma CornersKept(sel: seq<Neighbour>)
    requires IsSelection([0.5, 0.5], Corners(), [1.0, 1.0], 3, sel)
    ensures multiset(Samples(sel)) == multiset(Corners()[..3])
  {
    var ranked := Rank([0.5, 0.5], Corners(), [1.0, 1.0]);
    SelectionProperties([0.5, 0.5], Corners(), [1.0, 1.0], 3, sel);
    CornersRanked();
    KeepsNear(ranked, sel);
    SamplesPermutation(sel, ranked[..3]);
  }

  /** What the selection argument needs of the ranked corners. */
  lemma CornersRanked()
    ensures var ranked := Rank([0.5, 0.5], Corners(), [1.0, 1.0]);
      && |ranked| == 4
      && (forall i, j :: 0 <= i < j < 4 ==> ranked[i] != ranked[j])
      && (forall i :: 0 <= i < 3 ==> ranked[i].dist < ranked[3].dist)
      && Samples(ranked[..3]) == Corners()[..3]
  {
    CornerDistances();
  }

  /** Three kept out of four distinct neighbours, the last strictly farther
      than the rest: the kept ones are the first three. */
  lemma KeepsNear(ranked: seq<Neighbour>, sel: seq<Neighbour>)
    requires |ranked| == 4 && |sel| == 3
    requires forall i, j :: 0 <= i < j < 4 ==> ranked[i] != ranked[j]
    requires forall i :: 0 <= i < 3 ==> ranked[i].dist < ranked[3].dist
    requires multiset(sel) <= multiset(ranked)
    requires forall n :: n in multiset(ranked) - multiset(sel) ==>
               forall k :: 0 <= k < |sel| ==> sel[k].dist <= n.dist
    ensures multiset(sel) == multiset(ranked[..3])
  {
    var near := ranked[..3];
    var far := ranked[3];
    assert ranked == near + [far];
    if far in multiset(sel) {
      var j :| 0 <= j < |sel| && sel[j] == far;
      var k := MissingNear(sel, near, far);
      assert false;
    }
    forall n | n in multiset(sel)
      ensures multiset(sel)[n] <= multiset(near)[n]
    {
      assert multiset(sel)[n] <= multiset(ranked)[n];
    }
    assert multiset(sel) <= multiset(near);
    assert |multiset(sel)| == |multiset(near)| == 3;
    MultisetSubsetSameSize(multiset(sel), multiset(near));
  }

  /** A multiset contained in another of the same size is equal to it. */
  lemma MultisetSubsetSameSize<T>(a: multiset<T>, b: multiset<T>)
    requires a <= b && |a| == |b|
    ensures a == b
  {
    var d := b - a;
    assert b == a + d;
    assert |d| == 0;
  }

  /** When the far neighbour is among three kept, one of three distinct near
      ones is not. */
  lemma MissingNear(sel: seq<Neighbour>, near: seq<Neighbour>, far: Neighbour) returns (k: nat)
    requires |sel| == 3 && |near| == 3
    requires forall i, j :: 0 <= i < j < 3 ==> near[i] != near[j]
    requires far in multiset(sel) && far !in near
    ensures k < 3 && near[k] !in multiset(sel)
  {
    if forall i :: 0 <= i < 3 ==> near[i] in multiset(sel) {
      assert near[0] in multiset(sel) && near[1] in multiset(sel) && near[2] in multiset(sel);
      var a :| 0 <= a < 3 && sel[a] == near[0];
      var b :| 0 <= b < 3 && sel[b] == near[1];
      var c :| 0 <= c < 3 && sel[c] == near[2];
      var f :| 0 <= f < 3 && sel[f] == far;
      assert false;
    }
    k :| 0 <= k < 3 && near[k] !in multiset(sel);
  }

  /** Whatever order the sort leaves the three tied corners in, the
      prediction at the centre is 0.5. */
  lemma CentreOfSquareAnyTieOrder(sel: seq<Neighbour>)
    requires IsSelection([0.5, 0.5], Corners(), [1.0, 1.0], 3, sel)
    ensures Combine([0.5, 0.5], Samples(sel), [1.0, 1.0]) == Finite(0.5)
  {
    CornersKept(sel);
    CombinePermutation([0.5, 0.5], Samples(sel), Corners()[..3], [1.0, 1.0]);
    assert Corners()[..3] == [Sample([0.0, 0.0], 0.0), Sample([1.0, 0.0], 1.0), Sample([0.0, 1.0], 1.0)];
    CentreOfSquare();
  }

  /** With the source's default neighbour count, the prediction at the
      centre is 0.5. */
  lemma CentreOfSquarePrediction()
    ensures Predict([0.5, 0.5], Corners(), [1.0, 1.0], DefaultNeighbourCount) == Finite(0.5)
  {
    CentreOfSquareAnyTieOrder(SelectNeighbours([0.5, 0.5], Corners(), [1.0, 1.0], DefaultNeighbourCount));
  }
}
