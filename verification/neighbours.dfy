/** Neighbour selection: every history sample is paired with its distance to
    the query, the pairs are sorted by distance, and the first `min(p, n)`
    are kept. The source sorts with an unstable sort, so a selection is any
    distance-sorted permutation of the pairs cut at `min(p, n)`; the model's
    insertion sort yields one of them. */
module Neighbours {
  import opened Vectors
  import opened History
  import opened Metric

  /** A history sample paired with its distance to the query. */
  datatype Neighbour = Neighbour(sample: Sample, dist: real)

  /** Every sample of `h`, in history order, with its distance to `x`. */
  function Rank(x: seq<real>, h: seq<Sample>, dx: seq<real>): seq<Neighbour> {
    seq(|h|, k requires 0 <= k < |h| => Neighbour(h[k], Delta(x, h[k].input, dx)))
  }

  predicate SortedByDistance(s: seq<Neighbour>) {
    forall i, j :: 0 <= i < j < |s| ==> s[i].dist <= s[j].dist
  }

  /** The samples of a neighbour list, in its order. */
  function Samples(s: seq<Neighbour>): (r: seq<Sample>)
    ensures |r| == |s|
    ensures forall k :: 0 <= k < |s| ==> r[k] == s[k].sample
  {
    seq(|s|, k requires 0 <= k < |s| => s[k].sample)
  }

  /** One outcome the source's sort may produce: the ranked pairs in some
      order sorted by distance, cut at `min(p, n)`. */
  ghost predicate IsSelection(x: seq<real>, h: seq<Sample>, dx: seq<real>, p: nat, sel: seq<Neighbour>) {
    exists order: seq<Neighbour> ::
      && multiset(order) == multiset(Rank(x, h, dx))
      && SortedByDistance(order)
      && |order| == |h|
      && sel == order[..Min(p, |h|)]
  }

  // ---------------------------------------------------------------------
  // Sorting

  /** Inserts `n` before the first element that is not closer than it. */
  function Insert(n: Neighbour, s: seq<Neighbour>): (r: seq<Neighbour>)
    requires SortedByDistance(s)
    ensures SortedByDistance(r)
    ensures multiset(r) == multiset(s) + multiset{n}
    ensures |r| == |s| + 1
    ensures r[0] == n || (s != [] && r[0] == s[0])
  {
    if s == [] then [n]
    else if n.dist <= s[0].dist then
      SortedCons(n, s);
      [n] + s
    else
      var t := Insert(n, s[1..]);
      assert s == [s[0]] + s[1..];
      SortedCons(s[0], t);
      [s[0]] + t
  }

  lemma SortedCons(a: Neighbour, t: seq<Neighbour>)
    requires SortedByDistance(t)
    requires t != [] ==> a.dist <= t[0].dist
    ensures SortedByDistance([a] + t)
  {
    var r := [a] + t;
    forall i, j | 0 <= i < j < |r|
      ensures r[i].dist <= r[j].dist
    {
      if i == 0 && j > 1 {
        assert t[0].dist <= t[j - 1].dist;
      }
    }
  }

  /** Insertion sort by distance: a sorted permutation of `s`. */
  function SortByDistance(s: seq<Neighbour>): (r: seq<Neighbour>)
    ensures SortedByDistance(r)
    ensures multiset(r) == multiset(s)
    ensures |r| == |s|
  {
    if s == [] then []
    else
      assert s == [s[0]] + s[1..];
      Insert(s[0], SortByDistance(s[1..]))
  }

  /** The source's selection step: rank, sort, keep the first `min(p, n)`. */
  function SelectNeighbours(x: seq<real>, h: seq<Sample>, dx: seq<real>, p: nat): (sel: seq<Neighbour>)
    ensures IsSelection(x, h, dx, p, sel)
    ensures |sel| == Min(p, |h|)
    ensures SortedByDistance(sel)
    ensures multiset(sel) <= multiset(Rank(x, h, dx))
  {
    var order := SortByDistance(Rank(x, h, dx));
    var sel := order[..Min(p, |h|)];
    SelectionProperties(x, h, dx, p, sel);
    sel
  }

  // ---------------------------------------------------------------------
  // What every selection satisfies

  /** Any admissible selection has `min(p, n)` elements sorted by distance,
      is a sub-multiset of the ranked history, pairs each sample with its
      true distance, and leaves out no pair strictly closer than one it
      keeps. With `p >= n` it keeps the whole history. */
  lemma SelectionProperties(x: seq<real>, h: seq<Sample>, dx: seq<real>, p: nat, sel: seq<Neighbour>)
    requires IsSelection(x, h, dx, p, sel)
    ensures |sel| == Min(p, |h|)
    ensures SortedByDistance(sel)
    ensures multiset(sel) <= multiset(Rank(x, h, dx))
    ensures |h| <= p ==> multiset(sel) == multiset(Rank(x, h, dx))
    ensures forall k :: 0 <= k < |sel| ==> sel[k].dist == Delta(x, sel[k].sample.input, dx)
    ensures forall n :: n in multiset(Rank(x, h, dx)) - multiset(sel) ==>
              forall k :: 0 <= k < |sel| ==> sel[k].dist <= n.dist
  {
    var order := SelectionOrder(x, h, dx, p, sel);
    SelectionDistances(x, h, dx, sel);
    SelectionKeepsNearest(order, sel);
  }

  /** Picks the sorted permutation an admissible selection was cut from. */
  lemma SelectionOrder(x: seq<real>, h: seq<Sample>, dx: seq<real>, p: nat, sel: seq<Neighbour>)
      returns (order: seq<Neighbour>)
    requires IsSelection(x, h, dx, p, sel)
    ensures multiset(order) == multiset(Rank(x, h, dx))
    ensures SortedByDistance(order)
    ensures |order| == |h|
    ensures sel == order[..Min(p, |h|)]
    ensures |sel| == Min(p, |h|)
    ensures SortedByDistance(sel)
    ensures multiset(order) == multiset(sel) + multiset(order[|sel|..])
    ensures multiset(sel) <= multiset(Rank(x, h, dx))
    ensures |h| <= p ==> multiset(sel) == multiset(Rank(x, h, dx))
  {
    order :| && multiset(order) == multiset(Rank(x, h, dx))
             && SortedByDistance(order)
             && |order| == |h|
             && sel == order[..Min(p, |h|)];
    var m := Min(p, |h|);
    assert order == order[..m] + order[m..];
    if |h| <= p {
      assert sel == order;
    }
  }

  /** Every pair drawn from the ranked history carries the sample's distance. */
  lemma SelectionDistances(x: seq<real>, h: seq<Sample>, dx: seq<real>, sel: seq<Neighbour>)
    requires multiset(sel) <= multiset(Rank(x, h, dx))
    ensures forall k :: 0 <= k < |sel| ==> sel[k].dist == Delta(x, sel[k].sample.input, dx)
  {
    var ranked := Rank(x, h, dx);
    forall k | 0 <= k < |sel|
      ensures sel[k].dist == Delta(x, sel[k].sample.input, dx)
    {
      assert sel[k] in multiset(sel);
      assert sel[k] in multiset(ranked);
      var i :| 0 <= i < |ranked| && ranked[i] == sel[k];
    }
  }

  /** A prefix of a sorted list is no farther than anything after it. */
  lemma SelectionKeepsNearest(order: seq<Neighbour>, sel: seq<Neighbour>)
    requires SortedByDistance(order)
    requires |sel| <= |order| && sel == order[..|sel|]
    ensures forall n :: n in multiset(order) - multiset(sel) ==>
              forall k :: 0 <= k < |sel| ==> sel[k].dist <= n.dist
  {
    var m := |sel|;
    assert order == order[..m] + order[m..];
    assert multiset(order) == multiset(sel) + multiset(order[m..]);
    forall n | n in multiset(order) - multiset(sel)
      ensures forall k :: 0 <= k < |sel| ==> sel[k].dist <= n.dist
    {
      assert n in multiset(order[m..]);
      var j :| 0 <= j < |order[m..]| && order[m..][j] == n;
      assert order[m + j] == n;
    }
  }

  /** The first kept neighbour is at least as close as every history sample. */
  lemma FirstIsNearest(x: seq<real>, h: seq<Sample>, dx: seq<real>, p: nat, sel: seq<Neighbour>)
    requires IsSelection(x, h, dx, p, sel)
    requires p >= 1 && |h| >= 1
    ensures |sel| >= 1
    ensures forall k :: 0 <= k < |h| ==> sel[0].dist <= Delta(x, h[k].input, dx)
  {
    var ranked := Rank(x, h, dx);
    var order := SelectionOrder(x, h, dx, p, sel);
    forall k | 0 <= k < |h|
      ensures sel[0].dist <= Delta(x, h[k].input, dx)
    {
      assert ranked[k] in multiset(order);
      var j :| 0 <= j < |order| && order[j] == ranked[k];
      assert order[0].dist <= order[j].dist;
    }
  }
}
