/** Observed samples: an input vector and the output recorded for it. The
    history is the sequence of samples read before any prediction. */
module History {
  import opened Vectors

  datatype Sample = Sample(input: seq<real>, output: real)

  /** Length of the longest input vector in `h` (0 for an empty history). */
  function MaxInputLength(h: seq<Sample>): (n: nat)
    ensures forall k :: 0 <= k < |h| ==> |h[k].input| <= n
    ensures n > 0 ==> exists k :: 0 <= k < |h| && |h[k].input| == n
    ensures h == [] ==> n == 0
  {
    if h == [] then 0
    else Max(MaxInputLength(h[..|h| - 1]), |h[|h| - 1].input|)
  }

  /** Coordinate `i` of every sample, in history order, read as 0 for samples
      whose input is shorter than `i + 1`. */
  function Column(h: seq<Sample>, i: nat): (c: seq<real>)
    ensures |c| == |h|
    ensures forall k :: 0 <= k < |h| ==> c[k] == Pad(h[k].input, i)
  {
    seq(|h|, k requires 0 <= k < |h| => Pad(h[k].input, i))
  }

  /** Appending a sample appends its padded coordinate to every column. */
  lemma ColumnSnoc(h: seq<Sample>, s: Sample, i: nat)
    ensures Column(h + [s], i) == Column(h, i) + [Pad(s.input, i)]
  {
    assert Column(h + [s], i)[..|h|] == Column(h, i);
  }
}
