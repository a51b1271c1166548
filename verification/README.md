# Nearest-neighbour extrapolation predictor, modelled in Dafny

This project models the numeric core of `predict.cpp`, a command-line
predictor. The predictor reads a history of samples. Each sample is an input
vector `x` and an output `y`. For each query vector it returns an
extrapolated output. The model covers four parts:

- `delta`, a scale-weighted squared distance. Only coordinates with a
  positive scale entry count, and the shorter vector is padded with zeros.
  This is `Metric.Delta`, computed by the three source loops in
  `Metric.ComputeDelta`.
- `scalar`, a scale-weighted inner product over the overlap of the three
  lengths, with no padding. This is `Metric.Scalar` and
  `Metric.ComputeScalar`.
- `predict`:
  - It ranks the history by `delta` to the query, sorts the ranking, and
    keeps the first `min(p, n)` samples (`Neighbours`).
  - For every kept neighbour it multiplies the neighbour's output by its
    correction ratio against each other kept neighbour, then sums these
    products (`Predictor`).
  - A ratio is the projection of `x - xj` on `xi - xj` over the projection
    of `xi - xj` on itself. Both difference vectors are truncated to the
    common length.
- The scale estimation inside `main`, lifted into the pure function
  `Scale.EstimateScale`. Each dimension's scale is the population variance
  of that coordinate over the history: the mean of squares minus the square
  of the mean. An input too short for a dimension reads as 0 there.
  `Scale.EstimateScaleLoop` follows the source's accumulate-then-divide loops.

Modelling choices:

- `double` is modelled as `real`.
- A division by a zero denominator in the ratio is where the source produces
  an infinity or a NaN. The model gives the explicit outcome
  `Predictor.Undefined` instead. It absorbs every later product and sum, as a
  non-finite value does in the source.
- The neighbour count `p` is a natural number. Its default of 3 is
  `Predictor.DefaultNeighbourCount`.
- The source sorts with `std::sort` (predict/predict.cpp:49), which is not
  stable, so equal distances are not ordered by history position. An admissible
  selection (`Neighbours.IsSelection`) is therefore any distance-sorted
  permutation of the ranking, cut at `min(p, n)`.
  - The executable model uses an insertion sort, which yields one such
    permutation.
  - `Reorder.CombinePermutation` shows that the combination depends only on
    which samples are kept, not on their order. The order the sort leaves
    ties in can therefore matter only through which samples survive the cut.
- Squares written `v * v` in the source appear as `Vectors.Sq(v)`. The
  value is the same.

The source is the single file `predict.cpp`. `Metric` models `delta` and
`scalar`, and `Scale` models the scale estimation in `main`. `Neighbours` and
`Predictor` together model `predict`. The other modules support the proofs.
The modules are:

- `Vectors`: padding, truncated differences, squares.
- `History`: samples, columns, longest input.
- `Metric`: `delta` and `scalar`.
- `Scale`: scale estimation.
- `Neighbours`: ranking, sorting, selection.
- `Predictor`: ratios, the nested loops, `predict`.
- `Folds` and `Reorder`: order independence.
- `Scenario`: a worked example.

## Model

| member | source | states |
|---|---|---|
| `Metric.ComputeDelta` | predict/predict.cpp:14-22 | The three loops return Delta: the sum over every coordinate below both the longer input's length and the scale's length, with a positive scale entry, of the squared difference of the zero-padded coordinates divided by the scale entry |
| `Metric.ComputeScalar` | predict/predict.cpp:26-32 | The loop returns Scalar: the sum of `a[i]*b[i]/dx[i]` over the coordinates below all three lengths with a positive scale entry, with no padding |
| `Metric.DeltaNonNegative` | predict/predict.cpp:16-21 | The distance is never negative |
| `Metric.DeltaSymmetric` | predict/predict.cpp:18-20 | Swapping the two vectors does not change the distance, even when their lengths differ and the second and third loops exchange roles |
| `Metric.DeltaSelf` | predict/predict.cpp:18 | A vector is at distance 0 from itself under any scale |
| `Metric.ScalarSymmetric` | predict/predict.cpp:28-31 | The projection is symmetric in its two vectors |
| `Metric.ScalarSquareNonNegative` | predict/predict.cpp:28-31 | The projection of a vector on itself is never negative |
| `Metric.ScalarZeroLeft` | predict/predict.cpp:30 | Projecting the zero vector on anything gives 0 |
| `Metric.NoPositiveScaleMetricsVanish` | predict/predict.cpp:14-32 | With no positive scale entry (including an empty scale), both the distance and the projection are 0 |
| `Metric.DeltaPadsScalarTruncates` | predict/predict.cpp:14-32 | Against the empty vector, the distance still counts every coordinate of the other vector because it pads, while the projection counts none because it truncates |
| `Metric.DeltaEqualLengths` | predict/predict.cpp:18 | For vectors of equal length the distance is the projection of their difference on itself |
| `Scale.EstimateScale` | predict/predict.cpp:126-136 | The estimated scale has one entry per coordinate of the longest input and is empty for an empty history, and every entry is non-negative |
| `Scale.EstimateScaleLoop` | predict/predict.cpp:126-136 | The accumulate-then-divide loops compute the per-dimension population variance, reading coordinates past a short input as 0 |
| `Scale.AddSample` | predict/predict.cpp:126-132 | One sample grows the running sums with zeros to its length and adds its coordinates and their squares; entries beyond its length are unchanged |
| `Scale.FinishScale` | predict/predict.cpp:134-136 | Each scale entry is the sum of squares over n minus the square of the sum over n |
| `Scale.VarianceNonNegative` | predict/predict.cpp:136 | The mean of the squares is never below the square of the mean |
| `Scale.VarianceIsMeanSquaredDeviation` | predict/predict.cpp:134-136 | The formula equals the mean squared deviation from the mean |
| `Neighbours.SortByDistance` | predict/predict.cpp:49-53 | The sort returns a permutation of the ranking, ordered by non-decreasing distance |
| `Neighbours.SelectNeighbours` | predict/predict.cpp:41-54 | The concrete selection is admissible and has `min(p, n)` elements, sorted by distance and drawn from the ranked history |
| `Neighbours.SelectionProperties` | predict/predict.cpp:41-54 | Every admissible selection has `min(p, n)` elements, is sorted, is a sub-multiset of the ranked history with true distances, keeps the whole history when `p >= n`, and leaves out no sample strictly closer than a kept one |
| `Neighbours.FirstIsNearest` | predict/predict.cpp:49-54 | The first kept neighbour is at least as close as every history sample |
| `Predictor.CombineLoop` | predict/predict.cpp:55-72 | The nested loops compute Combine: the sum over kept neighbours of the output times the ratios against every other kept neighbour |
| `Predictor.RowProduct` | predict/predict.cpp:57-70 | The inner loop starts from the neighbour's output and multiplies in its ratio against every other kept neighbour, skipping itself |
| `Predictor.ComputeRatio` | predict/predict.cpp:63-68 | The ratio is built from the truncated differences `x - xj` and `xi - xj` and is undefined exactly when the denominator projection is 0 |
| `Predictor.Predict` | predict/predict.cpp:36-73 | The result combines the outputs of some admissible selection of `min(p, n)` nearest samples, whatever order the sort leaves ties in; `p == 0` or an empty history gives 0; `p == 1` gives the output of a sample at minimal distance; two or more neighbours with no positive scale entry give an undefined result |
| `Predictor.CombineUndefinedIff` | predict/predict.cpp:55-72 | The result is undefined exactly when two distinct kept neighbours have a zero denominator |
| `Predictor.NoPositiveScaleUndefined` | predict/predict.cpp:68 | With no positive scale entry, any two kept neighbours make the result undefined |
| `Predictor.CombineEmpty` | predict/predict.cpp:54-55 | No kept neighbours give 0 |
| `Predictor.CombineSingle` | predict/predict.cpp:57-62 | A single kept neighbour gives its own output |
| `Predictor.SingleNeighbour` | predict/predict.cpp:41-72 | With `p == 1`, any admissible selection predicts the output of a history sample at minimal distance |
| `Predictor.NothingKept` | predict/predict.cpp:53-55 | With `p == 0` or an empty history, any admissible selection predicts 0 |
| `Predictor.CombineInterpolates` | predict/predict.cpp:55-72 | A query equal to a kept neighbour's input gets that neighbour's output back, when no denominator is zero |
| `Reorder.CombineAsFold` | predict/predict.cpp:55-72 | The combination is the sum over kept samples of the output times the product of ratios against the other kept samples |
| `Reorder.CombinePermutation` | predict/predict.cpp:55-72 | Reordering the kept neighbours does not change the result |
| `Reorder.WholeHistoryKept` | predict/predict.cpp:49-53 | With `p >= n`, every admissible selection predicts the combination of the history in its own order |
| `Reorder.PredictWholeHistory` | predict/predict.cpp:36-73 | With `p >= n`, the prediction is the combination over the whole history |
| `Scenario.CentreOfSquare` | predict/predict.cpp:55-72 | The corners (0,0)->0, (1,0)->1 and (0,1)->1 under unit scale, combined at (0.5,0.5), give 0.5 |
| `Scenario.CentreOfSquareAnyTieOrder` | predict/predict.cpp:41-72 | With the far sample (2,2)->4 added and `p = 3`, every admissible selection keeps the three tied corners and predicts 0.5, whatever order the sort leaves them in |
| `Scenario.CentreOfSquarePrediction` | predict/predict.cpp:36-73 | With the default neighbour count of 3, the predictor returns 0.5 on that history |

## Left out

- Command-line parsing, file and standard-stream redirection, the locale
  call, reading samples and queries from text, and printing
  (predict/predict.cpp:79-107, 112-125, 138-148). These are I/O. The history
  and the queries are parameters of the model.
- Floating point:
  - Rounding is not modelled. Over the reals a scale entry is never
    negative, but in `double` the cancellation in the variance formula can
    make it slightly negative. The distance and projection then skip that
    coordinate.
  - Overflow is not modelled.
  - The source distinguishes infinity from NaN. The model merges both into
    `Undefined`.
- A negative `p`, which the source gets from `atoi` and converts to an
  unsigned size when cutting the neighbour list. The model takes `p` as a
  natural number.
- A history line with no numbers, where the source takes the last element
  of an empty vector. Every modelled sample has an output.
- Stable tie-breaking. Ties are left in whatever order the unstable sort
  produces.
- Neighbours.SelectionProperties: states which samples an admissible
  selection keeps and how they are ordered, but not which of several
  equally distant samples survive the cut, because the source's sort does
  not fix that.
