# optilab / sofes core, modelled in Dafny

optilab is a Python toolkit for benchmarking black-box optimisers, in
particular surrogate-assisted CMA-ES variants; sofes is its predecessor,
still present in the same repository. This project models the parts of
both that do bookkeeping and that can be stated exactly:

- **Evaluation counting.** The `ObjectiveFunction` base class exists in
  three revisions. Each counts its calls in `num_calls`. The two optilab
  revisions first reject an input whose length differs from `dim`; the
  sofes one accepts any input. Each revision is a class with a guarded
  `Call`.
- **Benchmarks.** Sphere, cumulative squared sums (optilab and sofes),
  bent cigar, Rosenbrock, and the sofes "Schwefel" function `(Σx)²`. They
  are modelled over `real` as functions. Lemmas state nonnegativity,
  exactly where each is zero, and the invariances and quirks of each.
  The benchmark classes wrap them with the guarded counter.
- **Surrogates.** `SurrogateObjectiveFunction` keeps three fields:
  `is_ready`, `dim` and `train_set`. `train` sets `is_ready` before it
  validates the set, so a rejected set still leaves the surrogate ready.
  The KNN surrogate wraps a scikit-learn regressor. The model keeps the
  regressor's error cases and treats its predicted value as a parameter.
  Locally weighted polynomial regression is modelled in these steps:
  - the biquadratic kernel;
  - the stable sort of training points by distance;
  - the `num_neighbours` slice;
  - the bandwidth and the per-point weights.

  Mahalanobis distance, polynomial features and least squares are
  parameters.
- **Data containers.** `Point`, and `PointList.only_evaluated`, `__len__`
  and `__getitem__`.
- **The approximate-ranking metamodel stub.** Its constructor's initial
  state.
- **Result-log processing.** Each of these is a method with loops, proved
  equal to a specification function whose properties are lemmas:
  - the running-minimum convergence curve;
  - ECDF thresholding with padding, which has two identical revisions;
  - the older `ecdf_points` target counter, which has a nested loop.

Python exceptions are modelled as `Result`/`Outcome` values carrying an
`Error`. Objects whose fields the source updates are Dafny classes, and
Python inheritance is modelled by composition: a surrogate holds its base
`ObjectiveFunction` in `base`. A constructor that can raise becomes a
static `New` method that returns the object together with an `Outcome`.

## Model

| member | source | states |
|---|---|---|
| Objective.ObjectiveFunction.constructor | src/optilab/functions/objective_function.py:15-25 | name and dim are stored, and num_calls starts at 0 |
| Objective.ObjectiveFunction.Call | src/optilab/functions/objective_function.py:40-45 | ValueError exactly when len(x) != dim, with num_calls unchanged; otherwise num_calls grows by exactly one; name and dim never change |
| Objective.ReplayCountsSuccessfulCalls | src/optilab/functions/objective_function.py:40-45 | after any sequence of calls, num_calls has grown by exactly the number of calls whose input had length dim |
| Objective.FailingCallsCountNothing | src/optilab/functions/objective_function.py:40-44 | a sequence of calls that all have the wrong length leaves num_calls where it was |
| Objective.LegacyObjectiveFunction.constructor | src/optilab/objective_functions/objective_function.py:15-24 | name and dim are stored, and num_calls starts at 0 |
| Objective.LegacyObjectiveFunction.Call | src/optilab/objective_functions/objective_function.py:34-39 | ValueError exactly for a wrong-length input, without counting; a valid call counts exactly once |
| Objective.SofesObjectiveFunction.constructor | src/sofes/objective_functions/objective_function.py:15-19 | name and dim are stored, and num_calls starts at 0 |
| Objective.SofesObjectiveFunction.Call | src/sofes/objective_functions/objective_function.py:21-23 | inputs of any length are accepted; every call adds exactly one to num_calls and leaves name and dim alone |
| Points.Unevaluated | src/optilab/data_classes/point.py:11-24 | a Point built from x alone has no value and is not evaluated |
| Points.OnlyEvaluated | src/optilab/data_classes/point_list.py:21-28 | the result holds only evaluated points, each as often as in the list, keeps their order (a subsequence) and is no longer than the list |
| Points.OnlyEvaluatedCount | src/optilab/data_classes/point_list.py:28 | the filtered length equals an independent count of the evaluated points |
| Points.OnlyEvaluatedMembership | src/optilab/data_classes/point_list.py:28 | a point is in the result if and only if it is in the list and evaluated |
| Points.OnlyEvaluatedIdempotent | src/optilab/data_classes/point_list.py:28 | filtering a filtered list changes nothing |
| Points.ExampleHasThreeEvaluated | tests/data_classes/test_point_list.py:11-24 | the five-point test list has exactly three evaluated points |
| Points.Length | src/optilab/data_classes/point_list.py:42-49 | the length n is exactly what makes indexing valid: an index succeeds if and only if -n <= index < n |
| Points.GetItem | src/optilab/data_classes/point_list.py:30-40 | indices 0..n-1 give that point and -n..-1 count from the end; any other index raises IndexError |
| Benchmarks.SphereNonnegative | src/optilab/functions/unimodal/sphere_function.py:36 | the sphere value is never negative |
| Benchmarks.SphereZeroIff | src/optilab/functions/unimodal/sphere_function.py:36 | the sphere value is zero if and only if every coordinate is zero |
| Benchmarks.SphereNegationInvariant | src/optilab/functions/unimodal/sphere_function.py:36 | negating every coordinate leaves the value unchanged |
| Benchmarks.SpherePermutationInvariant | src/optilab/functions/unimodal/sphere_function.py:36 | permuting the coordinates leaves the value unchanged |
| Benchmarks.SumMapPermutation | src/optilab/functions/unimodal/sphere_function.py:36 | a sum of f over the coordinates does not depend on their order |
| Benchmarks.CumulativeSquaredSumsNonnegative | src/optilab/functions/unimodal/cumulative_squared_sums.py:40 | the value is never negative |
| Benchmarks.CumulativeSquaredSumsAppend | src/optilab/functions/unimodal/cumulative_squared_sums.py:40 | appending a coordinate adds the square of the sum of the previous coordinates |
| Benchmarks.CumulativeSquaredSumsIgnoresLast | src/optilab/functions/unimodal/cumulative_squared_sums.py:40 | the last coordinate is never read: changing it leaves the value unchanged (the same formula is in src/sofes/objective_functions/unimodal/cumulative_squared_sums.py) |
| Benchmarks.CumulativeSquaredSumsZeroIff | src/optilab/functions/unimodal/cumulative_squared_sums.py:40 | the value is zero if and only if every coordinate except the last is zero, so it is zero at the origin and always zero in dimension 0 or 1 (also for the sofes copy of the formula) |
| Benchmarks.PrefixSquaresZeroIff | src/optilab/functions/unimodal/cumulative_squared_sums.py:40 | the first n terms vanish if and only if x[0..n-2] are all zero |
| Benchmarks.PrefixSquaresReadsPrefix | src/optilab/functions/unimodal/cumulative_squared_sums.py:40 | the first n terms depend only on x[..n-1] |
| Benchmarks.BentCigar | src/optilab/functions/unimodal/bent_cigar_function.py:40 | an empty input fails on x[0] with IndexError, and any other input has a value |
| Benchmarks.BentCigarWeights | src/optilab/functions/unimodal/bent_cigar_function.py:40 | x[0] carries weight 10^6 + 1 and every other coordinate 10^6 |
| Benchmarks.BentCigarZeroIff | src/optilab/functions/unimodal/bent_cigar_function.py:40 | the value is nonnegative, and zero if and only if every coordinate is zero |
| Benchmarks.RosenbrockTerm | src/optilab/functions/multimodal/rosenbrock_function.py:41 | each summand is nonnegative, and zero exactly at the pair (1, 1) |
| Benchmarks.Rosenbrock | src/optilab/functions/multimodal/rosenbrock_function.py:40-43 | the sum over consecutive pairs is nonnegative |
| Benchmarks.RosenbrockZeroIff | src/optilab/functions/multimodal/rosenbrock_function.py:40-43 | in dimension 2 or more the value is zero if and only if every coordinate is 1 |
| Benchmarks.RosenbrockShortIsZero | src/optilab/functions/multimodal/rosenbrock_function.py:40-43 | in dimension 0 or 1 there are no pairs and the value is 0 |
| Benchmarks.Schwefel | src/sofes/objective_functions/schwefel_function.py:35 | (Σx)² is nonnegative |
| Benchmarks.SchwefelZeroIff | src/sofes/objective_functions/schwefel_function.py:35 | the value is zero if and only if the coordinates sum to zero |
| Benchmarks.SchwefelPermutationInvariant | src/sofes/objective_functions/schwefel_function.py:35 | permuting coordinates leaves the value unchanged |
| Benchmarks.SchwefelMinimiserNotUnique | src/sofes/objective_functions/schwefel_function.py:35 | the minimum 0 is reached both at (1, -1) and at the origin |
| Benchmarks.ValueNonnegative | src/optilab/functions/unimodal/bent_cigar_function.py:39-40 | every optilab benchmark value that exists is nonnegative |
| Benchmarks.BenchmarkFunction.constructor | src/optilab/functions/unimodal/sphere_function.py:19-25 | each benchmark registers its own name and the given dim, with no calls yet |
| Benchmarks.BenchmarkFunction.Call | src/optilab/functions/unimodal/sphere_function.py:35-36 | a wrong-length input raises ValueError before any value is computed and is not counted; otherwise one call is counted and the formula's value is returned (for all four optilab benchmarks: sphere, cumulative squared sums, bent cigar, Rosenbrock), so a zero-dimensional bent cigar is counted and then fails on x[0] |
| SofesBenchmarks.SofesBenchmarkFunction.constructor | src/sofes/objective_functions/unimodal/cumulative_squared_sums.py:17-23 | the sofes cumulative squared sums registers under the name "sphere" |
| SofesBenchmarks.SofesBenchmarkFunction.Call | src/sofes/objective_functions/unimodal/cumulative_squared_sums.py:33-34 | any input length is accepted and counted, and the value is nonnegative (cumulative squared sums and Schwefel alike) |
| Surrogate.TrainDim | src/optilab/functions/surrogate/surrogate_objective_function.py:41-46 | validation succeeds exactly when the set of x-lengths is a singleton, whose element becomes dim; otherwise ValueError |
| Surrogate.TrainDimUniform | src/optilab/functions/surrogate/surrogate_objective_function.py:41-46 | validation gives dim d if and only if the set is non-empty and every x has length d |
| Surrogate.TrainDimRejects | src/optilab/functions/surrogate/surrogate_objective_function.py:41-45 | an empty set, or one that mixes two lengths, raises ValueError |
| Surrogate.SurrogateObjectiveFunction.constructor | src/optilab/functions/surrogate/surrogate_objective_function.py:27-28 | a new surrogate is not ready, has dim 1 and no train set |
| Surrogate.SurrogateObjectiveFunction.New | src/optilab/functions/surrogate/surrogate_objective_function.py:27-31 | an absent or empty train set is falsy: not ready, dim 1; a non-empty set is trained and its ValueError propagates |
| Surrogate.SurrogateObjectiveFunction.Train | src/optilab/functions/surrogate/surrogate_objective_function.py:40-47 | afterwards the surrogate is always ready; on success dim is the set's dimension and the set is stored; on ValueError the old dim and train set remain |
| Surrogate.SurrogateObjectiveFunction.Call | src/optilab/functions/surrogate/surrogate_objective_function.py:62-64 | when not ready: NotImplementedError, nothing counted; when ready: the base guard and counter |
| Knn.KnnNameDecodes | src/optilab/functions/surrogate/knn_surrogate_objective_function.py:32 | the name is "KNN" followed by the decimal digits of k, which read back as k |
| Knn.KnnNameInjective | src/optilab/functions/surrogate/knn_surrogate_objective_function.py:32 | different neighbour counts give different names |
| Knn.Metadata | src/optilab/functions/surrogate/knn_surrogate_objective_function.py:52-54 | the metadata keeps name and dim and records num_neighbors in the hyperparameters |
| Knn.Fit | src/optilab/functions/surrogate/knn_surrogate_objective_function.py:41-42 | fitting fails with ValueError exactly when the neighbour count is below 1 or the samples have no features |
| Knn.Predict | src/optilab/functions/surrogate/knn_surrogate_objective_function.py:71 | NotFittedError before any fit; ValueError for a query of the wrong width or fewer samples than neighbours; otherwise the regressor's value |
| Knn.TrainOutcome | src/optilab/functions/surrogate/knn_surrogate_objective_function.py:41-42 | training succeeds exactly when validation passes and the fit accepts the count and width; every failure is a ValueError |
| Knn.CallResult | src/optilab/functions/surrogate/knn_surrogate_objective_function.py:69-72 | NotImplementedError when not ready, ValueError on a width mismatch; it succeeds exactly when ready, the width matches and the regressor answers, and then the point keeps the query's x, is not evaluated and carries the regressor's prediction as y |
| Knn.KnnSurrogateObjectiveFunction.constructor | src/optilab/functions/surrogate/knn_surrogate_objective_function.py:30-32 | a new KNN surrogate is named "KNN" + k, has dim 1 and no fitted model, and is not ready |
| Knn.KnnSurrogateObjectiveFunction.New | src/optilab/functions/surrogate/knn_surrogate_objective_function.py:18-32 | a non-empty train set is trained during construction, and the construction's outcome is the training outcome |
| Knn.KnnSurrogateObjectiveFunction.Train | src/optilab/functions/surrogate/knn_surrogate_objective_function.py:41-42 | afterwards the surrogate is ready; whenever the base validation passes, the new dim and train set are stored, even if `fit` then raises ValueError (k < 1 or samples without features), in which case the old model stays; on success the model is fitted on the set; on a failed validation dim and train set keep their old values; num_calls is unchanged |
| Knn.KnnSurrogateObjectiveFunction.Call | src/optilab/functions/surrogate/knn_surrogate_objective_function.py:69-72 | before training: NotImplementedError, nothing counted; otherwise the guard counts the call and the answer is CallResult |
| Knn.KnnSurrogateObjectiveFunction.GetMetadata | src/optilab/functions/surrogate/knn_surrogate_objective_function.py:52-54 | the metadata carries the surrogate's current name and dim, and num_neighbors among the hyperparameters |
| Text.NatToStringRoundTrip | src/optilab/functions/surrogate/knn_surrogate_objective_function.py:32 | the decimal rendering used in names reads back as the number |
| LocalRegression.Biquadratic | src/optilab/functions/surrogate/locally_weighted_polynomial_regression.py:17-30 | the kernel is 0 for \|u\| >= 1 and in (0, 1] for \|u\| < 1 (the sofes copy in locally_weighted_regression.py is identical) |
| LocalRegression.BiquadraticAtZero | src/optilab/functions/surrogate/locally_weighted_polynomial_regression.py:30 | the kernel is 1 at u = 0 |
| LocalRegression.BiquadraticSymmetric | src/optilab/functions/surrogate/locally_weighted_polynomial_regression.py:27-30 | k(-u) = k(u) |
| LocalRegression.BiquadraticRange | src/sofes/objective_functions/surrogate/locally_weighted_regression.py:16-18 | every kernel value lies in [0, 1] |
| LocalRegression.KernelRoot | src/optilab/functions/surrogate/locally_weighted_polynomial_regression.py:120 | the weight lies in [0, 1] and its square is the kernel value |
| LocalRegression.KernelRootUnique | src/optilab/functions/surrogate/locally_weighted_polynomial_regression.py:120 | it is the only nonnegative number whose square is the kernel value, so it is np.sqrt of the kernel |
| LocalRegression.Insert | src/optilab/functions/surrogate/locally_weighted_polynomial_regression.py:113 | inserting an index adds exactly that index to the order |
| LocalRegression.InsertSorted | src/optilab/functions/surrogate/locally_weighted_polynomial_regression.py:113 | inserting a later index into a sorted order keeps it sorted by distance, with ties in training order |
| LocalRegression.SortOrder | src/optilab/functions/surrogate/locally_weighted_polynomial_regression.py:113 | the order of the first n points lists each of them exactly once, sorted by distance and, on ties, by position |
| LocalRegression.StableOrder | src/optilab/functions/surrogate/locally_weighted_polynomial_regression.py:113 | the stable sort of all training points by distance is a permutation of their indices |
| LocalRegression.StableOrderPermutation | src/optilab/functions/surrogate/locally_weighted_polynomial_regression.py:113 | the sorted order mentions every point exactly once and nothing else |
| LocalRegression.SliceLength | src/optilab/functions/surrogate/locally_weighted_polynomial_regression.py:115 | s[:k] keeps everything when k >= n, exactly k items for 0 <= k <= n, drops the last -k items for -n < k < 0, and nothing when k <= -n |
| LocalRegression.Neighbourhood | src/optilab/functions/surrogate/locally_weighted_polynomial_regression.py:115 | the neighbourhood is the first SliceLength(n, k) entries of the sorted order |
| LocalRegression.NeighbourhoodSmallest | src/optilab/functions/surrogate/locally_weighted_polynomial_regression.py:113-115 | every selected point is at most as far as every left-out point, and a tie favours the earlier training point |
| LocalRegression.Bandwidth | src/optilab/functions/surrogate/locally_weighted_polynomial_regression.py:117 | an empty neighbourhood raises IndexError; otherwise the bandwidth is the last selected distance |
| LocalRegression.BandwidthIsMaximum | src/optilab/functions/surrogate/locally_weighted_polynomial_regression.py:117 | the bandwidth is the largest selected distance |
| LocalRegression.ZeroBandwidthAllZero | src/optilab/functions/surrogate/locally_weighted_polynomial_regression.py:117-120 | a zero bandwidth means every selected point sits at the query |
| LocalRegression.Weights | src/optilab/functions/surrogate/locally_weighted_polynomial_regression.py:119-122 | one weight per neighbour, each in [0, 1]; a zero bandwidth over a non-empty neighbourhood gives NaN |
| LocalRegression.FarthestWeightZero | src/optilab/functions/surrogate/locally_weighted_polynomial_regression.py:117-121 | with a positive bandwidth, the farthest selected point gets weight 0 |
| LocalRegression.WeightsFromRatios | src/optilab/functions/surrogate/locally_weighted_polynomial_regression.py:119-121 | every distance ratio lies in [0, 1], and each weight is the kernel root of its ratio |
| LocalRegression.Identity | src/optilab/functions/surrogate/locally_weighted_polynomial_regression.py:71 | np.eye(n): n by n, with ones exactly on the diagonal |
| LocalRegression.InitialCovariance | src/optilab/functions/surrogate/locally_weighted_polynomial_regression.py:68-71 | a given non-empty matrix is used; None or an empty list falls back to the identity of dim |
| LocalRegression.DefaultCovarianceWithoutData | src/optilab/functions/surrogate/locally_weighted_polynomial_regression.py:68-71 | without training data the default covariance is the 1x1 identity |
| LocalRegression.Dot | src/optilab/functions/surrogate/locally_weighted_polynomial_regression.py:136 | the product of weights and features exists exactly when their lengths agree; otherwise ValueError (numpy's broadcasting of a length-1 operand is not modelled) |
| LocalRegression.Distances | src/optilab/functions/surrogate/locally_weighted_polynomial_regression.py:104-111 | one nonnegative metric distance per training point |
| LocalRegression.FitWeights | src/optilab/functions/surrogate/locally_weighted_polynomial_regression.py:104-134 | IndexError exactly for an empty neighbourhood, NaN exactly for a zero bandwidth, a fit exactly for a positive one |
| LocalRegression.LocallyWeightedPolynomialRegression.Empty | src/optilab/functions/surrogate/locally_weighted_polynomial_regression.py:58-61 | the surrogate is named after the degree and starts not ready with dim 1 |
| LocalRegression.LocallyWeightedPolynomialRegression.New | src/optilab/functions/surrogate/locally_weighted_polynomial_regression.py:39-76 | a non-empty set is trained (a ValueError aborts construction); num_neighbours is stored; covariance defaults to the identity of the resulting dim; no weights yet |
| LocalRegression.LocallyWeightedPolynomialRegression.SetCovarianceMatrix | src/optilab/functions/surrogate/locally_weighted_polynomial_regression.py:78-86 | the covariance is replaced and nothing else changes |
| LocalRegression.LocallyWeightedPolynomialRegression.Call | src/optilab/functions/surrogate/locally_weighted_polynomial_regression.py:88-136 | the base guard and counter come first, then AttributeError without a train set, then the fit's errors; a fit is stored in weights and the answer is its dot product with the query's features |
| ApproximateRanking.StepSize | src/sofes/metamodels/approximate_ranking_metamodel.py:16 | n_step is at least 1, at most input_size when input_size >= 1, 1 below 20, and otherwise a tenth of input_size rounded down |
| ApproximateRanking.ApproximateRankingMetamodel.constructor | src/sofes/metamodels/approximate_ranking_metamodel.py:11-21 | input_size and popsize are stored, n_init = input_size, n_step = StepSize, empty train set, no objective or surrogate |
| ApproximateRanking.ApproximateRankingMetamodel.Call | src/sofes/metamodels/approximate_ranking_metamodel.py:23-26 | the stub changes nothing and returns None |
| Convergence.Minimum | src/optilab/plotting/convergence_curve.py:18-22 | the minimum is at most every item and is one of them |
| Convergence.MinimumStep | src/optilab/plotting/convergence_curve.py:22 | one more item lowers the running minimum to the smaller of the two |
| Convergence.ConvergenceCurve | src/optilab/plotting/convergence_curve.py:10-25 | the loop returns, at every position, the minimum of the log up to there |
| Convergence.RunningMinimumShape | src/optilab/plotting/convergence_curve.py:18-23 | the curve has the log's length, never increases, is never above the log, and takes its values from the log |
| Convergence.MinimumOfLongerPrefix | src/optilab/plotting/convergence_curve.py:22 | the minimum of a longer prefix is at most that of a shorter one |
| Convergence.RunningMinimumStart | src/optilab/plotting/convergence_curve.py:18-23 | an empty log gives an empty curve; otherwise the curve starts at the first item |
| Convergence.RunningMinimumIdempotent | src/optilab/plotting/convergence_curve.py:18-25 | applying the curve twice equals applying it once |
| Ecdf.CountAtLeast | src/optilab/plotting/ecdf_curve.py:34 | the number of thresholds reached is at most the number of thresholds |
| Ecdf.CountAtLeastAntitone | src/optilab/plotting/ecdf_curve.py:34 | a lower error reaches at least as many thresholds |
| Ecdf.CountAtLeastExtremes | src/optilab/plotting/ecdf_curve.py:34 | an item at or below every threshold reaches all of them; one above all reaches none |
| Ecdf.Level | src/optilab/plotting/ecdf_curve.py:34 | NaN exactly when there are no thresholds; otherwise a value in [0, 1] that, times the number of thresholds, is the count reached |
| Ecdf.Levels | src/sofes/plotting/ecdf_curve.py:25 | one level per log item |
| Ecdf.LevelsAntitone | src/optilab/plotting/ecdf_curve.py:34 | a larger log item never gets a larger y (in both revisions) |
| Ecdf.XValues | src/optilab/plotting/ecdf_curve.py:44 | one x per y, x[i] = (i + 1) / n_dimensions; ZeroDivisionError for zero dimensions unless there is nothing to divide |
| Ecdf.XValuesSteps | src/optilab/plotting/ecdf_curve.py:44 | for positive dimensions the x's start at 1/n and rise in steps of 1/n |
| Ecdf.Padded | src/optilab/plotting/ecdf_curve.py:41-42 | padding reaches the requested length, keeps the original prefix and repeats the last y |
| Ecdf.Thresholded | src/optilab/plotting/ecdf_curve.py:34-46 | ValueError exactly for a truthy extend_to_len below the log's length; IndexError exactly for padding an empty log; otherwise the x's and y's of equal length, the y's padded to extend_to_len with the last level when it is truthy |
| Ecdf.EcdfThresholding | src/optilab/plotting/ecdf_curve.py:16-46 | the comprehension and padding loop compute Thresholded; the earlier revision `ecdf_thresholding` in src/sofes/plotting/ecdf_curve.py is the same code |
| Ecdf.MaxLength | src/optilab/plotting/ecdf_curve.py:73-80 | the longest log length bounds every log and is attained by one of them |
| Ecdf.EcdfCurveAligned | src/optilab/plotting/ecdf_curve.py:71-95 | padding every non-empty log to the method's longest never raises for a non-zero dimension, and all the method's curves share one length and one x |
| Visualize.ValuesRange | src/visualize.py:22-24 | IndexError for an empty log; the range starts at the first item and ends at a truthy target, or else at the smallest item |
| Visualize.Advance | src/visualize.py:32-36 | the inner loop passes every target the result reaches and stops at the first it misses or at the last target |
| Visualize.AdvanceTargets | src/visualize.py:32-36 | the inner while terminates and computes Advance |
| Visualize.Reached | src/visualize.py:29-37 | one count per remaining log item |
| Visualize.ReachedShape | src/visualize.py:29-37 | counts never decrease, never fall below the starting one and never pass the last target |
| Visualize.ReachedStep | src/visualize.py:31-37 | each log item's count comes from advancing the previous one |
| Visualize.CountsShape | src/visualize.py:28-37 | one count per log item, the first being 1, never decreasing, within [1, targets_num - 1] |
| Visualize.CountTargets | src/visualize.py:28-37 | the outer loop computes the counts of the specification |
| Visualize.EcdfPointsResult | src/visualize.py:9-43 | the raw counts and x = i / dimensions, one per log item; IndexError for an empty log, ValueError for a negative targets_num, IndexError when a second item meets fewer than two targets, ZeroDivisionError for zero targets or dimensions |
| Visualize.EcdfPoints | src/visualize.py:9-43 | the nested loops compute EcdfPointsResult |

## Left out

- Randomness, I/O, plotting, JSON/CSV export and the CLI are not modelled. Only the list arithmetic that feeds the plots is.
- Floating-point rounding, infinities and NaN propagation are not modelled: values are exact `real`s. Where numpy would produce NaN (a zero bandwidth, ECDF levels without thresholds), the model says so explicitly. In the regression, NaN is an `Err(NotANumber)` result that stops the call, since the NaN weights only feed `lstsq`. In the ECDF, NaN is a `Float.NaN` value, since the thresholding returns it.
- Convergence.ConvergenceCurve: the initial `float("inf")` is modelled as "no minimum yet", which any first item replaces.
- The Mahalanobis distance, the inverse of the covariance matrix, `PolynomialFeatures` and `np.linalg.lstsq` are parameters of the regression model. A singular or mis-shaped covariance matrix (LinAlgError) is therefore not modelled.
- The custom `kernel_function` argument of the regression is not modelled. The model always uses the biquadratic default.
- LocalRegression.LocallyWeightedPolynomialRegression.Call: the in-place `list.sort` is modelled by its result, the stable order of indices. Ties keep training order, as Python's sort guarantees. A float `num_neighbours`, which Python slicing rejects with TypeError, is not modelled: the count is an `int`.
- The sofes `LocallyWeightedRegression` class is not modelled; only its kernel is. Its `__call__` slices the `None` that `list.sort()` returns and cannot run.
- Knn: scikit-learn's `KNeighborsRegressor` is not modelled. Its prediction is a parameter of the model, and only the conditions under which `fit` and `predict` raise are kept.
- Knn: the call site takes `.pairs()` of a `PointList` and passes a `Point` to a base guard that measures `len(x)`, which mixes two API revisions. The train set is modelled as `(x, y)` pairs and the guard as measuring `point.x`.
- Knn.Metadata: the base classes `ObjectiveFunction` and `SurrogateObjectiveFunction` of this revision define no `get_metadata`, so `super().get_metadata()` raises AttributeError as written; and `FunctionMetadata.hyperparameters` defaults to `None`, not a dictionary (src/optilab/data_classes/function_metadata.py:21), so the subscript assignment would raise TypeError even with a base method. The model assumes a base method that yields the name, dim and an empty hyperparameter dictionary, and does not model either exception.
- Points.OnlyEvaluated returns the filtered contents. The source returns a lazy `filter` iterator, which has no `len`, while the unit test expects a `PointList`. The model states what both agree on: which points come out, and in what order.
- The adaptive approximate-ranking loop is not modelled: the metamodel's `__call__` is a stub.
- Bounds handling, the other `PointList` methods, the optimizers and the transcendental or noisy benchmarks are not modelled.
- `ecdf_curve` beyond its length bookkeeping is not modelled: `log10`, `linspace` and averaging. Visualize.EcdfPoints takes the `np.linspace` output as a parameter of length `targets_num`.
- The unused scaled `y` of `ecdf_points` is not computed. Only its ZeroDivisionError is kept.
- LocalRegression.Dot: numpy broadcasts `self.weights * features` when one operand has length 1 instead of raising ValueError. The model raises ValueError on every length mismatch, so the broadcast product is not modelled.
- Python integers are unbounded, like Dafny's, so nothing is lost there. Python's `//` is floor division, and for the positive divisor of `StepSize` it agrees with Dafny's `/`.
