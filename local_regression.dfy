/**
 * Locally weighted polynomial regression:
 * src/optilab/functions/surrogate/locally_weighted_polynomial_regression.py
 * (the surrogate class and its kernel) and the identical kernel of
 * src/sofes/objective_functions/surrogate/locally_weighted_regression.py.
 *
 * The neighbourhood step of `__call__` is modelled exactly: distances, the
 * stable sort, the slice of `num_neighbours` points, the bandwidth and the
 * kernel weights. The Mahalanobis distance, `PolynomialFeatures` and
 * `np.linalg.lstsq` are parameters of the class.
 */
module LocalRegression {
  import opened Errors
  import opened Points
  import opened RealArith
  import opened Text
  import Objective
  import Surrogate

  // ---------------------------------------------------------------------------
  // The kernel

  /** `biquadratic_kernel_function`: zero outside (-1, 1), `(1 - u^2)^2` inside. */
  function Biquadratic(u: real): (k: real)
    ensures Abs(u) >= 1.0 ==> k == 0.0
    ensures Abs(u) < 1.0 ==> 0.0 < k <= 1.0
  {
    if Abs(u) >= 1.0 then 0.0
    else
      SquareBounds(u);
      SquareBounds(1.0 - Square(u));
      Square(1.0 - Square(u))
  }

  lemma BiquadraticAtZero()
    ensures Biquadratic(0.0) == 1.0
  {
    assert Square(0.0) == 0.0;
    assert Square(1.0) == 1.0;
  }

  lemma BiquadraticSymmetric(u: real)
    ensures Biquadratic(-u) == Biquadratic(u)
  {
    SquareNegate(u);
  }

  /** Every kernel value lies in [0, 1]. */
  lemma BiquadraticRange(u: real)
    ensures 0.0 <= Biquadratic(u) <= 1.0
  {
  }

  /** `np.sqrt(biquadratic_kernel_function(u))`, in closed form. */
  function KernelRoot(u: real): (w: real)
    ensures 0.0 <= w <= 1.0
    ensures Square(w) == Biquadratic(u)
  {
    if Abs(u) >= 1.0 then 0.0
    else
      SquareBounds(u);
      1.0 - Square(u)
  }

  /** The square root is the only nonnegative number whose square is the kernel. */
  lemma KernelRootUnique(u: real, w: real)
    requires w >= 0.0 && Square(w) == Biquadratic(u)
    ensures w == KernelRoot(u)
  {
    var v := KernelRoot(u);
    if w != v {
      SquaresOrdered(w, v);
      SquaresOrdered(v, w);
    }
  }

  /** Squaring is strictly increasing on the nonnegative reals. */
  lemma SquaresOrdered(a: real, b: real)
    requires 0.0 <= a < b
    ensures Square(a) < Square(b)
  {
    TimesNonnegative(a, b - a);
    TimesPositive(b, b - a);
    assert Times(a, b - a) == Times(a, b) - Times(a, a);
    assert Times(b, b - a) == Times(b, b) - Times(b, a);
    assert Times(b, a) == Times(a, b);
  }

  // ---------------------------------------------------------------------------
  // The stable sort of the training points by distance

  /** Point `a` comes before point `b` in `distance_points` once sorted:
      smaller distance first, ties in training order. */
  predicate Before(d: seq<real>, a: nat, b: nat)
    requires a < |d| && b < |d|
  {
    d[a] < d[b] || (d[a] == d[b] && a < b)
  }

  predicate InRange(d: seq<real>, o: seq<nat>)
  {
    forall p :: 0 <= p < |o| ==> o[p] < |d|
  }

  predicate SortedBy(d: seq<real>, o: seq<nat>)
    requires InRange(d, o)
  {
    forall p, q :: 0 <= p < q < |o| ==> Before(d, o[p], o[q])
  }

  /** Inserts index `i`, larger than every index in `o`, after every entry
      whose distance does not exceed `d[i]`. */
  function Insert(d: seq<real>, o: seq<nat>, i: nat): (r: seq<nat>)
    requires i < |d| && InRange(d, o)
    ensures multiset(r) == multiset(o) + multiset{i}
    ensures |r| == |o| + 1
  {
    if o == [] then [i]
    else if d[i] < d[o[0]] then [i] + o
    else
      assert o == [o[0]] + o[1..];
      [o[0]] + Insert(d, o[1..], i)
  }

  lemma {:induction false} InsertSorted(d: seq<real>, o: seq<nat>, i: nat)
    requires i < |d| && InRange(d, o) && SortedBy(d, o)
    requires forall p :: 0 <= p < |o| ==> o[p] < i
    ensures InRange(d, Insert(d, o, i)) && SortedBy(d, Insert(d, o, i))
  {
    if o != [] && !(d[i] < d[o[0]]) {
      var tail := o[1..];
      InsertSorted(d, tail, i);
      var r := Insert(d, o, i);
      var rt := Insert(d, tail, i);
      assert r == [o[0]] + rt;
      forall q | 0 <= q < |rt| ensures Before(d, o[0], rt[q]) {
        assert rt[q] in multiset(tail) + multiset{i} by {
          assert rt[q] in multiset(rt);
        }
        if rt[q] != i {
          assert rt[q] in tail;
          var p :| 0 <= p < |tail| && tail[p] == rt[q];
          assert o[p + 1] == rt[q];
        }
      }
    }
  }

  /** `o` lists each of the indices `0 .. n-1` exactly once, and nothing else. */
  ghost predicate IndexPermutation(o: seq<nat>, n: nat)
  {
    forall k: nat :: multiset(o)[k] == if k < n then 1 else 0
  }

  lemma IndexPermutationBelow(o: seq<nat>, n: nat)
    requires IndexPermutation(o, n)
    ensures forall p :: 0 <= p < |o| ==> o[p] < n
  {
    forall p | 0 <= p < |o| ensures o[p] < n {
      assert multiset(o)[o[p]] > 0;
    }
  }

  lemma IndexPermutationExtend(o: seq<nat>, r: seq<nat>, n: nat)
    requires IndexPermutation(o, n) && multiset(r) == multiset(o) + multiset{n}
    ensures IndexPermutation(r, n + 1)
  {
  }

  /** The order in which the sort leaves the first `n` training points, as
      their indices. */
  function SortOrder(d: seq<real>, n: nat): (o: seq<nat>)
    requires n <= |d|
    ensures |o| == n && IndexPermutation(o, n)
    ensures InRange(d, o) && SortedBy(d, o)
  {
    if n == 0 then []
    else
      var prev := SortOrder(d, n - 1);
      IndexPermutationBelow(prev, n - 1);
      InsertSorted(d, prev, n - 1);
      IndexPermutationExtend(prev, Insert(d, prev, n - 1), n - 1);
      Insert(d, prev, n - 1)
  }

  /** `distance_points.sort(key=lambda i: i[0])` on all points. */
  function StableOrder(d: seq<real>): (o: seq<nat>)
    ensures |o| == |d| && InRange(d, o) && SortedBy(d, o)
    ensures IndexPermutation(o, |d|)
  {
    SortOrder(d, |d|)
  }

  /** The sorted order mentions every point exactly once. */
  lemma StableOrderPermutation(d: seq<real>, k: nat)
    ensures k in StableOrder(d) <==> k < |d|
    ensures forall p, q :: 0 <= p < q < |d| ==> StableOrder(d)[p] != StableOrder(d)[q]
  {
    var o := StableOrder(d);
    assert k in o <==> multiset(o)[k] > 0;
    forall p, q | 0 <= p < q < |d| ensures o[p] != o[q] {
      assert Before(d, o[p], o[q]);
    }
  }

  // ---------------------------------------------------------------------------
  // The neighbourhood

  /** How many items `s[:k]` keeps of a list of length `n`. */
  function SliceLength(n: nat, k: int): (m: nat)
    ensures m <= n
    ensures k >= n ==> m == n
    ensures 0 <= k <= n ==> m == k
    ensures k < 0 && n + k > 0 ==> m + -k == n
    ensures k < 0 && n + k <= 0 ==> m == 0
  {
    if k >= 0 then (if k < n then k else n)
    else if n + k > 0 then n + k else 0
  }

  /** `distance_points[: self.num_neighbours]`, as indices. */
  function Neighbourhood(d: seq<real>, k: int): (nb: seq<nat>)
    ensures |nb| == SliceLength(|d|, k)
    ensures nb == StableOrder(d)[..|nb|]
    ensures InRange(d, nb)
  {
    StableOrder(d)[..SliceLength(|d|, k)]
  }

  /** The neighbourhood holds the smallest distances: every selected point is
      at most as far as every point left out, and a tie is resolved in favour
      of the earlier training point. */
  lemma NeighbourhoodSmallest(d: seq<real>, k: int, i: nat, j: nat)
    requires i in Neighbourhood(d, k) && j < |d| && j !in Neighbourhood(d, k)
    ensures d[i] <= d[j]
    ensures d[i] == d[j] ==> i < j
  {
    var o := StableOrder(d);
    var nb := Neighbourhood(d, k);
    StableOrderPermutation(d, j);
    var p :| 0 <= p < |nb| && nb[p] == i;
    var q :| 0 <= q < |o| && o[q] == j;
    assert forall t :: 0 <= t < |nb| ==> o[t] == nb[t] != j;
    assert q >= |nb|;
    assert Before(d, o[p], o[q]);
  }

  /** The bandwidth `knn_points[-1][0]`: IndexError on an empty neighbourhood. */
  function Bandwidth(d: seq<real>, nb: seq<nat>): (r: Result<real>)
    requires InRange(d, nb)
    ensures r.Err? <==> nb == []
    ensures r.Err? ==> r.error == IndexError
    ensures r.Ok? ==> r.value == d[nb[|nb| - 1]]
  {
    if nb == [] then Err(IndexError) else Ok(d[nb[|nb| - 1]])
  }

  /** The bandwidth is the largest distance in the neighbourhood. */
  lemma BandwidthIsMaximum(d: seq<real>, k: int)
    requires Bandwidth(d, Neighbourhood(d, k)).Ok?
    ensures forall i :: i in Neighbourhood(d, k) ==> d[i] <= Bandwidth(d, Neighbourhood(d, k)).value
  {
    var nb := Neighbourhood(d, k);
    var o := StableOrder(d);
    forall i | i in nb ensures d[i] <= d[nb[|nb| - 1]] {
      var p :| 0 <= p < |nb| && nb[p] == i;
      if p < |nb| - 1 {
        assert Before(d, o[p], o[|nb| - 1]);
      }
    }
  }

  /** For the non-negative distances a metric yields, a zero bandwidth means
      every selected point sits at the query, so each weight is `0 / 0`. */
  lemma ZeroBandwidthAllZero(d: seq<real>, k: int)
    requires forall i :: 0 <= i < |d| ==> d[i] >= 0.0
    requires Bandwidth(d, Neighbourhood(d, k)) == Ok(0.0)
    ensures forall i :: i in Neighbourhood(d, k) ==> d[i] == 0.0
  {
    BandwidthIsMaximum(d, k);
  }

  /** The `np.sqrt(kernel(d / bandwidth))` weight of each selected point;
      NaN (here an error) when the bandwidth is zero. */
  function Weights(d: seq<real>, nb: seq<nat>, bandwidth: real): (r: Result<seq<real>>)
    requires InRange(d, nb)
    ensures r.Err? <==> bandwidth == 0.0 && nb != []
    ensures r.Err? ==> r.error == NotANumber
    ensures r.Ok? ==> |r.value| == |nb|
    ensures r.Ok? ==> forall p :: 0 <= p < |nb| ==> 0.0 <= r.value[p] <= 1.0
  {
    if bandwidth == 0.0 && nb != [] then Err(NotANumber)
    else if bandwidth == 0.0 then Ok([])
    else Ok(seq(|nb|, p requires 0 <= p < |nb| => KernelRoot(d[nb[p]] / bandwidth)))
  }

  lemma DivideUnit(a: real, b: real)
    requires 0.0 <= a <= b && b > 0.0
    ensures 0.0 <= a / b <= 1.0
    ensures a == b ==> a / b == 1.0
  {
  }

  /** With a positive bandwidth the farthest selected point, the one that
      defines the bandwidth, gets weight zero, and the weight of every point
      is the kernel root of its distance relative to the bandwidth. */
  lemma FarthestWeightZero(d: seq<real>, k: int)
    requires Bandwidth(d, Neighbourhood(d, k)).Ok?
    requires Bandwidth(d, Neighbourhood(d, k)).value > 0.0
    ensures Weights(d, Neighbourhood(d, k), Bandwidth(d, Neighbourhood(d, k)).value).Ok?
    ensures var w := Weights(d, Neighbourhood(d, k), Bandwidth(d, Neighbourhood(d, k)).value).value;
      w[|w| - 1] == 0.0
  {
    var nb := Neighbourhood(d, k);
    var b := Bandwidth(d, nb).value;
    DivideUnit(b, b);
    assert KernelRoot(d[nb[|nb| - 1]] / b) == 0.0;
  }

  /** Weights for non-negative distances within the bandwidth are kernel
      roots of a ratio in [0, 1]. */
  lemma WeightsFromRatios(d: seq<real>, k: int, p: nat)
    requires forall i :: 0 <= i < |d| ==> d[i] >= 0.0
    requires Bandwidth(d, Neighbourhood(d, k)).Ok? && Bandwidth(d, Neighbourhood(d, k)).value > 0.0
    requires p < |Neighbourhood(d, k)|
    ensures var nb := Neighbourhood(d, k);
      var b := Bandwidth(d, nb).value;
      0.0 <= d[nb[p]] / b <= 1.0 &&
      Weights(d, nb, b).value[p] == KernelRoot(d[nb[p]] / b)
  {
    var nb := Neighbourhood(d, k);
    BandwidthIsMaximum(d, k);
    assert nb[p] in nb;
    DivideUnit(d[nb[p]], Bandwidth(d, nb).value);
  }

  // ---------------------------------------------------------------------------
  // Covariance and the prediction

  /** `np.eye(n)`. */
  function Identity(n: nat): (m: seq<seq<real>>)
    ensures |m| == n
    ensures forall i :: 0 <= i < n ==> |m[i]| == n
    ensures forall i, j :: 0 <= i < n && 0 <= j < n ==> m[i][j] == if i == j then 1.0 else 0.0
  {
    seq(n, i => seq(n, j => if i == j then 1.0 else 0.0))
  }

  /** Without training data `dim` keeps its default of 1, so the default
      covariance is the 1x1 identity. */
  lemma DefaultCovarianceWithoutData()
    ensures InitialCovariance(None, 1) == [[1.0]]
    ensures InitialCovariance(Some([]), 1) == [[1.0]]
  {
    var m := Identity(1);
    assert m[0] == [1.0];
  }

  /** `if covariance_matrix:` treats None and the empty list alike. */
  function InitialCovariance(given: Option<seq<seq<real>>>, dim: nat): (m: seq<seq<real>>)
    ensures given.Some? && given.value != [] ==> m == given.value
    ensures given.None? || given.value == [] ==> m == Identity(dim)
  {
    if given.Some? && given.value != [] then given.value else Identity(dim)
  }

  /** `sum(a * b)` over two equally long vectors; numpy raises on a length
      mismatch. */
  function Dot(a: seq<real>, b: seq<real>): (r: Result<real>)
    ensures r.Ok? <==> |a| == |b|
    ensures r.Err? ==> r.error == ValueError
  {
    if |a| != |b| then Err(ValueError) else Ok(DotSum(a, b))
  }

  function DotSum(a: seq<real>, b: seq<real>): real
    requires |a| == |b|
  {
    if a == [] then 0.0 else DotSum(a[..|a| - 1], b[..|b| - 1]) + Times(a[|a| - 1], b[|b| - 1])
  }

  function ScaleVector(w: real, v: seq<real>): (r: seq<real>)
    ensures |r| == |v| && forall i :: 0 <= i < |v| ==> r[i] == Times(w, v[i])
  {
    seq(|v|, i requires 0 <= i < |v| => Times(w, v[i]))
  }

  type NonNegReal = r: real | r >= 0.0

  /** The Mahalanobis distance between two points under the inverse of the
      given covariance matrix. */
  type Metric = (seq<seq<real>>, seq<real>, seq<real>) -> NonNegReal

  /** `PolynomialFeatures(degree).fit_transform([x])[0]`. */
  type Featurizer = seq<real> -> seq<real>

  /** `np.linalg.lstsq(a, b)[0]`. */
  type LeastSquares = (seq<seq<real>>, seq<real>) -> seq<real>

  /** Distances from every training point to the query. */
  function Distances(metric: Metric, covariance: seq<seq<real>>, trainSet: seq<Sample>, x: seq<real>): (d: seq<real>)
    ensures |d| == |trainSet|
    ensures forall i :: 0 <= i < |d| ==> d[i] == metric(covariance, trainSet[i].0, x) && d[i] >= 0.0
  {
    seq(|trainSet|, i requires 0 <= i < |trainSet| => metric(covariance, trainSet[i].0, x) as real)
  }

  /** The least-squares fit of `__call__` once the guard has passed: the
      weighted design matrix and targets of the neighbourhood, solved. */
  function FitWeights(metric: Metric, features: Featurizer, solve: LeastSquares,
                      covariance: seq<seq<real>>, numNeighbours: int,
                      trainSet: seq<Sample>, x: seq<real>): (r: Result<seq<real>>)
    ensures var d := Distances(metric, covariance, trainSet, x);
      var nb := Neighbourhood(d, numNeighbours);
      (r == Err(IndexError) <==> nb == []) &&
      (r == Err(NotANumber) <==> nb != [] && d[nb[|nb| - 1]] == 0.0) &&
      (r.Ok? <==> nb != [] && d[nb[|nb| - 1]] > 0.0)
  {
    var d := Distances(metric, covariance, trainSet, x);
    var nb := Neighbourhood(d, numNeighbours);
    var bandwidth := Bandwidth(d, nb);
    if bandwidth.Err? then Err(bandwidth.error)
    else
      var w := Weights(d, nb, bandwidth.value);
      if w.Err? then Err(w.error)
      else
        var rows := seq(|nb|, p requires 0 <= p < |nb| => ScaleVector(w.value[p], features(trainSet[nb[p]].0)));
        var ys := seq(|nb|, p requires 0 <= p < |nb| => Times(w.value[p], trainSet[nb[p]].1));
        Ok(solve(rows, ys))
  }

  class LocallyWeightedPolynomialRegression {
    const surrogate: Surrogate.SurrogateObjectiveFunction
    const degree: int
    const metric: Metric
    const features: Featurizer
    const solve: LeastSquares
    var numNeighbours: int
    /** The matrix last handed to `set_covariance_matrix`; `metric` inverts it. */
    var covariance: seq<seq<real>>
    /** `self.weights`: None until a prediction has been made. */
    var weights: Option<seq<real>>

    constructor Empty(degree: int, metric: Metric, features: Featurizer, solve: LeastSquares)
      ensures fresh(surrogate) && fresh(surrogate.base)
      ensures surrogate.base.name == "locally_weighted_polynomial_regression_" + IntToString(degree) + "_degree"
      ensures surrogate.base.dim == 1 && surrogate.base.numCalls == 0
      ensures !surrogate.isReady && surrogate.trainSet.None?
      ensures this.degree == degree && this.metric == metric && this.features == features && this.solve == solve
      ensures numNeighbours == 0 && covariance == [] && weights.None?
    {
      surrogate := new Surrogate.SurrogateObjectiveFunction(
        "locally_weighted_polynomial_regression_" + IntToString(degree) + "_degree");
      this.degree := degree;
      this.metric := metric;
      this.features := features;
      this.solve := solve;
      numNeighbours := 0;
      covariance := [];
      weights := None;
    }

    /** `__init__`: the train set is trained by the base constructor and then
        a second time; the covariance defaults to the identity of the
        dimensionality reached by then. */
    static method New(degree: int, numNeighbours: int, trainSet: Option<seq<Sample>>,
                      covariance: Option<seq<seq<real>>>,
                      metric: Metric, features: Featurizer, solve: LeastSquares)
      returns (f: LocallyWeightedPolynomialRegression, r: Outcome)
      ensures fresh(f) && fresh(f.surrogate) && fresh(f.surrogate.base)
      ensures f.degree == degree && f.metric == metric && f.features == features && f.solve == solve
      ensures f.surrogate.base.numCalls == 0
      ensures r.Fail? <==> trainSet.Some? && trainSet.value != [] && Surrogate.TrainDim(trainSet.value).Err?
      ensures r.Fail? ==> r.error == ValueError
      ensures r.Pass? ==> f.numNeighbours == numNeighbours && f.weights.None?
      ensures r.Pass? && (trainSet.None? || trainSet.value == []) ==>
        !f.surrogate.isReady && f.surrogate.base.dim == 1 && f.covariance == InitialCovariance(covariance, 1)
      ensures r.Pass? && trainSet.Some? && trainSet.value != [] ==>
        f.surrogate.isReady && f.surrogate.trainSet == trainSet &&
        f.surrogate.base.dim == Surrogate.TrainDim(trainSet.value).value &&
        f.covariance == InitialCovariance(covariance, Surrogate.TrainDim(trainSet.value).value)
    {
      f := new LocallyWeightedPolynomialRegression.Empty(degree, metric, features, solve);
      r := Pass;
      if trainSet.Some? && trainSet.value != [] {
        r := f.surrogate.Train(trainSet.value);
        if r.Fail? {
          return;
        }
        r := f.surrogate.Train(trainSet.value);
      }
      f.numNeighbours := numNeighbours;
      var dim := if trainSet.Some? && trainSet.value != [] then Surrogate.TrainDim(trainSet.value).value else 1;
      f.covariance := InitialCovariance(covariance, dim);
    }

    method SetCovarianceMatrix(m: seq<seq<real>>)
      modifies this
      ensures covariance == m
      ensures numNeighbours == old(numNeighbours) && weights == old(weights)
    {
      covariance := m;
    }

    /** `__call__`: the base guard and counter, then the local fit, whose
        solution is kept in `weights`, and its value at the query. */
    method Call(x: seq<real>) returns (r: Result<real>)
      modifies this, surrogate.base
      ensures surrogate.base.name == old(surrogate.base.name) && surrogate.base.dim == old(surrogate.base.dim)
      ensures numNeighbours == old(numNeighbours) && covariance == old(covariance)
      ensures !surrogate.isReady ==>
        r == Err(NotImplementedError) && surrogate.base.numCalls == old(surrogate.base.numCalls) && weights == old(weights)
      ensures surrogate.isReady ==>
        surrogate.base.numCalls == Objective.CallsAfter(surrogate.base.dim, old(surrogate.base.numCalls), |x|)
      ensures surrogate.isReady && |x| != surrogate.base.dim ==> r == Err(ValueError) && weights == old(weights)
      ensures surrogate.isReady && |x| == surrogate.base.dim && surrogate.trainSet.None? ==>
        r == Err(AttributeError) && weights == old(weights)
      ensures surrogate.isReady && |x| == surrogate.base.dim && surrogate.trainSet.Some? ==>
        var fit := FitWeights(metric, features, solve, covariance, numNeighbours, surrogate.trainSet.value, x);
        (fit.Err? ==> r == Err(fit.error) && weights == old(weights)) &&
        (fit.Ok? ==> weights == Some(fit.value) && r == Dot(fit.value, features(x)))
    {
      var guard := surrogate.Call(x);
      if guard.Fail? {
        return Err(guard.error);
      }
      if surrogate.trainSet.None? {
        return Err(AttributeError);
      }
      var fit := FitWeights(metric, features, solve, covariance, numNeighbours, surrogate.trainSet.value, x);
      if fit.Err? {
        return Err(fit.error);
      }
      weights := Some(fit.value);
      r := Dot(fit.value, features(x));
    }
  }
}
