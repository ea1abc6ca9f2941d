/**
 * `KNNSurrogateObjectiveFunction` of
 * src/optilab/functions/surrogate/knn_surrogate_objective_function.py.
 *
 * The scikit-learn regressor is not modelled: its prediction is the
 * parameter `predictor`, applied to the data it was last fitted on, the
 * neighbour count and the query. What the model keeps of scikit-learn is
 * when `fit` and `predict` raise instead of answering.
 */
module Knn {
  import opened Errors
  import opened Points
  import Objective
  import Surrogate
  import opened Text

  // ---------------------------------------------------------------------------
  // The name f"KNN{num_neighbors}"

  function KnnName(numNeighbors: int): (name: string)
  {
    "KNN" + IntToString(numNeighbors)
  }

  /** The name is "KNN" followed by the decimal digits of the neighbour count,
      from which the count can be read back. */
  lemma KnnNameDecodes(k: nat)
    ensures KnnName(k)[..3] == "KNN"
    ensures IsDigits(KnnName(k)[3..]) && ParseDigits(KnnName(k)[3..]) == k
  {
    assert KnnName(k)[3..] == NatToString(k);
    NatToStringRoundTrip(k);
  }

  /** Different neighbour counts give different names. */
  lemma KnnNameInjective(k: nat, m: nat)
    requires k != m
    ensures KnnName(k) != KnnName(m)
  {
    KnnNameDecodes(k);
    KnnNameDecodes(m);
  }

  // ---------------------------------------------------------------------------
  // Metadata

  /** `FunctionMetadata` of src/optilab/data_classes/function_metadata.py,
      with the hyperparameter dictionary restricted to integer values. */
  datatype FunctionMetadata = FunctionMetadata(name: string, dim: int, hyperparameters: map<string, int>)

  /** `get_metadata`: the inherited metadata with `num_neighbors` added. */
  function Metadata(name: string, dim: int, numNeighbors: int): (m: FunctionMetadata)
    ensures m.name == name && m.dim == dim
    ensures "num_neighbors" in m.hyperparameters && m.hyperparameters["num_neighbors"] == numNeighbors
  {
    FunctionMetadata(name, dim, map["num_neighbors" := numNeighbors])
  }

  // ---------------------------------------------------------------------------
  // The scikit-learn regressor, as far as the wrapper depends on it

  /** What `fit` stored: the training pairs and their number of features. */
  datatype Fitted = Fitted(data: seq<Sample>, features: nat)

  /** `KNeighborsRegressor.predict` for one query, once its checks pass. */
  type Predictor = (seq<Sample>, int, seq<real>) -> real

  /** `fit`: rejects a neighbour count below 1 and x's without features. */
  function Fit(numNeighbors: int, data: seq<Sample>, dim: nat): (r: Result<Fitted>)
    ensures r.Ok? <==> numNeighbors >= 1 && dim >= 1
    ensures r.Ok? ==> r.value == Fitted(data, dim)
    ensures r.Err? ==> r.error == ValueError
  {
    if numNeighbors < 1 || dim == 0 then Err(ValueError) else Ok(Fitted(data, dim))
  }

  /** `predict([x])[0]`: NotFittedError before any fit, ValueError when the
      query has the wrong number of features or there are fewer samples than
      neighbours. */
  function Predict(predictor: Predictor, fitted: Option<Fitted>, numNeighbors: int, x: seq<real>): (r: Result<real>)
    ensures fitted.None? ==> r == Err(NotFittedError)
    ensures fitted.Some? ==>
      (r.Ok? <==> |x| == fitted.value.features && numNeighbors <= |fitted.value.data|)
    ensures r.Ok? ==> r.value == predictor(fitted.value.data, numNeighbors, x)
    ensures fitted.Some? && r.Err? ==> r.error == ValueError
  {
    if fitted.None? then Err(NotFittedError)
    else if |x| != fitted.value.features || numNeighbors > |fitted.value.data| then Err(ValueError)
    else Ok(predictor(fitted.value.data, numNeighbors, x))
  }

  // ---------------------------------------------------------------------------

  class KnnSurrogateObjectiveFunction {
    const numNeighbors: int
    const predictor: Predictor
    const surrogate: Surrogate.SurrogateObjectiveFunction
    /** The state of the wrapped regressor. */
    var model: Option<Fitted>

    /** `__init__(num_neighbors)` without a train set. */
    constructor (numNeighbors: int, predictor: Predictor)
      ensures this.numNeighbors == numNeighbors && this.predictor == predictor
      ensures fresh(surrogate) && fresh(surrogate.base)
      ensures surrogate.base.name == KnnName(numNeighbors)
      ensures surrogate.base.dim == 1 && surrogate.base.numCalls == 0
      ensures !surrogate.isReady && surrogate.trainSet.None? && model.None?
    {
      this.numNeighbors := numNeighbors;
      this.predictor := predictor;
      surrogate := new Surrogate.SurrogateObjectiveFunction(KnnName(numNeighbors));
      model := None;
    }

    /** `__init__(num_neighbors, train_set)`: a non-empty set is trained at
        once (the base constructor dispatches to this class's `train`). */
    static method New(numNeighbors: int, predictor: Predictor, trainSet: Option<seq<Sample>>)
      returns (f: KnnSurrogateObjectiveFunction, r: Outcome)
      ensures fresh(f) && fresh(f.surrogate) && fresh(f.surrogate.base)
      ensures f.numNeighbors == numNeighbors && f.predictor == predictor
      ensures f.surrogate.base.name == KnnName(numNeighbors) && f.surrogate.base.numCalls == 0
      ensures trainSet.None? || trainSet.value == [] ==>
        r == Pass && !f.surrogate.isReady && f.surrogate.base.dim == 1 && f.model.None?
      ensures trainSet.Some? && trainSet.value != [] ==>
        f.surrogate.isReady && r == TrainOutcome(numNeighbors, trainSet.value)
      ensures r.Pass? && trainSet.Some? && trainSet.value != [] ==>
        f.surrogate.base.dim == Surrogate.TrainDim(trainSet.value).value &&
        f.model == Some(Fitted(trainSet.value, f.surrogate.base.dim))
    {
      f := new KnnSurrogateObjectiveFunction(numNeighbors, predictor);
      r := Pass;
      if trainSet.Some? && trainSet.value != [] {
        r := f.Train(trainSet.value);
      }
    }

    /** `train`: the base validation, then `fit` on the new train set. */
    method Train(s: seq<Sample>) returns (r: Outcome)
      modifies this, surrogate, surrogate.base
      ensures surrogate.isReady
      ensures r == TrainOutcome(numNeighbors, s)
      ensures Surrogate.TrainDim(s).Ok? ==>
        surrogate.base.dim == Surrogate.TrainDim(s).value && surrogate.trainSet == Some(s)
      ensures r.Pass? ==> model == Some(Fitted(s, surrogate.base.dim))
      ensures r.Fail? ==> model == old(model)
      ensures Surrogate.TrainDim(s).Err? ==>
        surrogate.base.dim == old(surrogate.base.dim) && surrogate.trainSet == old(surrogate.trainSet)
      ensures surrogate.base.name == old(surrogate.base.name)
      ensures surrogate.base.numCalls == old(surrogate.base.numCalls)
    {
      r := surrogate.Train(s);
      if r.Fail? {
        return;
      }
      var fit := Fit(numNeighbors, s, surrogate.base.dim);
      if fit.Err? {
        return Fail(fit.error);
      }
      model := Some(fit.value);
    }

    /** `__call__(point)`: the base readiness check and guarded count, then
        the regressor's answer as a new, unevaluated point at the same x. */
    method Call(point: Point) returns (r: Result<Point>)
      modifies surrogate.base
      ensures !surrogate.isReady ==>
        r == Err(NotImplementedError) && surrogate.base.numCalls == old(surrogate.base.numCalls)
      ensures surrogate.isReady ==>
        surrogate.base.numCalls == Objective.CallsAfter(surrogate.base.dim, old(surrogate.base.numCalls), |point.x|)
      ensures surrogate.isReady && |point.x| != surrogate.base.dim ==> r == Err(ValueError)
      ensures r == CallResult(surrogate.isReady, surrogate.base.dim, predictor, model, numNeighbors, point)
      ensures surrogate.base.name == old(surrogate.base.name) && surrogate.base.dim == old(surrogate.base.dim)
    {
      var guard := surrogate.Call(point.x);
      if guard.Fail? {
        return Err(guard.error);
      }
      var y := Predict(predictor, model, numNeighbors, point.x);
      if y.Err? {
        return Err(y.error);
      }
      r := Ok(Point(point.x, Some(y.value), false));
    }

    function GetMetadata(): (m: FunctionMetadata)
      reads surrogate.base
      ensures m.name == surrogate.base.name && m.dim == surrogate.base.dim
      ensures "num_neighbors" in m.hyperparameters && m.hyperparameters["num_neighbors"] == numNeighbors
    {
      Metadata(surrogate.base.name, surrogate.base.dim, numNeighbors)
    }
  }

  /** What `train` answers: the validation's ValueError, then `fit`'s. */
  function TrainOutcome(numNeighbors: int, s: seq<Sample>): (r: Outcome)
    ensures r.Pass? <==> Surrogate.TrainDim(s).Ok? && numNeighbors >= 1 && Surrogate.TrainDim(s).value >= 1
    ensures r.Fail? ==> r.error == ValueError
  {
    var d := Surrogate.TrainDim(s);
    if d.Err? then Fail(ValueError)
    else if Fit(numNeighbors, s, d.value).Err? then Fail(ValueError)
    else Pass
  }

  /** What `__call__` answers in a given state. */
  function CallResult(isReady: bool, dim: int, predictor: Predictor, model: Option<Fitted>,
                      numNeighbors: int, point: Point): (r: Result<Point>)
    ensures r.Ok? ==> r.value.x == point.x && !r.value.isEvaluated
    ensures r.Ok? ==>
      Predict(predictor, model, numNeighbors, point.x).Ok? &&
      r.value.y == Some(Predict(predictor, model, numNeighbors, point.x).value)
    ensures !isReady ==> r == Err(NotImplementedError)
    ensures isReady && |point.x| != dim ==> r == Err(ValueError)
    ensures r.Ok? <==> isReady && |point.x| == dim && Predict(predictor, model, numNeighbors, point.x).Ok?
  {
    if !isReady then Err(NotImplementedError)
    else if |point.x| != dim then Err(ValueError)
    else
      var y := Predict(predictor, model, numNeighbors, point.x);
      if y.Err? then Err(y.error) else Ok(Point(point.x, Some(y.value), false))
  }
}
