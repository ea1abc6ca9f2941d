/**
 * `SurrogateObjectiveFunction` of
 * src/optilab/functions/surrogate/surrogate_objective_function.py: the
 * readiness and dimension state machine every optilab surrogate inherits.
 *
 * The Python class extends `ObjectiveFunction`; here it holds one, and the
 * inherited `name`, `dim` and `num_calls` live in `base`.
 */
module Surrogate {
  import opened Errors
  import opened Points
  import Objective

  /** `{len(x) for x, _ in train_set}`. */
  function DimSet(trainSet: seq<Sample>): set<nat>
  {
    set i | 0 <= i < |trainSet| :: |trainSet[i].0|
  }

  /** Every x of the train set has length `d`. */
  predicate Uniform(trainSet: seq<Sample>, d: nat)
  {
    forall i :: 0 <= i < |trainSet| ==> |trainSet[i].0| == d
  }

  /** The validation step of `train`: the dimensionality it adopts, or the
      ValueError raised when the set of x-lengths is not a singleton. */
  function TrainDim(trainSet: seq<Sample>): (r: Result<nat>)
    ensures r.Ok? <==> |DimSet(trainSet)| == 1
    ensures r.Ok? ==> DimSet(trainSet) == {r.value}
    ensures r.Err? ==> r.error == ValueError
  {
    if |trainSet| == 0 then
      assert DimSet(trainSet) == {};
      Err(ValueError)
    else
      var d := |trainSet[0].0|;
      assert d in DimSet(trainSet);
      SingletonContaining(DimSet(trainSet), d);
      if DimSet(trainSet) == {d} then Ok(d) else Err(ValueError)
  }

  /** A one-element set that contains `e` is `{e}`. */
  lemma SingletonContaining(s: set<nat>, e: nat)
    requires e in s
    ensures |s| == 1 <==> s == {e}
  {
    if |s| == 1 {
      var rest := s - {e};
      assert s == rest + {e};
      assert rest == {};
    }
  }

  /** Validation succeeds exactly when the set is non-empty and all its x's
      share one length, which is then the adopted dimensionality. */
  lemma TrainDimUniform(trainSet: seq<Sample>, d: nat)
    ensures TrainDim(trainSet) == Ok(d) <==> |trainSet| > 0 && Uniform(trainSet, d)
  {
    if |trainSet| > 0 && Uniform(trainSet, d) {
      assert |trainSet[0].0| in DimSet(trainSet);
      assert DimSet(trainSet) == {d};
    }
    if TrainDim(trainSet) == Ok(d) {
      forall i | 0 <= i < |trainSet| ensures |trainSet[i].0| == d {
        assert |trainSet[i].0| in DimSet(trainSet);
      }
    }
  }

  /** The empty set and a set mixing two lengths are both rejected. */
  lemma TrainDimRejects(trainSet: seq<Sample>, i: nat, j: nat)
    requires trainSet == [] || (i < |trainSet| && j < |trainSet| && |trainSet[i].0| != |trainSet[j].0|)
    ensures TrainDim(trainSet) == Err(ValueError)
  {
    if trainSet != [] {
      assert |trainSet[i].0| in DimSet(trainSet) && |trainSet[j].0| in DimSet(trainSet);
    }
  }

  class SurrogateObjectiveFunction {
    const base: Objective.ObjectiveFunction
    var isReady: bool
    /** `None` while the attribute `train_set` has never been assigned. */
    var trainSet: Option<seq<Sample>>

    /** `__init__` with no train set or an empty one: not ready, `dim == 1`.
        A non-empty set is trained by `New`. */
    constructor (name: string)
      ensures fresh(base) && base.name == name && base.dim == 1 && base.numCalls == 0
      ensures !isReady && trainSet.None?
    {
      base := new Objective.ObjectiveFunction(name, 1);
      isReady := false;
      trainSet := None;
    }

    /** `__init__(name, train_set)`: an empty or absent set is falsy and skips
        training; a non-empty one is trained, and the construction fails with
        the ValueError that `train` raises. */
    static method New(name: string, trainSet: Option<seq<Sample>>)
      returns (f: SurrogateObjectiveFunction, r: Outcome)
      ensures fresh(f) && fresh(f.base)
      ensures f.base.name == name && f.base.numCalls == 0
      ensures trainSet.None? || trainSet.value == [] ==>
        r == Pass && !f.isReady && f.base.dim == 1 && f.trainSet.None?
      ensures trainSet.Some? && trainSet.value != [] ==>
        f.isReady && (r.Pass? <==> TrainDim(trainSet.value).Ok?)
      ensures trainSet.Some? && r.Pass? && trainSet.value != [] ==>
        f.base.dim == TrainDim(trainSet.value).value && f.trainSet == trainSet
    {
      f := new SurrogateObjectiveFunction(name);
      r := Pass;
      if trainSet.Some? && trainSet.value != [] {
        r := f.Train(trainSet.value);
      }
    }

    /** `train`: `is_ready` is set before the validation, so a rejected set
        leaves the function ready with its old `dim` and `train_set`. */
    method Train(s: seq<Sample>) returns (r: Outcome)
      modifies this, base
      ensures isReady
      ensures r.Pass? <==> TrainDim(s).Ok?
      ensures r.Pass? ==> base.dim == TrainDim(s).value && trainSet == Some(s)
      ensures r.Fail? ==> r.error == ValueError && base.dim == old(base.dim) && trainSet == old(trainSet)
      ensures base.name == old(base.name) && base.numCalls == old(base.numCalls)
    {
      isReady := true;
      var d := TrainDim(s);
      if d.Err? {
        return Fail(d.error);
      }
      base.dim := d.value;
      trainSet := Some(s);
      r := Pass;
    }

    /** `__call__`: NotImplementedError while not ready, without counting;
        otherwise the base class's guard and counter. */
    method Call(x: seq<real>) returns (r: Outcome)
      modifies base
      ensures !isReady ==> r == Fail(NotImplementedError) && base.numCalls == old(base.numCalls)
      ensures isReady ==> r == Objective.Guard(base.dim, |x|)
      ensures isReady ==> base.numCalls == Objective.CallsAfter(base.dim, old(base.numCalls), |x|)
      ensures base.name == old(base.name) && base.dim == old(base.dim)
    {
      if !isReady {
        return Fail(NotImplementedError);
      }
      r := base.Call(x);
    }
  }
}
