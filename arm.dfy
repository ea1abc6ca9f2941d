/**
 * `ApproximateRankingMetamodel` of
 * src/sofes/metamodels/approximate_ranking_metamodel.py: the state the
 * lmm-CMA-ES approximate ranking starts from. Only the constructor has a
 * body in this revision; `__call__` is a stub that answers None.
 */
module ApproximateRanking {
  import opened Errors
  import opened Points
  import Objective

  /** `max(1, input_size // 10)`: one tenth of the population evaluated per
      refinement step, rounded down, but at least one point. */
  function StepSize(inputSize: int): (s: int)
    ensures s >= 1
    ensures inputSize >= 1 ==> s <= inputSize
    ensures inputSize < 20 ==> s == 1
    ensures inputSize >= 10 ==> 10 * s <= inputSize < 10 * (s + 1)
  {
    var tenth := inputSize / 10;
    if tenth < 1 then 1 else tenth
  }

  class ApproximateRankingMetamodel {
    var inputSize: int
    var popsize: int
    /** Number of points evaluated with the true objective in the first step. */
    var nInit: int
    /** Number of points added per refinement step. */
    var nStep: int
    var trainSet: seq<Sample>
    /** The objective and surrogate slots; the sofes surrogate classes are
        not part of this model, so both are typed as plain counters. */
    var objectiveFunction: Option<Objective.SofesObjectiveFunction>
    var surrogateFunction: Option<Objective.SofesObjectiveFunction>

    constructor (inputSize: int, popsize: int)
      ensures this.inputSize == inputSize && this.popsize == popsize
      ensures nInit == inputSize && nStep == StepSize(inputSize)
      ensures trainSet == [] && objectiveFunction.None? && surrogateFunction.None?
    {
      this.inputSize := inputSize;
      this.popsize := popsize;
      nInit := inputSize;
      nStep := StepSize(inputSize);
      trainSet := [];
      objectiveFunction := None;
      surrogateFunction := None;
    }

    /** `__call__`: the stub has no body, changes nothing and answers None. */
    method Call(xs: seq<seq<real>>, trainSet: seq<Sample>) returns (r: Option<seq<real>>)
      ensures r.None?
    {
      r := None;
    }
  }
}
