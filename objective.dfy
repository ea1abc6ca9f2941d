/**
 * The evaluation-counting base class `ObjectiveFunction`, in the three
 * revisions the repository carries:
 *   - src/optilab/functions/objective_function.py          (`ObjectiveFunction`)
 *   - src/optilab/objective_functions/objective_function.py (`LegacyObjectiveFunction`)
 *   - src/sofes/objective_functions/objective_function.py   (`SofesObjectiveFunction`)
 * The two optilab revisions guard the input's length before counting; the
 * sofes one counts every call.
 */
module Objective {
  import opened Errors

  /** What the length guard answers for an input of length `len`. */
  function Guard(dim: int, len: nat): Outcome
  {
    if len == dim then Pass else Fail(ValueError)
  }

  /** `num_calls` after one guarded call with an input of length `len`. */
  function CallsAfter(dim: int, numCalls: nat, len: nat): nat
  {
    if Guard(dim, len).Pass? then numCalls + 1 else numCalls
  }

  /** `num_calls` after a series of guarded calls, one per input length in `lens`. */
  function Replay(dim: int, numCalls: nat, lens: seq<nat>): nat
    decreases |lens|
  {
    if lens == [] then numCalls
    else Replay(dim, CallsAfter(dim, numCalls, lens[0]), lens[1..])
  }

  /** How many of the lengths in `lens` match `dim`. */
  function CountMatching(dim: int, lens: seq<nat>): nat
  {
    if lens == [] then 0
    else CountMatching(dim, lens[..|lens| - 1]) + (if lens[|lens| - 1] == dim then 1 else 0)
  }

  lemma {:induction false} CountMatchingFront(dim: int, lens: seq<nat>)
    requires lens != []
    ensures CountMatching(dim, lens) == (if lens[0] == dim then 1 else 0) + CountMatching(dim, lens[1..])
    decreases |lens|
  {
    if |lens| > 1 {
      var front := lens[..|lens| - 1];
      CountMatchingFront(dim, front);
      assert front[1..] == lens[1..][..|lens[1..]| - 1];
    }
  }

  /** Whatever mix of matching and mismatching calls is made, the counter
      grows by exactly the number of calls whose input had the right length. */
  lemma {:induction false} ReplayCountsSuccessfulCalls(dim: int, numCalls: nat, lens: seq<nat>)
    ensures Replay(dim, numCalls, lens) == numCalls + CountMatching(dim, lens)
    decreases |lens|
  {
    if lens != [] {
      ReplayCountsSuccessfulCalls(dim, CallsAfter(dim, numCalls, lens[0]), lens[1..]);
      CountMatchingFront(dim, lens);
    }
  }

  /** A call sequence that never matches leaves the counter where it was. */
  lemma FailingCallsCountNothing(dim: int, numCalls: nat, lens: seq<nat>)
    requires forall i :: 0 <= i < |lens| ==> lens[i] != dim
    ensures Replay(dim, numCalls, lens) == numCalls
  {
    ReplayCountsSuccessfulCalls(dim, numCalls, lens);
    NoMatchCountsZero(dim, lens);
  }

  lemma {:induction false} NoMatchCountsZero(dim: int, lens: seq<nat>)
    requires forall i :: 0 <= i < |lens| ==> lens[i] != dim
    ensures CountMatching(dim, lens) == 0
  {
    if lens != [] {
      NoMatchCountsZero(dim, lens[..|lens| - 1]);
    }
  }

  /** `ObjectiveFunction` of src/optilab/functions/objective_function.py. */
  class ObjectiveFunction {
    var name: string
    var dim: int
    var numCalls: nat

    constructor (name: string, dim: int)
      ensures this.name == name && this.dim == dim && numCalls == 0
    {
      this.name := name;
      this.dim := dim;
      numCalls := 0;
    }

    /** `__call__`: the length check comes before the counter update, so a
        rejected call leaves `num_calls` unchanged. */
    method Call(x: seq<real>) returns (r: Outcome)
      modifies this
      ensures r.Fail? <==> |x| != dim
      ensures r.Fail? ==> r.error == ValueError && numCalls == old(numCalls)
      ensures r.Pass? ==> numCalls == old(numCalls) + 1
      ensures numCalls == CallsAfter(dim, old(numCalls), |x|)
      ensures name == old(name) && dim == old(dim)
    {
      if |x| != dim {
        return Fail(ValueError);
      }
      numCalls := numCalls + 1;
      r := Pass;
    }
  }

  /** `ObjectiveFunction` of src/optilab/objective_functions/objective_function.py,
      the older revision of the same guarded counter. */
  class LegacyObjectiveFunction {
    var name: string
    var dim: int
    var numCalls: nat

    constructor (name: string, dim: int)
      ensures this.name == name && this.dim == dim && numCalls == 0
    {
      this.name := name;
      this.dim := dim;
      numCalls := 0;
    }

    method Call(x: seq<real>) returns (r: Outcome)
      modifies this
      ensures r.Fail? <==> |x| != dim
      ensures r.Fail? ==> r.error == ValueError && numCalls == old(numCalls)
      ensures r.Pass? ==> numCalls == old(numCalls) + 1
      ensures numCalls == CallsAfter(dim, old(numCalls), |x|)
      ensures name == old(name) && dim == old(dim)
    {
      if !(|x| == dim) {
        r := Fail(ValueError);
        return;
      }
      numCalls := numCalls + 1;
      r := Pass;
    }
  }

  /** `ObjectiveFunction` of src/sofes/objective_functions/objective_function.py:
      no length check at all, every call is counted. */
  class SofesObjectiveFunction {
    var name: string
    var dim: int
    var numCalls: nat

    constructor (name: string, dim: int)
      ensures this.name == name && this.dim == dim && numCalls == 0
    {
      this.name := name;
      this.dim := dim;
      numCalls := 0;
    }

    method Call(x: seq<real>)
      modifies this
      ensures numCalls == old(numCalls) + 1
      ensures name == old(name) && dim == old(dim)
    {
      numCalls := numCalls + 1;
    }
  }
}
