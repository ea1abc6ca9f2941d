/**
 * `ecdf_points` of src/visualize.py: for each log item, how many of the
 * `targets_num` evenly spaced targets between the first value and the goal
 * have been reached. `np.linspace` is not modelled: its output is the
 * parameter `targetPairs`, of length `targets_num`.
 */
module Visualize {
  import opened Errors
  import Convergence
  import Ecdf

  /** `values_range`: from the first log value to the target when it is
      truthy (given and non-zero), otherwise to the smallest log value;
      IndexError for an empty log. */
  function ValuesRange(log: seq<real>, target: Option<real>): (r: Result<(real, real)>)
    ensures r.Err? <==> log == []
    ensures r.Err? ==> r.error == IndexError
    ensures r.Ok? ==> r.value.0 == log[0]
    ensures r.Ok? && target.Some? && target.value != 0.0 ==> r.value.1 == target.value
    ensures r.Ok? && (target.None? || target.value == 0.0) ==>
      r.value.1 in log && forall k :: 0 <= k < |log| ==> r.value.1 <= log[k]
  {
    if log == [] then Err(IndexError)
    else if target.Some? && target.value != 0.0 then Ok((log[0], target.value))
    else Ok((log[0], Convergence.Minimum(log)))
  }

  /** The inner `while`: from `current`, move on past every target the
      result reaches, stopping at the last target. */
  function Advance(targetPairs: seq<real>, current: nat, result: real): (c: nat)
    requires 1 <= current < |targetPairs|
    ensures current <= c < |targetPairs|
    ensures c == |targetPairs| - 1 || result > targetPairs[c]
    ensures forall k :: current <= k < c ==> result <= targetPairs[k]
    decreases |targetPairs| - current
  {
    if result <= targetPairs[current] && current < |targetPairs| - 1 then
      Advance(targetPairs, current + 1, result)
    else current
  }

  predicate NonDecreasing(s: seq<nat>)
  {
    forall i, j :: 0 <= i <= j < |s| ==> s[i] <= s[j]
  }

  /** The counts appended for the remaining log items, starting from `current`. */
  function Reached(targetPairs: seq<real>, current: nat, rest: seq<real>): (counts: seq<nat>)
    requires 1 <= current < |targetPairs|
    ensures |counts| == |rest|
    decreases |rest|
  {
    if rest == [] then []
    else
      var c := Advance(targetPairs, current, rest[0]);
      [c] + Reached(targetPairs, c, rest[1..])
  }

  /** Counts never drop below the starting one, never pass the last target
      and never decrease. */
  lemma {:induction false} ReachedShape(targetPairs: seq<real>, current: nat, rest: seq<real>)
    requires 1 <= current < |targetPairs|
    ensures var counts := Reached(targetPairs, current, rest);
      NonDecreasing(counts) && forall i :: 0 <= i < |counts| ==> current <= counts[i] < |targetPairs|
    decreases |rest|
  {
    if rest != [] {
      var c := Advance(targetPairs, current, rest[0]);
      ReachedShape(targetPairs, c, rest[1..]);
    }
  }

  /** `targets_reached` for a non-empty log: 1 for the first item. */
  function Counts(targetPairs: seq<real>, log: seq<real>): (counts: seq<nat>)
    requires |log| >= 1 && (|log| >= 2 ==> |targetPairs| >= 2)
  {
    if |log| == 1 then [1] else [1] + Reached(targetPairs, 1, log[1..])
  }

  /** One count per log item, starting at 1, never decreasing, and with at
      least two targets never past the last one. */
  lemma CountsShape(targetPairs: seq<real>, log: seq<real>)
    requires |log| >= 1 && |targetPairs| >= 2
    ensures var counts := Counts(targetPairs, log);
      |counts| == |log| && counts[0] == 1 && NonDecreasing(counts) &&
      forall i :: 0 <= i < |counts| ==> 1 <= counts[i] <= |targetPairs| - 1
  {
    if |log| >= 2 {
      ReachedShape(targetPairs, 1, log[1..]);
    }
  }

  /** What `ecdf_points` returns, or the exception it raises: IndexError for
      an empty log, ValueError from `np.linspace` for a negative
      `targets_num`, IndexError from `target_pairs[1]` when a second log item
      meets fewer than two targets, ZeroDivisionError from the unused
      `item / targets_num` and from `i / dimensions`. */
  function EcdfPointsResult(log: seq<real>, dimensions: int, targetPairs: seq<real>, targetsNum: int)
    : (r: Result<(seq<real>, seq<nat>)>)
    requires targetsNum >= 0 ==> |targetPairs| == targetsNum
    ensures r.Ok? <==> |log| >= 1 && targetsNum >= 1 && (|log| >= 2 ==> targetsNum >= 2) && dimensions != 0
    ensures r.Ok? ==> |r.value.0| == |r.value.1| == |log|
    ensures r.Ok? ==> r.value.1 == Counts(targetPairs, log)
    ensures r.Ok? ==> Ecdf.XValues(|log|, dimensions) == Ok(r.value.0)
    ensures log == [] ==> r == Err(IndexError)
    ensures log != [] && targetsNum < 0 ==> r == Err(ValueError)
    ensures |log| >= 2 && 0 <= targetsNum <= 1 ==> r == Err(IndexError)
    ensures |log| == 1 && targetsNum == 0 ==> r == Err(ZeroDivisionError)
    ensures |log| >= 1 && targetsNum >= 1 && (|log| >= 2 ==> targetsNum >= 2) && dimensions == 0 ==>
      r == Err(ZeroDivisionError)
  {
    if log == [] then Err(IndexError)
    else if targetsNum < 0 then Err(ValueError)
    else if |log| >= 2 && targetsNum <= 1 then Err(IndexError)
    else if targetsNum == 0 then Err(ZeroDivisionError)
    else
      var x := Ecdf.XValues(|log|, dimensions);
      if x.Err? then Err(x.error)
      else
        var counts := Counts(targetPairs, log);
        assert |counts| == |log|;
        Ok((x.value, counts))
  }

  /** The inner `while` of `ecdf_points`. */
  method AdvanceTargets(targetPairs: seq<real>, current: nat, result: real) returns (c: nat)
    requires 1 <= current < |targetPairs|
    ensures c == Advance(targetPairs, current, result)
  {
    c := current;
    while result <= targetPairs[c]
      invariant current <= c < |targetPairs|
      invariant Advance(targetPairs, c, result) == Advance(targetPairs, current, result)
      decreases |targetPairs| - c
    {
      if c < |targetPairs| - 1 {
        c := c + 1;
      } else {
        break;
      }
    }
  }

  /** The counts of the log items from `i` on, once item `i` is counted. */
  lemma ReachedStep(targetPairs: seq<real>, current: nat, log: seq<real>, i: nat)
    requires 1 <= current < |targetPairs| && i < |log|
    ensures Reached(targetPairs, current, log[i..]) ==
      [Advance(targetPairs, current, log[i])] +
      Reached(targetPairs, Advance(targetPairs, current, log[i]), log[i + 1..])
  {
    assert log[i..][1..] == log[i + 1..];
  }

  /** The outer loop of `ecdf_points`, over the log items after the first. */
  method CountTargets(log: seq<real>, targetPairs: seq<real>) returns (targetsReached: seq<nat>)
    requires |log| >= 2 && |targetPairs| >= 2
    ensures targetsReached == Counts(targetPairs, log)
  {
    targetsReached := [1];
    var current: nat := 1;
    for i := 1 to |log|
      invariant 1 <= current < |targetPairs|
      invariant targetsReached + Reached(targetPairs, current, log[i..]) == Counts(targetPairs, log)
    {
      ReachedStep(targetPairs, current, log, i);
      var next := AdvanceTargets(targetPairs, current, log[i]);
      targetsReached := targetsReached + [next];
      current := next;
    }
  }

  /** `ecdf_points`. */
  method EcdfPoints(log: seq<real>, dimensions: int, targetPairs: seq<real>, targetsNum: int)
    returns (r: Result<(seq<real>, seq<nat>)>)
    requires targetsNum >= 0 ==> |targetPairs| == targetsNum
    ensures r == EcdfPointsResult(log, dimensions, targetPairs, targetsNum)
  {
    if log == [] {
      return Err(IndexError);
    }
    if targetsNum < 0 {
      return Err(ValueError);
    }
    var targetsReached: seq<nat> := [1];
    if |log| >= 2 {
      if targetsNum <= 1 {
        return Err(IndexError);
      }
      targetsReached := CountTargets(log, targetPairs);
    }
    if targetsNum == 0 {
      return Err(ZeroDivisionError);
    }
    var x := Ecdf.XValues(|log|, dimensions);
    if x.Err? {
      return Err(x.error);
    }
    r := Ok((x.value, targetsReached));
  }
}
