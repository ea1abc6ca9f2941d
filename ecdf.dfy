/**
 * ECDF thresholding: `_ecdf_thresholding` of src/optilab/plotting/ecdf_curve.py
 * and `ecdf_thresholding` of src/sofes/plotting/ecdf_curve.py (the same
 * code in two revisions), and the length bookkeeping `ecdf_curve` does
 * before thresholding every log of a method.
 */
module Ecdf {
  import opened Errors
  import opened RealArith

  /** A float as numpy computes it: `0 / 0` is NaN rather than an exception. */
  datatype Float = Num(v: real) | NaN

  /** `np.sum(thresholds >= item)`: how many thresholds the item reaches. */
  function CountAtLeast(thresholds: seq<real>, item: real): (n: nat)
    ensures n <= |thresholds|
  {
    if thresholds == [] then 0
    else CountAtLeast(thresholds[..|thresholds| - 1], item) + (if thresholds[|thresholds| - 1] >= item then 1 else 0)
  }

  /** A lower error reaches at least as many thresholds. */
  lemma {:induction false} CountAtLeastAntitone(thresholds: seq<real>, a: real, b: real)
    requires a <= b
    ensures CountAtLeast(thresholds, b) <= CountAtLeast(thresholds, a)
  {
    if thresholds != [] {
      CountAtLeastAntitone(thresholds[..|thresholds| - 1], a, b);
    }
  }

  /** An item at or below every threshold reaches all of them; one above
      every threshold reaches none. */
  lemma {:induction false} CountAtLeastExtremes(thresholds: seq<real>, item: real)
    ensures (forall k :: 0 <= k < |thresholds| ==> item <= thresholds[k]) ==>
      CountAtLeast(thresholds, item) == |thresholds|
    ensures (forall k :: 0 <= k < |thresholds| ==> item > thresholds[k]) ==>
      CountAtLeast(thresholds, item) == 0
  {
    if thresholds != [] {
      CountAtLeastExtremes(thresholds[..|thresholds| - 1], item);
    }
  }

  /** One y value: the share of thresholds reached, NaN without thresholds. */
  function Level(thresholds: seq<real>, item: real): (f: Float)
    ensures f.NaN? <==> thresholds == []
    ensures f.Num? ==> 0.0 <= f.v <= 1.0
    ensures f.Num? ==> Times(f.v, |thresholds| as real) == CountAtLeast(thresholds, item) as real
  {
    if thresholds == [] then NaN
    else Num(CountAtLeast(thresholds, item) as real / |thresholds| as real)
  }

  /** The y comprehension. */
  function Levels(log: seq<real>, thresholds: seq<real>): (y: seq<Float>)
    ensures |y| == |log|
    ensures forall i :: 0 <= i < |log| ==> y[i] == Level(thresholds, log[i])
  {
    seq(|log|, i requires 0 <= i < |log| => Level(thresholds, log[i]))
  }

  /** A larger log item never gets a larger y value. */
  lemma LevelsAntitone(log: seq<real>, thresholds: seq<real>, i: nat, j: nat)
    requires i < |log| && j < |log| && log[i] <= log[j] && thresholds != []
    ensures Levels(log, thresholds)[j].v <= Levels(log, thresholds)[i].v
  {
    CountAtLeastAntitone(thresholds, log[i], log[j]);
    var n := |thresholds| as real;
    DivideMonotone(CountAtLeast(thresholds, log[j]) as real, CountAtLeast(thresholds, log[i]) as real, n);
  }

  lemma DivideMonotone(a: real, b: real, n: real)
    requires a <= b && n > 0.0
    ensures a / n <= b / n
  {
  }

  /** `x = [(i + 1) / n_dimensions for i in range(len(y))]`: the number of
      evaluations per dimension; ZeroDivisionError for zero dimensions unless
      there is nothing to divide. */
  function XValues(len: nat, nDim: int): (x: Result<seq<real>>)
    ensures x.Err? <==> nDim == 0 && len > 0
    ensures x.Err? ==> x.error == ZeroDivisionError
    ensures x.Ok? ==> |x.value| == len
    ensures x.Ok? ==> forall i :: 0 <= i < len ==> x.value[i] == (i + 1) as real / nDim as real
  {
    if len == 0 then Ok([])
    else if nDim == 0 then Err(ZeroDivisionError)
    else Ok(seq(len, i => (i + 1) as real / nDim as real))
  }

  /** For a positive dimension the x values rise from `1 / n_dimensions` in
      steps of `1 / n_dimensions`. */
  lemma XValuesSteps(len: nat, nDim: int, i: nat)
    requires nDim > 0 && 0 < i < len
    ensures XValues(len, nDim).value[0] == 1.0 / nDim as real
    ensures XValues(len, nDim).value[i] == XValues(len, nDim).value[i - 1] + 1.0 / nDim as real
    ensures XValues(len, nDim).value[i - 1] < XValues(len, nDim).value[i]
  {
    var n := nDim as real;
    assert (i + 1) as real / n == i as real / n + 1.0 / n;
  }

  /** `extend_to_len` is truthy: present and non-zero. */
  predicate Extends(extendToLen: Option<int>)
  {
    extendToLen.Some? && extendToLen.value != 0
  }

  /** What the thresholding returns, or the exception it raises: ValueError
      for an `extend_to_len` below the log's length, IndexError for `y[-1]`
      on an empty log that must be padded, ZeroDivisionError from the x's. */
  function Thresholded(log: seq<real>, thresholds: seq<real>, nDim: int, extendToLen: Option<int>)
    : (r: Result<(seq<real>, seq<Float>)>)
    ensures r == Err(ValueError) <==> Extends(extendToLen) && extendToLen.value < |log|
    ensures r == Err(IndexError) <==> Extends(extendToLen) && log == [] && extendToLen.value > 0
    ensures r == Err(ZeroDivisionError) <==>
      nDim == 0 && !(Extends(extendToLen) && extendToLen.value < |log|) &&
      (if Extends(extendToLen) then log != [] else |log| > 0)
    ensures r.Ok? ==> |r.value.0| == |r.value.1|
    ensures r.Ok? ==> |r.value.1| == if Extends(extendToLen) then extendToLen.value else |log|
    ensures r.Ok? ==> r.value.1[..|log|] == Levels(log, thresholds)
    ensures r.Ok? ==> forall k :: |log| <= k < |r.value.1| ==> r.value.1[k] == r.value.1[|log| - 1]
    ensures r.Ok? ==> XValues(|r.value.1|, nDim) == Ok(r.value.0)
  {
    var y := Levels(log, thresholds);
    if Extends(extendToLen) && extendToLen.value < |y| then Err(ValueError)
    else if Extends(extendToLen) && y == [] then Err(IndexError)
    else
      var padded := if Extends(extendToLen) then Padded(y, extendToLen.value) else y;
      var x := XValues(|padded|, nDim);
      if x.Err? then Err(x.error) else Ok((x.value, padded))
  }

  /** `y` followed by copies of its last item up to length `n`. */
  function Padded(y: seq<Float>, n: nat): (p: seq<Float>)
    requires y != [] && |y| <= n
    ensures |p| == n && p[..|y|] == y
    ensures forall k :: |y| <= k < n ==> p[k] == y[|y| - 1]
  {
    y + seq(n - |y|, _ => y[|y| - 1])
  }

  /** The thresholding with its padding loop. */
  method EcdfThresholding(log: seq<real>, thresholds: seq<real>, nDim: int, extendToLen: Option<int>)
    returns (r: Result<(seq<real>, seq<Float>)>)
    ensures r == Thresholded(log, thresholds, nDim, extendToLen)
  {
    var y := Levels(log, thresholds);
    ghost var levels := y;
    if Extends(extendToLen) {
      var n := extendToLen.value;
      if n < |y| {
        return Err(ValueError);
      }
      while |y| < n
        invariant |levels| <= |y| <= n
        invariant y[..|levels|] == levels
        invariant forall k :: |levels| <= k < |y| ==> |levels| > 0 && y[k] == levels[|levels| - 1]
        decreases n - |y|
      {
        if y == [] {
          return Err(IndexError);
        }
        y := y + [y[|y| - 1]];
      }
      if levels != [] {
        assert y == Padded(levels, n);
      }
    }
    var x := XValues(|y|, nDim);
    if x.Err? {
      return Err(x.error);
    }
    r := Ok((x.value, y));
  }

  /** The longest log of a method, `max_len` in `ecdf_curve`. */
  function MaxLength(logs: seq<seq<real>>): (m: nat)
    ensures forall i :: 0 <= i < |logs| ==> |logs[i]| <= m
    ensures logs == [] ==> m == 0
    ensures logs != [] ==> exists i :: 0 <= i < |logs| && |logs[i]| == m
  {
    if logs == [] then 0
    else
      var front := MaxLength(logs[..|logs| - 1]);
      var last := |logs[|logs| - 1]|;
      if front < last then last else front
  }

  /** `ecdf_curve` pads every log of a method to the method's longest one
      (logs must be non-empty, since `processed_log[-1]` is read for each).
      Thresholding then never raises for a non-zero dimension, and all the
      method's curves share one length and one x. */
  lemma EcdfCurveAligned(logs: seq<seq<real>>, thresholds: seq<real>, nDim: int, i: nat)
    requires forall k :: 0 <= k < |logs| ==> logs[k] != []
    requires nDim != 0 && i < |logs|
    ensures Thresholded(logs[i], thresholds, nDim, Some(MaxLength(logs))).Ok?
    ensures |Thresholded(logs[i], thresholds, nDim, Some(MaxLength(logs))).value.1| == MaxLength(logs)
    ensures Thresholded(logs[i], thresholds, nDim, Some(MaxLength(logs))).value.0 ==
      XValues(MaxLength(logs), nDim).value
  {
    assert |logs[i]| <= MaxLength(logs);
  }
}
