/**
 * `convergence_curve` of src/optilab/plotting/convergence_curve.py: the
 * lowest error seen so far after each evaluation.
 */
module Convergence {
  import opened Errors

  function Min(a: real, b: real): (m: real)
    ensures m <= a && m <= b && (m == a || m == b)
  {
    if b < a then b else a
  }

  /** The smallest item of a non-empty log. */
  function Minimum(s: seq<real>): (m: real)
    requires |s| > 0
    ensures forall k :: 0 <= k < |s| ==> m <= s[k]
    ensures m in s
  {
    if |s| == 1 then s[0]
    else
      var front := Minimum(s[..|s| - 1]);
      assert front in s[..|s| - 1];
      Min(front, s[|s| - 1])
  }

  /** The curve: item `i` is the minimum of the first `i + 1` log items. */
  function RunningMinimum(log: seq<real>): (c: seq<real>)
    ensures |c| == |log|
  {
    seq(|log|, i requires 0 <= i < |log| => Minimum(log[..i + 1]))
  }

  /** The loop of `convergence_curve`; `None` stands for the initial
      `float("inf")`, which any item replaces. */
  method ConvergenceCurve(log: seq<real>) returns (curve: seq<real>)
    ensures curve == RunningMinimum(log)
  {
    var minSoFar: Option<real> := None;
    curve := [];
    for i := 0 to |log|
      invariant |curve| == i
      invariant forall j :: 0 <= j < i ==> curve[j] == Minimum(log[..j + 1])
      invariant minSoFar.None? <==> i == 0
      invariant i > 0 ==> minSoFar == Some(Minimum(log[..i]))
    {
      var m := if minSoFar.None? then log[i] else Min(minSoFar.value, log[i]);
      MinimumStep(log, i);
      minSoFar := Some(m);
      curve := curve + [m];
    }
  }

  /** One more log item: the new minimum is the smaller of the old one and
      the item. */
  lemma MinimumStep(log: seq<real>, i: nat)
    requires i < |log|
    ensures i == 0 ==> Minimum(log[..i + 1]) == log[0]
    ensures i > 0 ==> Minimum(log[..i + 1]) == Min(Minimum(log[..i]), log[i])
  {
    assert log[..i + 1][..i] == log[..i];
  }

  predicate NonIncreasing(s: seq<real>)
  {
    forall i, j :: 0 <= i <= j < |s| ==> s[j] <= s[i]
  }

  /** Extending the prefix can only lower its minimum. */
  lemma {:induction false} MinimumOfLongerPrefix(log: seq<real>, i: nat, j: nat)
    requires i <= j < |log|
    ensures Minimum(log[..j + 1]) <= Minimum(log[..i + 1])
  {
    var m := Minimum(log[..i + 1]);
    var k :| 0 <= k < i + 1 && log[..i + 1][k] == m;
    assert log[..j + 1][k] == m;
  }

  /** The curve never goes up, never lies above the log, and consists of
      values taken from the log. */
  lemma RunningMinimumShape(log: seq<real>)
    ensures NonIncreasing(RunningMinimum(log))
    ensures forall i :: 0 <= i < |log| ==> RunningMinimum(log)[i] <= log[i]
    ensures forall i :: 0 <= i < |log| ==> RunningMinimum(log)[i] in log
  {
    var c := RunningMinimum(log);
    forall i, j | 0 <= i <= j < |c| ensures c[j] <= c[i] {
      MinimumOfLongerPrefix(log, i, j);
    }
    forall i | 0 <= i < |log| ensures c[i] <= log[i] && c[i] in log {
      assert log[..i + 1][i] == log[i];
      assert c[i] in log[..i + 1];
    }
  }

  /** The curve starts at the first log item; an empty log gives an empty curve. */
  lemma RunningMinimumStart(log: seq<real>)
    ensures log == [] ==> RunningMinimum(log) == []
    ensures log != [] ==> RunningMinimum(log)[0] == log[0]
  {
    if log != [] {
      assert log[..1] == [log[0]];
    }
  }

  /** The minimum of a non-increasing sequence is its last item. */
  lemma MinimumOfNonIncreasing(s: seq<real>)
    requires |s| > 0 && NonIncreasing(s)
    ensures Minimum(s) == s[|s| - 1]
  {
  }

  lemma PrefixNonIncreasing(s: seq<real>, i: nat)
    requires i < |s| && NonIncreasing(s)
    ensures NonIncreasing(s[..i + 1]) && s[..i + 1][i] == s[i]
  {
  }

  /** Taking the curve of a curve changes nothing. */
  lemma RunningMinimumIdempotent(log: seq<real>)
    ensures RunningMinimum(RunningMinimum(log)) == RunningMinimum(log)
  {
    var c := RunningMinimum(log);
    RunningMinimumShape(log);
    var cc := RunningMinimum(c);
    forall i | 0 <= i < |c| ensures cc[i] == c[i] {
      PrefixNonIncreasing(c, i);
      MinimumOfNonIncreasing(c[..i + 1]);
    }
  }
}
