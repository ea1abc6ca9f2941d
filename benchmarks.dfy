/**
 * The polynomial benchmark functions, over exact reals:
 *   sphere, cumulative squared sums, bent cigar, Rosenbrock (optilab), and
 *   the sofes "schwefel" function.
 * Each is a pure function of the coordinates; the classes at the end put the
 * evaluation behind the counting base class, as `super().__call__(x)` does.
 */
module Benchmarks {
  import opened Errors
  import opened RealArith
  import Objective

  function Id(v: real): real { v }

  /** Python's `sum(f(v) for v in x)`, accumulated left to right. */
  function SumMap(x: seq<real>, f: real -> real): real
  {
    if x == [] then 0.0 else SumMap(x[..|x| - 1], f) + f(x[|x| - 1])
  }

  function Sum(x: seq<real>): real { SumMap(x, Id) }

  function SumOfSquares(x: seq<real>): (r: real)
    ensures r >= 0.0
  {
    if x == [] then 0.0 else SumOfSquares(x[..|x| - 1]) + Square(x[|x| - 1])
  }

  lemma {:induction false} SumMapAppend(a: seq<real>, b: seq<real>, f: real -> real)
    ensures SumMap(a + b, f) == SumMap(a, f) + SumMap(b, f)
    decreases |b|
  {
    if b != [] {
      var b' := b[..|b| - 1];
      assert (a + b)[..|a + b| - 1] == a + b';
      assert (a + b)[|a + b| - 1] == b[|b| - 1];
      SumMapAppend(a, b', f);
      assert SumMap(a + b, f) == SumMap(a + b', f) + f(b[|b| - 1]);
    } else {
      assert a + b == a;
    }
  }

  lemma {:induction false} SumOfSquaresIsSumMap(x: seq<real>)
    ensures SumOfSquares(x) == SumMap(x, Square)
  {
    if x != [] {
      SumOfSquaresIsSumMap(x[..|x| - 1]);
    }
  }

  /** Sums of the same values in any order agree. */
  lemma {:induction false} SumMapPermutation(x: seq<real>, y: seq<real>, f: real -> real)
    requires multiset(x) == multiset(y)
    ensures SumMap(x, f) == SumMap(y, f)
    decreases |x|
  {
    if x != [] {
      var last := x[|x| - 1];
      var x' := x[..|x| - 1];
      assert x == x' + [last];
      assert last in multiset(y);
      var j :| 0 <= j < |y| && y[j] == last;
      var y' := y[..j] + y[j + 1..];
      assert y == y[..j] + [y[j]] + y[j + 1..];
      assert multiset(y) == multiset(y') + multiset{last};
      assert multiset(x) == multiset(x') + multiset{last};
      assert multiset(x') == multiset(x) - multiset{last};
      assert multiset(y') == multiset(y) - multiset{last};
      SumMapPermutation(x', y', f);
      SumMapAppend(y[..j] + [y[j]], y[j + 1..], f);
      SumMapAppend(y[..j], [y[j]], f);
      SumMapAppend(y[..j], y[j + 1..], f);
      assert SumMap([y[j]], f) == f(last) by {
        assert [y[j]][..0] == [];
      }
    }
  }

  // ---------------------------------------------------------------------------
  // Sphere: src/optilab/functions/unimodal/sphere_function.py:36

  function Sphere(x: seq<real>): real
  {
    SumOfSquares(x)
  }

  lemma SphereNonnegative(x: seq<real>)
    ensures Sphere(x) >= 0.0
  {
  }

  /** The sphere function vanishes exactly at the origin. */
  lemma {:induction false} SphereZeroIff(x: seq<real>)
    ensures Sphere(x) == 0.0 <==> forall i :: 0 <= i < |x| ==> x[i] == 0.0
  {
    if x != [] {
      var x' := x[..|x| - 1];
      SphereZeroIff(x');
      var v := x[|x| - 1];
      if Sphere(x) == 0.0 {
        forall i | 0 <= i < |x| ensures x[i] == 0.0 {
          if i < |x| - 1 { assert x[i] == x'[i]; }
        }
      }
    }
  }

  function Negate(x: seq<real>): (r: seq<real>)
    ensures |r| == |x| && forall i :: 0 <= i < |x| ==> r[i] == -x[i]
  {
    seq(|x|, i requires 0 <= i < |x| => -x[i])
  }

  lemma {:induction false} SphereNegationInvariant(x: seq<real>)
    ensures Sphere(Negate(x)) == Sphere(x)
  {
    if x != [] {
      var x' := x[..|x| - 1];
      assert Negate(x)[..|x| - 1] == Negate(x');
      SphereNegationInvariant(x');
    }
  }

  lemma SpherePermutationInvariant(x: seq<real>, y: seq<real>)
    requires multiset(x) == multiset(y)
    ensures Sphere(x) == Sphere(y)
  {
    SumOfSquaresIsSumMap(x);
    SumOfSquaresIsSumMap(y);
    SumMapPermutation(x, y, Square);
  }

  // ---------------------------------------------------------------------------
  // Cumulative squared sums: sum(sum(x[:i]) ** 2 for i in range(len(x)))
  // src/optilab/functions/unimodal/cumulative_squared_sums.py:40 and
  // src/sofes/objective_functions/unimodal/cumulative_squared_sums.py:34

  /** The terms i = 0 .. n - 1 of the generator, `sum(x[:i]) ** 2`. */
  function PrefixSquares(x: seq<real>, n: nat): (r: real)
    requires n <= |x|
    ensures r >= 0.0
  {
    if n == 0 then 0.0 else PrefixSquares(x, n - 1) + Square(Sum(x[..n - 1]))
  }

  function CumulativeSquaredSums(x: seq<real>): real
  {
    PrefixSquares(x, |x|)
  }

  lemma CumulativeSquaredSumsNonnegative(x: seq<real>)
    ensures CumulativeSquaredSums(x) >= 0.0
  {
  }

  /** The first n terms only read x[..n - 1]. */
  lemma {:induction false} PrefixSquaresReadsPrefix(x: seq<real>, y: seq<real>, n: nat)
    requires 0 < n <= |x| && n <= |y| && x[..n - 1] == y[..n - 1]
    ensures PrefixSquares(x, n) == PrefixSquares(y, n)
  {
    if n > 1 {
      assert x[..n - 2] == x[..n - 1][..n - 2];
      assert y[..n - 2] == y[..n - 1][..n - 2];
      PrefixSquaresReadsPrefix(x, y, n - 1);
    }
  }

  /** Appending a coordinate adds the square of the sum of the old ones: the
      new coordinate itself never enters the value. */
  lemma CumulativeSquaredSumsAppend(x: seq<real>, c: real)
    ensures CumulativeSquaredSums(x + [c]) == CumulativeSquaredSums(x) + Square(Sum(x))
  {
    var xc := x + [c];
    assert xc[..|x|] == x;
    assert CumulativeSquaredSums(xc) == PrefixSquares(xc, |x|) + Square(Sum(x));
    if x != [] {
      assert xc[..|x| - 1] == x[..|x| - 1];
      PrefixSquaresReadsPrefix(xc, x, |x|);
    }
  }

  /** The last coordinate is never read. */
  lemma CumulativeSquaredSumsIgnoresLast(x: seq<real>, c: real, d: real)
    ensures CumulativeSquaredSums(x + [c]) == CumulativeSquaredSums(x + [d])
  {
    CumulativeSquaredSumsAppend(x, c);
    CumulativeSquaredSumsAppend(x, d);
  }

  lemma {:induction false} PrefixSquaresZeroIff(x: seq<real>, n: nat)
    requires n <= |x|
    ensures PrefixSquares(x, n) == 0.0 <==> forall i :: 0 <= i < n - 1 ==> x[i] == 0.0
  {
    if n > 0 {
      PrefixSquaresZeroIff(x, n - 1);
      var s := Sum(x[..n - 1]);
      if n > 1 {
        assert x[..n - 1][..n - 2] == x[..n - 2];
        assert s == Sum(x[..n - 2]) + x[n - 2];
      }
      if PrefixSquares(x, n) == 0.0 && n > 1 {
        // every earlier prefix sum is 0, so the last step x[n - 2] is 0 too
        PrefixSquaresZeroSums(x, n - 1);
      }
    }
  }

  lemma PrefixSquaresZeroSums(x: seq<real>, n: nat)
    requires 0 < n <= |x| && PrefixSquares(x, n) == 0.0
    ensures Sum(x[..n - 1]) == 0.0
  {
  }

  /** Zero exactly when every coordinate but the last is zero; in particular
      always zero in dimension 0 or 1. */
  lemma CumulativeSquaredSumsZeroIff(x: seq<real>)
    ensures CumulativeSquaredSums(x) == 0.0 <==> forall i :: 0 <= i < |x| - 1 ==> x[i] == 0.0
  {
    PrefixSquaresZeroIff(x, |x|);
  }

  // ---------------------------------------------------------------------------
  // Bent cigar: x[0] ** 2 + sum(x_i ** 2 for x_i in x) * 10 ** 6
  // src/optilab/functions/unimodal/bent_cigar_function.py:40

  const Million: real := 1000000.0

  function BentCigar(x: seq<real>): (r: Result<real>)
    ensures r.Err? <==> x == []
    ensures r.Err? ==> r.error == IndexError
  {
    if x == [] then Err(IndexError) else Ok(Square(x[0]) + SumOfSquares(x) * Million)
  }

  /** x[0] is counted twice: it carries weight 10^6 + 1, the others 10^6. */
  lemma BentCigarWeights(x: seq<real>)
    requires x != []
    ensures BentCigar(x).value == (Million + 1.0) * Square(x[0]) + Million * SumOfSquares(x[1..])
  {
    assert x == [x[0]] + x[1..];
    SumOfSquaresIsSumMap(x);
    SumOfSquaresIsSumMap(x[1..]);
    SumMapAppend([x[0]], x[1..], Square);
    assert SumMap([x[0]], Square) == Square(x[0]) by {
      assert [x[0]][..0] == [];
    }
  }

  lemma BentCigarZeroIff(x: seq<real>)
    requires x != []
    ensures BentCigar(x).value >= 0.0
    ensures BentCigar(x).value == 0.0 <==> forall i :: 0 <= i < |x| ==> x[i] == 0.0
  {
    SphereZeroIff(x);
  }

  // ---------------------------------------------------------------------------
  // Rosenbrock: sum over consecutive pairs of 100 (x_i^2 - x_{i+1})^2 + (x_i - 1)^2
  // src/optilab/functions/multimodal/rosenbrock_function.py:40-43

  /** One summand: zero exactly at the pair (1, 1). */
  function RosenbrockTerm(a: real, b: real): (r: real)
    ensures r >= 0.0
    ensures r == 0.0 <==> a == 1.0 && b == 1.0
  {
    var r := 100.0 * Square(Square(a) - b) + Square(a - 1.0);
    assert r == 0.0 ==> a == 1.0 && Square(1.0) == 1.0;
    r
  }

  /** `sum(term(x_i, x_next) for x_i, x_next in zip(x, x[1:]))`. */
  function Rosenbrock(x: seq<real>): (r: real)
    ensures r >= 0.0
  {
    if |x| < 2 then 0.0 else RosenbrockTerm(x[0], x[1]) + Rosenbrock(x[1..])
  }

  /** Every coordinate of `x` equals `c`. */
  predicate Constant(x: seq<real>, c: real)
  {
    forall i :: 0 <= i < |x| ==> x[i] == c
  }

  lemma ConstantFront(x: seq<real>, c: real)
    requires |x| >= 1
    ensures Constant(x, c) <==> x[0] == c && Constant(x[1..], c)
  {
    if x[0] == c && Constant(x[1..], c) {
      forall i | 0 <= i < |x| ensures x[i] == c {
        if i > 0 { assert x[i] == x[1..][i - 1]; }
      }
    }
  }

  /** The first summand and the rest are both nonnegative, so the sum is zero
      exactly when both are. */
  lemma RosenbrockStep(x: seq<real>)
    requires |x| >= 2
    ensures Rosenbrock(x) == 0.0 <==> x[0] == 1.0 && x[1] == 1.0 && Rosenbrock(x[1..]) == 0.0
  {
  }

  /** In dimension 2 or more the only zero is the all-ones point. */
  lemma {:induction false} RosenbrockZeroIff(x: seq<real>)
    requires |x| >= 2
    ensures Rosenbrock(x) == 0.0 <==> Constant(x, 1.0)
  {
    // The sequence reasoning lives in ConstantFront, away from the
    // polynomial terms, where the solver handles it cheaply.
    RosenbrockStep(x);
    ConstantFront(x, 1.0);
    if |x| > 2 {
      RosenbrockZeroIff(x[1..]);
      ConstantFront(x[1..], 1.0);
    } else {
      assert Constant(x[1..], 1.0) <==> x[1] == 1.0;
    }
  }

  lemma RosenbrockShortIsZero(x: seq<real>)
    requires |x| <= 1
    ensures Rosenbrock(x) == 0.0
  {
  }

  // ---------------------------------------------------------------------------
  // Schwefel (sofes): sum(x) ** 2, src/sofes/objective_functions/schwefel_function.py:35

  function Schwefel(x: seq<real>): (r: real)
    ensures r >= 0.0
  {
    Square(Sum(x))
  }

  lemma SchwefelZeroIff(x: seq<real>)
    ensures Schwefel(x) == 0.0 <==> Sum(x) == 0.0
  {
  }

  lemma SchwefelPermutationInvariant(x: seq<real>, y: seq<real>)
    requires multiset(x) == multiset(y)
    ensures Schwefel(x) == Schwefel(y)
  {
    SumMapPermutation(x, y, Id);
  }

  /** The minimum 0 is reached away from the origin as well. */
  lemma SchwefelMinimiserNotUnique()
    ensures Schwefel([1.0, -1.0]) == 0.0 && Schwefel([0.0, 0.0]) == 0.0
  {
    assert [1.0, -1.0][..1] == [1.0] && [1.0][..0] == [];
    assert Sum([1.0, -1.0]) == Sum([1.0]) + -1.0 == 0.0;
    assert [0.0, 0.0][..1] == [0.0] && [0.0][..0] == [];
    assert Sum([0.0, 0.0]) == Sum([0.0]) + 0.0 == 0.0;
  }

  // ---------------------------------------------------------------------------
  // The optilab benchmark classes: `super().__call__(x)` then the formula.

  datatype Benchmark = SphereFunction | CumulativeSquaredSumsFunction | BentCigarFunction | RosenbrockFunction

  function Name(kind: Benchmark): string
  {
    match kind
    case SphereFunction => "sphere"
    case CumulativeSquaredSumsFunction => "cumulative_squared_sums"
    case BentCigarFunction => "bent_cigar"
    case RosenbrockFunction => "rosenbrock"
  }

  /** The value the formula line computes, once the guard has passed. */
  function Value(kind: Benchmark, x: seq<real>): Result<real>
  {
    match kind
    case SphereFunction => Ok(Sphere(x))
    case CumulativeSquaredSumsFunction => Ok(CumulativeSquaredSums(x))
    case BentCigarFunction => BentCigar(x)
    case RosenbrockFunction => Ok(Rosenbrock(x))
  }

  /** Every benchmark value is nonnegative, whatever the input. */
  lemma ValueNonnegative(kind: Benchmark, x: seq<real>)
    requires Value(kind, x).Ok?
    ensures Value(kind, x).value >= 0.0
  {
    match kind
    case BentCigarFunction => BentCigarZeroIff(x);
    case _ =>
  }

  class BenchmarkFunction {
    const kind: Benchmark
    const base: Objective.ObjectiveFunction

    constructor (kind: Benchmark, dim: int)
      ensures this.kind == kind && fresh(base)
      ensures base.name == Name(kind) && base.dim == dim && base.numCalls == 0
    {
      this.kind := kind;
      base := new Objective.ObjectiveFunction(Name(kind), dim);
    }

    /** A wrong-length input is rejected before any value is computed; a
        zero-dimensional bent cigar passes the guard and then fails on x[0]. */
    method Call(x: seq<real>) returns (r: Result<real>)
      modifies base
      ensures |x| != base.dim ==> r == Err(ValueError) && base.numCalls == old(base.numCalls)
      ensures |x| == base.dim ==> r == Value(kind, x) && base.numCalls == old(base.numCalls) + 1
      ensures base.dim == old(base.dim) && base.name == old(base.name)
    {
      var guard := base.Call(x);
      if guard.Fail? {
        return Err(guard.error);
      }
      r := Value(kind, x);
    }
  }
}

/**
 * The sofes benchmark classes, built on the unguarded sofes base class.
 */
module SofesBenchmarks {
  import opened Errors
  import Objective
  import Benchmarks

  datatype SofesBenchmark = CumulativeSquaredSumsFunction | SchwefelFunction

  /** The sofes cumulative squared sums registers itself under the name "sphere". */
  function Name(kind: SofesBenchmark): string
  {
    match kind
    case CumulativeSquaredSumsFunction => "sphere"
    case SchwefelFunction => "schwefel"
  }

  function Value(kind: SofesBenchmark, x: seq<real>): real
  {
    match kind
    case CumulativeSquaredSumsFunction => Benchmarks.CumulativeSquaredSums(x)
    case SchwefelFunction => Benchmarks.Schwefel(x)
  }

  class SofesBenchmarkFunction {
    const kind: SofesBenchmark
    const base: Objective.SofesObjectiveFunction

    constructor (kind: SofesBenchmark, dim: int)
      ensures this.kind == kind && fresh(base)
      ensures base.name == Name(kind) && base.dim == dim && base.numCalls == 0
    {
      this.kind := kind;
      base := new Objective.SofesObjectiveFunction(Name(kind), dim);
    }

    /** Any input length is accepted and counted. */
    method Call(x: seq<real>) returns (r: real)
      modifies base
      ensures r == Value(kind, x) && r >= 0.0
      ensures base.numCalls == old(base.numCalls) + 1
      ensures base.dim == old(base.dim) && base.name == old(base.name)
    {
      base.Call(x);
      r := Value(kind, x);
    }
  }
}
