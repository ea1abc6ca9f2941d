/**
 * Real products and squares, shared by the benchmark functions and the
 * regression kernel.
 *
 * Every square is written `Times(v, v)`. Sign and bound facts about products
 * are proved here once, factor by factor, and the rest of the model uses
 * them through `Square`'s contract.
 */
module RealArith {

  /** The product of two reals. */
  function Times(a: real, b: real): real { a * b }

  /** Two factors of the same strict sign give a positive product. */
  lemma TimesPositive(a: real, b: real)
    requires (a > 0.0 && b > 0.0) || (a < 0.0 && b < 0.0)
    ensures Times(a, b) > 0.0
  {
  }

  lemma TimesNonnegative(a: real, b: real)
    requires (a >= 0.0 && b >= 0.0) || a == b
    ensures Times(a, b) >= 0.0
  {
  }

  lemma TimesNegateBoth(a: real, b: real)
    ensures Times(-a, -b) == Times(a, b)
  {
  }

  lemma TimesOneMinus(a: real, b: real)
    ensures Times(a, 1.0 - b) == a - Times(a, b)
  {
  }

  /** Multiplying by a factor in [0, 1] does not increase a nonnegative value. */
  lemma TimesAtMostFirst(a: real, b: real)
    requires a >= 0.0 && 0.0 <= b <= 1.0
    ensures Times(a, b) <= a
  {
    TimesNonnegative(a, 1.0 - b);
    TimesOneMinus(a, b);
  }

  function Abs(v: real): (r: real)
    ensures r >= 0.0 && (r == v || r == -v)
  {
    if v < 0.0 then -v else v
  }

  /** `v ** 2`: never negative, and zero exactly at zero. */
  function Square(v: real): (r: real)
    ensures r >= 0.0
    ensures r == 0.0 <==> v == 0.0
  {
    TimesNonnegative(v, v);
    if v != 0.0 then TimesPositive(v, v); Times(v, v) else Times(v, v)
  }

  lemma SquareNegate(v: real)
    ensures Square(-v) == Square(v)
  {
    TimesNegateBoth(v, v);
  }

  /** On [0, 1] squaring does not increase; below 1 in magnitude, the square
      stays below 1. */
  lemma SquareBounds(v: real)
    ensures 0.0 <= v <= 1.0 ==> Square(v) <= v
    ensures Abs(v) < 1.0 ==> Square(v) < 1.0
  {
    if 0.0 <= v <= 1.0 {
      TimesAtMostFirst(v, v);
    }
    if Abs(v) < 1.0 {
      if v < 0.0 {
        SquareNegate(v);
        TimesAtMostFirst(-v, -v);
      } else {
        TimesAtMostFirst(v, v);
      }
    }
  }
}
