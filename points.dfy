/**
 * `Point` and the read-only part of `PointList` (src/optilab/data_classes/).
 */
module Points {
  import opened Errors

  /** A candidate solution: coordinates, an optional value, and whether the
      value came from the real objective function. */
  datatype Point = Point(x: seq<real>, y: Option<real>, isEvaluated: bool)

  /** `Point(x)` with the dataclass defaults `y=None, is_evaluated=False`. */
  function Unevaluated(x: seq<real>): (p: Point)
    ensures p.x == x && p.y.None? && !p.isEvaluated
  {
    Point(x, None, false)
  }

  /** One training example `(x, y)` as the surrogates unpack it. */
  type Sample = (seq<real>, real)

  /** `r` is obtained from `s` by deleting elements, keeping the order of the rest. */
  ghost predicate SubsequenceOf<T>(r: seq<T>, s: seq<T>)
    decreases |s|
  {
    if r == [] then true
    else if s == [] then false
    else (r[0] == s[0] && SubsequenceOf(r[1..], s[1..])) || SubsequenceOf(r, s[1..])
  }

  /** `PointList.only_evaluated`: the points whose `is_evaluated` flag is set. */
  function OnlyEvaluated(points: seq<Point>): (r: seq<Point>)
    ensures |r| <= |points|
    ensures forall i :: 0 <= i < |r| ==> r[i].isEvaluated
    ensures forall p :: multiset(r)[p] == if p.isEvaluated then multiset(points)[p] else 0
    ensures SubsequenceOf(r, points)
  {
    if points == [] then []
    else
      var rest := OnlyEvaluated(points[1..]);
      assert points == [points[0]] + points[1..];
      assert multiset(points) == multiset{points[0]} + multiset(points[1..]);
      if points[0].isEvaluated then [points[0]] + rest else rest
  }

  /** The number of evaluated points, counted independently of `OnlyEvaluated`. */
  function CountEvaluated(points: seq<Point>): nat
  {
    if points == [] then 0
    else (if points[0].isEvaluated then 1 else 0) + CountEvaluated(points[1..])
  }

  lemma {:induction false} OnlyEvaluatedCount(points: seq<Point>)
    ensures |OnlyEvaluated(points)| == CountEvaluated(points)
  {
    if points != [] {
      OnlyEvaluatedCount(points[1..]);
    }
  }

  /** A point that is evaluated is kept, one that is not is dropped. */
  lemma OnlyEvaluatedMembership(points: seq<Point>, p: Point)
    ensures p in OnlyEvaluated(points) <==> p in points && p.isEvaluated
  {
    var r := OnlyEvaluated(points);
    if p in points && p.isEvaluated {
      assert multiset(points)[p] > 0;
      assert multiset(r)[p] > 0;
    }
  }

  /** Filtering twice is filtering once. */
  lemma {:induction false} OnlyEvaluatedIdempotent(points: seq<Point>)
    ensures OnlyEvaluated(OnlyEvaluated(points)) == OnlyEvaluated(points)
  {
    if points != [] {
      OnlyEvaluatedIdempotent(points[1..]);
    }
  }

  /** `PointList.__len__`. */
  function Length(points: seq<Point>): (n: nat)
    ensures forall i: int :: GetItem(points, i).Ok? <==> -(n as int) <= i < n
  {
    |points|
  }

  /** `PointList.__getitem__` with Python's list indexing: negative indices
      count from the end, anything else out of range raises IndexError. */
  function GetItem(points: seq<Point>, index: int): (r: Result<Point>)
    ensures r.Ok? <==> -|points| <= index < |points|
    ensures 0 <= index < |points| ==> r == Ok(points[index])
    ensures -|points| <= index < 0 ==> r == Ok(points[|points| + index])
    ensures r.Err? ==> r.error == IndexError
  {
    if 0 <= index < |points| then Ok(points[index])
    else if -|points| <= index < 0 then Ok(points[|points| + index])
    else Err(IndexError)
  }

  /** The five-point list used by the PointList unit tests. */
  function ExamplePointList(): seq<Point>
  {
    [ Point([0.0, 0.0], Some(10.0), true),
      Point([1.0, 0.0], Some(8.0), true),
      Point([0.0, 1.0], Some(5.0), false),
      Point([-1.0, 0.0], Some(1.0), false),
      Point([1.0, -1.0], Some(2.0), true) ]
  }

  lemma ExampleHasThreeEvaluated()
    ensures |OnlyEvaluated(ExamplePointList())| == 3
  {
    OnlyEvaluatedCount(ExamplePointList());
  }
}
