/**
 Points in the plane and the two pieces of arithmetic the clustering engine
 needs: the distance between a point and a centroid, and the componentwise
 mean of a cluster of points.

 Coordinates are reals. The engine only ever compares distances, and the
 Euclidean norm is monotone on non-negative values, so distances are kept
 squared throughout (see SquareMonotone).
 */
module Geometry {

  /** A data point or a centroid: an x and a y coordinate. */
  datatype Point = Point(x: real, y: real)

  /** The value an empty cluster's centroid takes in an update: both lists
      of new coordinates start out as zeros. */
  const ORIGIN: Point := Point(0.0, 0.0)

  /** Squared Euclidean distance between two points. */
  function SqDist(p: Point, q: Point): (d: real)
    ensures d >= 0.0
  {
    (p.x - q.x) * (p.x - q.x) + (p.y - q.y) * (p.y - q.y)
  }

  /** Comparing two non-negative distances is the same as comparing their
      squares, so a strict `<` on norms becomes a strict `<` on squared norms. */
  lemma SquareMonotone(a: real, b: real)
    requires 0.0 <= a && 0.0 <= b
    ensures a < b <==> a * a < b * b
  {
    var d := b - a;
    assert b * b == a * a + (a + a + d) * d;
    if a < b {
      assert (a + a + d) * d > 0.0;
    } else {
      assert (a + a + d) * d <= 0.0;
    }
  }

  /** Every index of `idxs` names a position of a sequence of length `n`. */
  predicate InRange(idxs: seq<int>, n: int)
  {
    forall t :: 0 <= t < |idxs| ==> 0 <= idxs[t] < n
  }

  /** The componentwise sum of the points that `idxs` names. */
  function Total(points: seq<Point>, idxs: seq<int>): Point
    requires InRange(idxs, |points|)
  {
    if idxs == [] then ORIGIN
    else
      var rest := Total(points, idxs[1..]);
      Point(points[idxs[0]].x + rest.x, points[idxs[0]].y + rest.y)
  }

  /** The componentwise mean of the points that a non-empty `idxs` names. */
  function Mean(points: seq<Point>, idxs: seq<int>): Point
    requires idxs != [] && InRange(idxs, |points|)
  {
    var s := Total(points, idxs);
    var n := |idxs| as real;
    Point(s.x / n, s.y / n)
  }

  /** `q` lies in the closed axis-aligned box with corners `lo` and `hi`. */
  predicate InBox(q: Point, lo: Point, hi: Point)
  {
    lo.x <= q.x <= hi.x && lo.y <= q.y <= hi.y
  }

  /** Each point named by `idxs` lies in the box. */
  predicate AllInBox(points: seq<Point>, idxs: seq<int>, lo: Point, hi: Point)
    requires InRange(idxs, |points|)
  {
    forall t :: 0 <= t < |idxs| ==> InBox(points[idxs[t]], lo, hi)
  }

  /** The sum of `n` points in a box lies in the box scaled by `n`. */
  lemma {:induction false} TotalInScaledBox(points: seq<Point>, idxs: seq<int>, lo: Point, hi: Point)
    requires InRange(idxs, |points|)
    requires AllInBox(points, idxs, lo, hi)
    ensures var s, n := Total(points, idxs), |idxs| as real;
            n * lo.x <= s.x <= n * hi.x && n * lo.y <= s.y <= n * hi.y
  {
    if idxs != [] {
      var rest := idxs[1..];
      assert InRange(rest, |points|) by {
        forall t | 0 <= t < |rest| ensures 0 <= rest[t] < |points| {
          assert rest[t] == idxs[t + 1];
        }
      }
      assert AllInBox(points, rest, lo, hi) by {
        forall t | 0 <= t < |rest| ensures InBox(points[rest[t]], lo, hi) {
          assert rest[t] == idxs[t + 1];
        }
      }
      TotalInScaledBox(points, rest, lo, hi);
      assert InBox(points[idxs[0]], lo, hi);
      assert |idxs| as real == |rest| as real + 1.0;
    }
  }

  /** The mean of a non-empty cluster lies in every box that holds all of the
      cluster's points; in particular, in the cluster's own bounding box. */
  lemma MeanInBox(points: seq<Point>, idxs: seq<int>, lo: Point, hi: Point)
    requires idxs != [] && InRange(idxs, |points|)
    requires AllInBox(points, idxs, lo, hi)
    ensures InBox(Mean(points, idxs), lo, hi)
  {
    TotalInScaledBox(points, idxs, lo, hi);
    var s, n := Total(points, idxs), |idxs| as real;
    assert n > 0.0;
    DivideBounds(s.x, n, lo.x, hi.x);
    DivideBounds(s.y, n, lo.y, hi.y);
  }

  /** Dividing `n * lo <= s <= n * hi` through by a positive `n`. */
  lemma DivideBounds(s: real, n: real, lo: real, hi: real)
    requires n > 0.0 && n * lo <= s <= n * hi
    ensures lo <= s / n <= hi
  {
  }

  /** The mean of a one-point cluster is that point. */
  lemma MeanOfSingleton(points: seq<Point>, i: int)
    requires 0 <= i < |points|
    ensures InRange([i], |points|) && Mean(points, [i]) == points[i]
  {
    assert [i][1..] == [];
    assert Total(points, [i]) == Point(points[i].x + 0.0, points[i].y + 0.0);
  }
}
