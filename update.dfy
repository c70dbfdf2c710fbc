/**
 Centroid update: the second half of one Lloyd's-algorithm iteration. Every
 centroid moves to the componentwise mean of the points assigned to it. The
 new coordinate lists start out as zeros of the old length and only the
 entries of non-empty clusters are overwritten, so a centroid whose cluster
 is empty (or whose index has no entry) ends up at the origin.
 */
module Update {
  import opened Geometry

  /** Every key of `asg` is a centroid index below `k` and every listed
      index is a point index below `n`: what the update needs to look up
      both without failing. */
  ghost predicate ClustersInRange(asg: map<int, seq<int>>, n: int, k: int)
  {
    forall c :: c in asg ==> 0 <= c < k && InRange(asg[c], n)
  }

  /** Where centroid `c` is after the update. */
  function Target(points: seq<Point>, asg: map<int, seq<int>>, c: int): Point
    requires c in asg ==> InRange(asg[c], |points|)
  {
    if c in asg && asg[c] != [] then Mean(points, asg[c]) else ORIGIN
  }

  /** A centroid with a non-empty cluster lands inside every box holding its
      cluster's points; a centroid with an empty cluster lands on the origin. */
  lemma TargetPlacement(points: seq<Point>, asg: map<int, seq<int>>, c: int, lo: Point, hi: Point)
    requires c in asg ==> InRange(asg[c], |points|)
    ensures (c !in asg || asg[c] == []) ==> Target(points, asg, c) == ORIGIN
    ensures c in asg && asg[c] != [] && AllInBox(points, asg[c], lo, hi) ==>
              InBox(Target(points, asg, c), lo, hi)
  {
    if c in asg && asg[c] != [] && AllInBox(points, asg[c], lo, hi) {
      MeanInBox(points, asg[c], lo, hi);
    }
  }

  /** If all points lie in a box that contains the origin (the plot's axes
      [0, 10] x [0, 10] do), every centroid lies in that box after an update. */
  lemma UpdateStaysInBox(points: seq<Point>, asg: map<int, seq<int>>, k: nat, lo: Point, hi: Point)
    requires ClustersInRange(asg, |points|, k)
    requires InBox(ORIGIN, lo, hi)
    requires forall i :: 0 <= i < |points| ==> InBox(points[i], lo, hi)
    ensures forall c :: 0 <= c < k ==> InBox(Target(points, asg, c), lo, hi)
  {
    forall c | 0 <= c < k
      ensures InBox(Target(points, asg, c), lo, hi)
    {
      if c in asg && asg[c] != [] {
        assert AllInBox(points, asg[c], lo, hi);
        MeanInBox(points, asg[c], lo, hi);
      }
    }
  }

  /** The loop of one update: start from `k` zeros and visit the clusters of
      the dictionary (in no particular order, since every key is written at
      most once), overwriting the entry of each non-empty cluster with its
      mean. */
  method NewCentroids(points: seq<Point>, asg: map<int, seq<int>>, k: nat) returns (r: seq<Point>)
    requires ClustersInRange(asg, |points|, k)
    ensures |r| == k
    ensures forall c :: 0 <= c < k ==> r[c] == Target(points, asg, c)
  {
    r := seq(k, _ => ORIGIN);
    assert forall c :: c in asg ==> 0 <= c < k && InRange(asg[c], |points|);
    var todo := asg.Keys;
    while |todo| > 0
      invariant todo <= asg.Keys
      invariant |r| == k
      invariant forall c :: c in todo ==> r[c] == ORIGIN
      invariant forall c :: 0 <= c < k && c !in todo ==> r[c] == Target(points, asg, c)
      decreases todo
    {
      var c :| c in todo;
      var members := asg[c];
      if |members| != 0 {
        r := r[c := Mean(points, members)];
      }
      todo := todo - {c};
    }
  }
}
