/**
 Nearest-centroid assignment: one pass of Lloyd's algorithm that maps every
 centroid index to the indices of the data points closest to it.

 A point's centroid is found by scanning the centroids in index order with a
 running best index (starting at 0) and a running best distance (starting at
 the far bound 20, squared here to 400). A centroid replaces the best only if
 it is strictly closer, so ties go to the lowest index, and a point that is
 20 or more away from every centroid stays with centroid 0.
 */
module Assign {
  import opened Geometry

  /** The initial `lowest_dist` of 20, squared. */
  const FAR_BOUND: real := 400.0

  /** The running state of the scan over the centroids: the index of the
      closest centroid seen so far and the squared distance to beat. */
  datatype Best = Best(index: nat, bound: real)

  /** No centroid among the first `m` is within the far bound of `p`. */
  ghost predicate NoneWithin(p: Point, cs: seq<Point>, m: nat)
    requires m <= |cs|
  {
    forall t :: 0 <= t < m ==> SqDist(p, cs[t]) >= FAR_BOUND
  }

  /** `j` is where `p` belongs when only the first `m` centroids are looked at:
      centroid 0 when none is within the far bound, otherwise the lowest index
      of minimal distance. */
  ghost predicate NearestAmong(p: Point, cs: seq<Point>, m: nat, j: nat)
    requires m <= |cs|
  {
    if NoneWithin(p, cs, m) then j == 0
    else
      && j < m
      && SqDist(p, cs[j]) < FAR_BOUND
      && (forall t :: 0 <= t < m ==> SqDist(p, cs[j]) <= SqDist(p, cs[t]))
      && (forall t :: 0 <= t < j ==> SqDist(p, cs[j]) < SqDist(p, cs[t]))
  }

  /** The scan state after the first `m` centroids have been compared: the
      inner loop's `closest_centroid` and `lowest_dist`. */
  function Scan(p: Point, cs: seq<Point>, m: nat): (b: Best)
    requires m <= |cs|
    ensures m > 0 ==> b.index < m
  {
    if m == 0 then Best(0, FAR_BOUND)
    else
      var b := Scan(p, cs, m - 1);
      var d := SqDist(p, cs[m - 1]);
      if d < b.bound then Best(m - 1, d) else b
  }

  /** The scan keeps the nearest centroid seen so far, lowest index on ties,
      and the squared distance to it, or centroid 0 and the far bound while
      none is within the far bound. */
  lemma {:induction false} ScanIsNearest(p: Point, cs: seq<Point>, m: nat)
    requires m <= |cs|
    ensures NearestAmong(p, cs, m, Scan(p, cs, m).index)
    ensures NoneWithin(p, cs, m) ==> Scan(p, cs, m).bound == FAR_BOUND
    ensures !NoneWithin(p, cs, m) ==> Scan(p, cs, m).bound == SqDist(p, cs[Scan(p, cs, m).index])
  {
    if m > 0 {
      ScanIsNearest(p, cs, m - 1);
    }
  }

  /** The centroid a point is assigned to. */
  function Closest(p: Point, cs: seq<Point>): (j: nat)
    ensures |cs| > 0 ==> j < |cs|
  {
    Scan(p, cs, |cs|).index
  }

  /** A point goes to the lowest-index centroid of minimal distance if that
      distance is below the far bound, and to centroid 0 otherwise. */
  lemma ClosestIsNearest(p: Point, cs: seq<Point>)
    ensures NearestAmong(p, cs, |cs|, Closest(p, cs))
  {
    ScanIsNearest(p, cs, |cs|);
  }

  /** The characterisation of Closest pins down one index: there is never a
      choice between two candidates. */
  lemma NearestIsUnique(p: Point, cs: seq<Point>, j1: nat, j2: nat)
    requires NearestAmong(p, cs, |cs|, j1) && NearestAmong(p, cs, |cs|, j2)
    ensures j1 == j2
  {
  }

  /** Within the plot's axes, [0, 10] x [0, 10], no two points are 20 or more
      apart, so the far bound never applies and every point simply goes to its
      nearest centroid, ties to the lowest index. */
  lemma {:induction false} InsideAxesClosestIsArgmin(p: Point, cs: seq<Point>)
    requires |cs| > 0
    requires InBox(p, ORIGIN, Point(10.0, 10.0))
    requires forall t :: 0 <= t < |cs| ==> InBox(cs[t], ORIGIN, Point(10.0, 10.0))
    ensures var j := Closest(p, cs);
            && j < |cs|
            && (forall t :: 0 <= t < |cs| ==> SqDist(p, cs[j]) <= SqDist(p, cs[t]))
            && (forall t :: 0 <= t < j ==> SqDist(p, cs[j]) < SqDist(p, cs[t]))
  {
    var c := cs[0];
    var dx, dy := p.x - c.x, p.y - c.y;
    assert dx * dx <= 100.0 by { SquareMonotone(if dx < 0.0 then -dx else dx, 10.0); }
    assert dy * dy <= 100.0 by { SquareMonotone(if dy < 0.0 then -dy else dy, 10.0); }
    assert SqDist(p, cs[0]) < FAR_BOUND;
    assert !NoneWithin(p, cs, |cs|);
    ClosestIsNearest(p, cs);
  }

  /** The indices among the first `m` points that are assigned to centroid
      `j`, in increasing order: the list `new_clusters[j]` after the outer
      loop has visited points 0 to m-1. */
  function Members(points: seq<Point>, cs: seq<Point>, j: int, m: nat): seq<int>
    requires m <= |points|
  {
    if m == 0 then []
    else Members(points, cs, j, m - 1) + (if Closest(points[m - 1], cs) == j then [m - 1] else [])
  }

  /** The dictionary a pass starts from: an empty list for each of the `k`
      centroid indices. */
  function NoClusters(k: nat): (r: map<int, seq<int>>)
    ensures forall j :: j in r <==> 0 <= j < k
    ensures forall j :: j in r ==> r[j] == []
  {
    if k == 0 then map[] else NoClusters(k - 1)[k - 1 := []]
  }

  /** The dictionary of clusters after the outer loop has visited the first
      `m` points: one entry for every centroid index. */
  function ClustersUpTo(points: seq<Point>, cs: seq<Point>, m: nat): map<int, seq<int>>
    requires m <= |points|
  {
    map j | 0 <= j < |cs| :: Members(points, cs, j, m)
  }

  /** The result of one assignment pass over all points. */
  function Assignment(points: seq<Point>, cs: seq<Point>): map<int, seq<int>>
  {
    ClustersUpTo(points, cs, |points|)
  }

  /** A list of indices in strictly increasing order. */
  ghost predicate Increasing(s: seq<int>)
  {
    forall a, b :: 0 <= a < b < |s| ==> s[a] < s[b]
  }

  /** The keys of `asg` are exactly 0..k-1, every listed index is a point
      index, and every point index 0..n-1 is listed under exactly one key. */
  ghost predicate IsPartition(asg: map<int, seq<int>>, n: int, k: int)
  {
    && (forall c :: c in asg <==> 0 <= c < k)
    && (forall c :: c in asg ==> InRange(asg[c], n))
    && (forall i :: 0 <= i < n ==> Listed(asg, i))
    && (forall i, c1, c2 :: c1 in asg && c2 in asg && i in asg[c1] && i in asg[c2] ==> c1 == c2)
  }

  /** Point index `i` is listed under some key of `asg`. */
  ghost predicate Listed(asg: map<int, seq<int>>, i: int)
  {
    exists c :: c in asg && i in asg[c]
  }

  /** Every cluster lists its points in strictly increasing order, so each
      point index occurs at most once in it and the list order is canonical. */
  ghost predicate ClustersIncreasing(asg: map<int, seq<int>>)
  {
    forall c :: c in asg ==> Increasing(asg[c])
  }

  /** What the list for centroid `j` holds: exactly the points among the first
      `m` whose closest centroid is `j`, each once, in increasing order. */
  lemma {:induction false} MembersCharacterised(points: seq<Point>, cs: seq<Point>, j: int, m: nat)
    requires m <= |points|
    ensures var s := Members(points, cs, j, m);
            && InRange(s, m)
            && Increasing(s)
            && (forall i :: 0 <= i < m ==> (i in s <==> Closest(points[i], cs) == j))
  {
    if m > 0 {
      MembersCharacterised(points, cs, j, m - 1);
      var prev := Members(points, cs, j, m - 1);
      var s := Members(points, cs, j, m);
      assert s == prev + (if Closest(points[m - 1], cs) == j then [m - 1] else []);
      forall i | 0 <= i < m
        ensures i in s <==> Closest(points[i], cs) == j
      {
        if i < m - 1 {
          assert i in s <==> i in prev;
        }
      }
    }
  }

  /** One assignment pass partitions the point indices over the centroid
      indices, lists every cluster in increasing order, and files every point
      under its closest centroid. This is what keeps the dictionary lookup at
      the end of the outer loop from failing whenever there is a centroid. */
  lemma AssignmentIsPartition(points: seq<Point>, cs: seq<Point>)
    requires |cs| > 0 || |points| == 0
    ensures IsPartition(Assignment(points, cs), |points|, |cs|)
    ensures ClustersIncreasing(Assignment(points, cs))
    ensures forall i, c :: 0 <= i < |points| && 0 <= c < |cs| ==>
              (i in Assignment(points, cs)[c] <==> Closest(points[i], cs) == c)
  {
    var asg := Assignment(points, cs);
    forall c | 0 <= c < |cs|
      ensures InRange(asg[c], |points|) && Increasing(asg[c])
      ensures forall i :: 0 <= i < |points| ==> (i in asg[c] <==> Closest(points[i], cs) == c)
    {
      MembersCharacterised(points, cs, c, |points|);
    }
    forall i | 0 <= i < |points|
      ensures Listed(asg, i)
    {
      var c := Closest(points[i], cs);
      assert c in asg && i in asg[c];
    }
  }

  /** After startup or a reset the previous dictionary is empty, so with at
      least one centroid the first pass never reports convergence. */
  lemma FirstPassNotConverged(points: seq<Point>, cs: seq<Point>)
    requires |cs| > 0
    ensures Assignment(points, cs) != map[]
  {
    assert 0 in Assignment(points, cs);
  }

  /** Visiting one more point appends its index to its closest centroid's list. */
  lemma ClustersStep(points: seq<Point>, cs: seq<Point>, m: nat)
    requires m < |points| && |cs| > 0
    ensures var before, c := ClustersUpTo(points, cs, m), Closest(points[m], cs);
            c in before && ClustersUpTo(points, cs, m + 1) == before[c := before[c] + [m]]
  {
    var before, after, c := ClustersUpTo(points, cs, m), ClustersUpTo(points, cs, m + 1), Closest(points[m], cs);
    var updated := before[c := before[c] + [m]];
    assert after.Keys == updated.Keys;
    forall j | j in after ensures after[j] == updated[j] {
      assert after[j] == Members(points, cs, j, m + 1);
    }
  }

  /** The nested loop of one assignment pass: the outer loop visits the points
      in index order, the inner loop scans the centroids for the closest one,
      and the point's index is appended to that centroid's list. */
  method NewClusters(points: seq<Point>, cs: seq<Point>) returns (clusters: map<int, seq<int>>)
    requires |cs| > 0 || |points| == 0
    ensures clusters == Assignment(points, cs)
  {
    clusters := NoClusters(|cs|);
    assert clusters == ClustersUpTo(points, cs, 0);
    var i := 0;
    while i < |points|
      invariant 0 <= i <= |points|
      invariant clusters == ClustersUpTo(points, cs, i)
    {
      var closest, lowest := 0, FAR_BOUND;
      var j := 0;
      while j < |cs|
        invariant 0 <= j <= |cs|
        invariant Best(closest, lowest) == Scan(points[i], cs, j)
      {
        var d := SqDist(points[i], cs[j]);
        if d < lowest {
          lowest, closest := d, j;
        }
        j := j + 1;
      }
      ClustersStep(points, cs, i);
      clusters := clusters[closest := clusters[closest] + [i]];
      i := i + 1;
    }
  }
}
