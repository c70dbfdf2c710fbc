/**
 Concrete runs of the model: small inputs worked through by the verifier,
 showing the tie-break, the convergence check, the update of an empty
 cluster, and what Reset does to the stage machine.
 */
module Scenarios {
  import opened Geometry
  import opened Assign
  import opened Update
  import opened Controller

  /** A point equidistant from centroids 0 and 1 goes to centroid 0. */
  lemma TieGoesToLowerIndex()
    ensures Closest(Point(5.0, 5.0), [Point(4.0, 5.0), Point(6.0, 5.0)]) == 0
  {
    var p, cs := Point(5.0, 5.0), [Point(4.0, 5.0), Point(6.0, 5.0)];
    assert Scan(p, cs, 1) == Best(0, 1.0);
    assert Scan(p, cs, 2) == Best(0, 1.0);
  }

  /** Two points sitting on two centroids: each centroid gets its own point,
      the update leaves both centroids in place, and the next pass yields the
      same dictionary, so it reports convergence. */
  lemma TwoPointsConverge()
    ensures var points := [Point(1.0, 1.0), Point(9.0, 9.0)];
            var asg := Assignment(points, points);
            && asg == map[0 := [0], 1 := [1]]
            && Target(points, asg, 0) == points[0]
            && Target(points, asg, 1) == points[1]
  {
    var points := [Point(1.0, 1.0), Point(9.0, 9.0)];
    assert Scan(points[0], points, 2) == Best(0, 0.0);
    assert Scan(points[1], points, 2) == Best(1, 0.0);
    var asg := Assignment(points, points);
    assert asg[0] == [0] && asg[1] == [1];
    assert asg == map[0 := [0], 1 := [1]];
    MeanOfSingleton(points, 0);
    MeanOfSingleton(points, 1);
  }

  /** A centroid that attracts no point is moved to the origin, not kept
      where it was. */
  lemma EmptyClusterGoesToOrigin()
    ensures var points, cs := [Point(0.1, 0.1)], [Point(0.0, 0.0), Point(5.0, 5.0)];
            var asg := Assignment(points, cs);
            && asg == map[0 := [0], 1 := []]
            && Target(points, asg, 0) == Point(0.1, 0.1)
            && Target(points, asg, 1) == ORIGIN
  {
    var points, cs := [Point(0.1, 0.1)], [Point(0.0, 0.0), Point(5.0, 5.0)];
    assert Scan(points[0], cs, 2) == Best(0, 0.02);
    var asg := Assignment(points, cs);
    assert asg[0] == [0] && asg[1] == [];
    assert asg == map[0 := [0], 1 := []];
    MeanOfSingleton(points, 0);
  }

  /** A point 20 or more away from every centroid goes to centroid 0, even
      when centroid 1 is nearer. */
  lemma FarPointGoesToCentroidZero()
    ensures Closest(Point(100.0, 0.0), [Point(0.0, 0.0), Point(50.0, 0.0)]) == 0
  {
    var p, cs := Point(100.0, 0.0), [Point(0.0, 0.0), Point(50.0, 0.0)];
    assert Scan(p, cs, 2) == Best(0, FAR_BOUND);
  }

  /** After a Reset in stage Assigning the session can never collect data
      again: clicks are ignored there, and "Done" only alternates between the
      two clustering stages on an empty session. */
  method ResetInAssigningIsStuck()
  {
    var s := new Session();
    s.Click(1.0, 1.0);
    var outcome := s.Done();
    s.Click(2.0, 2.0);
    outcome := s.Done();
    assert s.stage == Assigning;
    s.Reset();
    s.Click(3.0, 3.0);
    assert s.points == [] && s.centroids == [];
    outcome := s.Done();
    assert outcome == Assigned(true) && s.stage == Updating;
    outcome := s.Done();
    s.Click(4.0, 4.0);
    assert s.stage == Assigning && s.points == [] && s.centroids == [];
  }

  /** With Restart in place of Reset, the same presses lead back to
      collecting data points. */
  method RestartCollectsAgain()
  {
    var s := new Session();
    s.Click(1.0, 1.0);
    var outcome := s.Done();
    s.Click(2.0, 2.0);
    outcome := s.Done();
    s.Restart();
    s.Click(3.0, 3.0);
    assert s.stage == Data && s.points == [Point(3.0, 3.0)];
  }
}
