/**
 The interactive session: the module-level state of the visualiser (data
 points, centroids, the cluster dictionary and the stage) and the three
 event handlers that change it, clicks on the plot, the "Done" button and
 the "Reset" button.

 The stage moves Data -> Centroids -> Assigning, and then alternates
 Assigning -> Updating -> Assigning for as long as the user keeps pressing
 "Done". Convergence is only reported, never a stage of its own. Reset
 clears the data but leaves the stage where it was.
 */
module Controller {
  import opened Geometry
  import opened Assign
  import opened Update

  /** The stage string: "data", "centroids", "assigning clusters" and
      "updating centroids". */
  datatype Stage = Data | Centroids | Assigning | Updating

  /** What pressing "Done" did: one of the two refusals (which only print a
      message), a plain stage change, an assignment pass with its convergence
      flag, or a centroid update. */
  datatype DoneOutcome =
    | NeedPoint
    | NeedCentroid
    | Advanced
    | Assigned(converged: bool)
    | Updated

  class Session {
    var points: seq<Point>
    var centroids: seq<Point>
    var assignment: map<int, seq<int>>
    var stage: Stage

    /** There is a centroid for every point to go to (or no point at all),
        so an assignment pass cannot fail on its dictionary lookup. */
    ghost predicate CanAssign()
      reads this
    {
      |centroids| > 0 || |points| == 0
    }

    /** The dictionary partitions the point indices over the centroid
        indices, each cluster in increasing order, so every lookup of an
        update is in range. */
    ghost predicate Settled()
      reads this
    {
      IsPartition(assignment, |points|, |centroids|) && ClustersIncreasing(assignment)
    }

    /** The invariant every reachable state keeps. */
    ghost predicate Valid()
      reads this
    {
      && (stage == Data ==> centroids == [] && assignment == map[])
      && (stage == Centroids ==> assignment == map[])
      && (stage == Assigning ==> CanAssign() && (assignment == map[] || Settled()))
      && (stage == Updating ==> CanAssign() && Settled() && assignment == Assignment(points, centroids))
    }

    /** The state at program start. */
    constructor ()
      ensures Valid()
      ensures points == [] && centroids == [] && assignment == map[] && stage == Data
    {
      points, centroids := [], [];
      assignment := map[];
      stage := Data;
    }

    /** A click on the plot adds a data point in stage Data, a centroid in
        stage Centroids, and does nothing in the other stages. */
    method Click(x: real, y: real)
      requires Valid()
      modifies this
      ensures Valid()
      ensures points == if old(stage) == Data then old(points) + [Point(x, y)] else old(points)
      ensures centroids == if old(stage) == Centroids then old(centroids) + [Point(x, y)] else old(centroids)
      ensures assignment == old(assignment) && stage == old(stage)
    {
      if stage == Data {
        points := points + [Point(x, y)];
      } else if stage == Centroids {
        centroids := centroids + [Point(x, y)];
      }
    }

    /** One assignment pass: recompute the dictionary from the current points
        and centroids and report whether it equals the previous one. */
    method AssignClusters() returns (converged: bool)
      requires CanAssign()
      modifies this
      ensures assignment == Assignment(points, centroids)
      ensures converged <==> assignment == old(assignment)
      ensures old(assignment) == map[] && |centroids| > 0 ==> !converged
      ensures points == old(points) && centroids == old(centroids) && stage == old(stage)
    {
      var clusters := NewClusters(points, centroids);
      converged := clusters == assignment;
      assignment := clusters;
      if |centroids| > 0 {
        FirstPassNotConverged(points, centroids);
      }
    }

    /** One update: move every centroid to the mean of its cluster, or to the
        origin if its cluster is empty. The number and order of centroids, the
        points and the dictionary stay as they are. */
    method UpdateCentroids()
      requires ClustersInRange(assignment, |points|, |centroids|)
      modifies this
      ensures points == old(points) && assignment == old(assignment) && stage == old(stage)
      ensures |centroids| == |old(centroids)|
      ensures forall c :: 0 <= c < |centroids| ==> centroids[c] == Target(points, assignment, c)
    {
      centroids := NewCentroids(points, assignment, |centroids|);
    }

    /** The "Done" button. Leaving Data needs a point and leaving Centroids
        needs a centroid; a refused press changes nothing. In Assigning it runs
        an assignment pass and in Updating a centroid update, and the two
        stages always alternate, converged or not. */
    method Done() returns (outcome: DoneOutcome)
      requires Valid()
      modifies this
      ensures Valid()
      ensures old(stage) == Data ==>
                if old(points) == [] then outcome == NeedPoint && stage == Data
                else outcome == Advanced && stage == Centroids
      ensures old(stage) == Centroids ==>
                if old(centroids) == [] then outcome == NeedCentroid && stage == Centroids
                else outcome == Advanced && stage == Assigning
      ensures old(stage) == Assigning ==>
                && stage == Updating
                && assignment == Assignment(points, centroids)
                && outcome == Assigned(assignment == old(assignment))
      ensures old(stage) == Updating ==>
                && stage == Assigning
                && outcome == Updated
                && |centroids| == |old(centroids)|
                && (forall c :: 0 <= c < |centroids| ==> centroids[c] == Target(points, assignment, c))
      ensures old(stage) != Assigning ==> assignment == old(assignment)
      ensures old(stage) != Updating ==> centroids == old(centroids)
      ensures points == old(points)
    {
      match stage {
        case Data =>
          if points == [] {
            outcome := NeedPoint;
          } else {
            stage := Centroids;
            outcome := Advanced;
          }
        case Centroids =>
          if centroids == [] {
            outcome := NeedCentroid;
          } else {
            stage := Assigning;
            outcome := Advanced;
          }
        case Assigning =>
          var converged := AssignClusters();
          AssignmentIsPartition(points, centroids);
          stage := Updating;
          outcome := Assigned(converged);
        case Updating =>
          UpdateCentroids();
          stage := Assigning;
          outcome := Updated;
      }
    }

    /** The "Reset" button: points, centroids and the dictionary are emptied
        (the dictionary is rebuilt for the now empty centroid list), but the
        stage is left alone, because the handler's `stage = "data"` only binds
        a local name. */
    method Reset()
      requires Valid()
      modifies this
      ensures Valid()
      ensures points == [] && centroids == [] && assignment == map[]
      ensures stage == old(stage)
    {
      points, centroids := [], [];
      assignment := NoClusters(|centroids|);
    }

    /** Reset as evidently intended: also send the session back to stage
        Data, which is exactly the state at program start. */
    method Restart()
      requires Valid()
      modifies this
      ensures Valid()
      ensures points == [] && centroids == [] && assignment == map[] && stage == Data
    {
      Reset();
      stage := Data;
    }
  }
}
