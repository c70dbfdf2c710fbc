# k-means-vis: a Dafny model of the clustering engine and its stage machine

The visualiser lets a user click data points and initial centroids onto a
plot and then step through Lloyd's algorithm with a "Done" button:
one press assigns every point to its nearest centroid, the next moves every
centroid to the mean of its cluster, and so on. A "Reset" button clears the
plot. All state lives in module-level globals of `graph.py`: the point
coordinates, the centroid coordinates, the cluster dictionary
(`cluster_assignments`: centroid index to the list of point indices closest
to it) and the `stage` string.

This project models that state and its handlers in Dafny:

- `geometry.dfy` (module `Geometry`): points, squared distance, the
  componentwise sum and mean of a cluster, and bounds on the mean.
- `assign.dfy` (module `Assign`): the nearest-centroid scan with its running
  best index and distance, the dictionary one assignment pass builds, and the
  nested loop that builds it (`NewClusters`).
- `update.dfy` (module `Update`): where each centroid goes in an update, and
  the loop over the dictionary's clusters that computes the new centroids
  (`NewCentroids`).
- `controller.dfy` (module `Controller`): class `Session` with the four
  globals as fields, an invariant `Valid()` every reachable state keeps, and
  the handlers `Click`, `Done` and `Reset`, plus the two helpers they call,
  `AssignClusters` and `UpdateCentroids`.
- `scenarios.dfy` (module `Scenarios`): small concrete inputs worked through
  by the verifier, and two client runs of `Session`.

Modelling choices:

- Coordinates are `real`. The source compares Euclidean norms with a strict
  `<`; since the norm is monotone on non-negative values the model compares
  squared distances (`Geometry.SquareMonotone`), so the initial
  `lowest_dist = 20` becomes the squared bound `Assign.FAR_BOUND = 400`.
- The parallel `x_...`/`y_...` lists, always of equal length, become one
  sequence of `Point`s for the data points and one for the centroids.
- The `stage` string becomes the datatype `Stage`; the printed refusals of
  "Done" become the returned `DoneOutcome`, and the "Converged!" title
  becomes the flag of `Assigned(converged)`.
- The `KeyError` that `new_clusters[closest_centroid]` raises when there are
  points but no centroid, and the index errors `update_centroids` would raise
  on a key or point index out of range, are preconditions of
  `AssignClusters` and `UpdateCentroids`; `Valid()` proves neither can be
  violated from `Done`.

The code, not a redesign of it, is modelled. In particular:

- A centroid whose cluster is empty is moved to (0, 0), because the new
  coordinate lists start as zeros; it is not kept where it was.
- A point 20 or more away from every centroid goes to centroid 0. Inside the
  plot's axes, [0, 10] x [0, 10], this never happens
  (`Assign.InsideAxesClosestIsArgmin`).
- There is no converged stage: after an assignment pass the stage is
  "updating centroids" whether or not the pass converged.
- Reset leaves the stage alone (see Findings).
- A click in stage "assigning clusters" or "updating centroids" is silently
  ignored, so the centroid count is fixed once "Done" leaves stage
  "centroids"; there is no error for an event in the wrong stage.
- Convergence is equality of the dictionaries including the order of each
  cluster's list; since every list is built in increasing index order
  (`Assign.AssignmentIsPartition`), this is the same as equality of the
  clusters as sets.

## Model

| member | source | states |
|---|---|---|
| `Geometry.SqDist` | graph.py:104 | the squared distance between a point and a centroid is never negative |
| `Geometry.SquareMonotone` | graph.py:104-106 | for non-negative distances, `a < b` exactly when `a*a < b*b`, so comparing squared distances decides the same as comparing norms |
| `Geometry.TotalInScaledBox` | graph.py:138-142 | the sum of the coordinates of `n` points inside a box lies inside the box scaled by `n` |
| `Geometry.MeanInBox` | graph.py:141-143 | the mean of a non-empty cluster lies in every box that holds all of its points |
| `Geometry.MeanOfSingleton` | graph.py:141-143 | the mean of a one-point cluster is that point |
| `Assign.Scan` | graph.py:100-108 | after scanning `m > 0` centroids the best index is one of them |
| `Assign.ScanIsNearest` | graph.py:100-108 | the scan keeps centroid 0 and the bound 400 while no centroid is closer than 20; otherwise it keeps the lowest index of minimal squared distance and that distance |
| `Assign.Closest` | graph.py:100-108 | with at least one centroid, a point's centroid is a valid centroid index |
| `Assign.ClosestIsNearest` | graph.py:100-108 | a point goes to the lowest-index centroid of minimal distance if that distance is below 20, and to centroid 0 if every centroid is 20 or more away |
| `Assign.NearestIsUnique` | graph.py:103-108 | that characterisation admits exactly one index (strict `<` decides ties) |
| `Assign.InsideAxesClosestIsArgmin` | graph.py:101-108 | when the point and all centroids lie in the plot's axes [0, 10] x [0, 10], the far bound never applies and the point goes to the nearest centroid, lowest index on ties |
| `Assign.NoClusters` | graph.py:98 | the starting dictionary has exactly the keys 0..k-1, each with an empty list |
| `Assign.MembersCharacterised` | graph.py:99-111 | the list of centroid `j` holds exactly the visited points whose closest centroid is `j`, each once, in strictly increasing order |
| `Assign.ClustersStep` | graph.py:111 | visiting point `m` appends `m` to the list of its closest centroid and changes nothing else |
| `Assign.AssignmentIsPartition` | graph.py:98-111 | with a centroid (or no point), the keys of the new dictionary are exactly 0..k-1, every point index 0..n-1 is listed under exactly one key, every list is strictly increasing, and `i` is listed under `c` exactly when `c` is the closest centroid of point `i` |
| `Assign.FirstPassNotConverged` | graph.py:114-117 | with at least one centroid the new dictionary is never the empty dictionary of startup or reset, so the first pass reports no convergence |
| `Assign.NewClusters` | graph.py:98-111 | the nested loop builds exactly the dictionary of one assignment pass |
| `Update.TargetPlacement` | graph.py:133-146 | a centroid with an empty cluster (or no entry) goes to (0, 0); one with a non-empty cluster lands inside every box holding the cluster's points |
| `Update.UpdateStaysInBox` | graph.py:133-148 | if the points lie in a box containing the origin, every centroid lies in that box after an update |
| `Update.NewCentroids` | graph.py:133-146 | the loop yields one centroid per old centroid, in the same order, each at the mean of its cluster or at (0, 0) if its cluster is empty |
| `Controller.Session.constructor` | graph.py:14-29 | the program starts with no points, no centroids, an empty dictionary and stage Data, in a valid state |
| `Controller.Session.Click` | graph.py:155-171 | a click appends a point in stage Data, a centroid in stage Centroids, and changes nothing in any other stage |
| `Controller.Session.AssignClusters` | graph.py:97-120 | the dictionary becomes the result of one assignment pass, the result is true exactly when it equals the previous dictionary (never on the first pass after startup or reset when there is a centroid), and nothing else changes |
| `Controller.Session.UpdateCentroids` | graph.py:125-148 | the centroids keep their number and order and move to their targets; points, dictionary and stage are unchanged |
| `Controller.Session.Done` | graph.py:173-202 | Done in Data with no point, or in Centroids with no centroid, changes nothing; otherwise Data goes to Centroids and Centroids to Assigning; Assigning runs a pass and always goes to Updating, reporting convergence; Updating runs an update and always goes back to Assigning; the invariant `Valid()` (the KeyError of graph.py:111 cannot happen, and in Updating the dictionary is the partition of the points over the centroids) is kept |
| `Controller.Session.Reset` | graph.py:35-45 | points, centroids and the dictionary are emptied, the stage is unchanged, and the invariant is kept |
| `Controller.Session.Restart` | graph.py:45 | the intended reset: the session is back in exactly its startup state |
| `Scenarios.TieGoesToLowerIndex` | graph.py:106 | a point equidistant from centroids 0 and 1 goes to centroid 0 |
| `Scenarios.TwoPointsConverge` | graph.py:114-117 | points (1, 1) and (9, 9) on centroids at the same places give `{0: [0], 1: [1]}`, and the update leaves both centroids in place, so the next pass converges |
| `Scenarios.EmptyClusterGoesToOrigin` | graph.py:133-146 | centroids (0, 0) and (5, 5) with the single point (0.1, 0.1) give `{0: [0], 1: []}`; the update moves centroid 0 to (0.1, 0.1) and centroid 1 to (0, 0) |
| `Scenarios.FarPointGoesToCentroidZero` | graph.py:100-108 | a point 20 or more away from both centroids goes to centroid 0 even though centroid 1 is nearer |

## Left out

- Rendering: `update_plot`, the figure, axes, titles, button labels, `plt.show` and `plt.draw`, and the registration of the button and canvas callbacks; none of them changes the model's state.
- The `event.inaxes == ax` test of a click: every click is taken to be inside the plot, with real coordinates.
- The colour list `colors` and `num_colors`: presentation only.
- The Voronoi import and the commented-out Voronoi code: dead code.
- The `print` diagnostics: the two refusals of "Done" are returned as `DoneOutcome` values and the printed dictionary is not modelled.
- Floating-point rounding and the square root of `np.linalg.norm`: coordinates are reals and distances are compared squared.
- The order in which `update_centroids` visits the dictionary's items: `NewCentroids` visits the keys in an unspecified order, which gives the same result because each key is written at most once.

## Findings

| source | as written | input that shows it | evidently intended | confidence | as-written member | corrected member |
|---|---|---|---|---|---|---|
| graph.py:45 | `restart_plot` assigns `stage="data"` without `global stage`, so only a local name is bound and the stage is kept | click a point, Done, click a centroid, Done (stage "assigning clusters"), Reset: every later click is ignored and Done only alternates between the two clustering stages on an empty session | Reset returns the session to stage "data", as its title "Click to add data points" says | high; not executed | `Controller.Session.Reset`, exhibited by `Scenarios.ResetInAssigningIsStuck` | `Controller.Session.Restart`, exhibited by `Scenarios.RestartCollectsAgain` |
