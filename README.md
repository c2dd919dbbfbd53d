# K-Means clustering node, modelled in Dafny

This project models the clustering engine of the Houdini "K-Mean" surface
operator (SOP). The node partitions the input points into k clusters with
Lloyd's algorithm and writes each point's cluster index (or the k centers) to
the output. The model covers:

- **Assignment** (`ClosestCluster`, in `src/SOP_KMean.cpp` and the templated
  copy in `src/KMeans.h`): for every point of a range, scan the k centers and
  keep the first one whose squared distance is strictly below the running
  minimum. The SOP variant also records that squared distance.
- **Aggregation** (`ClusterSum`, both copies): k running sums and counts.
  `operator()` folds a range of points into them. The split constructor makes
  a fresh zero accumulator, and `join` adds another accumulator into this one,
  slot by slot.
- **Driver** (`computeKMeans`): size the assignment array, then run
  `iterations` rounds of assign, aggregate and update. Each round first checks
  the interrupt. The update sets every center to its sum divided by
  max(1, count).
- **Initialisation** (in `cookMySop`): k is the second input's point count
  when that input is connected, otherwise the `num_clusters` parameter. The
  centers are the second input's points, or one drawn input point per cluster.

Vectors are triples of reals, so sums, means and squared distances are exact.
Module by module:

- `Vector` (`vector.dfy`): vectors, sum, division by a count, squared distance,
  total and mean.
- `Assignment` (`assignment.dfy`): the scan as a specification function
  (`Nearest`), the scan loop (`NearestCenter`), and both functors as methods
  over arrays.
- `Aggregation` (`aggregation.dfy`):
  - the specification of a range's fold (`CountOf`, `SumOf`, the accumulator
    datatype `Acc`, `RangeAcc`, `JoinAcc`) and the split/join lemma;
  - the `ClusterSum` class, with `newMeans` and `counts` arrays updated in
    place;
  - `Reduce`, a sequential stand-in for the parallel reduce, with the split
    points as an oracle.
- `Driver` (`driver.dfy`): one round (`Step`), n rounds (`Rounds`), the
  interrupt oracle (`CompletedRounds`), and the in-place method
  `ComputeKMeans`.
- `Initializer` (`initializer.dfy`): the starting centers.
- `Node` (`node.dfy`): the clustering part of the cook, which is
  initialisation followed by `ComputeKMeans`.

Behaviour worth noting, as the code has it:

- **Empty clusters.** A cluster that attracts no point does not keep its
  previous center. Its accumulator slot is zero-filled at construction
  (`src/SOP_KMean.cpp:126`), and dividing it by max(1, 0) = 1 moves the center
  to the origin (`Driver.EmptyClusterResets`).
- **The four-corner example.** Take a square's corners with the centers on
  one diagonal. By symmetry one might expect the assignment [0, 1, 0, 1].
  The corners off the diagonal are equally far from both centers, and the
  strict `<` keeps the lower index for them, so the code assigns
  [0, 0, 0, 1]. After one round, cluster 0 sits at the mean of three corners
  and cluster 1 stays put (`Driver.SquareAssignment`, `Driver.SquareRound`).
  The lemmas state this for the square shifted by (1, 1, 1), with corners
  (1,1,1), (11,1,1), (1,11,1) and (11,11,1). This keeps zero coordinates out
  of the literal arithmetic; the distances, the ties and the assignment are
  the same as for the unshifted square.
- **Zero iterations.** With `iterations <= 0` the assignment array is sized
  but never written. `UT_Array::setSize` zero-fills integer slots, so the model
  returns all zeros, and the distances are untouched.
- **No input validation.** The code does not reject k = 0, or an empty input
  with random initialisation. The model states both as preconditions
  (k >= 1, and drawn indices inside the input).

## Model

| member | source | states |
|---|---|---|
| Assignment.Nearest | src/SOP_KMean.cpp:98-106 | the scan over the first k centers returns an index in [0, k) |
| Assignment.NearestIsNearest | src/SOP_KMean.cpp:98-106 | the scan's index attains the minimum squared distance over all k centers, and is strictly closer than every lower index: a later center at equal distance never replaces an earlier one |
| Assignment.NearestUnique | src/SOP_KMean.cpp:101-105 | any index that is the lowest minimiser is the scan's result, so the strict-`<` tie-break determines the assignment |
| Assignment.Assign | src/SOP_KMean.cpp:184-185 | one cluster index per point, each in [0, k) |
| Assignment.AssignIsNearest | src/SOP_KMean.cpp:94-107 | every point is assigned the lowest-index center nearest to it |
| Assignment.NearestCenter | src/SOP_KMean.cpp:96-106 | the inner loop returns the scan's index (in [0, k), nearest, lowest on ties) and its squared distance, which is at most the distance to every center |
| Assignment.ClosestCluster | src/SOP_KMean.cpp:92-110 | for every point of [b, e): index in [0, k), equal to the scan's result; the recorded distance is the squared distance to that center. Slots outside the range are unchanged; data and means are not modified |
| Assignment.ClosestClusterNoDistance | src/KMeans.h:17-34 | the templated variant with k passed in: every point of [b, e) gets an index in [0, k), the lowest nearest one; no other slot is written and no distance is produced |
| Aggregation.CountSplit | src/SOP_KMean.cpp:135-140 | a cluster's count over [b, e) is the sum of its counts over [b, m) and [m, e) |
| Aggregation.SumSplit | src/SOP_KMean.cpp:135-140 | a cluster's coordinate sum over [b, e) is the sum of its sums over [b, m) and [m, e) |
| Aggregation.SplitRange | src/SOP_KMean.cpp:143-150 | folding two adjacent ranges and joining the results equals folding their union, so the reduce's result does not depend on the split |
| Aggregation.ExtendRange | src/KMeans.h:58-63 | folding one more point adds it to its own cluster's sum and increments that count; every other cluster is unchanged |
| Aggregation.JoinZero | src/SOP_KMean.cpp:129-131 | the fresh accumulator of the split constructor is neutral for join, on either side |
| Aggregation.JoinAssocComm | src/KMeans.h:66-73 | join is associative and commutative, so the merge order of partial accumulators does not matter |
| Aggregation.NoPointsNoSum | src/SOP_KMean.cpp:135-140 | a cluster with no point in the range keeps a zero sum |
| Aggregation.MembersAgree | src/SOP_KMean.cpp:133-141 | a cluster's fold agrees with the list of its member points: the count is their number and the sum is their total |
| Aggregation.CountsAddUp | src/SOP_KMean.cpp:137-139 | the counts of the first n clusters add up to the number of points of the range assigned below n |
| Aggregation.TotalCount | src/KMeans.h:56-64 | after folding [b, e) into a fresh accumulator, the counts add up to e - b |
| Aggregation.FoldGrowsTotal | src/SOP_KMean.cpp:133-141 | folding [b, e) into any accumulator raises its total count by exactly e - b |
| Aggregation.ClusterSum.constructor | src/SOP_KMean.cpp:125-127 | k zero sums and k zero counts in fresh arrays; k, data and assignment taken from the arguments |
| Aggregation.ClusterSum.Split | src/KMeans.h:52-54 | same k, data and assignment as the other accumulator, with a fresh zero accumulator that shares no array with it |
| Aggregation.ClusterSum.Apply | src/SOP_KMean.cpp:133-141 | the new accumulator is the old one joined with the fold of [b, e): each cluster's count grows by its points in the range and its sum by their coordinates; the total count grows by e - b |
| Aggregation.ClusterSum.Join | src/SOP_KMean.cpp:143-150 | the accumulator becomes the slot-by-slot sum of itself and rhs |
| Aggregation.Reduce | src/SOP_KMean.cpp:188-189 | whatever split points the scheduler picks, the body ends up holding the fold of the whole range |
| Driver.CompletedRounds | src/SOP_KMean.cpp:175-181 | the number of rounds that run: none of the rounds before it was interrupted, and if it is below `iterations` the round at that index was interrupted |
| Driver.CompletedAt | src/SOP_KMean.cpp:175-180 | a round index with no interrupt before it, and an interrupt at it (or equal to `iterations`), is the number of rounds that run |
| Driver.StepIsClusterMean | src/SOP_KMean.cpp:184-196 | after a round, each center is the arithmetic mean of the points assigned to it against the previous centers, and the origin if it has none |
| Driver.EmptyClusterResets | src/SOP_KMean.cpp:194-195 | a cluster that attracts no point moves to the origin: its previous position is not kept |
| Driver.SingleCluster | src/SOP_KMean.cpp:175-196 | with k = 1 and at least one round, the only center is the mean of all points |
| Driver.SquareAssignment | src/SOP_KMean.cpp:101-105 | four corners of a square with centers on a diagonal are assigned [0, 0, 0, 1]: the two corners equidistant from both centers go to the lower index |
| Driver.SquareRound | src/SOP_KMean.cpp:192-196 | one round from those centers moves cluster 0 to the mean of its three corners and leaves cluster 1 on its corner |
| Driver.UpdateCenters | src/SOP_KMean.cpp:192-196 | every center is overwritten with its slot's sum divided by max(1, its count) |
| Driver.Round | src/SOP_KMean.cpp:183-196 | one round in place: the assignment is the nearest-center assignment against the old centers, every distance is the squared distance to the assigned old center, and the new centers are one step of Lloyd's iteration |
| Driver.Recenter | src/SOP_KMean.cpp:188-196 | reducing the whole assignment into a fresh accumulator, whatever the split points, and updating gives the update of the whole range's sums and counts |
| Driver.OutcomeStep | src/SOP_KMean.cpp:175-197 | the state after n rounds, followed by one more round, is the state after n + 1 rounds |
| Driver.NextRound | src/SOP_KMean.cpp:183-196 | a round run in place turns the state of n rounds into that of n + 1 |
| Driver.ComputeKMeans | src/SOP_KMean.cpp:167-200 | `closestCluster` is fresh and sized to the data, and the distance buffer holds one slot per point. A negative `iterations` asks for no round. The result is true exactly when no round was interrupted. The centers are those after the completed rounds. With no completed round, the assignment is all zeros and the distances are untouched; otherwise the assignment and distances are computed against the centers the last round started from |
| Initializer.InitialCenters | src/SOP_KMean.cpp:259-273 | with a second input, the centers are its points (k is its count); otherwise there are numClusters centers, each of them an input point (duplicates allowed) |
| Initializer.InitCenters | src/SOP_KMean.cpp:259-273 | the centers array is fresh and holds exactly those initial centers |
| Node.Cook | src/SOP_KMean.cpp:242-279 | the cook fails exactly when computeKMeans is interrupted. Its centers, assignment and distances are the outcome of the completed rounds from the initial centers, with the distance buffer allocated with one zero-filled slot per point |

## Left out

- Host integration is not modelled:
  - the parameter templates and the node constructor (`src/SOP_KMean.cpp:39-83`);
  - input locking and reading point positions (`:227-252`);
  - writing the output geometry and cluster attribute (`:281-319`);
  - operator registration (`:323-328`).
  `Node.Cook` takes the positions, the second input and the parameters as
  arguments.
- Floating point: coordinates are reals, so `fpreal32` rounding and
  reduction-order rounding are not modelled. The scan's running minimum
  starts at the float maximum (`src/SOP_KMean.cpp:96`, `src/KMeans.h:21`). With
  k >= 1 and finite distances the first center always replaces it, so the
  model starts the scan from center 0 with its own distance.
- `iterations` is an integer parameter and may be negative. The loop then
  runs no round and `computeKMeans` returns true, exactly as with 0; the model
  takes it as an `int` and counts the rounds it asks for with
  `Driver.Requested`.
- A negative `num_clusters` falls under the excluded k <= 0 case below:
  `Node.Cook` takes the count as a `nat` and requires at least 1 without a
  second input.
- k = 0 is excluded by preconditions. With k = 0 the code writes index 0 and
  the float maximum for every point, then the aggregation indexes a
  zero-length accumulator.
- An empty input with random initialisation is excluded: every drawn index
  must lie inside the input, and the code's `uniform_int_distribution(0, -1)`
  is undefined.
- The interrupt is an oracle on the round index (`interrupted`). The progress
  percentage passed to it (`src/SOP_KMean.cpp:179`) is not modelled. It
  divides by `iterations - 1`, which is zero when `iterations` is 1.
- The random generator (`std::mt19937` with `uniform_int_distribution`,
  `src/SOP_KMean.cpp:266-267`) is replaced by the drawn indices, given as an
  input sequence.
- `computeKMeansPP` (`src/SOP_KMean.cpp:202-223`) is an unfinished stub with
  an empty loop body and is not modelled.
- Parallel scheduling is replaced by sequential loops:
  - the parallel-for of the assignment runs over the whole range in one call;
  - the parallel reduce is `Aggregation.Reduce`, whose split points are an
    oracle.
  Concurrent execution and interleavings are not modelled.
- The `ClusterSum` of `src/KMeans.h` is modelled by the same class as the SOP
  copy. Its `k` is a reference to the caller's value (to the other
  accumulator's, for the split constructor); the model stores it by value.
- `src/kmeans.h` is not part of this model: it is a non-functional stub.
  `src/SOP_KMean.h` holds only declarations.
- Assignment.Nearest: its own contract states only the range [0, k). The
  lowest-index minimum is stated separately by `Assignment.NearestIsNearest`,
  which keeps that quantified property out of every proof that does not
  need it.
