/** The Lloyd iteration driver, computeKMeans of src/SOP_KMean.cpp: a fixed
    number of rounds of assign, aggregate and update, checked for
    cancellation at the start of each round and with no convergence exit.
    The host interrupt is an oracle on the round index. */
module Driver {
  import opened Vector
  import opened Assignment
  import opened Aggregation

  function Max1(n: int): (r: int)
    ensures r >= 1 && r >= n
  {
    if n < 1 then 1 else n
  }

  /** The center update: each slot's sum divided by max(1, its count). */
  function UpdateMeans(acc: Acc): (means: seq<Vec3>)
    requires |acc.sums| == |acc.counts|
    ensures |means| == |acc.sums|
    ensures forall c :: 0 <= c < |means| ==> means[c] == Div(acc.sums[c], Max1(acc.counts[c]))
  {
    seq(|acc.sums|, c requires 0 <= c < |acc.sums| => Div(acc.sums[c], Max1(acc.counts[c])))
  }

  /** One round: assign every point against `means`, fold all points into a
      fresh accumulator, update every center. */
  function Step(data: seq<Vec3>, means: seq<Vec3>): (next: seq<Vec3>)
    requires |means| >= 1
    ensures |next| == |means|
  {
    UpdateMeans(RangeAcc(data, Assign(data, means), |means|, 0, |data|))
  }

  /** The centers after n complete rounds. */
  function Rounds(data: seq<Vec3>, means: seq<Vec3>, n: nat): (r: seq<Vec3>)
    requires |means| >= 1
    ensures |r| == |means|
  {
    if n == 0 then means else Step(data, Rounds(data, means, n - 1))
  }

  /** The number of rounds the loop of computeKMeans asks for: its counter
      starts at 0 and runs while below `iterations`, so a negative count asks
      for none. */
  function Requested(iterations: int): (n: nat)
    ensures iterations >= 0 ==> n == iterations
    ensures iterations < 0 ==> n == 0
  {
    if iterations < 0 then 0 else iterations
  }

  /** The number of rounds that run before the oracle interrupts: the first
      interrupted round below `iterations`, or `iterations` if none is. */
  function CompletedRounds(iterations: nat, interrupted: nat -> bool, from: nat := 0): (n: nat)
    requires from <= iterations
    ensures from <= n <= iterations
    ensures forall r :: from <= r < n ==> !interrupted(r)
    ensures n < iterations ==> interrupted(n)
    decreases iterations - from
  {
    if from == iterations then iterations
    else if interrupted(from) then from
    else CompletedRounds(iterations, interrupted, from + 1)
  }

  /** The rounds run are exactly those before the first interrupted one. */
  lemma CompletedAt(iterations: nat, interrupted: nat -> bool, n: nat)
    requires n <= iterations
    requires forall r :: 0 <= r < n ==> !interrupted(r)
    requires n < iterations ==> interrupted(n)
    ensures CompletedRounds(iterations, interrupted) == n
  {
  }

  /** Each updated center is the arithmetic mean of the points assigned to it
      in that round; a center that attracts no point becomes the origin (its
      zero-filled accumulator divided by 1), not its previous position. */
  lemma StepIsClusterMean(data: seq<Vec3>, means: seq<Vec3>, c: nat)
    requires 1 <= |means| && c < |means|
    ensures Step(data, means)[c] == Mean(Members(data, Assign(data, means), c, |data|))
  {
    var assign := Assign(data, means);
    MembersAgree(data, assign, c, |data|);
    if CountOf(assign, c, 0, |data|) == 0 {
      NoPointsNoSum(data, assign, c, 0, |data|);
    }
  }

  /** The empty-cluster policy on its own: no point assigned, center at the origin. */
  lemma EmptyClusterResets(data: seq<Vec3>, means: seq<Vec3>, c: nat)
    requires 1 <= |means| && c < |means|
    requires forall i :: 0 <= i < |data| ==> Assign(data, means)[i] != c
    ensures Step(data, means)[c] == Origin
  {
    var assign := Assign(data, means);
    NoMembers(data, assign, c, |data|);
    StepIsClusterMean(data, means, c);
  }

  lemma {:induction false} NoMembers(data: seq<Vec3>, assign: seq<int>, c: int, e: nat)
    requires e <= |assign| && e <= |data|
    requires forall i :: 0 <= i < e ==> assign[i] != c
    ensures Members(data, assign, c, e) == []
  {
    if e > 0 {
      NoMembers(data, assign, c, e - 1);
    }
  }

  lemma {:induction false} AllMembers(data: seq<Vec3>, assign: seq<int>, c: int, e: nat)
    requires e <= |assign| && e <= |data|
    requires forall i :: 0 <= i < e ==> assign[i] == c
    ensures Members(data, assign, c, e) == data[..e]
  {
    if e > 0 {
      AllMembers(data, assign, c, e - 1);
      assert data[..e] == data[..e - 1] + [data[e - 1]];
    }
  }

  /** With a single cluster every point is assigned to it, and after at
      least one round its center is the mean of all points. */
  lemma SingleCluster(data: seq<Vec3>, means: seq<Vec3>, n: nat)
    requires |means| == 1 && n >= 1
    ensures Rounds(data, means, n) == [Mean(data)]
  {
    var prev := Rounds(data, means, n - 1);
    var assign := Assign(data, prev);
    AllMembers(data, assign, 0, |data|);
    assert data[..|data|] == data;
    StepIsClusterMean(data, prev, 0);
  }

  /** Four corners of a square, two centers on a diagonal. The corners
      (11,1,1) and (1,11,1) are equally far from both centers, so the
      lowest-index tie-break sends them to cluster 0. */
  lemma SquareAssignment(data: seq<Vec3>, means: seq<Vec3>)
    requires IsSquare(data) && IsDiagonal(means)
    ensures IsSquareAssignment(Assign(data, means))
  {
  }

  /** One round from the diagonal centers: cluster 0 holds three corners and
      moves to their mean; cluster 1 holds only its own corner and stays. */
  lemma SquareRound(data: seq<Vec3>, means: seq<Vec3>)
    requires IsSquare(data) && IsDiagonal(means)
    ensures var next := Step(data, means);
            |next| == 2 && next[0] == Vec3(13.0 / 3.0, 13.0 / 3.0, 1.0) && next[1] == Vec3(11.0, 11.0, 1.0)
  {
    SquareAssignment(data, means);
    StepFromAssignment(data, means, Assign(data, means));
    SquareStep(data, Assign(data, means));
  }

  /** A round is the update of the accumulation of its assignment. */
  lemma StepFromAssignment(data: seq<Vec3>, means: seq<Vec3>, assign: seq<int>)
    requires |means| >= 1 && assign == Assign(data, means)
    ensures |assign| == |data|
    ensures Step(data, means) == UpdateMeans(RangeAcc(data, assign, |means|, 0, |data|))
  {
  }

  /** The update that follows the assignment [0, 0, 0, 1] of the corners. */
  lemma SquareStep(data: seq<Vec3>, assign: seq<int>)
    requires IsSquare(data) && IsSquareAssignment(assign)
    ensures UpdateMeans(RangeAcc(data, assign, 2, 0, 4))[0] == Vec3(13.0 / 3.0, 13.0 / 3.0, 1.0)
    ensures UpdateMeans(RangeAcc(data, assign, 2, 0, 4))[1] == Vec3(11.0, 11.0, 1.0)
  {
    SquareClusterZero(data, assign);
    SquareClusterOne(data, assign);
    SquareUpdate(data, assign);
  }

  /** The update of two clusters whose sums and counts are those of the square. */
  lemma SquareUpdate(data: seq<Vec3>, assign: seq<int>)
    requires |data| == 4 && |assign| == 4
    requires CountOf(assign, 0, 0, 4) == 3 && SumOf(data, assign, 0, 0, 4) == Vec3(13.0, 13.0, 3.0)
    requires CountOf(assign, 1, 0, 4) == 1 && SumOf(data, assign, 1, 0, 4) == Vec3(11.0, 11.0, 1.0)
    ensures UpdateMeans(RangeAcc(data, assign, 2, 0, 4))[0] == Vec3(13.0 / 3.0, 13.0 / 3.0, 1.0)
    ensures UpdateMeans(RangeAcc(data, assign, 2, 0, 4))[1] == Vec3(11.0, 11.0, 1.0)
  {
  }

  /** Cluster 0 holds the first three corners. */
  lemma SquareClusterZero(data: seq<Vec3>, assign: seq<int>)
    requires IsSquare(data) && IsSquareAssignment(assign)
    ensures CountOf(assign, 0, 0, 4) == 3
    ensures SumOf(data, assign, 0, 0, 4) == Vec3(13.0, 13.0, 3.0)
  {
  }

  /** Cluster 1 holds only the last corner. */
  lemma SquareClusterOne(data: seq<Vec3>, assign: seq<int>)
    requires IsSquare(data) && IsSquareAssignment(assign)
    ensures CountOf(assign, 1, 0, 4) == 1
    ensures SumOf(data, assign, 1, 0, 4) == Vec3(11.0, 11.0, 1.0)
  {
  }

  /** The assignment [0, 0, 0, 1]. */
  ghost predicate IsSquareAssignment(assign: seq<int>)
  {
    |assign| == 4 && assign[0] == 0 && assign[1] == 0 && assign[2] == 0 && assign[3] == 1
  }

  /** The corners (1,1,1), (11,1,1), (1,11,1), (11,11,1) of a square of
      side 10, in that order. */
  ghost predicate IsSquare(data: seq<Vec3>)
  {
    && |data| == 4
    && data[0] == Vec3(1.0, 1.0, 1.0) && data[1] == Vec3(11.0, 1.0, 1.0)
    && data[2] == Vec3(1.0, 11.0, 1.0) && data[3] == Vec3(11.0, 11.0, 1.0)
  }

  /** The centers (1,1,1) and (11,11,1), on the square's diagonal. */
  ghost predicate IsDiagonal(means: seq<Vec3>)
  {
    |means| == 2 && means[0] == Vec3(1.0, 1.0, 1.0) && means[1] == Vec3(11.0, 11.0, 1.0)
  }

  /** The update loop of computeKMeans: every center becomes its slot's sum
      divided by max(1, its count), written in place. */
  method UpdateCenters(means: array<Vec3>, cSum: ClusterSum)
    requires cSum.Valid() && cSum.k == means.Length && means != cSum.newMeans
    modifies means
    ensures means[..] == UpdateMeans(cSum.Accumulated())
  {
    var cluster := 0;
    while cluster < cSum.k
      invariant 0 <= cluster <= cSum.k
      invariant forall c :: 0 <= c < cluster ==>
                  means[c] == Div(cSum.newMeans[c], Max1(cSum.counts[c]))
    {
      var count := Max1(cSum.counts[cluster]);
      means[cluster] := Div(cSum.newMeans[cluster], count);
      cluster := cluster + 1;
    }
  }

  /** `distances` holds, for every point, its squared distance to the center
      `assign` gave it. */
  ghost predicate Recorded(distances: seq<real>, data: seq<Vec3>, centers: seq<Vec3>, assign: seq<int>)
  {
    && |distances| == |data| && |assign| == |data|
    && forall i :: 0 <= i < |data| ==>
         0 <= assign[i] < |centers| && distances[i] == Dist2(data[i], centers[assign[i]])
  }

  /** The body of one round of computeKMeans: assign every point to its
      nearest center (recording the distance), sum and count the points of
      every cluster in a fresh accumulator (reduced over the split points
      `splitAt` chooses), update the centers in place. */
  method Round(data: array<Vec3>, means: array<Vec3>, closestCluster: array<int>, distances: array<real>,
               splitAt: (nat, nat) -> nat)
    requires means.Length >= 1 && means != data
    requires closestCluster.Length == data.Length && distances.Length == data.Length
    modifies means, closestCluster, distances
    ensures closestCluster[..] == Assign(data[..], old(means[..]))
    ensures Recorded(distances[..], data[..], old(means[..]), closestCluster[..])
    ensures means[..] == Step(data[..], old(means[..]))
  {
    // assign every point to its nearest center
    ClosestCluster(data, means, closestCluster, distances, 0, data.Length);
    assert closestCluster[..] == Assign(data[..], means[..]);

    // sum and count the points of every cluster, then update the centers
    Recenter(data, means, closestCluster, splitAt);
  }

  /** The aggregate and update stages of a round, for an assignment that is
      in range. */
  method Recenter(data: array<Vec3>, means: array<Vec3>, closestCluster: array<int>, splitAt: (nat, nat) -> nat)
    requires means.Length >= 1 && means != data && closestCluster.Length == data.Length
    requires ValidRange(closestCluster[..], means.Length, 0, data.Length)
    modifies means
    ensures means[..] == UpdateMeans(RangeAcc(data[..], closestCluster[..], means.Length, 0, data.Length))
  {
    ghost var points, assign := data[..], closestCluster[..];
    ghost var acc := RangeAcc(points, assign, means.Length, 0, data.Length);
    var cSum := new ClusterSum(means.Length, data, closestCluster);
    Reduce(cSum, 0, data.Length, splitAt);
    JoinZero(acc, means.Length);
    assert cSum.Accumulated() == acc;
    UpdateCenters(means, cSum);
    assert means[..] == UpdateMeans(acc);
  }

  /** What computeKMeans leaves behind after n complete rounds from
      `initial`: the centers of round n; with no round, the zero-filled
      assignment and the untouched distances; otherwise the assignment and
      squared distances computed against the centers round n started from. */
  ghost predicate Outcome(points: seq<Vec3>, initial: seq<Vec3>, n: nat, means: seq<Vec3>,
                          assign: seq<int>, distances: seq<real>, oldDistances: seq<real>)
  {
    && |initial| >= 1
    && means == Rounds(points, initial, n)
    && |assign| == |points|
    && (n == 0 ==> (forall i :: 0 <= i < |assign| ==> assign[i] == 0) && distances == oldDistances)
    && (n >= 1 ==>
          && assign == Assign(points, Rounds(points, initial, n - 1))
          && Recorded(distances, points, Rounds(points, initial, n - 1), assign))
  }

  /** One more round extends the outcome. */
  lemma OutcomeStep(points: seq<Vec3>, initial: seq<Vec3>, n: nat, centers: seq<Vec3>, next: seq<Vec3>,
                    assign: seq<int>, distances: seq<real>, oldDistances: seq<real>)
    requires |initial| >= 1 && centers == Rounds(points, initial, n)
    requires assign == Assign(points, centers) && Recorded(distances, points, centers, assign)
    requires next == Step(points, centers)
    ensures Outcome(points, initial, n + 1, next, assign, distances, oldDistances)
  {
  }

  /** One round, as the loop of computeKMeans runs it: the outcome of n
      rounds becomes the outcome of n + 1. */
  method NextRound(data: array<Vec3>, means: array<Vec3>, closestCluster: array<int>, distances: array<real>,
                   splitAt: (nat, nat) -> nat, ghost initial: seq<Vec3>, ghost n: nat,
                   ghost oldDistances: seq<real>)
    requires means.Length >= 1 && means != data
    requires closestCluster.Length == data.Length && distances.Length == data.Length
    requires Outcome(data[..], initial, n, means[..], closestCluster[..], distances[..], oldDistances)
    modifies means, closestCluster, distances
    ensures Outcome(data[..], initial, n + 1, means[..], closestCluster[..], distances[..], oldDistances)
  {
    ghost var centers := means[..];
    Round(data, means, closestCluster, distances, splitAt);
    OutcomeStep(data[..], initial, n, centers, means[..], closestCluster[..], distances[..], oldDistances);
  }

  /** computeKMeans: `closestCluster` is cleared and resized to |data|
      (UT_Array::setSize zero-fills integer slots); then up to `iterations`
      rounds run (none when `iterations` is negative). It returns false as
      soon as the oracle interrupts a round, with `means` reflecting exactly
      the rounds completed before it. `splitAt` stands for the scheduler of
      the parallel reduce. */
  method ComputeKMeans(data: array<Vec3>, means: array<Vec3>, distances: array<real>,
                       iterations: int, interrupted: nat -> bool, splitAt: (nat, nat) -> nat)
    returns (completed: bool, closestCluster: array<int>)
    requires means.Length >= 1 && means != data
    requires distances.Length == data.Length
    modifies means, distances
    ensures fresh(closestCluster)
    ensures completed <==> CompletedRounds(Requested(iterations), interrupted) == Requested(iterations)
    ensures Outcome(data[..], old(means[..]), CompletedRounds(Requested(iterations), interrupted),
                    means[..], closestCluster[..], distances[..], old(distances[..]))
  {
    ghost var initial, points := means[..], data[..];
    var dataSize := data.Length;
    closestCluster := new int[dataSize](_ => 0);
    var iteration := 0;
    while iteration < iterations
      invariant 0 <= iteration <= Requested(iterations)
      invariant forall r :: 0 <= r < iteration ==> !interrupted(r)
      invariant fresh(closestCluster) && closestCluster.Length == dataSize
      invariant data[..] == points
      invariant Outcome(points, initial, iteration, means[..], closestCluster[..], distances[..], old(distances[..]))
    {
      if interrupted(iteration) {
        CompletedAt(Requested(iterations), interrupted, iteration);
        completed := false;
        return;
      }
      NextRound(data, means, closestCluster, distances, splitAt, initial, iteration, old(distances[..]));
      iteration := iteration + 1;
    }
    CompletedAt(Requested(iterations), interrupted, iteration);
    completed := true;
  }
}
