/** The clustering part of cookMySop in src/SOP_KMean.cpp: choose k and the
    starting centers, size the distance buffer, run computeKMeans and fail
    the cook when it reports an interrupt. Reading the input geometry and
    writing the output geometry are outside the model. */
module Node {
  import opened Vector
  import opened Assignment
  import opened Driver
  import opened Initializer

  /** The cook's clustering: `ok` is false exactly when the interrupt
      stopped computeKMeans; the centers, assignment and distances it leaves
      are the outcome of the rounds that completed from the initial centers.
      The distance buffer starts zero-filled. */
  method Cook(data: array<Vec3>, second: Option<seq<Vec3>>, numClusters: nat, draws: seq<nat>,
              iterations: int, interrupted: nat -> bool, splitAt: (nat, nat) -> nat)
    returns (ok: bool, means: array<Vec3>, closestCluster: array<int>, distances: array<real>)
    requires second.Some? ==> |second.value| >= 1
    requires second.None? ==> numClusters >= 1 && ValidDraws(data[..], numClusters, draws)
    ensures fresh(means) && fresh(closestCluster) && fresh(distances)
    ensures distances.Length == data.Length
    ensures ok <==> CompletedRounds(Requested(iterations), interrupted) == Requested(iterations)
    ensures Outcome(data[..], InitialCenters(data[..], second, numClusters, draws),
                    CompletedRounds(Requested(iterations), interrupted),
                    means[..], closestCluster[..], distances[..], seq(data.Length, _ => 0.0))
  {
    means := InitCenters(data, second, numClusters, draws);
    distances := new real[data.Length](_ => 0.0);
    assert distances[..] == seq(data.Length, _ => 0.0);
    ok, closestCluster := ComputeKMeans(data, means, distances, iterations, interrupted, splitAt);
  }
}
