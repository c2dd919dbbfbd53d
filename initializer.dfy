/** The center initialisation of cookMySop in src/SOP_KMean.cpp: the number
    of clusters and the starting centers, taken from the optional second
    input or drawn from the input points. The random generator is outside
    the model: the indices it draws are an input sequence. */
module Initializer {
  import opened Vector

  datatype Option<T> = None | Some(value: T)

  /** The drawn indices: one per cluster, each the index of an input point. */
  ghost predicate ValidDraws(data: seq<Vec3>, numClusters: nat, draws: seq<nat>)
  {
    |draws| == numClusters && forall j :: 0 <= j < |draws| ==> draws[j] < |data|
  }

  /** The starting centers: the second input's points when it is connected
      (so k is its point count), otherwise, for each of the numClusters
      clusters, a copy of the input point at the index drawn for it. Two
      clusters may draw the same point. */
  function InitialCenters(data: seq<Vec3>, second: Option<seq<Vec3>>, numClusters: nat, draws: seq<nat>)
    : (centers: seq<Vec3>)
    requires second.None? ==> ValidDraws(data, numClusters, draws)
    ensures second.Some? ==> centers == second.value
    ensures second.None? ==> |centers| == numClusters && forall j :: 0 <= j < |centers| ==> centers[j] in data
  {
    if second.Some? then second.value
    else seq(numClusters, j requires 0 <= j < numClusters => data[draws[j]])
  }

  /** The initialisation as cookMySop performs it: the centers array is
      sized to k and then either filled with the second input's positions or
      filled cluster by cluster from the drawn points. */
  method InitCenters(data: array<Vec3>, second: Option<seq<Vec3>>, numClusters: nat, draws: seq<nat>)
    returns (means: array<Vec3>)
    requires second.None? ==> ValidDraws(data[..], numClusters, draws)
    ensures fresh(means)
    ensures means[..] == InitialCenters(data[..], second, numClusters, draws)
  {
    if second.Some? {
      var points := second.value;
      means := new Vec3[|points|];
      for j := 0 to |points|
        invariant forall i :: 0 <= i < j ==> means[i] == points[i]
      {
        means[j] := points[j];
      }
    } else {
      means := new Vec3[numClusters];
      for cluster := 0 to numClusters
        invariant forall i :: 0 <= i < cluster ==> means[i] == data[draws[i]]
      {
        means[cluster] := data[draws[cluster]];
      }
    }
  }
}
