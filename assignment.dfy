/** The assignment stage: for each point, the index of its nearest center.
    Models the ClosestCluster functor of src/SOP_KMean.cpp (which also records
    the distance) and the templated ClosestCluster of src/KMeans.h (which takes
    k explicitly and records no distance). The parallel-for over point ranges
    is modelled as a sequential loop over one range. */
module Assignment {
  import opened Vector

  /** c is the lowest index among the first k centers that attains the
      minimum squared distance to p. */
  ghost predicate IsNearest(p: Vec3, means: seq<Vec3>, k: nat, c: nat)
    requires k <= |means|
  {
    && c < k
    && (forall j :: 0 <= j < k ==> Dist2(p, means[c]) <= Dist2(p, means[j]))
    && (forall j :: 0 <= j < c ==> Dist2(p, means[c]) < Dist2(p, means[j]))
  }

  /** The index the scan over the first k centers settles on: a center
      replaces the running best only when strictly closer. */
  function Nearest(p: Vec3, means: seq<Vec3>, k: nat): (c: nat)
    requires 1 <= k <= |means|
    ensures c < k
    decreases k
  {
    if k == 1 then 0
    else
      var best := Nearest(p, means, k - 1);
      if Dist2(p, means[k - 1]) < Dist2(p, means[best]) then k - 1 else best
  }

  /** The scan finds the lowest-index center at minimum squared distance. */
  lemma {:induction false} NearestIsNearest(p: Vec3, means: seq<Vec3>, k: nat)
    requires 1 <= k <= |means|
    ensures IsNearest(p, means, k, Nearest(p, means, k))
    decreases k
  {
    if k > 1 {
      NearestIsNearest(p, means, k - 1);
    }
  }

  /** At most one index is the lowest minimiser, so the scan's result is the
      only one that the tie-break admits. */
  lemma NearestUnique(p: Vec3, means: seq<Vec3>, k: nat, c: nat)
    requires 1 <= k <= |means|
    requires IsNearest(p, means, k, c)
    ensures c == Nearest(p, means, k)
  {
  }

  /** The assignment of every point against the centers `means`. */
  function Assign(data: seq<Vec3>, means: seq<Vec3>): (a: seq<int>)
    requires |means| >= 1
    ensures |a| == |data|
    ensures forall i :: 0 <= i < |a| ==> 0 <= a[i] < |means|
  {
    seq(|data|, i requires 0 <= i < |data| => Nearest(data[i], means, |means|))
  }

  /** Every point is assigned the lowest-index center nearest to it. */
  lemma AssignIsNearest(data: seq<Vec3>, means: seq<Vec3>, i: nat)
    requires |means| >= 1 && i < |data|
    ensures IsNearest(data[i], means, |means|, Assign(data, means)[i])
  {
    NearestIsNearest(data[i], means, |means|);
  }

  /** The inner loop of both functors: scan the first k centers, keeping the
      first one whose squared distance is strictly below the running minimum.
      The running minimum starts at the float maximum, so the first center is
      always taken; exact arithmetic starts the scan from it. */
  method NearestCenter(p: Vec3, means: array<Vec3>, k: nat) returns (closest: nat, minDist: real)
    requires 1 <= k <= means.Length
    ensures closest < k && IsNearest(p, means[..], k, closest)
    ensures closest == Nearest(p, means[..], k)
    ensures minDist == Dist2(p, means[closest])
    ensures forall j :: 0 <= j < k ==> minDist <= Dist2(p, means[j])
  {
    closest, minDist := 0, Dist2(p, means[0]);
    var cluster := 1;
    while cluster < k
      invariant 1 <= cluster <= k
      invariant closest == Nearest(p, means[..], cluster)
      invariant minDist == Dist2(p, means[closest])
    {
      var distance := Dist2(p, means[cluster]);
      if distance < minDist {
        minDist := distance;
        closest := cluster;
      }
      cluster := cluster + 1;
    }
    NearestIsNearest(p, means[..], k);
  }

  /** ClosestCluster::operator() of src/SOP_KMean.cpp over the range [b, e):
      k is the number of centers; every point of the range gets its nearest
      center's index and that squared distance; no other slot is written. */
  method ClosestCluster(data: array<Vec3>, means: array<Vec3>, closestCluster: array<int>,
                        distances: array<real>, b: nat, e: nat)
    requires means.Length >= 1
    requires b <= e <= data.Length && e <= closestCluster.Length && e <= distances.Length
    modifies closestCluster, distances
    ensures forall i :: b <= i < e ==>
              && 0 <= closestCluster[i] < means.Length
              && closestCluster[i] == Nearest(data[i], means[..], means.Length)
              && distances[i] == Dist2(data[i], means[closestCluster[i]])
    ensures forall i :: 0 <= i < closestCluster.Length && !(b <= i < e) ==>
              closestCluster[i] == old(closestCluster[i])
    ensures forall i :: 0 <= i < distances.Length && !(b <= i < e) ==>
              distances[i] == old(distances[i])
  {
    var point := b;
    while point < e
      invariant b <= point <= e
      invariant forall i :: b <= i < point ==>
                  && 0 <= closestCluster[i] < means.Length
                  && closestCluster[i] == Nearest(data[i], means[..], means.Length)
                  && distances[i] == Dist2(data[i], means[closestCluster[i]])
      invariant forall i :: 0 <= i < closestCluster.Length && !(b <= i < point) ==>
                  closestCluster[i] == old(closestCluster[i])
      invariant forall i :: 0 <= i < distances.Length && !(b <= i < point) ==>
                  distances[i] == old(distances[i])
    {
      var closest, minDist := NearestCenter(data[point], means, means.Length);
      closestCluster[point] := closest;
      distances[point] := minDist;
      point := point + 1;
    }
  }

  /** The templated ClosestCluster<V>::operator() of src/KMeans.h over [b, e):
      k is passed in rather than read from `means`, and no distance is kept. */
  method ClosestClusterNoDistance(k: nat, data: array<Vec3>, means: array<Vec3>,
                                  closestCluster: array<int>, b: nat, e: nat)
    requires 1 <= k <= means.Length
    requires b <= e <= data.Length && e <= closestCluster.Length
    modifies closestCluster
    ensures forall i :: b <= i < e ==>
              && 0 <= closestCluster[i] < k
              && closestCluster[i] == Nearest(data[i], means[..], k)
    ensures forall i :: 0 <= i < closestCluster.Length && !(b <= i < e) ==>
              closestCluster[i] == old(closestCluster[i])
  {
    var point := b;
    while point < e
      invariant b <= point <= e
      invariant forall i :: b <= i < point ==>
                  && 0 <= closestCluster[i] < k
                  && closestCluster[i] == Nearest(data[i], means[..], k)
      invariant forall i :: 0 <= i < closestCluster.Length && !(b <= i < point) ==>
                  closestCluster[i] == old(closestCluster[i])
    {
      var closest, _ := NearestCenter(data[point], means, k);
      closestCluster[point] := closest;
      point := point + 1;
    }
  }
}
