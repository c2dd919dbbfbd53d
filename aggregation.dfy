/** The aggregation stage: per-cluster coordinate sums and point counts.
    Models the ClusterSum body of the parallel reduce (src/SOP_KMean.cpp and
    its std::vector twin in src/KMeans.h, which behaves the same). The
    specification side states what folding a range of points yields, one
    cluster at a time; the class is the accumulator the reduce mutates. */
module Aggregation {
  import opened Vector

  /** Every point of [b, e) is assigned to one of the k clusters. */
  ghost predicate ValidRange(assign: seq<int>, k: nat, b: nat, e: nat)
  {
    b <= e <= |assign| && forall i :: b <= i < e ==> 0 <= assign[i] < k
  }

  /** Number of points in [b, e) assigned to cluster c. */
  function CountOf(assign: seq<int>, c: int, b: nat, e: nat): nat
    requires b <= e <= |assign|
    decreases e - b
  {
    if e == b then 0 else CountOf(assign, c, b, e - 1) + (if assign[e - 1] == c then 1 else 0)
  }

  /** Sum of the coordinates of the points in [b, e) assigned to cluster c. */
  function SumOf(data: seq<Vec3>, assign: seq<int>, c: int, b: nat, e: nat): Vec3
    requires b <= e <= |assign| && e <= |data|
    decreases e - b
  {
    if e == b then Origin
    else if assign[e - 1] == c then Add(SumOf(data, assign, c, b, e - 1), data[e - 1])
    else SumOf(data, assign, c, b, e - 1)
  }

  /** The points of [0, e) assigned to cluster c, in index order. */
  function Members(data: seq<Vec3>, assign: seq<int>, c: int, e: nat): seq<Vec3>
    requires e <= |assign| && e <= |data|
  {
    if e == 0 then []
    else Members(data, assign, c, e - 1) + (if assign[e - 1] == c then [data[e - 1]] else [])
  }

  /** A k-slot accumulator: running sums and counts, indexed by cluster. */
  datatype Acc = Acc(sums: seq<Vec3>, counts: seq<int>)
  {
    predicate HasSize(k: nat)
    {
      |sums| == k && |counts| == k
    }
  }

  /** The accumulator a constructor (or the split constructor) starts from:
      UT_Array(k, k) zero-fills its k slots. */
  function ZeroAcc(k: nat): (a: Acc)
    ensures a.HasSize(k)
  {
    Acc(seq(k, _ => Origin), seq(k, _ => 0))
  }

  /** ClusterSum::join: elementwise sum of two accumulators. */
  function JoinAcc(a: Acc, b: Acc): (r: Acc)
    requires |a.sums| == |b.sums| && |a.counts| == |b.counts|
    ensures |r.sums| == |a.sums| && |r.counts| == |a.counts|
  {
    Acc(AddSums(a.sums, b.sums), AddCounts(a.counts, b.counts))
  }

  function AddSums(a: seq<Vec3>, b: seq<Vec3>): (r: seq<Vec3>)
    requires |a| == |b|
    ensures |r| == |a| && forall c :: 0 <= c < |a| ==> r[c] == Add(a[c], b[c])
  {
    seq(|a|, c requires 0 <= c < |a| => Add(a[c], b[c]))
  }

  function AddCounts(a: seq<int>, b: seq<int>): (r: seq<int>)
    requires |a| == |b|
    ensures |r| == |a| && forall c :: 0 <= c < |a| ==> r[c] == a[c] + b[c]
  {
    seq(|a|, c requires 0 <= c < |a| => a[c] + b[c])
  }

  /** What folding the points of [b, e) into a fresh accumulator yields:
      for each cluster, the sum and the number of its points in the range. */
  function RangeAcc(data: seq<Vec3>, assign: seq<int>, k: nat, b: nat, e: nat): (a: Acc)
    requires b <= e <= |assign| && e <= |data|
    ensures a.HasSize(k)
  {
    Acc(ClusterSums(data, assign, k, b, e), ClusterCounts(assign, k, b, e))
  }

  function ClusterSums(data: seq<Vec3>, assign: seq<int>, n: nat, b: nat, e: nat): (r: seq<Vec3>)
    requires b <= e <= |assign| && e <= |data|
    ensures |r| == n && forall c :: 0 <= c < n ==> r[c] == SumOf(data, assign, c, b, e)
  {
    seq(n, c => SumOf(data, assign, c, b, e))
  }

  function ClusterCounts(assign: seq<int>, n: nat, b: nat, e: nat): (r: seq<int>)
    requires b <= e <= |assign|
    ensures |r| == n && forall c :: 0 <= c < n ==> r[c] == CountOf(assign, c, b, e)
  {
    seq(n, c => CountOf(assign, c, b, e))
  }

  /** Sum of a sequence of counts. */
  function SumCounts(s: seq<int>): int
  {
    if |s| == 0 then 0 else SumCounts(s[..|s| - 1]) + s[|s| - 1]
  }

  lemma {:induction false} CountSplit(assign: seq<int>, c: int, b: nat, m: nat, e: nat)
    requires b <= m <= e <= |assign|
    ensures CountOf(assign, c, b, e) == CountOf(assign, c, b, m) + CountOf(assign, c, m, e)
    decreases e - m
  {
    if e > m {
      CountSplit(assign, c, b, m, e - 1);
    }
  }

  lemma {:induction false} SumSplit(data: seq<Vec3>, assign: seq<int>, c: int, b: nat, m: nat, e: nat)
    requires b <= m <= e <= |assign| && e <= |data|
    ensures SumOf(data, assign, c, b, e) == Add(SumOf(data, assign, c, b, m), SumOf(data, assign, c, m, e))
    decreases e - m
  {
    if e > m {
      SumSplit(data, assign, c, b, m, e - 1);
    }
  }

  /** Folding two adjacent ranges into fresh accumulators and joining them
      gives the fold of their union: the reduce's result does not depend on
      where the range is split. */
  lemma SplitRange(data: seq<Vec3>, assign: seq<int>, k: nat, b: nat, m: nat, e: nat)
    requires b <= m <= e <= |assign| && e <= |data|
    ensures JoinAcc(RangeAcc(data, assign, k, b, m), RangeAcc(data, assign, k, m, e))
            == RangeAcc(data, assign, k, b, e)
  {
    var left, right, whole := RangeAcc(data, assign, k, b, m), RangeAcc(data, assign, k, m, e),
                              RangeAcc(data, assign, k, b, e);
    var joined := JoinAcc(left, right);
    forall c | 0 <= c < k
      ensures joined.sums[c] == whole.sums[c] && joined.counts[c] == whole.counts[c]
    {
      SumSplit(data, assign, c, b, m, e);
      CountSplit(assign, c, b, m, e);
    }
  }

  /** Extending the folded range by one point adds that point to its own
      cluster's slot and leaves every other slot alone. */
  lemma ExtendRange(data: seq<Vec3>, assign: seq<int>, k: nat, b: nat, e: nat)
    requires b <= e < |assign| && e < |data|
    ensures var before, after := RangeAcc(data, assign, k, b, e), RangeAcc(data, assign, k, b, e + 1);
            forall c :: 0 <= c < k ==>
              if c == assign[e] then after.sums[c] == Add(before.sums[c], data[e]) && after.counts[c] == before.counts[c] + 1
              else after.sums[c] == before.sums[c] && after.counts[c] == before.counts[c]
  {
  }

  /** The split constructor's fresh accumulator is neutral for join. */
  lemma JoinZero(a: Acc, k: nat)
    requires a.HasSize(k)
    ensures JoinAcc(ZeroAcc(k), a) == a && JoinAcc(a, ZeroAcc(k)) == a
  {
  }

  /** Joining is associative and commutative, so the order in which partial
      accumulators are merged does not matter. */
  lemma JoinAssocComm(a: Acc, b: Acc, c: Acc, k: nat)
    requires a.HasSize(k) && b.HasSize(k) && c.HasSize(k)
    ensures JoinAcc(JoinAcc(a, b), c) == JoinAcc(a, JoinAcc(b, c))
    ensures JoinAcc(a, b) == JoinAcc(b, a)
  {
  }

  /** A cluster with no point in the range keeps a zero sum. */
  lemma {:induction false} NoPointsNoSum(data: seq<Vec3>, assign: seq<int>, c: int, b: nat, e: nat)
    requires b <= e <= |assign| && e <= |data|
    requires CountOf(assign, c, b, e) == 0
    ensures SumOf(data, assign, c, b, e) == Origin
    decreases e - b
  {
    if e > b {
      NoPointsNoSum(data, assign, c, b, e - 1);
    }
  }

  /** The per-cluster fold agrees with the plain list of the cluster's
      members: its count is their number and its sum is their total. */
  lemma {:induction false} MembersAgree(data: seq<Vec3>, assign: seq<int>, c: int, e: nat)
    requires e <= |assign| && e <= |data|
    ensures |Members(data, assign, c, e)| == CountOf(assign, c, 0, e)
    ensures Total(Members(data, assign, c, e)) == SumOf(data, assign, c, 0, e)
  {
    if e > 0 {
      MembersAgree(data, assign, c, e - 1);
      var prev := Members(data, assign, c, e - 1);
      if assign[e - 1] == c {
        assert (prev + [data[e - 1]])[..|prev|] == prev;
      } else {
        assert prev + [] == prev;
      }
    }
  }

  /** Points, not slots: among the first n clusters, the counts of [b, e)
      add up to the number of points of the range assigned below n. */
  function InClusters(assign: seq<int>, n: nat, b: nat, e: nat): nat
    requires b <= e <= |assign|
    decreases e - b
  {
    if e == b then 0 else InClusters(assign, n, b, e - 1) + (if 0 <= assign[e - 1] < n then 1 else 0)
  }

  lemma {:induction false} CountsAddUp(assign: seq<int>, n: nat, b: nat, e: nat)
    requires b <= e <= |assign|
    ensures SumCounts(ClusterCounts(assign, n, b, e)) == InClusters(assign, n, b, e)
    decreases n, e - b
  {
    if n > 0 {
      assert ClusterCounts(assign, n, b, e)[..n - 1] == ClusterCounts(assign, n - 1, b, e);
      CountsAddUp(assign, n - 1, b, e);
      InClustersLast(assign, n, b, e);
    } else if e > b {
      CountsAddUp(assign, n, b, e - 1);
    }
  }

  lemma {:induction false} InClustersLast(assign: seq<int>, n: nat, b: nat, e: nat)
    requires n >= 1 && b <= e <= |assign|
    ensures InClusters(assign, n, b, e) == InClusters(assign, n - 1, b, e) + CountOf(assign, n - 1, b, e)
    decreases e - b
  {
    if e > b {
      InClustersLast(assign, n, b, e - 1);
    }
  }

  lemma {:induction false} AllInClusters(assign: seq<int>, k: nat, b: nat, e: nat)
    requires ValidRange(assign, k, b, e)
    ensures InClusters(assign, k, b, e) == e - b
    decreases e - b
  {
    if e > b {
      AllInClusters(assign, k, b, e - 1);
    }
  }

  /** Folding [b, e) into a fresh accumulator counts every point of the range
      exactly once: the counts over all clusters add up to e - b. */
  lemma TotalCount(data: seq<Vec3>, assign: seq<int>, k: nat, b: nat, e: nat)
    requires ValidRange(assign, k, b, e) && e <= |data|
    ensures SumCounts(RangeAcc(data, assign, k, b, e).counts) == e - b
  {
    CountsAddUp(assign, k, b, e);
    AllInClusters(assign, k, b, e);
  }

  lemma {:induction false} SumCountsJoin(a: seq<int>, b: seq<int>)
    requires |a| == |b|
    ensures SumCounts(AddCounts(a, b)) == SumCounts(a) + SumCounts(b)
    decreases |a|
  {
    if |a| > 0 {
      var n := |a|;
      var a', b' := a[..n - 1], b[..n - 1];
      assert AddCounts(a, b)[..n - 1] == AddCounts(a', b');
      SumCountsJoin(a', b');
    }
  }

  /** Folding [b, e) into any accumulator raises its total count by exactly
      e - b. */
  lemma FoldGrowsTotal(acc: Acc, data: seq<Vec3>, assign: seq<int>, k: nat, b: nat, e: nat)
    requires acc.HasSize(k) && ValidRange(assign, k, b, e) && e <= |data|
    ensures SumCounts(JoinAcc(acc, RangeAcc(data, assign, k, b, e)).counts) == SumCounts(acc.counts) + (e - b)
  {
    var r := RangeAcc(data, assign, k, b, e);
    SumCountsJoin(acc.counts, r.counts);
    TotalCount(data, assign, k, b, e);
  }

  /** ClusterSum: k running sums and counts over the points of `data`,
      binned by `closestCluster`. The functor's `k`, `data` and
      `closestCluster` are read-only; `newMeans` and `counts` are its own. */
  class ClusterSum {
    const k: nat
    const data: array<Vec3>
    const closestCluster: array<int>
    const newMeans: array<Vec3>
    const counts: array<int>

    ghost predicate Valid()
    {
      newMeans.Length == k && counts.Length == k && newMeans != data && counts != closestCluster
    }

    /** The accumulator's current value. */
    ghost function Accumulated(): Acc
      reads newMeans, counts
    {
      Acc(newMeans[..], counts[..])
    }

    /** ClusterSum(k, d, a): a zero-filled accumulator of k slots. */
    constructor (k: nat, data: array<Vec3>, closestCluster: array<int>)
      ensures this.k == k && this.data == data && this.closestCluster == closestCluster
      ensures Valid() && fresh(newMeans) && fresh(counts)
      ensures Accumulated() == ZeroAcc(k)
    {
      this.k := k;
      this.data := data;
      this.closestCluster := closestCluster;
      newMeans := new Vec3[k](_ => Origin);
      counts := new int[k](_ => 0);
    }

    /** The split constructor: same inputs as `other`, but a fresh zero
        accumulator that shares nothing with `other`'s partial sums. */
    constructor Split(other: ClusterSum)
      ensures k == other.k && data == other.data && closestCluster == other.closestCluster
      ensures Valid() && fresh(newMeans) && fresh(counts)
      ensures Accumulated() == ZeroAcc(k)
    {
      k := other.k;
      data := other.data;
      closestCluster := other.closestCluster;
      newMeans := new Vec3[other.k](_ => Origin);
      counts := new int[other.k](_ => 0);
    }

    /** operator(): fold the points of [b, e) into the accumulator. */
    method Apply(b: nat, e: nat)
      requires Valid()
      requires e <= data.Length && ValidRange(closestCluster[..], k, b, e)
      modifies newMeans, counts
      ensures Accumulated() == JoinAcc(old(Accumulated()), RangeAcc(data[..], closestCluster[..], k, b, e))
      ensures SumCounts(counts[..]) == old(SumCounts(counts[..])) + (e - b)
    {
      ghost var start, points, assign := Accumulated(), data[..], closestCluster[..];
      var point := b;
      while point < e
        invariant b <= point <= e
        invariant forall c :: 0 <= c < k ==>
                    && newMeans[c] == Add(start.sums[c], SumOf(points, assign, c, b, point))
                    && counts[c] == start.counts[c] + CountOf(assign, c, b, point)
      {
        var cluster := closestCluster[point];
        newMeans[cluster] := Add(newMeans[cluster], data[point]);
        counts[cluster] := counts[cluster] + 1;
        point := point + 1;
      }
      assert Accumulated() == JoinAcc(start, RangeAcc(points, assign, k, b, e));
      FoldGrowsTotal(start, points, assign, k, b, e);
    }

    /** join: add `rhs`'s sums and counts into this accumulator, slot by slot. */
    method Join(rhs: ClusterSum)
      requires Valid() && rhs.Valid() && rhs.k == k
      requires rhs.newMeans != newMeans && rhs.counts != counts
      modifies newMeans, counts
      ensures Accumulated() == JoinAcc(old(Accumulated()), rhs.Accumulated())
    {
      ghost var start := Accumulated();
      var cluster := 0;
      while cluster < k
        invariant 0 <= cluster <= k
        invariant forall c :: 0 <= c < cluster ==>
                    newMeans[c] == Add(start.sums[c], rhs.newMeans[c]) && counts[c] == start.counts[c] + rhs.counts[c]
        invariant forall c :: cluster <= c < k ==> newMeans[c] == start.sums[c] && counts[c] == start.counts[c]
      {
        newMeans[cluster] := Add(newMeans[cluster], rhs.newMeans[cluster]);
        counts[cluster] := counts[cluster] + rhs.counts[cluster];
        cluster := cluster + 1;
      }
    }
  }

  /** The parallel reduce over [b, e), run sequentially: `splitAt(b, e)`
      stands for the scheduler's choice of where to split the range (a value
      outside (b, e) means "do not split"). Each split makes a fresh body with
      the split constructor, folds the two halves and joins them. Whatever
      the choices, the body ends up holding the fold of the whole range. */
  method Reduce(body: ClusterSum, b: nat, e: nat, splitAt: (nat, nat) -> nat)
    requires body.Valid()
    requires e <= body.data.Length && ValidRange(body.closestCluster[..], body.k, b, e)
    modifies body.newMeans, body.counts
    ensures body.Accumulated()
            == JoinAcc(old(body.Accumulated()), RangeAcc(body.data[..], body.closestCluster[..], body.k, b, e))
    decreases e - b
  {
    var m := splitAt(b, e);
    if b < m < e {
      ghost var start := body.Accumulated();
      ghost var data, assign, k := body.data[..], body.closestCluster[..], body.k;
      var other := new ClusterSum.Split(body);
      Reduce(body, b, m, splitAt);
      Reduce(other, m, e, splitAt);
      body.Join(other);
      SplitRange(data, assign, k, b, m, e);
      JoinZero(RangeAcc(data, assign, k, m, e), k);
      JoinAssocComm(start, RangeAcc(data, assign, k, b, m), RangeAcc(data, assign, k, m, e), k);
    } else {
      body.Apply(b, e);
    }
  }
}
