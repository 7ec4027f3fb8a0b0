/** The Tez cost model: the engine's default cost, its aggregate cost rule and
    the registry of its four join algorithms, with the properties that relate
    the algorithms to one another. */
module HiveOnTezCostModel {

  import opened Wrappers
  import opened HiveCost
  import opened RelMetadata
  import opened HiveAlgorithmsUtil
  import Common = TezCommonJoinAlgorithm
  import MapJoin = TezMapJoinAlgorithm
  import Bucket = TezBucketJoinAlgorithm
  import SMB = TezSMBJoinAlgorithm

  /** The join algorithms the Tez engine can choose from. */
  datatype JoinAlgorithm = TezCommonJoin | TezMapJoin | TezBucketJoin | TezSMBJoin

  /** The set registered with the engine's cost model. */
  function Algorithms(): set<JoinAlgorithm>
  {
    {TezCommonJoin, TezMapJoin, TezBucketJoin, TezSMBJoin}
  }

  /** The cost used when nothing can be costed: the zero cost. */
  function GetDefaultCost(): (c: Cost)
    ensures c.rowCount == 0.0 && c.cpu == 0.0 && c.io == 0.0
  {
    MakeZeroCost()
  }

  /** A grouping over an input already bucketed by its keys is free, whatever
      the statistics say. Otherwise it costs a local sort of the input: unknown
      when the input's row count or average row size is unknown. */
  function GetAggregateCost(agg: Aggregate, u: AlgorithmsUtil): (r: Option<Cost>)
    ensures agg.bucketedInput ==> r == Some(Cost(0.0, 0.0, 0.0))
    ensures !agg.bucketedInput ==> (r.None? <==> !SizesKnown(agg.input))
    ensures !agg.bucketedInput && r.Some? ==>
      && r.value.rowCount == agg.input.rowCount.value
      && r.value.cpu == u.computeSortCPUCost(agg.input.rowCount.value)
      && r.value.io == u.computeSortIOCost(agg.input.rowCount.value, agg.input.averageRowSize.value)
  {
    if agg.bucketedInput then Some(MakeZeroCost())
    else
      var rCount := agg.input.rowCount;
      if rCount.None? then None
      else
        var cpuCost := u.computeSortCPUCost(rCount.value);
        var rAverageSize := agg.input.averageRowSize;
        if rAverageSize.None? then None
        else
          var ioCost := u.computeSortIOCost(rCount.value, rAverageSize.value);
          Some(Cost(rCount.value, cpuCost, ioCost))
  }

  function GetName(a: JoinAlgorithm): string
  {
    match a
    case TezCommonJoin => Common.GetName()
    case TezMapJoin => MapJoin.GetName()
    case TezBucketJoin => Bucket.GetName()
    case TezSMBJoin => SMB.GetName()
  }

  function IsExecutable(a: JoinAlgorithm, j: Join, maxMemory: real, u: AlgorithmsUtil): bool
  {
    match a
    case TezCommonJoin => Common.IsExecutable(j)
    case TezMapJoin => MapJoin.IsExecutable(j, maxMemory, u)
    case TezBucketJoin => Bucket.Feasible(j, maxMemory, u)
    case TezSMBJoin => SMB.Feasible(j)
  }

  function GetCost(a: JoinAlgorithm, j: Join, u: AlgorithmsUtil): Option<Cost>
  {
    match a
    case TezCommonJoin => Common.GetCost(j, u)
    case TezMapJoin => MapJoin.GetCost(j, u)
    case TezBucketJoin => Bucket.GetCost(j, u)
    case TezSMBJoin => SMB.GetCost(j, u)
  }

  function GetCollation(a: JoinAlgorithm, j: Join, u: AlgorithmsUtil): Option<seq<Collation>>
  {
    match a
    case TezCommonJoin => Common.GetCollation(j, u)
    case TezMapJoin => MapJoin.GetCollation(j, u)
    case TezBucketJoin => Bucket.GetCollation(j, u)
    case TezSMBJoin => SMB.GetCollation(j, u)
  }

  function GetDistribution(a: JoinAlgorithm, j: Join, u: AlgorithmsUtil): Option<Distribution>
  {
    match a
    case TezCommonJoin => Common.GetDistribution(j, u)
    case TezMapJoin => MapJoin.GetDistribution(j, u)
    case TezBucketJoin => Bucket.GetDistribution(j, u)
    case TezSMBJoin => SMB.GetDistribution(j, u)
  }

  function IsPhaseTransition(a: JoinAlgorithm, j: Join): bool
  {
    match a
    case TezCommonJoin => Common.IsPhaseTransition(j)
    case TezMapJoin => MapJoin.IsPhaseTransition(j)
    case TezBucketJoin => Bucket.IsPhaseTransition(j)
    case TezSMBJoin => SMB.IsPhaseTransition(j)
  }

  function GetSplitCount(a: JoinAlgorithm, j: Join, u: AlgorithmsUtil): Option<int>
  {
    match a
    case TezCommonJoin => Common.GetSplitCount(j, u)
    case TezMapJoin => MapJoin.GetSplitCount(j, u)
    case TezBucketJoin => Bucket.GetSplitCount(j, u)
    case TezSMBJoin => SMB.GetSplitCount(j, u)
  }

  /** The registry holds four algorithms with four distinct names. */
  lemma RegistryNamesAreDistinct(a: JoinAlgorithm, b: JoinAlgorithm)
    ensures a in Algorithms()
    ensures GetName(a) == GetName(b) ==> a == b
  {
  }

  /** The sort-merge join is the only algorithm that starts a new phase. */
  lemma OnlyCommonJoinIsPhaseTransition(a: JoinAlgorithm, j: Join)
    ensures IsPhaseTransition(a, j) <==> a == TezCommonJoin
  {
  }

  /** Every join has at least one executable algorithm: the sort-merge join. */
  lemma SomeAlgorithmIsAlwaysExecutable(j: Join, maxMemory: real, u: AlgorithmsUtil)
    ensures exists a :: a in Algorithms() && IsExecutable(a, j, maxMemory, u)
  {
    assert IsExecutable(TezCommonJoin, j, maxMemory, u);
  }

  /** Whatever the algorithm, a missing size statistic makes the cost unknown,
      and a known cost counts the rows of both inputs. */
  lemma JoinCostNeedsSizesAndCountsBothInputs(a: JoinAlgorithm, j: Join, u: AlgorithmsUtil)
    ensures !JoinSizesKnown(j) ==> GetCost(a, j, u).None?
    ensures GetCost(a, j, u).Some? ==>
      GetCost(a, j, u).value.rowCount == j.left.rowCount.value + j.right.rowCount.value
  {
  }

  /** For the sort-merge, map and bucket joins, an executable join with known
      size statistics always has a known cost: the hash joins' cost demands a
      streaming side, and their feasibility already does. */
  lemma ExecutableJoinIsCostable(a: JoinAlgorithm, j: Join, maxMemory: real, u: AlgorithmsUtil)
    requires a != TezSMBJoin
    requires IsExecutable(a, j, maxMemory, u)
    ensures GetCost(a, j, u).Some? <==> JoinSizesKnown(j)
  {
  }

  /** The sort-merge-bucket join is the exception: it can be executable, with
      every statistic known, and still have an unknown cost, because its cost
      asks for a streaming side and its feasibility does not. */
  lemma SMBJoinMayBeExecutableButUncostable(u: AlgorithmsUtil)
    ensures exists j: Join ::
      IsExecutable(TezSMBJoin, j, 0.0, u) && JoinSizesKnown(j) && GetCost(TezSMBJoin, j, u).None?
  {
    var input := RelStats(Some(1.0), Some(1.0), HashDistributed([0]), Some(1), Some(1.0));
    var j := Join(input, input, JoinPredicateInfo([0], [0]), NoStreamingRelation, {0, 1}, Some(1), Some(1.0));
    assert HashDistributedOn(input.distribution, [0]);
    assert IsExecutable(TezSMBJoin, j, 0.0, u) && JoinSizesKnown(j) && GetCost(TezSMBJoin, j, u).None?;
  }

  /** The key test is a superset test: an input hashed on more columns than its
      join keys still satisfies both bucketed algorithms' layout check. */
  lemma SupersetDistributionKeysAreAccepted()
    ensures exists j: Join ::
      && SMB.Feasible(j)
      && j.left.distribution.keys != j.predicateInfo.leftKeys
      && j.right.distribution.keys != j.predicateInfo.rightKeys
  {
    var input := RelStats(None, None, HashDistributed([0, 1]), None, None);
    var j := Join(input, input, JoinPredicateInfo([1], [0]), NoStreamingRelation, {0, 1}, None, None);
    assert ContainsAll([0, 1], [1]) && ContainsAll([0, 1], [0]);
    assert SMB.Feasible(j);
  }

  /** The bucket join's layout demand is the sort-merge-bucket join's without
      the sort order: both need co-partitioned inputs, only SMB needs sorting. */
  lemma BucketAndSMBShareTheLayoutCheck(j: Join, maxMemory: real, u: AlgorithmsUtil)
    ensures Bucket.Feasible(j, maxMemory, u) ==> CoPartitioned(j) && j.streamingSide != NoStreamingRelation
    ensures SMB.Feasible(j) <==> CoPartitioned(j) && 0 in j.sortedInputs && 1 in j.sortedInputs
  {
  }

  /** The bucket join keeps one split of the build input in memory where the
      map join keeps all of it: with a known, non-zero split count its
      in-phase memory times that count is the map join's. */
  lemma BucketJoinChargesOneSplitOfMapJoinMemory(j: Join)
    requires Bucket.GetCumulativeMemoryWithinPhaseSplit(j).Some?
    requires InMemoryInput(j).value.splitCount.value != 0
    ensures MapJoin.GetCumulativeMemoryWithinPhaseSplit(j).Some?
    ensures Bucket.GetCumulativeMemoryWithinPhaseSplit(j).value * (InMemoryInput(j).value.splitCount.value as real)
         == MapJoin.GetCumulativeMemoryWithinPhaseSplit(j).value
  {
  }

  /** An unknown join split count is costed as a single split. */
  lemma UnknownSplitCountCostsAsOneSplit(a: JoinAlgorithm, j: Join, u: AlgorithmsUtil)
    requires j.splitCount.None?
    ensures GetCost(a, j, u) == GetCost(a, j.(splitCount := Some(1)), u)
  {
  }

  /** Only the shuffling algorithm repartitions: its split count comes from the
      repartitioning helper, every other algorithm keeps the producer's. */
  lemma SplitCountFollowsPhaseTransition(a: JoinAlgorithm, j: Join, u: AlgorithmsUtil)
    ensures GetSplitCount(a, j, u) ==
      if IsPhaseTransition(a, j) then u.getSplitCountWithRepartition(j)
      else u.getSplitCountWithoutRepartition(j)
  {
  }

  /** The sort-merge, bucket and sort-merge-bucket joins all ask for the join's
      redistribution, whatever side is streamed; the map join's is unknown. */
  lemma DistributionIgnoresStreamingSide(a: JoinAlgorithm, j: Join, side: MapJoinStreamingRelation, u: AlgorithmsUtil)
    ensures GetDistribution(a, j.(streamingSide := side), u) == GetDistribution(a, j, u)
    ensures a != TezMapJoin ==> GetDistribution(a, j, u) == u.getJoinRedistribution(j.predicateInfo)
    ensures a == TezMapJoin ==> GetDistribution(a, j, u).None?
  {
  }

  /** The two merge joins report the collation of a join without a streaming
      side, whatever side is streamed; the two hash joins' is always unknown. */
  lemma CollationIgnoresStreamingSide(a: JoinAlgorithm, j: Join, side: MapJoinStreamingRelation, u: AlgorithmsUtil)
    ensures GetCollation(a, j.(streamingSide := side), u) == GetCollation(a, j, u)
    ensures a in {TezCommonJoin, TezSMBJoin} ==>
      GetCollation(a, j, u) == u.getJoinCollation(j.predicateInfo, NoStreamingRelation)
    ensures a in {TezMapJoin, TezBucketJoin} ==> GetCollation(a, j, u).None?
  {
  }

  /** The sort-merge and sort-merge-bucket joins charge the same in-phase
      memory: the join's, divided by the join's split count. */
  lemma CommonAndSMBShareInPhaseMemory(j: Join)
    ensures Common.GetCumulativeMemoryWithinPhaseSplit(j) == SMB.GetCumulativeMemoryWithinPhaseSplit(j)
  {
  }
}
