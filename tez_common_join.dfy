/** COMMON_JOIN: the shuffle sort-merge join. Both inputs are repartitioned on
    the join keys, so each parallel task handles several splits. */
module TezCommonJoinAlgorithm {

  import opened Wrappers
  import opened HiveCost
  import opened RelMetadata
  import opened HiveAlgorithmsUtil

  function GetName(): string
  {
    "CommonJoin"
  }

  /** The sort-merge join needs no layout, statistics or memory: it can always run. */
  function IsExecutable(j: Join): (r: bool)
    ensures r
  {
    true
  }

  /** Sorting cost of each side plus the merge, and the I/O of writing, reading
      back and shipping both sides. Unknown when a row count or an average row
      size of either input is unknown; the streaming side plays no part. */
  function GetCost(j: Join, u: AlgorithmsUtil): (r: Option<Cost>)
    ensures r.None? <==> !JoinSizesKnown(j)
    ensures r.Some? ==> r.value.rowCount == j.left.rowCount.value + j.right.rowCount.value
    ensures r.Some? ==> r.value.cpu == u.computeSortMergeCPUCost(Cardinalities(j), j.sortedInputs)
    ensures r.Some? ==> r.value.io == u.computeSortMergeIOCost(RelationInfos(j))
  {
    if j.left.rowCount.None? || j.right.rowCount.None? then None
    else
      var rCount := j.left.rowCount.value + j.right.rowCount.value;
      var cpuCost := u.computeSortMergeCPUCost(Cardinalities(j), j.sortedInputs);
      if j.left.averageRowSize.None? || j.right.averageRowSize.None? then None
      else
        var ioCost := u.computeSortMergeIOCost(RelationInfos(j));
        Some(Cost(rCount, cpuCost, ioCost))
  }

  /** The order the merge produces, asked for as if no input were streamed. */
  function GetCollation(j: Join, u: AlgorithmsUtil): Option<seq<Collation>>
  {
    u.getJoinCollation(j.predicateInfo, NoStreamingRelation)
  }

  /** Both inputs are redistributed on the join keys. */
  function GetDistribution(j: Join, u: AlgorithmsUtil): Option<Distribution>
  {
    u.getJoinRedistribution(j.predicateInfo)
  }

  function GetMemory(j: Join, u: AlgorithmsUtil): Option<real>
  {
    u.getJoinMemoryFor(j, NoStreamingRelation)
  }

  /** The join's memory within its phase, shared out over the join's splits;
      unknown when either figure is unknown. */
  function GetCumulativeMemoryWithinPhaseSplit(j: Join): (r: Option<real>)
    ensures r.Some? <==> j.memoryWithinPhase.Some? && j.splitCount.Some?
    ensures r.Some? && j.splitCount.value != 0 ==>
      r.value * (j.splitCount.value as real) == j.memoryWithinPhase.value
  {
    if j.memoryWithinPhase.None? || j.splitCount.None? then None
    else Some(Quotient(j.memoryWithinPhase.value, j.splitCount.value))
  }

  /** The shuffle starts a new execution phase. */
  function IsPhaseTransition(j: Join): (r: bool)
    ensures r
  {
    true
  }

  function GetSplitCount(j: Join, u: AlgorithmsUtil): Option<int>
  {
    u.getSplitCountWithRepartition(j)
  }
}
