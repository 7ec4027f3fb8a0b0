/** BUCKET_JOIN: a hash join over co-bucketed inputs that keeps one bucket of
    the non-streamed input in memory at a time. */
module TezBucketJoinAlgorithm {

  import opened Wrappers
  import opened HiveCost
  import opened RelMetadata
  import opened HiveAlgorithmsUtil

  function GetName(): string
  {
    "BucketJoin"
  }

  /** The in-memory input has a known bucket count and one bucket of it fits
      the memory budget. */
  predicate BucketFits(small: RelStats, maxMemory: real, u: AlgorithmsUtil)
  {
    small.splitCount.Some? && u.isFittingIntoMemory(maxMemory, small, small.splitCount.value)
  }

  /** When a bucket join can run: a streaming side was chosen, a bucket of the
      other input fits in memory, and both inputs are hash-distributed on (a
      superset of) their join keys. */
  predicate Feasible(j: Join, maxMemory: real, u: AlgorithmsUtil)
  {
    match j.streamingSide
    case NoStreamingRelation => false
    case LeftRelation => BucketFits(j.right, maxMemory, u) && CoPartitioned(j)
    case RightRelation => BucketFits(j.left, maxMemory, u) && CoPartitioned(j)
  }

  /** The feasibility check, with its early exits and its loop over the inputs. */
  method IsExecutable(j: Join, maxMemory: real, u: AlgorithmsUtil) returns (r: bool)
    ensures r == Feasible(j, maxMemory, u)
  {
    var smallInput := InMemoryInput(j);
    if smallInput.None? {
      return false;
    }
    var joinKeysInChildren := JoinKeysInChildren(j.predicateInfo);
    var buckets := smallInput.value.splitCount;
    if buckets.None? {
      return false;
    }
    if !u.isFittingIntoMemory(maxMemory, smallInput.value, buckets.value) {
      return false;
    }
    var inputs := Inputs(j);
    for i := 0 to |inputs|
      invariant forall k :: 0 <= k < i ==> HashDistributedOn(inputs[k].distribution, joinKeysInChildren[k])
    {
      var distribution := inputs[i].distribution;
      if !distribution.HashDistributed? {
        return false;
      }
      if !ContainsAll(distribution.keys, joinKeysInChildren[i]) {
        return false;
      }
    }
    assert CoPartitioned(j) by {
      assert HashDistributedOn(inputs[0].distribution, joinKeysInChildren[0]);
      assert HashDistributedOn(inputs[1].distribution, joinKeysInChildren[1]);
    }
    return true;
  }

  /** Bucketed hash-table build plus probe, and the I/O of shipping buckets.
      Unknown when a size statistic is unknown or when no streaming side was
      chosen; the I/O formula is told the join's split count, or 1. */
  function GetCost(j: Join, u: AlgorithmsUtil): (r: Option<Cost>)
    ensures r.None? <==> !JoinSizesKnown(j) || j.streamingSide == NoStreamingRelation
    ensures r.Some? ==> r.value.rowCount == j.left.rowCount.value + j.right.rowCount.value
    ensures r.Some? ==>
      r.value.cpu == u.computeBucketMapJoinCPUCost(Cardinalities(j), StreamingBits(j.streamingSide).value)
    ensures r.Some? ==>
      r.value.io == u.computeBucketMapJoinIOCost(RelationInfos(j), StreamingBits(j.streamingSide).value, Parallelism(j))
  {
    if j.left.rowCount.None? || j.right.rowCount.None? then None
    else
      var rCount := j.left.rowCount.value + j.right.rowCount.value;
      match StreamingBits(j.streamingSide)
      case None => None
      case Some(streaming) =>
        var cpuCost := u.computeBucketMapJoinCPUCost(Cardinalities(j), streaming);
        if j.left.averageRowSize.None? || j.right.averageRowSize.None? then None
        else
          var ioCost := u.computeBucketMapJoinIOCost(RelationInfos(j), streaming, Parallelism(j));
          Some(Cost(rCount, cpuCost, ioCost))
  }

  /** The guard "not left OR not right" holds for every streaming side, so the
      collation is always unknown. */
  function GetCollation(j: Join, u: AlgorithmsUtil): (r: Option<seq<Collation>>)
    ensures r.None?
  {
    if j.streamingSide != LeftRelation || j.streamingSide != RightRelation then None
    else u.getJoinCollation(j.predicateInfo, j.streamingSide)
  }

  function GetDistribution(j: Join, u: AlgorithmsUtil): Option<Distribution>
  {
    u.getJoinRedistribution(j.predicateInfo)
  }

  function GetMemory(j: Join, u: AlgorithmsUtil): Option<real>
  {
    u.getJoinMemory(j)
  }

  /** One split of the non-streamed input is resident: that input's memory
      within the phase divided by its own split count. Unknown when no
      streaming side was chosen or either figure is unknown. */
  function GetCumulativeMemoryWithinPhaseSplit(j: Join): (r: Option<real>)
    ensures r.Some? <==>
      && InMemoryInput(j).Some?
      && InMemoryInput(j).value.memoryWithinPhase.Some?
      && InMemoryInput(j).value.splitCount.Some?
    ensures r.Some? && InMemoryInput(j).value.splitCount.value != 0 ==>
      r.value * (InMemoryInput(j).value.splitCount.value as real) == InMemoryInput(j).value.memoryWithinPhase.value
  {
    var inMemoryInput := InMemoryInput(j);
    if inMemoryInput.None? then None
    else
      var memoryInput := inMemoryInput.value.memoryWithinPhase;
      var splitCount := inMemoryInput.value.splitCount;
      if memoryInput.None? || splitCount.None? then None
      else Some(Quotient(memoryInput.value, splitCount.value))
  }

  /** Runs inside the producing phase: no shuffle. */
  function IsPhaseTransition(j: Join): (r: bool)
    ensures !r
  {
    false
  }

  function GetSplitCount(j: Join, u: AlgorithmsUtil): Option<int>
  {
    u.getSplitCountWithoutRepartition(j)
  }
}
