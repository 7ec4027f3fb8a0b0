/** SMB_JOIN: a sort-merge join over inputs already sorted and bucketed on the
    join keys; each parallel task merges one bucket pair. */
module TezSMBJoinAlgorithm {

  import opened Wrappers
  import opened HiveCost
  import opened RelMetadata
  import opened HiveAlgorithmsUtil

  function GetName(): string
  {
    "SMBJoin"
  }

  /** When a sort-merge-bucket join can run: both inputs are flagged sorted and
      hash-distributed on (a superset of) their join keys. Neither memory nor
      the streaming side is consulted. */
  predicate Feasible(j: Join)
  {
    0 in j.sortedInputs && 1 in j.sortedInputs && CoPartitioned(j)
  }

  /** The feasibility check, with its loop over the inputs. */
  method IsExecutable(j: Join) returns (r: bool)
    ensures r == Feasible(j)
  {
    var joinKeysInChildren := JoinKeysInChildren(j.predicateInfo);
    var inputs := Inputs(j);
    for i := 0 to |inputs|
      invariant forall k :: 0 <= k < i ==>
        k in j.sortedInputs && HashDistributedOn(inputs[k].distribution, joinKeysInChildren[k])
    {
      var orderFound := i in j.sortedInputs;
      if !orderFound {
        return false;
      }
      var distribution := inputs[i].distribution;
      if !distribution.HashDistributed? {
        return false;
      }
      if !ContainsAll(distribution.keys, joinKeysInChildren[i]) {
        return false;
      }
    }
    return true;
  }

  /** Bucket-merge CPU cost and the I/O of shipping the inputs. Unknown when a
      size statistic is unknown and ALSO when no streaming side was chosen,
      although feasibility does not ask for one. */
  function GetCost(j: Join, u: AlgorithmsUtil): (r: Option<Cost>)
    ensures r.None? <==> !JoinSizesKnown(j) || j.streamingSide == NoStreamingRelation
    ensures r.Some? ==> r.value.rowCount == j.left.rowCount.value + j.right.rowCount.value
    ensures r.Some? ==> r.value.cpu == u.computeSMBMapJoinCPUCost(Cardinalities(j))
    ensures r.Some? ==>
      r.value.io == u.computeSMBMapJoinIOCost(RelationInfos(j), StreamingBits(j.streamingSide).value, Parallelism(j))
  {
    if j.left.rowCount.None? || j.right.rowCount.None? then None
    else
      var rCount := j.left.rowCount.value + j.right.rowCount.value;
      match StreamingBits(j.streamingSide)
      case None => None
      case Some(streaming) =>
        var cpuCost := u.computeSMBMapJoinCPUCost(Cardinalities(j));
        if j.left.averageRowSize.None? || j.right.averageRowSize.None? then None
        else
          var ioCost := u.computeSMBMapJoinIOCost(RelationInfos(j), streaming, Parallelism(j));
          Some(Cost(rCount, cpuCost, ioCost))
  }

  /** The order the merge produces, asked for as if no input were streamed. */
  function GetCollation(j: Join, u: AlgorithmsUtil): Option<seq<Collation>>
  {
    u.getJoinCollation(j.predicateInfo, NoStreamingRelation)
  }

  function GetDistribution(j: Join, u: AlgorithmsUtil): Option<Distribution>
  {
    u.getJoinRedistribution(j.predicateInfo)
  }

  /** A streaming merge holds nothing in memory. */
  function GetMemory(j: Join): (r: Option<real>)
    ensures r == Some(0.0)
  {
    Some(0.0)
  }

  /** The join's memory within its phase, shared out over the join's splits;
      unknown when either figure is unknown. */
  function GetCumulativeMemoryWithinPhaseSplit(j: Join): (r: Option<real>)
    ensures r.Some? <==> j.memoryWithinPhase.Some? && j.splitCount.Some?
    ensures r.Some? && j.splitCount.value != 0 ==>
      r.value * (j.splitCount.value as real) == j.memoryWithinPhase.value
  {
    if j.memoryWithinPhase.None? || j.splitCount.None? then None
    else Some(Quotient(j.memoryWithinPhase.value, j.splitCount.value))
  }

  /** Runs inside the producing phase: no shuffle. */
  function IsPhaseTransition(j: Join): (r: bool)
    ensures !r
  {
    false
  }

  function GetSplitCount(j: Join, u: AlgorithmsUtil): Option<int>
  {
    u.getSplitCountWithoutRepartition(j)
  }
}
