/** MAP_JOIN: a broadcast hash join that keeps the whole non-streamed input
    in memory and runs inside the producing phase. */
module TezMapJoinAlgorithm {

  import opened Wrappers
  import opened HiveCost
  import opened RelMetadata
  import opened HiveAlgorithmsUtil

  function GetName(): string
  {
    "MapJoin"
  }

  /** Executable exactly when a streaming side was chosen and the OTHER input,
      the one kept in memory, fits the memory budget as a single copy. */
  function IsExecutable(j: Join, maxMemory: real, u: AlgorithmsUtil): (r: bool)
    ensures r <==>
      || (j.streamingSide == LeftRelation && u.isFittingIntoMemory(maxMemory, j.right, 1))
      || (j.streamingSide == RightRelation && u.isFittingIntoMemory(maxMemory, j.left, 1))
  {
    var smallInput := InMemoryInput(j);
    if smallInput.None? then false
    else u.isFittingIntoMemory(maxMemory, smallInput.value, 1)
  }

  /** Hash-table build plus probe, and the I/O of shipping the in-memory input
      to every task. Unknown when a size statistic is unknown or when no
      streaming side was chosen; the I/O formula is told the join's split
      count, or 1 when that is unknown. */
  function GetCost(j: Join, u: AlgorithmsUtil): (r: Option<Cost>)
    ensures r.None? <==> !JoinSizesKnown(j) || j.streamingSide == NoStreamingRelation
    ensures r.Some? ==> r.value.rowCount == j.left.rowCount.value + j.right.rowCount.value
    ensures r.Some? ==>
      r.value.cpu == u.computeMapJoinCPUCost(Cardinalities(j), StreamingBits(j.streamingSide).value)
    ensures r.Some? ==>
      r.value.io == u.computeMapJoinIOCost(RelationInfos(j), StreamingBits(j.streamingSide).value, Parallelism(j))
  {
    if j.left.rowCount.None? || j.right.rowCount.None? then None
    else
      var rCount := j.left.rowCount.value + j.right.rowCount.value;
      match StreamingBits(j.streamingSide)
      case None => None
      case Some(streaming) =>
        var cpuCost := u.computeMapJoinCPUCost(Cardinalities(j), streaming);
        if j.left.averageRowSize.None? || j.right.averageRowSize.None? then None
        else
          var ioCost := u.computeMapJoinIOCost(RelationInfos(j), streaming, Parallelism(j));
          Some(Cost(rCount, cpuCost, ioCost))
  }

  /** The guard "not left OR not right" holds for every streaming side, so the
      collation is always unknown. */
  function GetCollation(j: Join, u: AlgorithmsUtil): (r: Option<seq<Collation>>)
    ensures r.None?
  {
    if j.streamingSide != LeftRelation || j.streamingSide != RightRelation then None
    else u.getJoinCollation(j.predicateInfo, j.streamingSide)
  }

  /** Same always-true guard: the distribution is always unknown. */
  function GetDistribution(j: Join, u: AlgorithmsUtil): (r: Option<Distribution>)
    ensures r.None?
  {
    if j.streamingSide != LeftRelation || j.streamingSide != RightRelation then None
    else u.getJoinDistribution(j.predicateInfo, j.streamingSide)
  }

  function GetMemory(j: Join, u: AlgorithmsUtil): Option<real>
  {
    u.getJoinMemory(j)
  }

  /** The whole non-streamed input is resident: its memory within the phase,
      undivided. Unknown when no streaming side was chosen. */
  function GetCumulativeMemoryWithinPhaseSplit(j: Join): (r: Option<real>)
    ensures j.streamingSide == LeftRelation ==> r == j.right.memoryWithinPhase
    ensures j.streamingSide == RightRelation ==> r == j.left.memoryWithinPhase
    ensures j.streamingSide == NoStreamingRelation ==> r.None?
  {
    var inMemoryInput := InMemoryInput(j);
    if inMemoryInput.None? then None
    else inMemoryInput.value.memoryWithinPhase
  }

  /** Fused into the producing phase: no shuffle. */
  function IsPhaseTransition(j: Join): (r: bool)
    ensures !r
  {
    false
  }

  function GetSplitCount(j: Join, u: AlgorithmsUtil): Option<int>
  {
    u.getSplitCountWithoutRepartition(j)
  }
}
