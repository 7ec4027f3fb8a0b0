/** The shared cost formulas and layout helpers the join algorithms call.
    Their bodies are not part of this model: each is a field of a record the
    caller supplies, so every statement about the cost model holds whatever
    these functions compute. */
module HiveAlgorithmsUtil {

  import opened Wrappers
  import opened RelMetadata

  datatype AlgorithmsUtil = AlgorithmsUtil(
    computeSortCPUCost: real -> real,
    computeSortIOCost: (real, real) -> real,
    computeSortMergeCPUCost: (seq<real>, set<nat>) -> real,
    computeSortMergeIOCost: seq<(real, real)> -> real,
    computeMapJoinCPUCost: (seq<real>, set<nat>) -> real,
    computeMapJoinIOCost: (seq<(real, real)>, set<nat>, int) -> real,
    computeBucketMapJoinCPUCost: (seq<real>, set<nat>) -> real,
    computeBucketMapJoinIOCost: (seq<(real, real)>, set<nat>, int) -> real,
    computeSMBMapJoinCPUCost: seq<real> -> real,
    computeSMBMapJoinIOCost: (seq<(real, real)>, set<nat>, int) -> real,
    /** Whether a node, split into the given number of buckets, fits the memory budget. */
    isFittingIntoMemory: (real, RelStats, int) -> bool,
    getJoinCollation: (JoinPredicateInfo, MapJoinStreamingRelation) -> Option<seq<Collation>>,
    getJoinDistribution: (JoinPredicateInfo, MapJoinStreamingRelation) -> Option<Distribution>,
    getJoinRedistribution: JoinPredicateInfo -> Option<Distribution>,
    /** The one-argument `getJoinMemory(join)`. */
    getJoinMemory: Join -> Option<real>,
    /** The two-argument `getJoinMemory(join, streamingSide)`. */
    getJoinMemoryFor: (Join, MapJoinStreamingRelation) -> Option<real>,
    getSplitCountWithRepartition: Join -> Option<int>,
    getSplitCountWithoutRepartition: Join -> Option<int>)

  /** The bit set that marks the streamed input (0 = left, 1 = right), or
      `None` when no streaming side was chosen. */
  function StreamingBits(side: MapJoinStreamingRelation): (r: Option<set<nat>>)
    ensures r.None? <==> side == NoStreamingRelation
  {
    match side
    case LeftRelation => Some({0})
    case RightRelation => Some({1})
    case NoStreamingRelation => None
  }
}
