/** What the cost model reads about plan nodes: the answers of the statistics
    provider (a record of optional values per node) and the shape of a join
    or an aggregate. */
module RelMetadata {

  import opened Wrappers

  /** How the rows of a node are spread over parallel tasks. Only the type tag
      and, for the keyed kinds, the key columns are modelled. */
  datatype Distribution =
    | Singleton
    | HashDistributed(keys: seq<int>)
    | RangeDistributed(keys: seq<int>)
    | RandomDistributed
    | RoundRobinDistributed
    | BroadcastDistributed
    | Any

  /** A sort order, as the list of the column indexes it sorts on. */
  datatype Collation = Collation(fieldIndexes: seq<int>)

  /** The input of a join that is streamed (probed) rather than kept in memory,
      as chosen by an earlier planning step. */
  datatype MapJoinStreamingRelation = NoStreamingRelation | LeftRelation | RightRelation

  /** The statistics provider's answers for one plan node; `None` is "unknown". */
  datatype RelStats = RelStats(
    rowCount: Option<real>,
    averageRowSize: Option<real>,
    distribution: Distribution,
    splitCount: Option<int>,
    memoryWithinPhase: Option<real>)

  /** The join key columns of each side, in that side's own schema. */
  datatype JoinPredicateInfo = JoinPredicateInfo(leftKeys: seq<int>, rightKeys: seq<int>)

  /** A binary join together with the statistics of its two inputs and of the
      join node itself. `sortedInputs` is the bit set of input positions
      (0 = left, 1 = right) already sorted on their join keys. */
  datatype Join = Join(
    left: RelStats,
    right: RelStats,
    predicateInfo: JoinPredicateInfo,
    streamingSide: MapJoinStreamingRelation,
    sortedInputs: set<nat>,
    splitCount: Option<int>,
    memoryWithinPhase: Option<real>)

  /** A grouping operator: its input and whether that input is already
      bucketed by the grouping keys. */
  datatype Aggregate = Aggregate(input: RelStats, bucketedInput: bool)

  /** The join's inputs, left then right. */
  function Inputs(j: Join): seq<RelStats>
  {
    [j.left, j.right]
  }

  /** Each input's join keys, in the order of `Inputs`. */
  function JoinKeysInChildren(info: JoinPredicateInfo): seq<seq<int>>
  {
    [info.leftKeys, info.rightKeys]
  }

  /** The input a hash join keeps in memory: the one that is NOT streamed,
      or `None` when no streaming side was chosen. */
  function InMemoryInput(j: Join): (r: Option<RelStats>)
    ensures r.None? <==> j.streamingSide == NoStreamingRelation
  {
    match j.streamingSide
    case LeftRelation => Some(j.right)
    case RightRelation => Some(j.left)
    case NoStreamingRelation => None
  }

  /** Both the row count and the average row size of a node are known. */
  predicate SizesKnown(s: RelStats)
  {
    s.rowCount.Some? && s.averageRowSize.Some?
  }

  /** Every statistic a join cost formula reads is known. */
  predicate JoinSizesKnown(j: Join)
  {
    SizesKnown(j.left) && SizesKnown(j.right)
  }

  /** Every element of `required` occurs in `keys` (Java's `containsAll`:
      a superset test that ignores order and repetition). */
  predicate ContainsAll(keys: seq<int>, required: seq<int>)
  {
    forall k :: k in required ==> k in keys
  }

  /** The distribution hashes on (at least) the given key columns. */
  predicate HashDistributedOn(d: Distribution, joinKeys: seq<int>)
  {
    d.HashDistributed? && ContainsAll(d.keys, joinKeys)
  }

  /** Both inputs are hash-distributed on their own side's join keys. */
  predicate CoPartitioned(j: Join)
  {
    && HashDistributedOn(j.left.distribution, j.predicateInfo.leftKeys)
    && HashDistributedOn(j.right.distribution, j.predicateInfo.rightKeys)
  }

  /** The per-side cardinalities handed to the cost formulas. */
  function Cardinalities(j: Join): seq<real>
    requires j.left.rowCount.Some? && j.right.rowCount.Some?
  {
    [j.left.rowCount.value, j.right.rowCount.value]
  }

  /** The per-side (row count, average row size) pairs handed to the I/O formulas. */
  function RelationInfos(j: Join): seq<(real, real)>
    requires JoinSizesKnown(j)
  {
    [(j.left.rowCount.value, j.left.averageRowSize.value),
     (j.right.rowCount.value, j.right.averageRowSize.value)]
  }

  /** The degree of parallelism the I/O formulas use: the join's split count,
      or a single split when that count is unknown. */
  function Parallelism(j: Join): int
  {
    if j.splitCount.None? then 1 else j.splitCount.value
  }

  /** Java's double division of a memory figure by a split count. A zero split
      count (Infinity or NaN in Java) is outside the model and yields 0.0. */
  function Quotient(memory: real, splits: int): (q: real)
    ensures splits != 0 ==> q * (splits as real) == memory
  {
    if splits == 0 then 0.0 else memory / (splits as real)
  }
}
