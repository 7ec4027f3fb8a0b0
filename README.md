# Hive on Tez cost model, in Dafny

This project models the cost model that Hive's Calcite-based optimizer uses for
the Tez execution engine (`HiveOnTezCostModel`). It has three parts:

- the engine's default cost and its aggregate cost rule;
- the four join algorithms the engine registers:
  - the shuffle sort-merge join (`TezCommonJoinAlgorithm`);
  - the broadcast hash join (`TezMapJoinAlgorithm`);
  - the bucketed hash join (`TezBucketJoinAlgorithm`);
  - the sort-merge-bucket join (`TezSMBJoinAlgorithm`);
- for each algorithm: its feasibility test, its cost, its collation and
  distribution, its memory figures, its phase-transition flag and its split count.

Everything in the source is a pure computation over statistics, so the model
is datatypes and functions:

- A Java `null` becomes `Option.None`.
- The statistics provider (`RelMetadataQuery`) becomes a `RelStats` record of
  optional answers per plan node.
- A join carries its two inputs' statistics and its own split count and
  in-phase memory. It also carries its join keys per side, its streaming side
  and the bit set of sorted inputs.
- The helpers of `HiveAlgorithmsUtil` are not part of this model. These are the
  cost formulas, `isFittingIntoMemory`, `getJoinCollation`,
  `getJoinDistribution`, `getJoinRedistribution`, `getJoinMemory` and the
  split-count helpers. They are function-valued fields of an `AlgorithmsUtil`
  record that the caller supplies, so every property proved here holds
  whatever they compute.
- The feasibility tests of the bucket and sort-merge-bucket joins loop over the
  join's inputs with early exits. They are methods with that loop, each proved
  equal to a `Feasible` predicate stated over the left and right inputs.
  Functions and lemmas use the predicate.
- `HiveJoin` is not part of this model. Its `getStreamingInput()` is modelled as
  `InMemoryInput`: the input that is NOT streamed, or nothing when no streaming
  side was chosen. This is the input the source names `smallInput`, and the one
  that `getCumulativeMemoryWithinPhaseSplit` of the hash joins picks out itself.

Modules: `Wrappers` (Option), `HiveCost` (the cost triple), `RelMetadata`
(statistics, joins, aggregates and layout predicates), `HiveAlgorithmsUtil`
(the collaborators' signatures), one module per join algorithm, and
`HiveOnTezCostModel` (registry, default and aggregate cost, dispatch over the
algorithms, and the lemmas that relate them).

Source quirks are kept as written:

- In the map and bucket joins, `getCollation` guards with "not left OR not
  right". That guard holds for every streaming side, so the result is always
  unknown. The map join's `getDistribution` has the same guard.
- The sort-merge-bucket join's cost is unknown without a streaming side, but
  its feasibility test never asks for one.
- The key test is `containsAll`: an input hashed on a superset of its join keys
  passes.

Where the specification of the system and the code disagree, the model follows
the code:

- The specification asks for inputs hash-distributed on exactly the join keys.
  The code accepts a superset.
- The specification says the map join inherits collation and distribution from
  the streaming side. The code always returns null.
- The specification says the bucket join's build side must fit "footprint ÷
  bucket count". The code passes the bucket count to `isFittingIntoMemory` as
  an argument. The model does the same, without interpreting that helper.

## Model

| member | source | states |
|---|---|---|
| HiveOnTezCostModel.GetDefaultCost | ql/src/java/org/apache/hadoop/hive/ql/optimizer/calcite/cost/HiveOnTezCostModel.java:56-59 | the default cost has zero rows, zero CPU and zero I/O |
| HiveOnTezCostModel.GetAggregateCost | ql/src/java/org/apache/hadoop/hive/ql/optimizer/calcite/cost/HiveOnTezCostModel.java:61-84 | a bucketed input costs exactly zero whatever its statistics; otherwise the cost is unknown iff the input's row count or average row size is unknown, and a known cost has the input's row count with the sort CPU and sort I/O formulas of that input |
| HiveOnTezCostModel.RegistryNamesAreDistinct | ql/src/java/org/apache/hadoop/hive/ql/optimizer/calcite/cost/HiveOnTezCostModel.java:45-54 | every algorithm is registered and the four names identify the four algorithms |
| HiveOnTezCostModel.OnlyCommonJoinIsPhaseTransition | ql/src/java/org/apache/hadoop/hive/ql/optimizer/calcite/cost/HiveOnTezCostModel.java:166-578 | an algorithm is a phase transition iff it is the sort-merge (common) join |
| HiveOnTezCostModel.SomeAlgorithmIsAlwaysExecutable | ql/src/java/org/apache/hadoop/hive/ql/optimizer/calcite/cost/HiveOnTezCostModel.java:101-104 | every join has at least one registered executable algorithm |
| HiveOnTezCostModel.JoinCostNeedsSizesAndCountsBothInputs | ql/src/java/org/apache/hadoop/hive/ql/optimizer/calcite/cost/HiveOnTezCostModel.java:106-546 | for every algorithm a missing row count or average size makes the cost unknown, and a known cost's row count is left plus right |
| HiveOnTezCostModel.ExecutableJoinIsCostable | ql/src/java/org/apache/hadoop/hive/ql/optimizer/calcite/cost/HiveOnTezCostModel.java:101-402 | for the common, map and bucket joins, an executable join's cost is known iff both inputs' sizes are known |
| HiveOnTezCostModel.SMBJoinMayBeExecutableButUncostable | ql/src/java/org/apache/hadoop/hive/ql/optimizer/calcite/cost/HiveOnTezCostModel.java:470-546 | some join is SMB-executable, has every size known, and still has an unknown SMB cost (no streaming side) |
| HiveOnTezCostModel.SupersetDistributionKeysAreAccepted | ql/src/java/org/apache/hadoop/hive/ql/optimizer/calcite/cost/HiveOnTezCostModel.java:483-498 | some SMB-feasible join has distribution keys different from its join keys: the key test is a superset test |
| HiveOnTezCostModel.BucketAndSMBShareTheLayoutCheck | ql/src/java/org/apache/hadoop/hive/ql/optimizer/calcite/cost/HiveOnTezCostModel.java:316-500 | bucket feasibility implies co-partitioned inputs and a streaming side; SMB feasibility is exactly both inputs sorted and co-partitioned |
| HiveOnTezCostModel.BucketJoinChargesOneSplitOfMapJoinMemory | ql/src/java/org/apache/hadoop/hive/ql/optimizer/calcite/cost/HiveOnTezCostModel.java:275-443 | with a known non-zero split count of the build input, the bucket join's in-phase memory times that count is the map join's |
| HiveOnTezCostModel.UnknownSplitCountCostsAsOneSplit | ql/src/java/org/apache/hadoop/hive/ql/optimizer/calcite/cost/HiveOnTezCostModel.java:204-546 | for every algorithm, a join with unknown split count costs the same as with split count 1 |
| HiveOnTezCostModel.SplitCountFollowsPhaseTransition | ql/src/java/org/apache/hadoop/hive/ql/optimizer/calcite/cost/HiveOnTezCostModel.java:166-583 | the split count comes from the repartitioning helper iff the algorithm is a phase transition, else from the non-repartitioning one |
| HiveOnTezCostModel.DistributionIgnoresStreamingSide | ql/src/java/org/apache/hadoop/hive/ql/optimizer/calcite/cost/HiveOnTezCostModel.java:145-557 | no algorithm's distribution depends on the streaming side; common, bucket and SMB give the join redistribution, the map join's is always unknown |
| HiveOnTezCostModel.CollationIgnoresStreamingSide | ql/src/java/org/apache/hadoop/hive/ql/optimizer/calcite/cost/HiveOnTezCostModel.java:139-552 | no algorithm's collation depends on the streaming side; common and SMB give the join collation for no streaming side, map and bucket always unknown |
| HiveOnTezCostModel.CommonAndSMBShareInPhaseMemory | ql/src/java/org/apache/hadoop/hive/ql/optimizer/calcite/cost/HiveOnTezCostModel.java:155-573 | the common and SMB joins charge the same in-phase memory |
| TezCommonJoinAlgorithm.IsExecutable | ql/src/java/org/apache/hadoop/hive/ql/optimizer/calcite/cost/HiveOnTezCostModel.java:101-104 | the sort-merge join is executable for every join |
| TezCommonJoinAlgorithm.GetCost | ql/src/java/org/apache/hadoop/hive/ql/optimizer/calcite/cost/HiveOnTezCostModel.java:106-137 | unknown iff a row count or average size of either input is unknown; otherwise rows = left + right, CPU from the sort-merge formula with the sorted-input flags, I/O from the sort-merge I/O formula |
| TezCommonJoinAlgorithm.GetCumulativeMemoryWithinPhaseSplit | ql/src/java/org/apache/hadoop/hive/ql/optimizer/calcite/cost/HiveOnTezCostModel.java:155-164 | known iff the join's in-phase memory and split count are known; then, for a non-zero split count, result times split count = the join's in-phase memory |
| TezCommonJoinAlgorithm.IsPhaseTransition | ql/src/java/org/apache/hadoop/hive/ql/optimizer/calcite/cost/HiveOnTezCostModel.java:166-169 | always a phase transition |
| TezMapJoinAlgorithm.IsExecutable | ql/src/java/org/apache/hadoop/hive/ql/optimizer/calcite/cost/HiveOnTezCostModel.java:192-202 | executable iff the left input streams and the right fits in memory with factor 1, or the right streams and the left fits with factor 1 |
| TezMapJoinAlgorithm.GetCost | ql/src/java/org/apache/hadoop/hive/ql/optimizer/calcite/cost/HiveOnTezCostModel.java:204-248 | unknown iff a size statistic is unknown or no streaming side is chosen; otherwise rows = left + right and the formulas get the streamed input's bit and the join's split count (1 when unknown) |
| TezMapJoinAlgorithm.GetCollation | ql/src/java/org/apache/hadoop/hive/ql/optimizer/calcite/cost/HiveOnTezCostModel.java:250-258 | always unknown (the guard is always true) |
| TezMapJoinAlgorithm.GetDistribution | ql/src/java/org/apache/hadoop/hive/ql/optimizer/calcite/cost/HiveOnTezCostModel.java:260-268 | always unknown (the guard is always true) |
| TezMapJoinAlgorithm.GetCumulativeMemoryWithinPhaseSplit | ql/src/java/org/apache/hadoop/hive/ql/optimizer/calcite/cost/HiveOnTezCostModel.java:275-288 | the whole in-phase memory of the non-streamed input: the right one when the left streams, the left one when the right streams, unknown with no streaming side |
| TezMapJoinAlgorithm.IsPhaseTransition | ql/src/java/org/apache/hadoop/hive/ql/optimizer/calcite/cost/HiveOnTezCostModel.java:290-293 | never a phase transition |
| TezBucketJoinAlgorithm.IsExecutable | ql/src/java/org/apache/hadoop/hive/ql/optimizer/calcite/cost/HiveOnTezCostModel.java:316-356 | returns true exactly when a streaming side is chosen, the other input has a known bucket count and fits in memory with that factor, and both inputs are hash-distributed on a superset of their join keys |
| TezBucketJoinAlgorithm.GetCost | ql/src/java/org/apache/hadoop/hive/ql/optimizer/calcite/cost/HiveOnTezCostModel.java:358-402 | unknown iff a size statistic is unknown or no streaming side is chosen; otherwise rows = left + right, bucket map-join formulas with the streamed bit and the join's split count (1 when unknown) |
| TezBucketJoinAlgorithm.GetCollation | ql/src/java/org/apache/hadoop/hive/ql/optimizer/calcite/cost/HiveOnTezCostModel.java:404-412 | always unknown (the guard is always true) |
| TezBucketJoinAlgorithm.GetCumulativeMemoryWithinPhaseSplit | ql/src/java/org/apache/hadoop/hive/ql/optimizer/calcite/cost/HiveOnTezCostModel.java:424-443 | known iff a streaming side is chosen and the non-streamed input's in-phase memory and split count are known; then, for a non-zero count, result times that count = that input's memory |
| TezBucketJoinAlgorithm.IsPhaseTransition | ql/src/java/org/apache/hadoop/hive/ql/optimizer/calcite/cost/HiveOnTezCostModel.java:445-448 | never a phase transition |
| TezSMBJoinAlgorithm.IsExecutable | ql/src/java/org/apache/hadoop/hive/ql/optimizer/calcite/cost/HiveOnTezCostModel.java:470-500 | returns true exactly when both inputs are flagged sorted and hash-distributed on a superset of their join keys; memory and streaming side are not consulted |
| TezSMBJoinAlgorithm.GetCost | ql/src/java/org/apache/hadoop/hive/ql/optimizer/calcite/cost/HiveOnTezCostModel.java:502-546 | unknown iff a size statistic is unknown or no streaming side is chosen; otherwise rows = left + right, SMB CPU formula of the cardinalities, SMB I/O formula with the streamed bit and the join's split count (1 when unknown) |
| TezSMBJoinAlgorithm.GetMemory | ql/src/java/org/apache/hadoop/hive/ql/optimizer/calcite/cost/HiveOnTezCostModel.java:559-562 | always 0.0 |
| TezSMBJoinAlgorithm.GetCumulativeMemoryWithinPhaseSplit | ql/src/java/org/apache/hadoop/hive/ql/optimizer/calcite/cost/HiveOnTezCostModel.java:564-573 | known iff the join's in-phase memory and split count are known; then, for a non-zero split count, result times split count = the join's in-phase memory |
| TezSMBJoinAlgorithm.IsPhaseTransition | ql/src/java/org/apache/hadoop/hive/ql/optimizer/calcite/cost/HiveOnTezCostModel.java:575-578 | never a phase transition |

## Left out

- The bodies of the `HiveAlgorithmsUtil` helpers are not part of this model: the cost formulas, `isFittingIntoMemory`, `getJoinCollation`, `getJoinDistribution`, `getJoinRedistribution`, `getJoinMemory` and the split-count helpers. Each is a caller-supplied function of its arguments.
- How `RelMetadataQuery` computes statistics is not part of this model; its answers are inputs. The distribution it returns is taken to be non-null, since the source dereferences it unchecked.
- `HiveJoin` (its `getStreamingSide` and `getStreamingInput`) is not part of this model. The streaming side is an input, and `getStreamingInput` is modelled as described above.
- The max-memory budget, read from the planner context, is a parameter.
- The `HiveCost` factory and the ordering of costs live outside this file. A cost is a plain triple, and no tie-break between costs is modelled.
- Floating point: `Double` is `real` and `Integer` is `int`, with no overflow, Infinity or NaN.
- RelMetadata.Quotient: dividing by a zero split count gives Infinity or NaN in Java. The model returns 0.0 there, and no contract speaks about that case.
- The `getMemory` of the common, map and bucket joins, and `getSplitCount` of each join, only pass the join to a `HiveAlgorithmsUtil` helper. They are modelled as that call. Nothing more can be stated about them except which helper each one calls; `SplitCountFollowsPhaseTransition` states that for split counts.
- Calcite's collation and distribution objects are reduced to the type tag and the key columns.
- The singleton instances and the `Sets.newHashSet` registry are modelled as the set `Algorithms()` of a four-value datatype.
- Several promised properties depend only on the unmodelled formulas and `isFittingIntoMemory`, so they are not stated here:
  - costs are non-negative;
  - I/O cost is monotonic in row count;
  - the broadcast join is feasible at the exact memory-budget boundary;
  - the worked example comparing broadcast and sort-merge I/O.
