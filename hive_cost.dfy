/** The cost value the Tez cost model hands to the planner. The factory that
    builds it and the ordering between costs live outside this model. */
module HiveCost {

  /** Estimated row count, CPU cost and I/O cost of one physical operator. */
  datatype Cost = Cost(rowCount: real, cpu: real, io: real)

  /** The cost of an operator that adds no work of its own. */
  function MakeZeroCost(): Cost
  {
    Cost(0.0, 0.0, 0.0)
  }
}
