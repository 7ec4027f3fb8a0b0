/** The "unknown" answer of the statistics provider and of the cost model:
    a Java `null` becomes `None`. */
module Wrappers {

  datatype Option<+T> = None | Some(value: T)
}
