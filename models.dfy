/**
 * The records a differential test produces: the inconsistencies a comparator
 * reports, and the per-test result record.
 */
module Models {
  import opened Values

  /** A detected cross-adapter divergence. The source formats each of these as
      a message string; here each carries the names and counts it reports. */
  datatype Inconsistency =
    | SuccessFailureDivergence(succeeded: seq<string>, failed: seq<string>)
    | InsertCountMismatch(insertCounts: seq<(string, Value)>)
    // `query` is the batch query index, or None for a single search
    | OverlapLow(query: Option<nat>, reference: string, other: string, common: nat, largest: nat)
    | DeleteStatusMismatch(deleteStatuses: seq<(string, bool)>)
    | MixedCountMismatch(operationCounts: seq<(string, nat)>)
    | SuccessStatusMismatch(successStatuses: seq<(string, bool)>)

  /** `TestResult`: the payload of every adapter and the elapsed time, both
      keyed by adapter name, and the inconsistencies found. */
  datatype TestResult = TestResult(
    testId: string,
    operation: string,
    inputs: Dict,
    results: Dict,
    inconsistencies: seq<Inconsistency>,
    executionTime: seq<(string, real)>)
}
