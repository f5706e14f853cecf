/**
 * `_compare_results`: the success/failure divergence check followed by the
 * per-operation comparator chosen from the dispatch table.
 */
module Comparison {
  import opened Values
  import opened Models
  import opened Outcomes
  import opened Overlap
  import opened Agreement

  datatype Comparator =
    | InsertComparator
    | SearchComparator
    | DeleteComparator
    | BatchSearchComparator
    | MixedComparator
    | GenericComparator

  /** `self.result_comparators`, in declaration order. */
  const ResultComparators: seq<(string, Comparator)> := [
    ("insert", InsertComparator),
    ("search", SearchComparator),
    ("delete", DeleteComparator),
    ("batch_insert", InsertComparator),
    ("batch_search", BatchSearchComparator),
    ("mixed_operations", MixedComparator)
  ]

  function TableLookup(table: seq<(string, Comparator)>, operation: string): (c: Comparator)
    ensures c == GenericComparator || exists i | 0 <= i < |table| :: table[i] == (operation, c)
    ensures (forall i | 0 <= i < |table| :: table[i].0 != operation) ==> c == GenericComparator
  {
    if table == [] then GenericComparator
    else if table[0].0 == operation then table[0].1
    else
      var c := TableLookup(table[1..], operation);
      assert forall i | 0 <= i < |table| - 1 :: table[1..][i] == table[i + 1];
      c
  }

  /** `self.result_comparators.get(operation, self._compare_generic_results)` */
  function ComparatorFor(operation: string): Comparator {
    TableLookup(ResultComparators, operation)
  }

  /** What the chosen comparator returns, or the exception it raises. */
  function Apply(c: Comparator, rs: Results): Result<seq<Inconsistency>> {
    match c
    case InsertComparator => InsertInconsistencies(rs)
    case SearchComparator => Ok(SearchInconsistencies(rs))
    case DeleteComparator => DeleteInconsistencies(rs)
    case BatchSearchComparator => Ok(BatchSearchInconsistencies(rs))
    case MixedComparator => Ok(MixedInconsistencies(rs))
    case GenericComparator => Ok(GenericInconsistencies(rs))
  }

  /** The "some succeeded while others failed" report. */
  function Divergence(rs: Results): seq<Inconsistency> {
    var succeeded := Successful(rs);
    var failed := Unsuccessful(rs);
    if succeeded != [] && failed != [] then [SuccessFailureDivergence(Names(succeeded), Names(failed))]
    else []
  }

  /** What `_compare_results` returns, or the exception a comparator raises. */
  function CompareSpec(operation: string, rs: Results): Result<seq<Inconsistency>> {
    var succeeded := Successful(rs);
    if |succeeded| < 2 then Ok(Divergence(rs))
    else
      var more :- Apply(ComparatorFor(operation), succeeded);
      Ok(Divergence(rs) + more)
  }

  /** `_compare_results` */
  method CompareResults(operation: string, rs: Results) returns (r: Result<seq<Inconsistency>>)
    ensures r == CompareSpec(operation, rs)
  {
    var successfulResults := Successful(rs);
    var failedResults := Unsuccessful(rs);
    var inconsistencies: seq<Inconsistency> := [];
    if successfulResults != [] && failedResults != [] {
      inconsistencies := inconsistencies + [SuccessFailureDivergence(Names(successfulResults), Names(failedResults))];
    }
    assert inconsistencies == Divergence(rs);
    if |successfulResults| < 2 {
      return Ok(inconsistencies);
    }
    var operationInconsistencies: Result<seq<Inconsistency>>;
    match ComparatorFor(operation) {
      case InsertComparator =>
        operationInconsistencies := CompareInsertResults(successfulResults);
      case SearchComparator =>
        var incs := CompareSearchResults(successfulResults);
        operationInconsistencies := Ok(incs);
      case DeleteComparator =>
        operationInconsistencies := CompareDeleteResults(successfulResults);
      case BatchSearchComparator =>
        var incs := CompareBatchSearchResults(successfulResults);
        operationInconsistencies := Ok(incs);
      case MixedComparator =>
        var incs := CompareMixedOperationResults(successfulResults);
        operationInconsistencies := Ok(incs);
      case GenericComparator =>
        var flags := SuccessFlags(successfulResults);
        operationInconsistencies := Ok(if AllTrue(flags) then [] else [SuccessStatusMismatch(flags)]);
    }
    if operationInconsistencies.Err? {
      return Err(operationInconsistencies.error);
    }
    return Ok(inconsistencies + operationInconsistencies.value);
  }

  // ---------------------------------------------------------------------
  // Properties

  /** `batch_insert` shares the insert comparator, and an operation missing
      from the table falls back to the generic one. */
  lemma DispatchInsert()
    ensures ComparatorFor("insert") == InsertComparator
  {
  }

  lemma DispatchSearch()
    ensures ComparatorFor("search") == SearchComparator
  {
  }

  lemma DispatchDelete()
    ensures ComparatorFor("delete") == DeleteComparator
  {
  }

  lemma DispatchBatchInsert()
    ensures ComparatorFor("batch_insert") == InsertComparator
  {
  }

  lemma DispatchBatchSearch()
    ensures ComparatorFor("batch_search") == BatchSearchComparator
  {
  }

  lemma DispatchMixed()
    ensures ComparatorFor("mixed_operations") == MixedComparator
  {
  }

  lemma DispatchUnknown(operation: string)
    requires operation !in ["insert", "search", "delete", "batch_insert", "batch_search", "mixed_operations"]
    ensures ComparatorFor(operation) == GenericComparator
  {
    assert forall i | 0 <= i < |ResultComparators| :: ResultComparators[i].0 != operation;
  }

  lemma DispatchTable(operation: string)
    ensures ComparatorFor("batch_insert") == ComparatorFor("insert") == InsertComparator
    ensures ComparatorFor("search") == SearchComparator
    ensures ComparatorFor("delete") == DeleteComparator
    ensures ComparatorFor("batch_search") == BatchSearchComparator
    ensures ComparatorFor("mixed_operations") == MixedComparator
    ensures operation !in ["insert", "search", "delete", "batch_insert", "batch_search", "mixed_operations"]
            ==> ComparatorFor(operation) == GenericComparator
  {
    DispatchInsert();
    DispatchSearch();
    DispatchDelete();
    DispatchBatchInsert();
    DispatchBatchSearch();
    DispatchMixed();
    if operation !in ["insert", "search", "delete", "batch_insert", "batch_search", "mixed_operations"] {
      DispatchUnknown(operation);
    }
  }

  /** No comparator produces a divergence report. */
  lemma ApplyNeverDiverges(c: Comparator, rs: Results)
    requires Apply(c, rs).Ok?
    ensures forall k | 0 <= k < |Apply(c, rs).value| :: !Apply(c, rs).value[k].SuccessFailureDivergence?
  {
    match c
    case SearchComparator =>
      if rs != [] {
        var sets := IdSets(rs);
        forall k | 0 <= k < |SearchInconsistencies(rs)|
          ensures SearchInconsistencies(rs)[k].OverlapLow?
        {
          OverlapReportsSound(None, rs[0].0, IdSet(rs[0].1.data), sets, k);
        }
      }
    case BatchSearchComparator =>
      if rs != [] && rs[0].1.data.VList? {
        BatchSearchBound(rs);
      }
    case _ =>
  }

  /** The divergence report is emitted exactly when some adapter succeeded
      and some failed; it is then the first report, and it is never
      repeated. */
  lemma DivergenceFirstIff(operation: string, rs: Results)
    requires CompareSpec(operation, rs).Ok?
    ensures var incs := CompareSpec(operation, rs).value;
      (incs != [] && incs[0].SuccessFailureDivergence?)
      <==> (exists i | 0 <= i < |rs| :: rs[i].1.success) && (exists i | 0 <= i < |rs| :: !rs[i].1.success)
    ensures var incs := CompareSpec(operation, rs).value;
      forall k | 0 < k < |incs| :: !incs[k].SuccessFailureDivergence?
  {
    SuccessfulEmptyIff(rs);
    UnsuccessfulEmptyIff(rs);
    var succeeded := Successful(rs);
    if |succeeded| >= 2 {
      ApplyNeverDiverges(ComparatorFor(operation), succeeded);
    }
  }

  /** When adapter `a` succeeded and adapter `b` failed on the same test,
      the first report is the divergence report, and it lists `a` among the
      successes and `b` among the failures. */
  lemma DivergenceNamesBoth(operation: string, rs: Results, a: nat, b: nat)
    requires a < |rs| && b < |rs|
    requires rs[a].1.success && !rs[b].1.success
    requires CompareSpec(operation, rs).Ok?
    ensures var incs := CompareSpec(operation, rs).value;
      incs != [] && incs[0].SuccessFailureDivergence?
      && rs[a].0 in incs[0].succeeded && rs[b].0 in incs[0].failed
  {
    var succeeded, failed := Successful(rs), Unsuccessful(rs);
    assert rs[a] in succeeded && rs[b] in failed;
    var i :| 0 <= i < |succeeded| && succeeded[i] == rs[a];
    var j :| 0 <= j < |failed| && failed[j] == rs[b];
    assert Names(succeeded)[i] == rs[a].0;
    assert Names(failed)[j] == rs[b].0;
    assert Divergence(rs) == [SuccessFailureDivergence(Names(succeeded), Names(failed))];
  }

  /** With fewer than two successful adapters the divergence report is the
      only one possible. */
  lemma FewSuccessesOnlyDivergence(operation: string, rs: Results)
    requires |Successful(rs)| < 2
    ensures CompareSpec(operation, rs) == Ok(Divergence(rs))
    ensures |CompareSpec(operation, rs).value| <= 1
  {
  }

  /** The generic comparator only sees successful results, so it never adds
      a report of its own. */
  lemma GenericAddsNothing(operation: string, rs: Results)
    requires ComparatorFor(operation) == GenericComparator
    ensures CompareSpec(operation, rs) == Ok(Divergence(rs))
  {
    var succeeded := Successful(rs);
    if |succeeded| >= 2 {
      GenericReportIff(succeeded);
      assert GenericInconsistencies(succeeded) == [];
      assert Divergence(rs) + [] == Divergence(rs);
    }
  }

  /** Only the insert and delete comparators can raise. */
  lemma OnlyInsertAndDeleteRaise(operation: string, rs: Results)
    requires CompareSpec(operation, rs).Err?
    ensures ComparatorFor(operation) in {InsertComparator, DeleteComparator}
  {
  }
}
