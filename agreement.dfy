/**
 * The comparators that ask every adapter for one figure and report when the
 * figures disagree: insert counts, delete statuses, mixed-operation counts
 * and the generic success flag.
 */
module Agreement {
  import opened Values
  import opened Models
  import opened Outcomes

  // ---------------------------------------------------------------------
  // Insert

  /** The count one adapter's insert payload reports: `insert_count` when
      present, else the length of `insert_ids` (default `[]`) when `status`
      is present, else no entry; a payload that is not a dict counts 1.
      `len` raises TypeError on an `insert_ids` without a length. */
  function InsertCount(data: Value): Result<Option<Value>> {
    match data
    case VDict(d) =>
      if "insert_count" in Keys(d) then Ok(Some(Lookup(d, "insert_count").value))
      else if "status" in Keys(d) then
        var n :- Len(DictGet(d, "insert_ids", VList([])));
        Ok(Some(VInt(n)))
      else Ok(None)
    case _ => Ok(Some(VInt(1)))
  }

  /** `success_counts` */
  function InsertCounts(rs: Results): Result<Dict> {
    if rs == [] then Ok([])
    else
      var before :- InsertCounts(rs[..|rs| - 1]);
      var last := rs[|rs| - 1];
      var count :- InsertCount(last.1.data);
      Ok(before + (if count.Some? then [(last.0, count.value)] else []))
  }

  /** What `_compare_insert_results` returns, or the exception it raises:
      `set()` of an unhashable count raises TypeError. */
  function InsertInconsistencies(rs: Results): Result<seq<Inconsistency>> {
    var counts :- InsertCounts(rs);
    var vs := DictValues(counts);
    if exists i | 0 <= i < |vs| :: !Hashable(vs[i]) then Err(TypeError("unhashable type"))
    else if MoreThanOneValue(vs) then Ok([InsertCountMismatch(counts)])
    else Ok([])
  }

  /** `_compare_insert_results` */
  method CompareInsertResults(rs: Results) returns (r: Result<seq<Inconsistency>>)
    ensures r == InsertInconsistencies(rs)
  {
    var successCounts: Dict := [];
    var i := 0;
    while i < |rs|
      invariant 0 <= i <= |rs|
      invariant InsertCounts(rs[..i]) == Ok(successCounts)
    {
      assert rs[..i + 1][..i] == rs[..i];
      var (name, result) := rs[i];
      match result.data {
        case VDict(d) =>
          if "insert_count" in Keys(d) {
            successCounts := successCounts + [(name, Lookup(d, "insert_count").value)];
          } else if "status" in Keys(d) {
            var n := Len(DictGet(d, "insert_ids", VList([])));
            if n.Err? {
              InsertCountsErrPersists(rs, i + 1);
              return Err(n.error);
            }
            successCounts := successCounts + [(name, VInt(n.value))];
          } else {
            assert successCounts + [] == successCounts;
          }
        case _ =>
          successCounts := successCounts + [(name, VInt(1))];
      }
      i := i + 1;
    }
    assert rs[..i] == rs;
    var vs := DictValues(successCounts);
    if exists j | 0 <= j < |vs| :: !Hashable(vs[j]) {
      return Err(TypeError("unhashable type"));
    }
    if MoreThanOneValue(vs) {
      return Ok([InsertCountMismatch(successCounts)]);
    }
    return Ok([]);
  }

  lemma {:induction false} InsertCountsErrPersists(rs: Results, k: nat)
    requires k <= |rs| && InsertCounts(rs[..k]).Err?
    ensures InsertCounts(rs) == InsertCounts(rs[..k])
  {
    if k < |rs| {
      assert rs[..|rs| - 1][..k] == rs[..k];
      InsertCountsErrPersists(rs[..|rs| - 1], k);
    } else {
      assert rs[..k] == rs;
    }
  }

  /** An entry in `success_counts` is the count some adapter of the map
      reports, and there are no more entries than adapters. */
  lemma {:induction false} InsertCountsEntries(rs: Results)
    requires InsertCounts(rs).Ok?
    ensures forall k | 0 <= k < |InsertCounts(rs).value| ::
      exists i | 0 <= i < |rs| :: rs[i].0 == InsertCounts(rs).value[k].0
                                && InsertCount(rs[i].1.data) == Ok(Some(InsertCounts(rs).value[k].1))
    ensures |InsertCounts(rs).value| <= |rs|
  {
    if rs != [] {
      var init := rs[..|rs| - 1];
      InsertCountsEntries(init);
      var counts := InsertCounts(rs).value;
      var before := InsertCounts(init).value;
      forall k | 0 <= k < |counts|
        ensures exists i | 0 <= i < |rs| :: rs[i].0 == counts[k].0
                                          && InsertCount(rs[i].1.data) == Ok(Some(counts[k].1))
      {
        if k < |before| {
          var i :| 0 <= i < |init| && init[i].0 == before[k].0
                   && InsertCount(init[i].1.data) == Ok(Some(before[k].1));
          assert rs[i] == init[i];
        } else {
          assert rs[|rs| - 1].0 == counts[k].0;
        }
      }
    }
  }

  /** A name no adapter of the map has never appears in `success_counts`. */
  lemma InsertCountsOtherName(rs: Results, name: string)
    requires InsertCounts(rs).Ok? && forall i | 0 <= i < |rs| :: rs[i].0 != name
    ensures name !in Keys(InsertCounts(rs).value)
  {
    InsertCountsEntries(rs);
  }

  /** Appending at most one entry under a key the dict does not hold yet
      keeps the keys unique and every other key's value. */
  lemma AppendNewKey(before: Dict, extra: Dict, name: string, k: string)
    requires name !in Keys(before) && (extra == [] || extra == [(name, extra[0].1)])
    ensures k != name ==> Lookup(before + extra, k) == Lookup(before, k)
    ensures Lookup(before + extra, name) == Lookup(extra, name)
    ensures UniqueKeys(before) ==> UniqueKeys(before + extra)
  {
    LookupConcat(before, extra, k);
    LookupConcat(before, extra, name);
  }

  /** One step of `InsertCountsExact`: the last adapter's count is appended
      under a name the earlier entries do not use. */
  lemma InsertCountsExactStep(init: Results, last: (string, DatabaseResult), before: Dict, extra: Dict)
    requires last.0 !in Keys(before) && InsertCount(last.1.data).Ok?
    requires forall i | 0 <= i < |init| :: init[i].0 != last.0
    requires forall i | 0 <= i < |init| :: InsertCount(init[i].1.data) == Ok(Lookup(before, init[i].0))
    requires var count := InsertCount(last.1.data).value;
             extra == if count.Some? then [(last.0, count.value)] else []
    requires UniqueKeys(before)
    ensures UniqueKeys(before + extra)
    ensures forall i | 0 <= i < |init + [last]| ::
      InsertCount((init + [last])[i].1.data) == Ok(Lookup(before + extra, (init + [last])[i].0))
  {
    var rs := init + [last];
    assert Lookup(extra, last.0) == InsertCount(last.1.data).value;
    AppendNewKey(before, extra, last.0, last.0);
    forall i | 0 <= i < |rs| ensures InsertCount(rs[i].1.data) == Ok(Lookup(before + extra, rs[i].0)) {
      AppendNewKey(before, extra, last.0, rs[i].0);
      if i < |init| {
        assert rs[i] == init[i];
      }
    }
  }

  /** With distinct adapter names, `success_counts` holds each name at most
      once, and an adapter's entry is exactly the count its payload reports,
      or absent when it reports none. */
  lemma {:induction false} InsertCountsExact(rs: Results)
    requires UniqueNames(rs) && InsertCounts(rs).Ok?
    ensures UniqueKeys(InsertCounts(rs).value)
    ensures forall i | 0 <= i < |rs| :: InsertCount(rs[i].1.data) == Ok(Lookup(InsertCounts(rs).value, rs[i].0))
  {
    if rs != [] {
      var init, last := rs[..|rs| - 1], rs[|rs| - 1];
      assert forall i, j | 0 <= i < j < |init| :: init[i].0 == rs[i].0 && init[j].0 == rs[j].0;
      InsertCountsExact(init);
      var before := InsertCounts(init).value;
      var count := InsertCount(last.1.data).value;
      var extra := if count.Some? then [(last.0, count.value)] else [];
      var counts := before + extra;
      assert InsertCounts(rs) == Ok(counts);
      assert forall i | 0 <= i < |init| :: init[i].0 != last.0;
      InsertCountsOtherName(init, last.0);
      assert rs == init + [last];
      InsertCountsExactStep(init, last, before, extra);
    }
  }

  /** A dict payload with neither `insert_count` nor `status` has no entry
      in `success_counts`; a payload that is not a dict has the entry 1. */
  lemma InsertCountsMixedPayloads(rs: Results)
    requires UniqueNames(rs) && InsertCounts(rs).Ok?
    ensures forall i | 0 <= i < |rs| && !rs[i].1.data.VDict? ::
      Lookup(InsertCounts(rs).value, rs[i].0) == Some(VInt(1))
    ensures forall i | 0 <= i < |rs| && rs[i].1.data.VDict?
                       && "insert_count" !in Keys(rs[i].1.data.entries) && "status" !in Keys(rs[i].1.data.entries) ::
      Lookup(InsertCounts(rs).value, rs[i].0) == None
  {
    InsertCountsExact(rs);
  }

  /** Adapters all reporting the same integer `insert_count` are never
      reported. */
  lemma {:induction false} AgreeingInsertCounts(rs: Results, n: int)
    requires forall i | 0 <= i < |rs| :: rs[i].1.data.VDict?
               && "insert_count" in Keys(rs[i].1.data.entries)
               && Lookup(rs[i].1.data.entries, "insert_count").value == VInt(n)
    ensures InsertCounts(rs).Ok?
    ensures forall k | 0 <= k < |InsertCounts(rs).value| :: InsertCounts(rs).value[k].1 == VInt(n)
    ensures InsertInconsistencies(rs) == Ok([])
  {
    if rs != [] {
      AgreeingInsertCounts(rs[..|rs| - 1], n);
    }
  }

  /** A payload that is not a dict counts 1, so adapters returning no dicts
      always agree. */
  lemma {:induction false} NonDictPayloadsAgree(rs: Results)
    requires forall i | 0 <= i < |rs| :: !rs[i].1.data.VDict?
    ensures InsertCounts(rs).Ok? && |InsertCounts(rs).value| == |rs|
    ensures forall k | 0 <= k < |rs| :: InsertCounts(rs).value[k] == (rs[k].0, VInt(1))
    ensures InsertInconsistencies(rs) == Ok([])
  {
    if rs != [] {
      NonDictPayloadsAgree(rs[..|rs| - 1]);
      assert forall k | 0 <= k < |rs| - 1 :: rs[..|rs| - 1][k] == rs[k];
    }
  }

  /** The comparator raises only when some dict payload holds an unhashable
      `insert_count` or, under `status`, an `insert_ids` without a length. */
  lemma {:induction false} InsertCountsFailure(rs: Results)
    requires InsertCounts(rs).Err?
    ensures exists i | 0 <= i < |rs| :: rs[i].1.data.VDict? && InsertCount(rs[i].1.data).Err?
  {
    var init := rs[..|rs| - 1];
    if InsertCounts(init).Err? {
      InsertCountsFailure(init);
      var i :| 0 <= i < |init| && init[i].1.data.VDict? && InsertCount(init[i].1.data).Err?;
      assert rs[i] == init[i];
    }
  }

  /** The insert comparator reports at most once, and exactly when two
      counts differ. */
  lemma InsertReportIff(rs: Results)
    requires InsertInconsistencies(rs).Ok?
    ensures |InsertInconsistencies(rs).value| <= 1
    ensures |InsertInconsistencies(rs).value| == 1
      ==> exists i, j | 0 <= i < j < |InsertCounts(rs).value| ::
             !PyEq(InsertCounts(rs).value[i].1, InsertCounts(rs).value[j].1)
    ensures (exists i, j | 0 <= i < j < |InsertCounts(rs).value| ::
             !PyEq(InsertCounts(rs).value[i].1, InsertCounts(rs).value[j].1))
      ==> |InsertInconsistencies(rs).value| == 1
  {
    var counts := InsertCounts(rs).value;
    var vs := DictValues(counts);
    if MoreThanOneValue(vs) {
      var i, j :| 0 <= i < j < |vs| && !PyEq(vs[i], vs[j]);
      assert !PyEq(counts[i].1, counts[j].1);
    }
    if exists i, j | 0 <= i < j < |counts| :: !PyEq(counts[i].1, counts[j].1) {
      var i, j :| 0 <= i < j < |counts| && !PyEq(counts[i].1, counts[j].1);
      assert !PyEq(vs[i], vs[j]);
      assert MoreThanOneValue(vs);
    }
    assert InsertInconsistencies(rs) == if MoreThanOneValue(vs) then Ok([InsertCountMismatch(counts)]) else Ok([]);
  }

  // ---------------------------------------------------------------------
  // Delete

  /** The statuses that count as a successful delete. */
  const SuccessStatuses: seq<string> := ["success", "ok", "completed"]

  /** `result.data.get('status', '').lower() in [...]` for a dict payload;
      `.lower()` of a status that is not a str raises AttributeError. A
      payload that is not a dict counts as success. */
  function DeleteSucceeded(data: Value): Result<bool> {
    match data
    case VDict(d) =>
      var status := DictGet(d, "status", VStr(""));
      if status.VStr? then Ok(Lower(status.s) in SuccessStatuses)
      else Err(AttributeError("lower"))
    case _ => Ok(true)
  }

  /** `success_status` */
  function DeleteStatuses(rs: Results): Result<seq<(string, bool)>> {
    if rs == [] then Ok([])
    else
      var before :- DeleteStatuses(rs[..|rs| - 1]);
      var last := rs[|rs| - 1];
      var ok :- DeleteSucceeded(last.1.data);
      Ok(before + [(last.0, ok)])
  }

  predicate AllTrue(statuses: seq<(string, bool)>) {
    forall i | 0 <= i < |statuses| :: statuses[i].1
  }

  /** What `_compare_delete_results` returns, or the exception it raises. */
  function DeleteInconsistencies(rs: Results): Result<seq<Inconsistency>> {
    var statuses :- DeleteStatuses(rs);
    if AllTrue(statuses) then Ok([]) else Ok([DeleteStatusMismatch(statuses)])
  }

  /** `_compare_delete_results` */
  method CompareDeleteResults(rs: Results) returns (r: Result<seq<Inconsistency>>)
    ensures r == DeleteInconsistencies(rs)
  {
    var successStatus: seq<(string, bool)> := [];
    var i := 0;
    while i < |rs|
      invariant 0 <= i <= |rs|
      invariant DeleteStatuses(rs[..i]) == Ok(successStatus)
    {
      assert rs[..i + 1][..i] == rs[..i];
      var (name, result) := rs[i];
      var success := true;
      if result.data.VDict? {
        var status := DictGet(result.data.entries, "status", VStr(""));
        if !status.VStr? {
          DeleteStatusesErrPersists(rs, i + 1);
          return Err(AttributeError("lower"));
        }
        success := Lower(status.s) in SuccessStatuses;
      }
      successStatus := successStatus + [(name, success)];
      i := i + 1;
    }
    assert rs[..i] == rs;
    if AllTrue(successStatus) {
      return Ok([]);
    }
    return Ok([DeleteStatusMismatch(successStatus)]);
  }

  lemma {:induction false} DeleteStatusesErrPersists(rs: Results, k: nat)
    requires k <= |rs| && DeleteStatuses(rs[..k]).Err?
    ensures DeleteStatuses(rs) == DeleteStatuses(rs[..k])
  {
    if k < |rs| {
      assert rs[..|rs| - 1][..k] == rs[..k];
      DeleteStatusesErrPersists(rs[..|rs| - 1], k);
    } else {
      assert rs[..k] == rs;
    }
  }

  /** One status per adapter, in adapter order. */
  lemma {:induction false} DeleteStatusesAligned(rs: Results)
    requires DeleteStatuses(rs).Ok?
    ensures |DeleteStatuses(rs).value| == |rs|
    ensures forall i | 0 <= i < |rs| ::
      DeleteSucceeded(rs[i].1.data).Ok?
      && DeleteStatuses(rs).value[i] == (rs[i].0, DeleteSucceeded(rs[i].1.data).value)
  {
    if rs != [] {
      DeleteStatusesAligned(rs[..|rs| - 1]);
      assert forall i | 0 <= i < |rs| - 1 :: rs[..|rs| - 1][i] == rs[i];
    }
  }

  /** The comparator raises exactly when some dict payload has a status that
      is not a str. */
  lemma {:induction false} DeleteStatusesFailIff(rs: Results)
    ensures DeleteStatuses(rs).Err? <==>
      exists i | 0 <= i < |rs| :: DeleteSucceeded(rs[i].1.data).Err?
  {
    if rs != [] {
      var init := rs[..|rs| - 1];
      DeleteStatusesFailIff(init);
      assert forall i | 0 <= i < |init| :: init[i] == rs[i];
    }
  }

  /** The delete comparator reports once exactly when some adapter's delete
      did not succeed, including when none did. */
  lemma DeleteReportIff(rs: Results)
    requires DeleteInconsistencies(rs).Ok?
    ensures |DeleteInconsistencies(rs).value| <= 1
    ensures |DeleteInconsistencies(rs).value| == 1
      <==> exists i | 0 <= i < |rs| :: DeleteSucceeded(rs[i].1.data) == Ok(false)
  {
    DeleteStatusesAligned(rs);
    var statuses := DeleteStatuses(rs).value;
    if !AllTrue(statuses) {
      var i :| 0 <= i < |statuses| && !statuses[i].1;
      assert DeleteSucceeded(rs[i].1.data) == Ok(false);
    }
  }

  /** A dict payload without `status` is a failed delete. */
  lemma MissingStatusFails(d: Dict)
    requires "status" !in Keys(d)
    ensures DeleteSucceeded(VDict(d)) == Ok(false)
  {
  }

  /** The status test ignores case. */
  lemma UpperCaseStatusSucceeds()
    ensures DeleteSucceeded(VDict([("status", VStr("SUCCESS"))])) == Ok(true)
  {
    assert Lower("SUCCESS") == "success";
  }

  /** The Kelvin sign lowers to `k`, so "O" followed by it reads as "ok". */
  lemma KelvinStatusSucceeds()
    ensures DeleteSucceeded(VDict([("status", VStr("O\U{212A}"))])) == Ok(true)
  {
    assert Lower("O\U{212A}") == "ok";
  }

  // ---------------------------------------------------------------------
  // Mixed operations

  /** `len(result.data)` for a list payload, else 0. */
  function OperationCount(data: Value): nat {
    if data.VList? then |data.items| else 0
  }

  function OperationCounts(rs: Results): (r: seq<(string, nat)>)
    ensures |r| == |rs| && forall i | 0 <= i < |rs| :: r[i] == (rs[i].0, OperationCount(rs[i].1.data))
  {
    seq(|rs|, i requires 0 <= i < |rs| => (rs[i].0, OperationCount(rs[i].1.data)))
  }

  /** `len(set(operation_counts.values())) > 1` */
  predicate CountsDiffer(counts: seq<(string, nat)>) {
    exists i, j | 0 <= i < j < |counts| :: counts[i].1 != counts[j].1
  }

  /** What `_compare_mixed_operation_results` returns. */
  function MixedInconsistencies(rs: Results): seq<Inconsistency> {
    var counts := OperationCounts(rs);
    if CountsDiffer(counts) then [MixedCountMismatch(counts)] else []
  }

  /** `_compare_mixed_operation_results` */
  method CompareMixedOperationResults(rs: Results) returns (incs: seq<Inconsistency>)
    ensures incs == MixedInconsistencies(rs)
  {
    var operationCounts: seq<(string, nat)> := [];
    var i := 0;
    while i < |rs|
      invariant 0 <= i <= |rs|
      invariant operationCounts == OperationCounts(rs[..i])
    {
      var data := rs[i].1.data;
      var count := if data.VList? then |data.items| else 0;
      operationCounts := operationCounts + [(rs[i].0, count)];
      i := i + 1;
    }
    assert rs[..i] == rs;
    incs := if CountsDiffer(operationCounts) then [MixedCountMismatch(operationCounts)] else [];
  }

  /** Counts that all equal the first one never differ. */
  lemma CountsAgreeWithFirst(counts: seq<(string, nat)>)
    requires forall i | 0 <= i < |counts| :: counts[i].1 == counts[0].1
    ensures !CountsDiffer(counts)
  {
  }

  /** The mixed comparator reports once exactly when two adapters ran a
      different number of sub-operations; a non-list payload counts 0. */
  lemma MixedReportIff(rs: Results)
    ensures |MixedInconsistencies(rs)| <= 1
    ensures |MixedInconsistencies(rs)| == 1
      <==> exists i, j | 0 <= i < j < |rs| :: OperationCount(rs[i].1.data) != OperationCount(rs[j].1.data)
  {
    var counts := OperationCounts(rs);
    if CountsDiffer(counts) {
      var i, j :| 0 <= i < j < |counts| && counts[i].1 != counts[j].1;
      assert OperationCount(rs[i].1.data) != OperationCount(rs[j].1.data);
    }
  }

  /** Adapters returning lists of the same length always agree. */
  lemma SameLengthListsAgree(rs: Results, n: nat)
    requires forall i | 0 <= i < |rs| :: rs[i].1.data.VList? && |rs[i].1.data.items| == n
    ensures MixedInconsistencies(rs) == []
  {
  }

  // ---------------------------------------------------------------------
  // Generic

  function SuccessFlags(rs: Results): (r: seq<(string, bool)>)
    ensures |r| == |rs| && forall i | 0 <= i < |rs| :: r[i] == (rs[i].0, rs[i].1.success)
  {
    seq(|rs|, i requires 0 <= i < |rs| => (rs[i].0, rs[i].1.success))
  }

  /** What `_compare_generic_results` returns. */
  function GenericInconsistencies(rs: Results): seq<Inconsistency> {
    var flags := SuccessFlags(rs);
    if AllTrue(flags) then [] else [SuccessStatusMismatch(flags)]
  }

  /** The generic comparator reports once exactly when some adapter failed,
      so it stays silent on a map of successful results. */
  lemma GenericReportIff(rs: Results)
    ensures |GenericInconsistencies(rs)| <= 1
    ensures GenericInconsistencies(rs) != [] <==> exists i | 0 <= i < |rs| :: !rs[i].1.success
  {
    var flags := SuccessFlags(rs);
    if !AllTrue(flags) {
      var i :| 0 <= i < |flags| && !flags[i].1;
      assert !rs[i].1.success;
    }
  }
}
