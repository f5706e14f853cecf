/**
 * The search and batch-search comparators: every adapter's id set is
 * compared with the first adapter's, and a pair is reported when the sets
 * overlap by less than half of the larger one.
 */
module Overlap {
  import opened Values
  import opened Models
  import opened Extraction
  import opened Outcomes

  function Max(a: nat, b: nat): nat {
    if a < b then b else a
  }

  /** `set(self._extract_search_result_ids(data))`, or `set()` when the
      extraction raised. */
  function IdSet(data: Value): (r: set<string>)
    ensures ExtractIds(data).Err? ==> r == {}
    ensures ExtractIds(data).Ok? ==> forall s :: s in r <==> s in ExtractIds(data).value
  {
    match ExtractIds(data)
    case Ok(ids) => set s | s in ids
    case Err(_) => {}
  }

  /** `overlap_percent < 50 and len(reference_ids) > 0 and len(ids) > 0`,
      where `overlap_percent = len(ref & ids) / max_len * 100`; with both
      sets non-empty the percentage is below 50 iff twice the intersection
      is below the larger size. */
  predicate LowOverlap(refIds: set<string>, ids: set<string>) {
    |refIds| > 0 && |ids| > 0 && 2 * |refIds * ids| < Max(|refIds|, |ids|)
  }

  /** The comparison loop shared by both comparators: every entry whose name
      is not the reference's is checked against the reference's set. */
  function OverlapReports(query: Option<nat>, reference: string, refIds: set<string>,
                          sets: seq<(string, set<string>)>): seq<Inconsistency>
  {
    if sets == [] then []
    else
      var last := sets[|sets| - 1];
      OverlapReports(query, reference, refIds, sets[..|sets| - 1])
      + (if last.0 != reference && LowOverlap(refIds, last.1)
         then [OverlapLow(query, reference, last.0, |refIds * last.1|, Max(|refIds|, |last.1|))]
         else [])
  }

  /** `search_results`: each adapter's id set, in adapter order. */
  function IdSets(rs: Results): (r: seq<(string, set<string>)>)
    ensures |r| == |rs|
    ensures forall i | 0 <= i < |rs| :: r[i] == (rs[i].0, IdSet(rs[i].1.data))
  {
    seq(|rs|, i requires 0 <= i < |rs| => (rs[i].0, IdSet(rs[i].1.data)))
  }

  /** What `_compare_search_results` returns. */
  function SearchInconsistencies(rs: Results): seq<Inconsistency> {
    if rs == [] then []
    else OverlapReports(None, rs[0].0, IdSet(rs[0].1.data), IdSets(rs))
  }

  /** The id set of one adapter at one query index: empty unless its payload
      is a list long enough to hold that index. */
  function QueryIdSet(data: Value, q: nat): set<string> {
    if data.VList? && q < |data.items| then IdSet(data.items[q]) else {}
  }

  /** `query_results` at index `q`. */
  function QueryIdSets(rs: Results, q: nat): (r: seq<(string, set<string>)>)
    ensures |r| == |rs|
    ensures forall i | 0 <= i < |rs| :: r[i] == (rs[i].0, QueryIdSet(rs[i].1.data, q))
  {
    seq(|rs|, i requires 0 <= i < |rs| => (rs[i].0, QueryIdSet(rs[i].1.data, q)))
  }

  /** The reports for query index `q`. */
  function QueryReports(rs: Results, q: nat): seq<Inconsistency> {
    var sets := QueryIdSets(rs, q);
    if |sets| > 1 then OverlapReports(Some(q), rs[0].0, sets[0].1, sets) else []
  }

  function QueryReportsOf(rs: Results): nat -> seq<Inconsistency> {
    (q: nat) => QueryReports(rs, q)
  }

  /** The per-query report lists `f(0) .. f(n-1)`, one after the other. */
  function Concat(f: nat -> seq<Inconsistency>, n: nat): seq<Inconsistency> {
    if n == 0 then [] else Concat(f, n - 1) + f(n - 1)
  }

  /** The reports for query indices `0 .. n-1`. */
  function BatchReports(rs: Results, n: nat): seq<Inconsistency> {
    Concat(QueryReportsOf(rs), n)
  }

  /** What `_compare_batch_search_results` returns. */
  function BatchSearchInconsistencies(rs: Results): seq<Inconsistency> {
    if rs == [] || !rs[0].1.data.VList? then []
    else BatchReports(rs, |rs[0].1.data.items|)
  }

  // ---------------------------------------------------------------------
  // Procedures

  /** The loop filling `search_results`. */
  method CollectIdSets(rs: Results) returns (sets: seq<(string, set<string>)>)
    ensures sets == IdSets(rs)
  {
    sets := [];
    var i := 0;
    while i < |rs|
      invariant 0 <= i <= |rs|
      invariant sets == IdSets(rs[..i])
    {
      var ids := ExtractResultIds(rs[i].1.data);
      var s: set<string> := if ids.Ok? then (set x | x in ids.value) else {};
      sets := sets + [(rs[i].0, s)];
      i := i + 1;
    }
    assert rs[..i] == rs;
  }

  /** The loop filling `query_results` for one query index. */
  method CollectQueryIdSets(rs: Results, q: nat) returns (sets: seq<(string, set<string>)>)
    ensures sets == QueryIdSets(rs, q)
  {
    sets := [];
    var i := 0;
    while i < |rs|
      invariant 0 <= i <= |rs|
      invariant sets == QueryIdSets(rs[..i], q)
    {
      var data := rs[i].1.data;
      var s: set<string> := {};
      if data.VList? && q < |data.items| {
        var ids := ExtractResultIds(data.items[q]);
        s := if ids.Ok? then (set x | x in ids.value) else {};
      }
      sets := sets + [(rs[i].0, s)];
      i := i + 1;
    }
    assert rs[..i] == rs;
  }

  /** The loop comparing every adapter with the reference. */
  method CompareWithReference(query: Option<nat>, reference: string, refIds: set<string>,
                              sets: seq<(string, set<string>)>) returns (incs: seq<Inconsistency>)
    ensures incs == OverlapReports(query, reference, refIds, sets)
  {
    incs := [];
    var i := 0;
    while i < |sets|
      invariant 0 <= i <= |sets|
      invariant incs == OverlapReports(query, reference, refIds, sets[..i])
    {
      assert sets[..i + 1][..i] == sets[..i];
      var (name, ids) := sets[i];
      if name != reference {
        var intersection := refIds * ids;
        var maxLen := Max(|refIds|, |ids|);
        if 2 * |intersection| < maxLen && |refIds| > 0 && |ids| > 0 {
          incs := incs + [OverlapLow(query, reference, name, |intersection|, maxLen)];
        }
      }
      i := i + 1;
    }
    assert sets[..i] == sets;
  }

  /** `_compare_search_results` */
  method CompareSearchResults(rs: Results) returns (incs: seq<Inconsistency>)
    ensures incs == SearchInconsistencies(rs)
  {
    var searchResults := CollectIdSets(rs);
    incs := [];
    if searchResults != [] {
      var (reference, refIds) := searchResults[0];
      incs := CompareWithReference(None, reference, refIds, searchResults);
    }
  }

  /** `_compare_batch_search_results` */
  method CompareBatchSearchResults(rs: Results) returns (incs: seq<Inconsistency>)
    ensures incs == BatchSearchInconsistencies(rs)
  {
    incs := [];
    if rs == [] {
      return;
    }
    var reference := rs[0].0;
    var referenceData := rs[0].1.data;
    if !referenceData.VList? {
      return;
    }
    var q := 0;
    while q < |referenceData.items|
      invariant 0 <= q <= |referenceData.items|
      invariant incs == BatchReports(rs, q)
    {
      var more := CompareQuery(rs, q);
      assert BatchReports(rs, q + 1) == BatchReports(rs, q) + more;
      incs := incs + more;
      q := q + 1;
    }
  }

  /** One iteration of the batch loop: the reports for query index `q`. */
  method CompareQuery(rs: Results, q: nat) returns (incs: seq<Inconsistency>)
    requires rs != []
    ensures incs == QueryReports(rs, q)
  {
    var queryResults := CollectQueryIdSets(rs, q);
    incs := [];
    if |queryResults| > 1 {
      incs := CompareWithReference(Some(q), rs[0].0, queryResults[0].1, queryResults);
    }
  }

  // ---------------------------------------------------------------------
  // Properties

  /** Every report names the reference, a different adapter from the list,
      and an overlap below half of the larger set. */
  lemma {:induction false} OverlapReportsSound(query: Option<nat>, reference: string, refIds: set<string>,
                                               sets: seq<(string, set<string>)>, k: nat)
    requires k < |OverlapReports(query, reference, refIds, sets)|
    ensures var inc := OverlapReports(query, reference, refIds, sets)[k];
      inc.OverlapLow? && inc.query == query && inc.reference == reference
      && inc.other != reference
      && (exists i | 0 <= i < |sets| :: sets[i].0 == inc.other && LowOverlap(refIds, sets[i].1)
                                         && inc.common == |refIds * sets[i].1|)
      && 0 < inc.largest && 2 * inc.common < inc.largest
  {
    var init := sets[..|sets| - 1];
    var prefix := OverlapReports(query, reference, refIds, init);
    if k < |prefix| {
      OverlapReportsSound(query, reference, refIds, init, k);
      var inc := prefix[k];
      var i :| 0 <= i < |init| && init[i].0 == inc.other && LowOverlap(refIds, init[i].1)
                                && inc.common == |refIds * init[i].1|;
      assert sets[i] == init[i];
    } else {
      assert sets[|sets| - 1].0 != reference;
    }
  }

  /** The reference is never reported against itself, so with the reference
      first there is at most one report per other adapter. */
  lemma {:induction false} OverlapReportsBound(query: Option<nat>, reference: string, refIds: set<string>,
                                               sets: seq<(string, set<string>)>)
    requires sets != [] && sets[0].0 == reference
    ensures |OverlapReports(query, reference, refIds, sets)| <= |sets| - 1
  {
    if |sets| > 1 {
      OverlapReportsBound(query, reference, refIds, sets[..|sets| - 1]);
    }
  }

  /** An adapter whose set equals the reference's is never reported. */
  lemma {:induction false} SameSetsNeverReported(query: Option<nat>, reference: string, refIds: set<string>,
                                                 sets: seq<(string, set<string>)>)
    requires forall i | 0 <= i < |sets| :: sets[i].1 == refIds
    ensures OverlapReports(query, reference, refIds, sets) == []
  {
    if sets != [] {
      SameSetsNeverReported(query, reference, refIds, sets[..|sets| - 1]);
      assert refIds * refIds == refIds;
    }
  }

  /** `reports` holds a report naming `name`. */
  predicate Reports(reports: seq<Inconsistency>, name: string) {
    exists k | 0 <= k < |reports| :: reports[k].OverlapLow? && reports[k].other == name
  }

  /** A name is reported in `a + b` exactly when it is reported in one of them. */
  lemma ReportsAppend(a: seq<Inconsistency>, b: seq<Inconsistency>, name: string)
    ensures Reports(a + b, name) <==> Reports(a, name) || Reports(b, name)
  {
    if Reports(a + b, name) {
      var k :| 0 <= k < |a + b| && (a + b)[k].OverlapLow? && (a + b)[k].other == name;
      if k < |a| {
        assert a[k] == (a + b)[k];
      } else {
        assert b[k - |a|] == (a + b)[k];
      }
    }
    if Reports(a, name) {
      var k :| 0 <= k < |a| && a[k].OverlapLow? && a[k].other == name;
      assert (a + b)[k] == a[k];
    }
    if Reports(b, name) {
      var k :| 0 <= k < |b| && b[k].OverlapLow? && b[k].other == name;
      assert (a + b)[|a| + k] == b[k];
    }
  }

  /** An adapter other than the reference whose overlap is low is reported. */
  lemma {:induction false} ReportedWhenLow(query: Option<nat>, reference: string, refIds: set<string>,
                                           sets: seq<(string, set<string>)>, i: nat)
    requires i < |sets| && sets[i].0 != reference && LowOverlap(refIds, sets[i].1)
    ensures Reports(OverlapReports(query, reference, refIds, sets), sets[i].0)
  {
    var init := sets[..|sets| - 1];
    var last := sets[|sets| - 1];
    var tail := if last.0 != reference && LowOverlap(refIds, last.1)
                then [OverlapLow(query, reference, last.0, |refIds * last.1|, Max(|refIds|, |last.1|))]
                else [];
    ReportsAppend(OverlapReports(query, reference, refIds, init), tail, sets[i].0);
    if i < |sets| - 1 {
      assert init[i] == sets[i];
      ReportedWhenLow(query, reference, refIds, init, i);
    } else {
      assert tail[0].other == sets[i].0;
    }
  }

  /** A name none of whose sets overlaps the reference's lowly is never reported. */
  lemma {:induction false} NotReportedUnlessLow(query: Option<nat>, reference: string, refIds: set<string>,
                                                sets: seq<(string, set<string>)>, name: string)
    requires forall j | 0 <= j < |sets| && sets[j].0 == name :: !LowOverlap(refIds, sets[j].1)
    ensures !Reports(OverlapReports(query, reference, refIds, sets), name)
  {
    if sets != [] {
      var init := sets[..|sets| - 1];
      var last := sets[|sets| - 1];
      var tail := if last.0 != reference && LowOverlap(refIds, last.1)
                  then [OverlapLow(query, reference, last.0, |refIds * last.1|, Max(|refIds|, |last.1|))]
                  else [];
      assert forall j | 0 <= j < |init| :: init[j] == sets[j];
      NotReportedUnlessLow(query, reference, refIds, init, name);
      ReportsAppend(OverlapReports(query, reference, refIds, init), tail, name);
    }
  }

  /** With distinct names, an adapter other than the reference is reported
      exactly when its overlap with the reference is low. */
  lemma OverlapReportedIff(query: Option<nat>, reference: string, refIds: set<string>,
                           sets: seq<(string, set<string>)>, i: nat)
    requires i < |sets| && sets[i].0 != reference
    requires forall a, b | 0 <= a < b < |sets| :: sets[a].0 != sets[b].0
    ensures Reports(OverlapReports(query, reference, refIds, sets), sets[i].0) <==> LowOverlap(refIds, sets[i].1)
  {
    if LowOverlap(refIds, sets[i].1) {
      ReportedWhenLow(query, reference, refIds, sets, i);
    } else {
      forall j | 0 <= j < |sets| && sets[j].0 == sets[i].0
        ensures !LowOverlap(refIds, sets[j].1)
      {
        assert j == i;
      }
      NotReportedUnlessLow(query, reference, refIds, sets, sets[i].0);
    }
  }

  /** The search comparator: at most one report per adapter after the first. */
  lemma SearchReportBound(rs: Results)
    ensures |SearchInconsistencies(rs)| <= if rs == [] then 0 else |rs| - 1
  {
    if rs != [] {
      OverlapReportsBound(None, rs[0].0, IdSet(rs[0].1.data), IdSets(rs));
    }
  }

  /** The search comparator reports an adapter other than the first exactly
      when both id sets are non-empty and overlap by less than half. */
  lemma SearchReportedIff(rs: Results, i: nat)
    requires UniqueNames(rs) && 0 < i < |rs|
    ensures Reports(SearchInconsistencies(rs), rs[i].0)
            <==> LowOverlap(IdSet(rs[0].1.data), IdSet(rs[i].1.data))
  {
    OverlapReportedIff(None, rs[0].0, IdSet(rs[0].1.data), IdSets(rs), i);
  }

  /** Adapters that return the same ids are never reported, even when no ids
      were returned. */
  lemma SearchAgreeingAdaptersNotReported(rs: Results)
    requires forall i | 0 <= i < |rs| :: IdSet(rs[i].1.data) == IdSet(rs[0].1.data)
    ensures SearchInconsistencies(rs) == []
  {
    if rs != [] {
      SameSetsNeverReported(None, rs[0].0, IdSet(rs[0].1.data), IdSets(rs));
    }
  }

  /** A non-list reference payload disables the batch comparison. */
  lemma BatchNonListReference(rs: Results)
    requires rs != [] && !rs[0].1.data.VList?
    ensures BatchSearchInconsistencies(rs) == []
  {
  }

  /** An adapter whose payload is not a list, or is too short to hold index
      `q`, has an empty set there and is never reported at that index. */
  lemma ShortPayloadNotReported(rs: Results, q: nat, i: nat)
    requires UniqueNames(rs) && i < |rs|
    requires !rs[i].1.data.VList? || q >= |rs[i].1.data.items|
    ensures !Reports(QueryReports(rs, q), rs[i].0)
  {
    var sets := QueryIdSets(rs, q);
    if |sets| > 1 {
      if i == 0 {
        var reports := QueryReports(rs, q);
        forall k | 0 <= k < |reports|
          ensures !(reports[k].OverlapLow? && reports[k].other == rs[0].0)
        {
          OverlapReportsSound(Some(q), rs[0].0, sets[0].1, sets, k);
        }
      } else {
        OverlapReportedIff(Some(q), rs[0].0, sets[0].1, sets, i);
      }
    }
  }

  /** Every report of one comparison loop is a low-overlap report for `query`. */
  lemma {:induction false} OverlapReportsTagged(query: Option<nat>, reference: string, refIds: set<string>,
                                                sets: seq<(string, set<string>)>)
    ensures forall k | 0 <= k < |OverlapReports(query, reference, refIds, sets)| ::
      OverlapReports(query, reference, refIds, sets)[k].OverlapLow?
      && OverlapReports(query, reference, refIds, sets)[k].query == query
  {
    if sets != [] {
      OverlapReportsTagged(query, reference, refIds, sets[..|sets| - 1]);
    }
  }

  /** Every report is a low-overlap report naming a query index below `n`. */
  predicate QueriesBelow(incs: seq<Inconsistency>, n: nat) {
    forall k | 0 <= k < |incs| :: incs[k].OverlapLow? && incs[k].query.Some? && incs[k].query.value < n
  }

  lemma QueriesBelowConcat(a: seq<Inconsistency>, b: seq<Inconsistency>, n: nat)
    requires QueriesBelow(a, n) && QueriesBelow(b, n)
    ensures QueriesBelow(a + b, n)
  {
    forall k | 0 <= k < |a + b|
      ensures (a + b)[k].OverlapLow? && (a + b)[k].query.Some? && (a + b)[k].query.value < n
    {
      if k < |a| {
        assert (a + b)[k] == a[k];
      } else {
        assert (a + b)[k] == b[k - |a|];
      }
    }
  }

  /** The reports for query `q` all name `q`. */
  lemma QueryReportsBelow(rs: Results, q: nat)
    requires rs != []
    ensures QueriesBelow(QueryReports(rs, q), q + 1)
  {
    var sets := QueryIdSets(rs, q);
    if |sets| > 1 {
      OverlapReportsTagged(Some(q), rs[0].0, sets[0].1, sets);
    }
  }

  lemma {:induction false} ConcatIndexed(f: nat -> seq<Inconsistency>, n: nat)
    requires forall q: nat | q < n :: QueriesBelow(f(q), q + 1)
    ensures QueriesBelow(Concat(f, n), n)
  {
    if n > 0 {
      ConcatIndexed(f, n - 1);
      QueriesBelowConcat(Concat(f, n - 1), f(n - 1), n);
    }
  }

  /** Each batch report names a query index below `n`. */
  lemma BatchReportsIndexed(rs: Results, n: nat)
    requires rs != []
    ensures QueriesBelow(BatchReports(rs, n), n)
  {
    forall q: nat | q < n
      ensures QueriesBelow(QueryReportsOf(rs)(q), q + 1)
    {
      QueryReportsBelow(rs, q);
    }
    ConcatIndexed(QueryReportsOf(rs), n);
  }

  /** At most one report per adapter after the reference for query `q`. */
  lemma QueryReportsBound(rs: Results, q: nat)
    requires rs != []
    ensures |QueryReports(rs, q)| <= |rs| - 1
  {
    var sets := QueryIdSets(rs, q);
    if |sets| > 1 {
      OverlapReportsBound(Some(q), rs[0].0, sets[0].1, sets);
    }
  }

  lemma {:induction false} ConcatBound(f: nat -> seq<Inconsistency>, n: nat, m: nat)
    requires forall q: nat | q < n :: |f(q)| <= m
    ensures |Concat(f, n)| <= n * m
  {
    if n > 0 {
      ConcatBound(f, n - 1, m);
      MulSucc(n - 1, m);
    }
  }

  lemma MulSucc(n: nat, m: nat)
    ensures n * m + m == (n + 1) * m
  {
  }

  lemma QueryReportsOfBound(rs: Results, n: nat)
    requires rs != []
    ensures forall q: nat | q < n :: |QueryReportsOf(rs)(q)| <= |rs| - 1
  {
    forall q: nat | q < n
      ensures |QueryReportsOf(rs)(q)| <= |rs| - 1
    {
      QueryReportsBound(rs, q);
    }
  }

  /** At most one report per other adapter and query index. */
  lemma BatchReportsBound(rs: Results, n: nat)
    requires rs != []
    ensures |BatchReports(rs, n)| <= n * (|rs| - 1)
  {
    var m := |rs| - 1;
    QueryReportsOfBound(rs, n);
    ConcatBound(QueryReportsOf(rs), n, m);
    assert BatchReports(rs, n) == Concat(QueryReportsOf(rs), n);
  }

  /** The batch comparator: at most `(n - 1) * len(reference)` reports, each
      naming a query index of the reference list. */
  lemma BatchSearchBound(rs: Results)
    requires rs != [] && rs[0].1.data.VList?
    ensures |BatchSearchInconsistencies(rs)| <= |rs[0].1.data.items| * (|rs| - 1)
    ensures forall k | 0 <= k < |BatchSearchInconsistencies(rs)| ::
      BatchSearchInconsistencies(rs)[k].OverlapLow? && BatchSearchInconsistencies(rs)[k].query.Some?
      && BatchSearchInconsistencies(rs)[k].query.value < |rs[0].1.data.items|
  {
    BatchReportsBound(rs, |rs[0].1.data.items|);
    BatchReportsIndexed(rs, |rs[0].1.data.items|);
  }
}
