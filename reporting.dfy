/**
 * The counting part of `ResultAnalyzer.generate_report`: the totals, the
 * per-database and per-operation statistics, and the list of top
 * inconsistencies. The text layout and the `.1f` percentage formatting are
 * not modelled; the percentages are exact rationals here.
 */
module Reporting {
  import opened Values
  import opened Models

  /** One counter of the report: how many times a key was seen and how many
      of those were marked. For a database `total` and `hits` are the
      source's `total` and `success`; for an operation they are `count` and
      `inconsistencies`. */
  datatype Tally = Tally(total: nat, hits: nat)

  /** An insertion-ordered dict from names to tallies. */
  type Stats = seq<(string, Tally)>

  /** One line of the top-inconsistencies list: `"{test_id} ({operation}): {inc}"`. */
  datatype TopEntry = TopEntry(testId: string, operation: string, inconsistency: Inconsistency)

  datatype Report = Report(
    totalTests: nat,
    inconsistenciesFound: nat,
    databaseStats: Stats,
    operationStats: Stats,
    topInconsistencies: seq<TopEntry>)

  /** The number of entries the top list shows. */
  const TopCount: nat := 10

  // ---------------------------------------------------------------------
  // Specification

  /** The tally under `key`, if any (the first entry with that key). */
  function StatOf(stats: Stats, key: string): Option<Tally> {
    if stats == [] then None
    else if stats[0].0 == key then Some(stats[0].1)
    else StatOf(stats[1..], key)
  }

  /** Count one more occurrence of `key`, marked when `hit`: an unseen key is
      appended with a zero tally first, a seen one keeps its place. */
  function Tick(stats: Stats, key: string, hit: bool): Stats {
    if stats == [] then [(key, Tally(1, if hit then 1 else 0))]
    else if stats[0].0 == key then
      [(key, Tally(stats[0].1.total + 1, stats[0].1.hits + if hit then 1 else 0))] + stats[1..]
    else [stats[0]] + Tick(stats[1..], key, hit)
  }

  /** `sum(1 for r in results if r.inconsistencies)` */
  function CountInconsistent(results: seq<TestResult>): nat {
    if results == [] then 0
    else CountInconsistent(results[..|results| - 1])
         + if results[|results| - 1].inconsistencies != [] then 1 else 0
  }

  /** The inner loop of the database statistics over one result's payloads:
      a payload other than `None` is a success. */
  function TickDatabases(stats: Stats, payloads: Dict): Stats {
    if payloads == [] then stats
    else
      var (name, payload) := payloads[|payloads| - 1];
      Tick(TickDatabases(stats, payloads[..|payloads| - 1]), name, payload != VNone)
  }

  /** `database_stats` after the loop over `results`. */
  function DatabaseStats(results: seq<TestResult>): Stats {
    if results == [] then []
    else TickDatabases(DatabaseStats(results[..|results| - 1]), results[|results| - 1].results)
  }

  /** `operation_stats` after the loop over `results`. */
  function OperationStats(results: seq<TestResult>): Stats {
    if results == [] then []
    else
      var r := results[|results| - 1];
      Tick(OperationStats(results[..|results| - 1]), r.operation, r.inconsistencies != [])
  }

  /** The entries one result contributes to `all_inconsistencies`. */
  function Tagged(r: TestResult): (entries: seq<TopEntry>)
    ensures |entries| == |r.inconsistencies|
    ensures forall i | 0 <= i < |entries| ::
      entries[i] == TopEntry(r.testId, r.operation, r.inconsistencies[i])
  {
    seq(|r.inconsistencies|, i requires 0 <= i < |r.inconsistencies| =>
      TopEntry(r.testId, r.operation, r.inconsistencies[i]))
  }

  /** `all_inconsistencies` after the loop over `results`. */
  function AllInconsistencies(results: seq<TestResult>): seq<TopEntry> {
    if results == [] then []
    else AllInconsistencies(results[..|results| - 1]) + Tagged(results[|results| - 1])
  }

  /** `all_inconsistencies[:10]` */
  function Top(all: seq<TopEntry>): seq<TopEntry> {
    if |all| <= TopCount then all else all[..TopCount]
  }

  /** The figures `generate_report` formats. */
  function ReportSpec(results: seq<TestResult>): Report {
    Report(|results|, CountInconsistent(results), DatabaseStats(results), OperationStats(results),
           Top(AllInconsistencies(results)))
  }

  /** A percentage as the report computes it, `0` when nothing was counted. */
  function Percentage(part: int, whole: int): real {
    if whole > 0 then (part as real) / (whole as real) * 100.0 else 0.0
  }

  // ---------------------------------------------------------------------
  // Procedure

  /** `generate_report`, up to the text it formats. */
  method GenerateReport(results: seq<TestResult>) returns (report: Report)
    ensures report == ReportSpec(results)
  {
    var totalTests := |results|;
    var inconsistenciesFound := CountInconsistent(results);
    var databaseStats := CollectDatabaseStats(results);
    var operationStats := CollectOperationStats(results);
    var all := CollectInconsistencies(results);
    var top := if |all| <= TopCount then all else all[..TopCount];
    report := Report(totalTests, inconsistenciesFound, databaseStats, operationStats, top);
  }

  /** The nested loop filling `database_stats`. */
  method CollectDatabaseStats(results: seq<TestResult>) returns (stats: Stats)
    ensures stats == DatabaseStats(results)
  {
    stats := [];
    var i := 0;
    while i < |results|
      invariant 0 <= i <= |results|
      invariant stats == DatabaseStats(results[..i])
    {
      assert results[..i + 1][..i] == results[..i];
      var payloads := results[i].results;
      ghost var before := stats;
      var j := 0;
      while j < |payloads|
        invariant 0 <= j <= |payloads|
        invariant stats == TickDatabases(before, payloads[..j])
      {
        assert payloads[..j + 1][..j] == payloads[..j];
        var (name, payload) := payloads[j];
        stats := Tick(stats, name, payload != VNone);
        j := j + 1;
      }
      assert payloads[..j] == payloads;
      i := i + 1;
    }
    assert results[..i] == results;
  }

  /** The loop filling `operation_stats`. */
  method CollectOperationStats(results: seq<TestResult>) returns (stats: Stats)
    ensures stats == OperationStats(results)
  {
    stats := [];
    var i := 0;
    while i < |results|
      invariant 0 <= i <= |results|
      invariant stats == OperationStats(results[..i])
    {
      assert results[..i + 1][..i] == results[..i];
      stats := Tick(stats, results[i].operation, results[i].inconsistencies != []);
      i := i + 1;
    }
    assert results[..i] == results;
  }

  /** The loop filling `all_inconsistencies`. */
  method CollectInconsistencies(results: seq<TestResult>) returns (all: seq<TopEntry>)
    ensures all == AllInconsistencies(results)
  {
    all := [];
    var i := 0;
    while i < |results|
      invariant 0 <= i <= |results|
      invariant all == AllInconsistencies(results[..i])
    {
      assert results[..i + 1][..i] == results[..i];
      if results[i].inconsistencies != [] {
        all := all + Tagged(results[i]);
      } else {
        assert Tagged(results[i]) == [];
        assert all + Tagged(results[i]) == all;
      }
      i := i + 1;
    }
    assert results[..i] == results;
  }

  // ---------------------------------------------------------------------
  // Independent counts

  /** How many entries of `payloads` are under `name`, and how many of those
      hold something other than `None`. */
  function EntriesUnder(payloads: Dict, name: string): nat {
    if payloads == [] then 0
    else EntriesUnder(payloads[..|payloads| - 1], name) + if payloads[|payloads| - 1].0 == name then 1 else 0
  }

  function PresentUnder(payloads: Dict, name: string): nat {
    if payloads == [] then 0
    else
      var (k, v) := payloads[|payloads| - 1];
      PresentUnder(payloads[..|payloads| - 1], name) + if k == name && v != VNone then 1 else 0
  }

  /** Over all results: payloads under `name`, and non-`None` ones. */
  function DatabaseSeen(results: seq<TestResult>, name: string): nat {
    if results == [] then 0
    else DatabaseSeen(results[..|results| - 1], name) + EntriesUnder(results[|results| - 1].results, name)
  }

  function DatabaseSucceeded(results: seq<TestResult>, name: string): nat {
    if results == [] then 0
    else DatabaseSucceeded(results[..|results| - 1], name) + PresentUnder(results[|results| - 1].results, name)
  }

  /** Results of operation `op`, and those with an inconsistency. */
  function OperationRuns(results: seq<TestResult>, op: string): nat {
    if results == [] then 0
    else OperationRuns(results[..|results| - 1], op) + if results[|results| - 1].operation == op then 1 else 0
  }

  function OperationFlagged(results: seq<TestResult>, op: string): nat {
    if results == [] then 0
    else
      var r := results[|results| - 1];
      OperationFlagged(results[..|results| - 1], op) + if r.operation == op && r.inconsistencies != [] then 1 else 0
  }

  /** `n` more occurrences, `h` of them marked, added to an optional tally. */
  function Added(t: Option<Tally>, n: nat, h: nat): Option<Tally> {
    if t.Some? then Some(Tally(t.value.total + n, t.value.hits + h))
    else if n == 0 then None
    else Some(Tally(n, h))
  }

  /** The sum of all totals of a stats dict. */
  function SumTotals(stats: Stats): nat {
    if stats == [] then 0 else stats[0].1.total + SumTotals(stats[1..])
  }

  /** The number of inconsistencies over all results. */
  function InconsistencyCount(results: seq<TestResult>): nat {
    if results == [] then 0
    else InconsistencyCount(results[..|results| - 1]) + |results[|results| - 1].inconsistencies|
  }

  // ---------------------------------------------------------------------
  // Properties

  /** Ticking counts one occurrence of `key` and leaves other keys alone. */
  lemma {:induction false} TickStat(stats: Stats, key: string, hit: bool, k: string)
    ensures StatOf(Tick(stats, key, hit), k)
            == if k == key then Added(StatOf(stats, k), 1, if hit then 1 else 0) else StatOf(stats, k)
  {
    if stats != [] && stats[0].0 != key {
      TickStat(stats[1..], key, hit, k);
      assert Tick(stats, key, hit)[1..] == Tick(stats[1..], key, hit);
    }
  }

  /** Ticking adds one to the sum of totals. */
  lemma {:induction false} TickSum(stats: Stats, key: string, hit: bool)
    ensures SumTotals(Tick(stats, key, hit)) == SumTotals(stats) + 1
  {
    if stats != [] && stats[0].0 != key {
      TickSum(stats[1..], key, hit);
      assert Tick(stats, key, hit)[1..] == Tick(stats[1..], key, hit);
    } else if stats != [] {
      assert Tick(stats, key, hit)[1..] == stats[1..];
    }
  }

  lemma AddedTwice(t: Option<Tally>, n1: nat, h1: nat, n2: nat, h2: nat)
    requires h1 <= n1
    ensures Added(Added(t, n1, h1), n2, h2) == Added(t, n1 + n2, h1 + h2)
  {
  }

  /** One result's payloads add their own counts under each name. */
  lemma {:induction false} TickDatabasesStat(stats: Stats, payloads: Dict, name: string)
    ensures StatOf(TickDatabases(stats, payloads), name)
            == Added(StatOf(stats, name), EntriesUnder(payloads, name), PresentUnder(payloads, name))
  {
    if payloads != [] {
      var init := payloads[..|payloads| - 1];
      var (k, v) := payloads[|payloads| - 1];
      TickDatabasesStat(stats, init, name);
      PresentAtMostEntries(init, name);
      TickStat(TickDatabases(stats, init), k, v != VNone, name);
      AddedTwice(StatOf(stats, name), EntriesUnder(init, name), PresentUnder(init, name),
                 if k == name then 1 else 0, if k == name && v != VNone then 1 else 0);
    }
  }

  /** Each database's entry counts the payloads under its name (`total`) and
      the non-`None` ones (`success`); a name never seen has no entry. */
  lemma {:induction false} DatabaseStatsCount(results: seq<TestResult>, name: string)
    ensures StatOf(DatabaseStats(results), name)
            == if DatabaseSeen(results, name) == 0 then None
               else Some(Tally(DatabaseSeen(results, name), DatabaseSucceeded(results, name)))
  {
    if results != [] {
      var init := results[..|results| - 1];
      var payloads := results[|results| - 1].results;
      DatabaseStatsCount(init, name);
      DatabaseSucceededAtMostSeen(init, name);
      TickDatabasesStat(DatabaseStats(init), payloads, name);
      PresentAtMostEntries(payloads, name);
    }
  }

  lemma {:induction false} PresentAtMostEntries(payloads: Dict, name: string)
    ensures PresentUnder(payloads, name) <= EntriesUnder(payloads, name)
  {
    if payloads != [] {
      PresentAtMostEntries(payloads[..|payloads| - 1], name);
    }
  }

  /** A result whose dict holds each name once contributes one to the total of
      every database it holds and nothing to the others. */
  lemma {:induction false} EntriesUnderUnique(payloads: Dict, name: string)
    requires UniqueKeys(payloads)
    ensures EntriesUnder(payloads, name) == if name in Keys(payloads) then 1 else 0
  {
    if payloads != [] {
      var init := payloads[..|payloads| - 1];
      assert UniqueKeys(init);
      EntriesUnderUnique(init, name);
      assert Keys(payloads) == Keys(init) + [payloads[|payloads| - 1].0];
    }
  }

  /** `success <= total` for every database. */
  lemma DatabaseSuccessAtMostTotal(results: seq<TestResult>, name: string)
    requires StatOf(DatabaseStats(results), name).Some?
    ensures StatOf(DatabaseStats(results), name).value.hits <= StatOf(DatabaseStats(results), name).value.total
  {
    DatabaseStatsCount(results, name);
    DatabaseSucceededAtMostSeen(results, name);
  }

  lemma {:induction false} DatabaseSucceededAtMostSeen(results: seq<TestResult>, name: string)
    ensures DatabaseSucceeded(results, name) <= DatabaseSeen(results, name)
  {
    if results != [] {
      DatabaseSucceededAtMostSeen(results[..|results| - 1], name);
      PresentAtMostEntries(results[|results| - 1].results, name);
    }
  }

  /** Each operation's entry counts its results (`count`) and those with an
      inconsistency (`inconsistencies`); an operation never run has no entry. */
  lemma {:induction false} OperationStatsCount(results: seq<TestResult>, op: string)
    ensures StatOf(OperationStats(results), op)
            == if OperationRuns(results, op) == 0 then None
               else Some(Tally(OperationRuns(results, op), OperationFlagged(results, op)))
  {
    if results != [] {
      var init := results[..|results| - 1];
      var r := results[|results| - 1];
      OperationStatsCount(init, op);
      TickStat(OperationStats(init), r.operation, r.inconsistencies != [], op);
      OperationFlaggedAtMostRuns(init, op);
    }
  }

  lemma {:induction false} OperationFlaggedAtMostRuns(results: seq<TestResult>, op: string)
    ensures OperationFlagged(results, op) <= OperationRuns(results, op)
  {
    if results != [] {
      OperationFlaggedAtMostRuns(results[..|results| - 1], op);
    }
  }

  /** The operation counts add up to the number of tests. */
  lemma {:induction false} OperationCountsSum(results: seq<TestResult>)
    ensures SumTotals(OperationStats(results)) == |results|
  {
    if results != [] {
      var init := results[..|results| - 1];
      var r := results[|results| - 1];
      OperationCountsSum(init);
      TickSum(OperationStats(init), r.operation, r.inconsistencies != []);
    }
  }

  /** `inconsistencies_found <= total_tests`, with equality exactly when every
      test found an inconsistency. */
  lemma {:induction false} FoundAtMostTotal(results: seq<TestResult>)
    ensures CountInconsistent(results) <= |results|
    ensures CountInconsistent(results) == |results|
            <==> forall i | 0 <= i < |results| :: results[i].inconsistencies != []
  {
    if results != [] {
      var init := results[..|results| - 1];
      FoundAtMostTotal(init);
      assert forall i | 0 <= i < |init| :: init[i] == results[i];
    }
  }

  /** The list of all inconsistencies follows the result order: the results
      of a longer run only add entries at the end. */
  lemma {:induction false} AllInconsistenciesConcat(a: seq<TestResult>, b: seq<TestResult>)
    ensures AllInconsistencies(a + b) == AllInconsistencies(a) + AllInconsistencies(b)
  {
    if b == [] {
      assert a + b == a;
    } else {
      var init, last := b[..|b| - 1], b[|b| - 1];
      var ab := a + b;
      assert ab[..|ab| - 1] == a + init;
      assert ab[|ab| - 1] == last;
      assert AllInconsistencies(ab) == AllInconsistencies(a + init) + Tagged(last);
      AllInconsistenciesConcat(a, init);
      assert AllInconsistencies(b) == AllInconsistencies(init) + Tagged(last);
    }
  }

  /** The list of all inconsistencies is as long as the total count of
      inconsistencies over all results. */
  lemma {:induction false} AllInconsistenciesCount(results: seq<TestResult>)
    ensures |AllInconsistencies(results)| == InconsistencyCount(results)
  {
    if results != [] {
      AllInconsistenciesCount(results[..|results| - 1]);
    }
  }

  /** The top list is the first ten entries of all inconsistencies, or all of
      them when there are at most ten. */
  lemma TopIsPrefix(results: seq<TestResult>)
    ensures var top := ReportSpec(results).topInconsistencies;
      var all := AllInconsistencies(results);
      |top| <= TopCount && top == all[..|top|]
      && (|all| <= TopCount ==> top == all)
      && (|all| > TopCount ==> |top| == TopCount)
  {
  }

  /** Every percentage the report prints lies between 0 and 100. */
  lemma PercentageBounds(part: int, whole: int)
    requires 0 <= part <= whole
    ensures 0.0 <= Percentage(part, whole) <= 100.0
    ensures whole > 0 ==> (Percentage(part, whole) == 100.0 <==> part == whole)
  {
    if whole > 0 {
      var q, w := part as real, whole as real;
      var p := q / w;
      assert p * w == q;
      assert 0.0 <= p <= 1.0;
      if Percentage(part, whole) == 100.0 {
        assert p == 1.0;
        assert q == w;
      }
      if part == whole {
        assert q == w;
        assert p == 1.0;
      }
    }
  }

  /** The consistency rate is a percentage, 100 exactly when no test found an
      inconsistency. */
  lemma ConsistencyRateBounds(results: seq<TestResult>)
    ensures var r := ReportSpec(results);
      0.0 <= Percentage(r.totalTests - r.inconsistenciesFound, r.totalTests) <= 100.0
      && (r.totalTests > 0 ==>
            (Percentage(r.totalTests - r.inconsistenciesFound, r.totalTests) == 100.0
             <==> r.inconsistenciesFound == 0))
  {
    FoundAtMostTotal(results);
    var r := ReportSpec(results);
    PercentageBounds(r.totalTests - r.inconsistenciesFound, r.totalTests);
  }
}
