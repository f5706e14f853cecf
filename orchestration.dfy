/**
 * Running one test: `_safe_execute` turns an operation and its inputs into
 * adapter calls, `_execute_on_all_databases` collects one `DatabaseResult`
 * per configured adapter, and `run_test` compares them into a `TestResult`.
 *
 * An adapter is an oracle: given the calls it has already received in this
 * execution and the next call, it returns a payload or raises. The clock is
 * a parameter giving each adapter's measured duration.
 */
module Orchestration {
  import opened Values
  import opened Models
  import opened Outcomes
  import opened Comparison

  /** The three adapter entry points, with the arguments they receive. */
  datatype Call =
    | InsertCall(collection: Value, vectors: Value, ids: Value, metadata: Value)
    | SearchCall(collection: Value, queryVector: Value, limit: Value, metricType: Value)
    | DeleteCall(collection: Value, ids: Value)

  datatype Reply = Returned(payload: Value) | Raised(error: Exception)

  /** An adapter: earlier calls of this execution, next call, reply. */
  type Adapter = (seq<Call>, Call) -> Reply

  function Outcome(reply: Reply): Result<Value> {
    match reply
    case Returned(v) => Ok(v)
    case Raised(e) => Err(e)
  }

  const DefaultCollection: Value := VStr("test_collection")
  const DefaultLimit: Value := VInt(10)
  const DefaultMetric: Value := VStr("L2")

  // ---------------------------------------------------------------------
  // Batch search

  /** One adapter call after the calls made so far: the call is recorded and
      its payload collected, or the exception it raised propagates. */
  function CallStep(before: (seq<Call>, seq<Value>), call: Call, adapter: Adapter): Result<(seq<Call>, seq<Value>)> {
    var payload :- Outcome(adapter(before.0, call));
    Ok((before.0 + [call], before.1 + [payload]))
  }

  /** The calls made and payloads collected for `calls[..n]`, in order. */
  function CallsPrefix(calls: seq<Call>, n: nat, adapter: Adapter): Result<(seq<Call>, seq<Value>)>
    requires n <= |calls|
  {
    if n == 0 then Ok(([], []))
    else
      var before :- CallsPrefix(calls, n - 1, adapter);
      CallStep(before, calls[n - 1], adapter)
  }

  lemma {:induction false} CallsPrefixErrPersists(calls: seq<Call>, adapter: Adapter, k: nat, n: nat)
    requires k <= n <= |calls| && CallsPrefix(calls, k, adapter).Err?
    ensures CallsPrefix(calls, n, adapter) == CallsPrefix(calls, k, adapter)
  {
    if k < n {
      CallsPrefixErrPersists(calls, adapter, k, n - 1);
    }
  }

  /** Without an exception, every call is made, in order, with one payload each. */
  lemma {:induction false} CallsPrefixMakesEveryCall(calls: seq<Call>, n: nat, adapter: Adapter)
    requires n <= |calls| && CallsPrefix(calls, n, adapter).Ok?
    ensures CallsPrefix(calls, n, adapter).value.0 == calls[..n]
    ensures |CallsPrefix(calls, n, adapter).value.1| == n
  {
    if n > 0 {
      CallsPrefixMakesEveryCall(calls, n - 1, adapter);
      assert calls[..n] == calls[..n - 1] + [calls[n - 1]];
    }
  }

  /** The searches of `query_vectors`, one per query, in order. */
  function SearchCalls(collection: Value, queries: seq<Value>, limit: Value, metric: Value): (calls: seq<Call>)
    ensures |calls| == |queries|
    ensures forall i | 0 <= i < |queries| :: calls[i] == SearchCall(collection, queries[i], limit, metric)
  {
    seq(|queries|, i requires 0 <= i < |queries| => SearchCall(collection, queries[i], limit, metric))
  }

  /** The calls made and payloads collected for all of `queries`. */
  function BatchRun(collection: Value, queries: seq<Value>, limit: Value, metric: Value,
                    adapter: Adapter): Result<(seq<Call>, seq<Value>)>
  {
    CallsPrefix(SearchCalls(collection, queries, limit, metric), |queries|, adapter)
  }

  /** The loop over `query_vectors`. */
  method RunBatchSearch(collection: Value, queries: seq<Value>, limit: Value, metric: Value,
                        adapter: Adapter) returns (r: Result<seq<Value>>)
    ensures BatchRun(collection, queries, limit, metric, adapter).Ok? ==>
              r == Ok(BatchRun(collection, queries, limit, metric, adapter).value.1)
    ensures BatchRun(collection, queries, limit, metric, adapter).Err? ==>
              r == Err(BatchRun(collection, queries, limit, metric, adapter).error)
  {
    ghost var calls := SearchCalls(collection, queries, limit, metric);
    var run: (seq<Call>, seq<Value>) := ([], []);
    var i := 0;
    while i < |queries|
      invariant 0 <= i <= |queries|
      invariant CallsPrefix(calls, i, adapter) == Ok(run)
    {
      var call := SearchCall(collection, queries[i], limit, metric);
      var reply := adapter(run.0, call);
      if reply.Raised? {
        CallsPrefixErrPersists(calls, adapter, i + 1, |queries|);
        return Err(reply.error);
      }
      run := (run.0 + [call], run.1 + [reply.payload]);
      i := i + 1;
    }
    return Ok(run.1);
  }

  /** One payload per query vector, and one search per query vector, in order. */
  lemma BatchRunOnePayloadPerQuery(collection: Value, queries: seq<Value>, limit: Value,
                                   metric: Value, adapter: Adapter)
    requires BatchRun(collection, queries, limit, metric, adapter).Ok?
    ensures |BatchRun(collection, queries, limit, metric, adapter).value.1| == |queries|
    ensures BatchRun(collection, queries, limit, metric, adapter).value.0 == SearchCalls(collection, queries, limit, metric)
  {
    var calls := SearchCalls(collection, queries, limit, metric);
    CallsPrefixMakesEveryCall(calls, |queries|, adapter);
    assert calls[..|queries|] == calls;
  }

  // ---------------------------------------------------------------------
  // Mixed operations

  /** What one sub-operation does: the call it makes together with its
      `type`, None for an unknown type (skipped), or the exception a missing
      key raises. */
  function MixedPlan(collection: Value, op: Value): Result<Option<(Call, Value)>> {
    var kind :- Subscript(op, "type");
    if kind == VStr("insert") then
      var vectors :- Subscript(op, "vectors");
      var id :- Subscript(op, "id");
      Ok(Some((InsertCall(collection, VList([vectors]), VList([id]), VNone), kind)))
    else if kind == VStr("search") then
      var query :- Subscript(op, "query_vector");
      var limit :- Subscript(op, "limit");
      Ok(Some((SearchCall(collection, query, limit, DefaultMetric), kind)))
    else if kind == VStr("delete") then
      var ids :- Subscript(op, "ids");
      Ok(Some((DeleteCall(collection, ids), kind)))
    else Ok(None)
  }

  /** The entry `{'operation': op['type'], 'result': result}`. */
  function MixedEntry(kind: Value, payload: Value): Value {
    VDict([("operation", kind), ("result", payload)])
  }

  /** One iteration: the calls and entries after a planned sub-operation. */
  function PlanStep(before: (seq<Call>, seq<Value>), planned: Result<Option<(Call, Value)>>, adapter: Adapter)
    : Result<(seq<Call>, seq<Value>)>
  {
    var step :- planned;
    if step.None? then Ok(before)
    else
      var payload :- Outcome(adapter(before.0, step.value.0));
      Ok((before.0 + [step.value.0], before.1 + [MixedEntry(step.value.1, payload)]))
  }

  /** The calls made and entries collected for `plans[..n]`, in order. */
  function PlanPrefix(plans: seq<Result<Option<(Call, Value)>>>, n: nat, adapter: Adapter)
    : Result<(seq<Call>, seq<Value>)>
    requires n <= |plans|
  {
    if n == 0 then Ok(([], []))
    else
      var before :- PlanPrefix(plans, n - 1, adapter);
      PlanStep(before, plans[n - 1], adapter)
  }

  lemma {:induction false} PlanPrefixErrPersists(plans: seq<Result<Option<(Call, Value)>>>, adapter: Adapter,
                                                 k: nat, n: nat)
    requires k <= n <= |plans| && PlanPrefix(plans, k, adapter).Err?
    ensures PlanPrefix(plans, n, adapter) == PlanPrefix(plans, k, adapter)
  {
    if k < n {
      PlanPrefixErrPersists(plans, adapter, k, n - 1);
    }
  }

  /** The plans of `operations`, one per sub-operation, in order. */
  function MixedPlans(collection: Value, ops: seq<Value>): (plans: seq<Result<Option<(Call, Value)>>>)
    ensures |plans| == |ops|
    ensures forall i | 0 <= i < |ops| :: plans[i] == MixedPlan(collection, ops[i])
  {
    seq(|ops|, i requires 0 <= i < |ops| => MixedPlan(collection, ops[i]))
  }

  /** The calls made and entries collected for all of `ops`. */
  function MixedRun(collection: Value, ops: seq<Value>, adapter: Adapter): Result<(seq<Call>, seq<Value>)> {
    PlanPrefix(MixedPlans(collection, ops), |ops|, adapter)
  }

  /** The loop over `operations`, each sub-operation given by its plan: an
      exception stops the loop, an unknown type is skipped, and a call's
      payload is recorded with the sub-operation's type. */
  method RunPlans(plans: seq<Result<Option<(Call, Value)>>>, adapter: Adapter) returns (r: Result<seq<Value>>)
    ensures PlanPrefix(plans, |plans|, adapter).Ok? ==> r == Ok(PlanPrefix(plans, |plans|, adapter).value.1)
    ensures PlanPrefix(plans, |plans|, adapter).Err? ==> r == Err(PlanPrefix(plans, |plans|, adapter).error)
  {
    var run: (seq<Call>, seq<Value>) := ([], []);
    var i := 0;
    while i < |plans|
      invariant 0 <= i <= |plans|
      invariant PlanPrefix(plans, i, adapter) == Ok(run)
    {
      var planned := plans[i];
      if planned.Err? {
        PlanPrefixErrPersists(plans, adapter, i + 1, |plans|);
        return Err(planned.error);
      }
      if planned.value.Some? {
        var (call, kind) := planned.value.value;
        var reply := adapter(run.0, call);
        if reply.Raised? {
          PlanPrefixErrPersists(plans, adapter, i + 1, |plans|);
          return Err(reply.error);
        }
        run := (run.0 + [call], run.1 + [MixedEntry(kind, reply.payload)]);
      }
      i := i + 1;
    }
    return Ok(run.1);
  }

  /** `operations` as the tester runs it. Planning a sub-operation only reads
      the sub-operation, and its exception surfaces when the loop reaches it,
      so planning them all first does not change the outcome. */
  method RunMixedOperations(collection: Value, ops: seq<Value>, adapter: Adapter) returns (r: Result<seq<Value>>)
    ensures MixedRun(collection, ops, adapter).Ok? ==> r == Ok(MixedRun(collection, ops, adapter).value.1)
    ensures MixedRun(collection, ops, adapter).Err? ==> r == Err(MixedRun(collection, ops, adapter).error)
  {
    var plans := MixedPlans(collection, ops);
    r := RunPlans(plans, adapter);
  }

  /** A sub-operation whose `type` is one of the three adapter calls. */
  predicate KnownKind(op: Value) {
    Subscript(op, "type").Ok? && Subscript(op, "type").value in [VStr("insert"), VStr("search"), VStr("delete")]
  }

  /** How many of the first `n` sub-operations are of a known type. */
  function CountKnownPrefix(ops: seq<Value>, n: nat): nat
    requires n <= |ops|
  {
    if n == 0 then 0 else CountKnownPrefix(ops, n - 1) + (if KnownKind(ops[n - 1]) then 1 else 0)
  }

  function CountKnown(ops: seq<Value>): nat {
    CountKnownPrefix(ops, |ops|)
  }

  /** A sub-operation that plans without an exception makes a call exactly
      when its type is known, and its entry records that type. */
  lemma MixedPlanKnown(collection: Value, op: Value)
    requires MixedPlan(collection, op).Ok?
    ensures MixedPlan(collection, op).value.Some? <==> KnownKind(op)
    ensures MixedPlan(collection, op).value.Some? ==> MixedPlan(collection, op).value.value.1 == Subscript(op, "type").value
  {
  }

  /** How many planned sub-operations make a call among the first `n`. */
  function CountCalls(plans: seq<Result<Option<(Call, Value)>>>, n: nat): nat
    requires n <= |plans|
  {
    if n == 0 then 0
    else CountCalls(plans, n - 1) + (if plans[n - 1].Ok? && plans[n - 1].value.Some? then 1 else 0)
  }

  lemma {:induction false} PlanPrefixOneEntryPerCall(plans: seq<Result<Option<(Call, Value)>>>, n: nat, adapter: Adapter)
    requires n <= |plans| && PlanPrefix(plans, n, adapter).Ok?
    ensures |PlanPrefix(plans, n, adapter).value.1| == CountCalls(plans, n)
    ensures |PlanPrefix(plans, n, adapter).value.0| == CountCalls(plans, n)
  {
    if n > 0 {
      PlanPrefixOneEntryPerCall(plans, n - 1, adapter);
    }
  }

  /** Before an exception, every sub-operation planned so far planned without one. */
  lemma {:induction false} PlanPrefixOkPlans(plans: seq<Result<Option<(Call, Value)>>>, n: nat, adapter: Adapter)
    requires n <= |plans| && PlanPrefix(plans, n, adapter).Ok?
    ensures forall i | 0 <= i < n :: plans[i].Ok?
  {
    if n > 0 {
      PlanPrefixOkPlans(plans, n - 1, adapter);
    }
  }

  lemma {:induction false} CountCallsKnown(plans: seq<Result<Option<(Call, Value)>>>, ops: seq<Value>, n: nat)
    requires n <= |plans| == |ops|
    requires forall i | 0 <= i < n :: plans[i].Ok? && (plans[i].value.Some? <==> KnownKind(ops[i]))
    ensures CountCalls(plans, n) == CountKnownPrefix(ops, n)
  {
    if n > 0 {
      CountCallsKnown(plans, ops, n - 1);
    }
  }

  /** One call and one entry per sub-operation of a known type; the others are skipped. */
  lemma MixedRunOneEntryPerKnownOp(collection: Value, ops: seq<Value>, adapter: Adapter)
    requires MixedRun(collection, ops, adapter).Ok?
    ensures |MixedRun(collection, ops, adapter).value.1| == CountKnown(ops)
    ensures |MixedRun(collection, ops, adapter).value.0| == CountKnown(ops)
  {
    var plans := MixedPlans(collection, ops);
    PlanPrefixOneEntryPerCall(plans, |ops|, adapter);
    PlanPrefixOkPlans(plans, |ops|, adapter);
    forall i | 0 <= i < |ops|
      ensures plans[i].Ok? && (plans[i].value.Some? <==> KnownKind(ops[i]))
    {
      MixedPlanKnown(collection, ops[i]);
    }
    CountCallsKnown(plans, ops, |ops|);
  }

  // ---------------------------------------------------------------------
  // One adapter

  /** The data `_safe_execute` collects from one adapter, or the exception
      that stopped it. */
  function ExecuteSpec(operation: string, inputs: Dict, adapter: Adapter): Result<Value> {
    var collection := DictGet(inputs, "collection_name", DefaultCollection);
    if operation == "insert" || operation == "batch_insert" then
      var vectors :- Subscript(VDict(inputs), "vectors");
      var call := InsertCall(collection, vectors, DictGet(inputs, "ids", VNone), DictGet(inputs, "metadata", VNone));
      Outcome(adapter([], call))
    else if operation == "search" then
      var query :- Subscript(VDict(inputs), "query_vector");
      var call := SearchCall(collection, query, DictGet(inputs, "limit", DefaultLimit),
                             DictGet(inputs, "metric_type", DefaultMetric));
      Outcome(adapter([], call))
    else if operation == "delete" then
      var ids :- Subscript(VDict(inputs), "ids");
      Outcome(adapter([], DeleteCall(collection, ids)))
    else if operation == "batch_search" then BatchSearchSpec(inputs, adapter)
    else if operation == "mixed_operations" then MixedSpec(inputs, adapter)
    else Err(UnknownOperation(operation))
  }

  /** The `batch_search` branch: one search per entry of `query_vectors`. */
  function BatchSearchSpec(inputs: Dict, adapter: Adapter): Result<Value> {
    var collection := DictGet(inputs, "collection_name", DefaultCollection);
    var queryVectors :- Subscript(VDict(inputs), "query_vectors");
    var queries :- Iterate(queryVectors);
    var run :- BatchRun(collection, queries, DictGet(inputs, "limit", DefaultLimit),
                        DictGet(inputs, "metric_type", DefaultMetric), adapter);
    Ok(VList(run.1))
  }

  /** The `mixed_operations` branch: one step per entry of `operations`. */
  function MixedSpec(inputs: Dict, adapter: Adapter): Result<Value> {
    var collection := DictGet(inputs, "collection_name", DefaultCollection);
    var operations :- Subscript(VDict(inputs), "operations");
    var ops :- Iterate(operations);
    var run :- MixedRun(collection, ops, adapter);
    Ok(VList(run.1))
  }

  /** The `DatabaseResult` built from an outcome. */
  function ResultOf(name: string, outcome: Result<Value>, elapsed: real): (r: DatabaseResult)
    ensures r.database == name && r.executionTime == elapsed
    ensures r.success <==> outcome.Ok?
    ensures outcome.Ok? ==> r.data == outcome.value && r.error == None
    ensures outcome.Err? ==> r.data == VNone && r.error == Some(outcome.error)
  {
    match outcome
    case Ok(v) => DatabaseResult(name, true, v, None, elapsed)
    case Err(e) => Failed(name, e, elapsed)
  }

  /** `_safe_execute`: never raises; an exception becomes a failed result. */
  method SafeExecute(name: string, adapter: Adapter, operation: string, inputs: Dict, elapsed: real)
    returns (r: DatabaseResult)
    ensures r == ResultOf(name, ExecuteSpec(operation, inputs, adapter), elapsed)
  {
    var collection := DictGet(inputs, "collection_name", DefaultCollection);
    var data: Result<Value>;
    if operation == "insert" || operation == "batch_insert" {
      var vectors := Subscript(VDict(inputs), "vectors");
      if vectors.Err? {
        return Failed(name, vectors.error, elapsed);
      }
      var call := InsertCall(collection, vectors.value, DictGet(inputs, "ids", VNone), DictGet(inputs, "metadata", VNone));
      data := Outcome(adapter([], call));
    } else if operation == "search" {
      var query := Subscript(VDict(inputs), "query_vector");
      if query.Err? {
        return Failed(name, query.error, elapsed);
      }
      var call := SearchCall(collection, query.value, DictGet(inputs, "limit", DefaultLimit),
                             DictGet(inputs, "metric_type", DefaultMetric));
      data := Outcome(adapter([], call));
    } else if operation == "delete" {
      var ids := Subscript(VDict(inputs), "ids");
      if ids.Err? {
        return Failed(name, ids.error, elapsed);
      }
      data := Outcome(adapter([], DeleteCall(collection, ids.value)));
    } else if operation == "batch_search" {
      var queryVectors := Subscript(VDict(inputs), "query_vectors");
      if queryVectors.Err? {
        return Failed(name, queryVectors.error, elapsed);
      }
      var queries := Iterate(queryVectors.value);
      if queries.Err? {
        return Failed(name, queries.error, elapsed);
      }
      var payloads := RunBatchSearch(collection, queries.value, DictGet(inputs, "limit", DefaultLimit),
                                     DictGet(inputs, "metric_type", DefaultMetric), adapter);
      data := if payloads.Ok? then Ok(VList(payloads.value)) else Err(payloads.error);
    } else if operation == "mixed_operations" {
      var operations := Subscript(VDict(inputs), "operations");
      if operations.Err? {
        return Failed(name, operations.error, elapsed);
      }
      var ops := Iterate(operations.value);
      if ops.Err? {
        return Failed(name, ops.error, elapsed);
      }
      var entries := RunMixedOperations(collection, ops.value, adapter);
      data := if entries.Ok? then Ok(VList(entries.value)) else Err(entries.error);
    } else {
      data := Err(UnknownOperation(operation));
    }
    return ResultOf(name, data, elapsed);
  }

  // ---------------------------------------------------------------------
  // All adapters

  /** What `asyncio.gather(..., return_exceptions=True)` hands back for one
      task: its result, or the exception that escaped it. */
  datatype Settled = Completed(result: DatabaseResult) | Crashed(error: Exception)

  /** The `db_results` loop of the normal path. */
  function FanIn(names: seq<string>, settled: seq<Settled>): (rs: Results)
    requires |settled| == |names|
    ensures Names(rs) == names
  {
    seq(|names|, i requires 0 <= i < |names| =>
      (names[i], match settled[i]
                 case Completed(r) => r
                 case Crashed(e) => Failed(names[i], e, 0.0)))
  }

  /** The fallback when `gather` itself raises: every adapter failed with
      the same gather error. */
  function GatherFallback(names: seq<string>, cause: string): (rs: Results)
    ensures Names(rs) == names
  {
    seq(|names|, i requires 0 <= i < |names| => (names[i], Failed(names[i], GatherError(cause), 0.0)))
  }

  function ClientNames(clients: seq<(string, Adapter)>): (ns: seq<string>)
    ensures |ns| == |clients| && forall i | 0 <= i < |clients| :: ns[i] == clients[i].0
  {
    seq(|clients|, i requires 0 <= i < |clients| => clients[i].0)
  }

  /** The outcome of every adapter's `_safe_execute` task. */
  function Executions(clients: seq<(string, Adapter)>, operation: string, inputs: Dict,
                      elapsed: string -> real): (s: seq<Settled>)
    ensures |s| == |clients|
  {
    seq(|clients|, i requires 0 <= i < |clients| =>
      Completed(ResultOf(clients[i].0, ExecuteSpec(operation, inputs, clients[i].1), elapsed(clients[i].0))))
  }

  /** What `_execute_on_all_databases` returns; `gatherFailure` is the
      message of an exception raised by `gather` itself, if any. */
  function ExecuteOnAllSpec(clients: seq<(string, Adapter)>, operation: string, inputs: Dict,
                            elapsed: string -> real, gatherFailure: Option<string>): Results
  {
    match gatherFailure
    case Some(cause) => GatherFallback(ClientNames(clients), cause)
    case None => FanIn(ClientNames(clients), Executions(clients, operation, inputs, elapsed))
  }

  /** `_execute_on_all_databases`, with the concurrent tasks run one after
      the other. */
  method ExecuteOnAllDatabases(clients: seq<(string, Adapter)>, operation: string, inputs: Dict,
                               elapsed: string -> real, gatherFailure: Option<string>)
    returns (dbResults: Results)
    ensures dbResults == ExecuteOnAllSpec(clients, operation, inputs, elapsed, gatherFailure)
  {
    if gatherFailure.Some? {
      return GatherFallback(ClientNames(clients), gatherFailure.value);
    }
    var settled: seq<Settled> := [];
    var i := 0;
    while i < |clients|
      invariant 0 <= i <= |clients|
      invariant settled == Executions(clients[..i], operation, inputs, elapsed)
    {
      var (name, adapter) := clients[i];
      var result := SafeExecute(name, adapter, operation, inputs, elapsed(name));
      settled := settled + [Completed(result)];
      i := i + 1;
    }
    assert clients[..i] == clients;
    dbResults := CollectSettled(ClientNames(clients), settled);
  }

  /** The loop turning every task's outcome into its adapter's entry. */
  method CollectSettled(names: seq<string>, settled: seq<Settled>) returns (dbResults: Results)
    requires |settled| == |names|
    ensures dbResults == FanIn(names, settled)
  {
    dbResults := [];
    var j := 0;
    while j < |names|
      invariant 0 <= j <= |names|
      invariant dbResults == FanIn(names[..j], settled[..j])
    {
      match settled[j] {
        case Completed(r) =>
          dbResults := dbResults + [(names[j], r)];
        case Crashed(e) =>
          dbResults := dbResults + [(names[j], Failed(names[j], e, 0.0))];
      }
      j := j + 1;
    }
    assert names[..j] == names && settled[..j] == settled;
  }

  /** `run_test`: the payloads and the elapsed time are keyed by adapter;
      `total` is the time from the start of the test. The comparators'
      exceptions propagate. */
  method RunTest(testId: string, operation: string, inputs: Dict, clients: seq<(string, Adapter)>,
                 elapsed: string -> real, gatherFailure: Option<string>, total: real)
    returns (r: Result<TestResult>)
    ensures r == RunTestSpec(testId, operation, inputs, clients, elapsed, gatherFailure, total)
  {
    var results := ExecuteOnAllDatabases(clients, operation, inputs, elapsed, gatherFailure);
    var inconsistencies := CompareResults(operation, results);
    if inconsistencies.Err? {
      return Err(inconsistencies.error);
    }
    var executionTime := seq(|results|, i requires 0 <= i < |results| => (results[i].0, total));
    var data := seq(|results|, i requires 0 <= i < |results| => (results[i].0, results[i].1.data));
    return Ok(TestResult(testId, operation, inputs, data, inconsistencies.value, executionTime));
  }

  function RunTestSpec(testId: string, operation: string, inputs: Dict, clients: seq<(string, Adapter)>,
                       elapsed: string -> real, gatherFailure: Option<string>, total: real): Result<TestResult>
  {
    var results := ExecuteOnAllSpec(clients, operation, inputs, elapsed, gatherFailure);
    var inconsistencies :- CompareSpec(operation, results);
    Ok(TestResult(testId, operation, inputs,
                  seq(|results|, i requires 0 <= i < |results| => (results[i].0, results[i].1.data)),
                  inconsistencies,
                  seq(|results|, i requires 0 <= i < |results| => (results[i].0, total))))
  }

  // ---------------------------------------------------------------------
  // Properties

  /** Exactly one result per configured adapter, in configuration order, on
      the normal path and on the gather fallback alike. */
  lemma FanInKeys(clients: seq<(string, Adapter)>, operation: string, inputs: Dict,
                  elapsed: string -> real, gatherFailure: Option<string>)
    ensures Names(ExecuteOnAllSpec(clients, operation, inputs, elapsed, gatherFailure)) == ClientNames(clients)
    ensures (forall i, j | 0 <= i < j < |clients| :: clients[i].0 != clients[j].0)
            ==> UniqueNames(ExecuteOnAllSpec(clients, operation, inputs, elapsed, gatherFailure))
  {
    var rs := ExecuteOnAllSpec(clients, operation, inputs, elapsed, gatherFailure);
    assert forall i | 0 <= i < |rs| :: rs[i].0 == Names(rs)[i] == clients[i].0;
  }

  /** Each adapter's result depends on that adapter alone: its own
      exception becomes its own failed result, with `data = None`. */
  lemma ErrorContainment(clients: seq<(string, Adapter)>, operation: string, inputs: Dict,
                         elapsed: string -> real, i: nat)
    requires i < |clients|
    ensures var r := ExecuteOnAllSpec(clients, operation, inputs, elapsed, None)[i].1;
      r == ResultOf(clients[i].0, ExecuteSpec(operation, inputs, clients[i].1), elapsed(clients[i].0))
      && (ExecuteSpec(operation, inputs, clients[i].1).Err? ==>
            !r.success && r.data == VNone && r.error == Some(ExecuteSpec(operation, inputs, clients[i].1).error))
  {
  }

  /** On the gather fallback every adapter failed with the gather error. */
  lemma GatherFailureFailsAll(clients: seq<(string, Adapter)>, operation: string, inputs: Dict,
                              elapsed: string -> real, cause: string)
    ensures forall i | 0 <= i < |clients| ::
      ExecuteOnAllSpec(clients, operation, inputs, elapsed, Some(cause))[i].1
        == DatabaseResult(clients[i].0, false, VNone, Some(GatherError(cause)), 0.0)
  {
  }

  /** `run_test`'s `results` and `execution_time` are keyed by exactly the
      configured adapters. */
  lemma RunTestKeys(testId: string, operation: string, inputs: Dict, clients: seq<(string, Adapter)>,
                    elapsed: string -> real, gatherFailure: Option<string>, total: real)
    requires RunTestSpec(testId, operation, inputs, clients, elapsed, gatherFailure, total).Ok?
    ensures var t := RunTestSpec(testId, operation, inputs, clients, elapsed, gatherFailure, total).value;
      Keys(t.results) == ClientNames(clients)
      && |t.executionTime| == |clients|
      && (forall i | 0 <= i < |clients| :: t.executionTime[i] == (clients[i].0, total))
      && t.testId == testId && t.operation == operation && t.inputs == inputs
  {
    FanInKeys(clients, operation, inputs, elapsed, gatherFailure);
  }

  /** An operation the dispatcher does not know fails on every adapter. */
  lemma UnknownOperationFails(operation: string, inputs: Dict, adapter: Adapter)
    requires operation !in ["insert", "search", "delete", "batch_insert", "batch_search", "mixed_operations"]
    ensures ExecuteSpec(operation, inputs, adapter) == Err(UnknownOperation(operation))
  {
  }

  /** A batch search yields one payload per query vector. */
  lemma BatchSearchOnePayloadPerQuery(inputs: Dict, adapter: Adapter)
    requires ExecuteSpec("batch_search", inputs, adapter).Ok?
    ensures "query_vectors" in Keys(inputs)
    ensures var data := ExecuteSpec("batch_search", inputs, adapter).value;
      data.VList? && |data.items| == |Iterate(Lookup(inputs, "query_vectors").value).value|
  {
    assert ExecuteSpec("batch_search", inputs, adapter) == BatchSearchSpec(inputs, adapter);
    var queries := Iterate(Lookup(inputs, "query_vectors").value).value;
    BatchRunOnePayloadPerQuery(DictGet(inputs, "collection_name", DefaultCollection), queries,
                               DictGet(inputs, "limit", DefaultLimit), DictGet(inputs, "metric_type", DefaultMetric),
                               adapter);
  }

  /** Mixed operations yield one entry per sub-operation of a known type. */
  lemma MixedOneEntryPerKnownOp(inputs: Dict, adapter: Adapter)
    requires ExecuteSpec("mixed_operations", inputs, adapter).Ok?
    ensures "operations" in Keys(inputs)
    ensures var data := ExecuteSpec("mixed_operations", inputs, adapter).value;
      data.VList? && |data.items| == CountKnown(Iterate(Lookup(inputs, "operations").value).value)
  {
    assert ExecuteSpec("mixed_operations", inputs, adapter) == MixedSpec(inputs, adapter);
    var ops := Iterate(Lookup(inputs, "operations").value).value;
    MixedRunOneEntryPerKnownOp(DictGet(inputs, "collection_name", DefaultCollection), ops, adapter);
  }

  // ---------------------------------------------------------------------
  // Target collection

  /** `adapter` for calls to `collection`; any other call raises. */
  function OnlyCollection(adapter: Adapter, collection: Value): Adapter {
    (before: seq<Call>, call: Call) =>
      if call.collection == collection then adapter(before, call)
      else Raised(AdapterError("call outside " + Str(collection)))
  }

  lemma OnlyCollectionAgrees(adapter: Adapter, collection: Value, before: seq<Call>, call: Call)
    requires call.collection == collection
    ensures OnlyCollection(adapter, collection)(before, call) == adapter(before, call)
  {
  }

  /** Calls that all go to `collection` never reach the difference. */
  lemma {:induction false} CallsPrefixInCollection(calls: seq<Call>, n: nat, adapter: Adapter, collection: Value)
    requires n <= |calls| && forall i | 0 <= i < n :: calls[i].collection == collection
    ensures CallsPrefix(calls, n, adapter) == CallsPrefix(calls, n, OnlyCollection(adapter, collection))
  {
    if n > 0 {
      CallsPrefixInCollection(calls, n - 1, adapter, collection);
      var before := CallsPrefix(calls, n - 1, adapter);
      if before.Ok? {
        OnlyCollectionAgrees(adapter, collection, before.value.0, calls[n - 1]);
      }
    }
  }

  /** Every call a sub-operation plans goes to the collection it is given. */
  lemma MixedPlanInCollection(collection: Value, op: Value)
    ensures MixedPlan(collection, op).Ok? && MixedPlan(collection, op).value.Some?
            ==> MixedPlan(collection, op).value.value.0.collection == collection
  {
  }

  lemma {:induction false} PlanPrefixInCollection(plans: seq<Result<Option<(Call, Value)>>>, n: nat,
                                                  adapter: Adapter, collection: Value)
    requires n <= |plans|
    requires forall i | 0 <= i < n :: plans[i].Ok? && plans[i].value.Some? ==> plans[i].value.value.0.collection == collection
    ensures PlanPrefix(plans, n, adapter) == PlanPrefix(plans, n, OnlyCollection(adapter, collection))
  {
    if n > 0 {
      PlanPrefixInCollection(plans, n - 1, adapter, collection);
      var before := PlanPrefix(plans, n - 1, adapter);
      var planned := plans[n - 1];
      if before.Ok? && planned.Ok? && planned.value.Some? {
        OnlyCollectionAgrees(adapter, collection, before.value.0, planned.value.value.0);
      }
    }
  }

  lemma BatchSearchInCollection(inputs: Dict, adapter: Adapter)
    ensures var collection := DictGet(inputs, "collection_name", DefaultCollection);
      BatchSearchSpec(inputs, adapter) == BatchSearchSpec(inputs, OnlyCollection(adapter, collection))
  {
    var collection := DictGet(inputs, "collection_name", DefaultCollection);
    var queryVectors := Subscript(VDict(inputs), "query_vectors");
    if queryVectors.Ok? && Iterate(queryVectors.value).Ok? {
      var queries := Iterate(queryVectors.value).value;
      var calls := SearchCalls(collection, queries, DictGet(inputs, "limit", DefaultLimit),
                               DictGet(inputs, "metric_type", DefaultMetric));
      CallsPrefixInCollection(calls, |queries|, adapter, collection);
    }
  }

  lemma MixedInCollection(inputs: Dict, adapter: Adapter)
    ensures var collection := DictGet(inputs, "collection_name", DefaultCollection);
      MixedSpec(inputs, adapter) == MixedSpec(inputs, OnlyCollection(adapter, collection))
  {
    var collection := DictGet(inputs, "collection_name", DefaultCollection);
    var operations := Subscript(VDict(inputs), "operations");
    if operations.Ok? && Iterate(operations.value).Ok? {
      var ops := Iterate(operations.value).value;
      var plans := MixedPlans(collection, ops);
      forall i | 0 <= i < |ops|
        ensures plans[i].Ok? && plans[i].value.Some? ==> plans[i].value.value.0.collection == collection
      {
        MixedPlanInCollection(collection, ops[i]);
      }
      PlanPrefixInCollection(plans, |ops|, adapter, collection);
    }
  }

  /** Every adapter call an execution makes goes to `collection_name`, or to
      `test_collection` when it is absent: an adapter that raises on any
      other collection gives the same outcome, for every operation. */
  lemma CallsStayInCollection(operation: string, inputs: Dict, adapter: Adapter)
    ensures var collection := DictGet(inputs, "collection_name", DefaultCollection);
      ExecuteSpec(operation, inputs, adapter) == ExecuteSpec(operation, inputs, OnlyCollection(adapter, collection))
  {
    var collection := DictGet(inputs, "collection_name", DefaultCollection);
    var only := OnlyCollection(adapter, collection);
    if operation == "batch_search" {
      assert ExecuteSpec(operation, inputs, adapter) == BatchSearchSpec(inputs, adapter);
      assert ExecuteSpec(operation, inputs, only) == BatchSearchSpec(inputs, only);
      BatchSearchInCollection(inputs, adapter);
    } else if operation == "mixed_operations" {
      assert ExecuteSpec(operation, inputs, adapter) == MixedSpec(inputs, adapter);
      assert ExecuteSpec(operation, inputs, only) == MixedSpec(inputs, only);
      MixedInCollection(inputs, adapter);
    }
  }

  /** Without `collection_name`, every call goes to `test_collection`. */
  lemma DefaultCollectionUsed(operation: string, inputs: Dict, adapter: Adapter)
    requires "collection_name" !in Keys(inputs)
    ensures ExecuteSpec(operation, inputs, adapter)
            == ExecuteSpec(operation, inputs, OnlyCollection(adapter, VStr("test_collection")))
  {
    CallsStayInCollection(operation, inputs, adapter);
  }
}
