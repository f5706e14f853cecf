/**
 * The fuzz-test generator: `FuzzConfig`, the random test cases and the edge
 * cases. Every random draw is a nondeterministic choice constrained to the
 * range the `random` module guarantees, so each contract holds for every
 * outcome of the draws. Vector components are `Float`s: finite reals, or
 * the infinities and NaN the generator appends.
 */
module Generator {
  import opened Values
  import Orchestration

  datatype FuzzConfig = FuzzConfig(
    vectorDimension: int,
    maxVectorsPerBatch: int,
    maxMetadataSize: int,
    probabilityInvalidVector: real,
    probabilityLargeVector: real,
    probabilityNegativeFloats: real,
    probabilitySpecialChars: real)

  /** `FuzzConfig()` */
  const DefaultConfig := FuzzConfig(128, 100, 10, 0.1, 0.05, 0.1, 0.05)

  const Operations: seq<string> :=
    ["insert", "search", "delete", "batch_insert", "batch_search", "mixed_operations"]
  const Metrics: seq<string> := ["L2", "cosine", "ip"]
  const FieldTypes: seq<string> := ["string", "number", "boolean", "list", "nested"]
  const NestedValues: seq<Value> := [VStr("nested_string"), VInt(42), VBool(true)]
  const MixedTypes: seq<string> := ["insert", "search", "delete"]
  const InvalidIds: seq<Value> := [VStr("invalid_id_1"), VStr("nonexistent_id"), VStr("")]
  const InvalidCollectionNames: seq<string> := ["", "invalid-name", "123", "name with spaces", "!@#$%"]
  const EdgeCases: seq<string> :=
    ["empty_vector", "very_large_vector", "nan_values", "inf_values",
     "very_large_batch", "empty_metadata", "malformed_id", "nonexistent_collection"]

  /** `string.ascii_letters + string.digits`, and with `'!@#$%^&*()'`. */
  const Alphanumerics: string := "abcdefghijklmnopqrstuvwxyzABCDEFGHIJKLMNOPQRSTUVWXYZ0123456789"
  const SpecialAlphabet: string := Alphanumerics + "!@#$%^&*()"

  // ---------------------------------------------------------------------
  // The `random` module

  /** `random.random()` */
  method Random() returns (u: real)
    ensures 0.0 <= u < 1.0
  {
    u :| 0.0 <= u < 1.0;
  }

  /** `random.uniform(lo, hi)`, which is `lo + (hi - lo) * random.random()`. */
  method Uniform(lo: real, hi: real) returns (x: real)
    ensures lo <= hi ==> lo <= x <= hi
    ensures hi < lo ==> hi <= x <= lo
  {
    var u := Random();
    if lo <= hi {
      var w := hi - lo;
      ScaleBounds(w, u);
      x := lo + w * u;
    } else {
      var w := lo - hi;
      ScaleBounds(w, u);
      var d := w * u;
      assert 0.0 <= d <= w;
      x := lo - d;
      assert x >= lo - w;
    }
  }

  /** Scaling by a fraction stays between zero and the scaled amount. */
  lemma ScaleBounds(w: real, u: real)
    requires w >= 0.0 && 0.0 <= u <= 1.0
    ensures 0.0 <= w * u <= w
  {
    assert w * (1.0 - u) == w - w * u;
    assert w * (1.0 - u) >= 0.0;
  }

  /** `random.randint(lo, hi)`, which raises on an empty range. */
  method RandInt(lo: int, hi: int) returns (r: Result<int>)
    ensures r.Ok? <==> lo <= hi
    ensures r.Ok? ==> lo <= r.value <= hi
  {
    if hi < lo {
      return Err(ValueError("empty range for randrange()"));
    }
    var x :| lo <= x <= hi;
    return Ok(x);
  }

  /** `random.choice(xs)` on a non-empty list. */
  method Choice<T(==)>(xs: seq<T>) returns (x: T)
    requires xs != []
    ensures x in xs
  {
    var i :| 0 <= i < |xs|;
    x := xs[i];
  }

  /** `''.join(random.choices(alphabet, k=k))` */
  method Choices(alphabet: string, k: nat) returns (s: string)
    requires alphabet != []
    ensures |s| == k && forall i | 0 <= i < |s| :: s[i] in alphabet
  {
    ghost var w := seq(k, _ => alphabet[0]);
    assert |w| == k && forall i | 0 <= i < |w| :: w[i] in alphabet;
    s :| |s| == k && forall i | 0 <= i < |s| :: s[i] in alphabet;
  }

  // ---------------------------------------------------------------------
  // Names

  /** `f"field_{i}"` */
  function FieldName(i: nat): string { "field_" + NatToString(i) }

  /** `f"id_{k}"` */
  function IdString(k: nat): string { "id_" + NatToString(k) }

  /** `f"test_collection_{k}"` */
  function CollectionName(k: nat): string { "test_collection_" + NatToString(k) }

  lemma FieldNameInjective(m: nat, n: nat)
    requires FieldName(m) == FieldName(n)
    ensures m == n
  {
    assert FieldName(m)[6..] == NatToString(m);
    assert FieldName(n)[6..] == NatToString(n);
    NatToStringInjective(m, n);
  }

  lemma IdStringInjective(m: nat, n: nat)
    requires IdString(m) == IdString(n)
    ensures m == n
  {
    assert IdString(m)[3..] == NatToString(m);
    assert IdString(n)[3..] == NatToString(n);
    NatToStringInjective(m, n);
  }

  // ---------------------------------------------------------------------
  // Shapes

  /** A finite component within `[-bound, bound]`. */
  predicate InRange(f: Float, bound: real) {
    f.Finite? && -bound <= f.r <= bound
  }

  /** `len(range(n))` */
  function RangeLength(n: int): nat { if n > 0 then n else 0 }

  /** The invalid branch: empty, or 1..256 components in `[-1, 1]`. */
  predicate InvalidVector(v: seq<Float>) {
    |v| <= 256 && forall i | 0 <= i < |v| :: InRange(v[i], 1.0)
  }

  /** What may be appended after the regular components. */
  predicate SpecialTail(t: seq<Float>) {
    t == [] || t == [PosInf, NegInf] || t == [NaN] || t == [PosInf, NegInf, NaN]
  }

  /** `len(range(n))` components within `bound`, then a special tail. */
  predicate RegularVector(v: seq<Float>, n: int, bound: real) {
    RangeLength(n) <= |v|
    && (forall i | 0 <= i < RangeLength(n) :: InRange(v[i], bound))
    && SpecialTail(v[RangeLength(n)..])
  }

  /** Components reach `[-10, 10]` only when negative floats can be drawn. */
  function ComponentBound(config: FuzzConfig): real {
    if config.probabilityNegativeFloats > 0.0 then 10.0 else 1.0
  }

  /** Every vector `_generate_vector` can return for `dimension`. */
  predicate VectorShape(config: FuzzConfig, dimension: int, v: seq<Float>) {
    (config.probabilityInvalidVector > 0.0 && InvalidVector(v))
    || (config.probabilityInvalidVector < 1.0 && config.probabilityLargeVector < 1.0
        && RegularVector(v, dimension, ComponentBound(config)))
    || (config.probabilityInvalidVector < 1.0 && config.probabilityLargeVector > 0.0
        && exists n | 256 <= n <= 1000 :: RegularVector(v, n, ComponentBound(config)))
  }

  /** A list of floats as a Python value. */
  function VectorValue(v: seq<Float>): (val: Value)
    ensures val.VList? && |val.items| == |v|
    ensures forall i | 0 <= i < |v| :: val.items[i] == VFloat(v[i])
  {
    VList(seq(|v|, i requires 0 <= i < |v| => VFloat(v[i])))
  }

  predicate IsVectorValue(val: Value) {
    val.VList? && forall i | 0 <= i < |val.items| :: val.items[i].VFloat?
  }

  function FloatsOf(items: seq<Value>): (v: seq<Float>)
    requires forall i | 0 <= i < |items| :: items[i].VFloat?
    ensures |v| == |items| && forall i | 0 <= i < |items| :: items[i] == VFloat(v[i])
  {
    seq(|items|, i requires 0 <= i < |items| => items[i].f)
  }

  predicate VectorValueShape(config: FuzzConfig, val: Value) {
    IsVectorValue(val) && VectorShape(config, config.vectorDimension, FloatsOf(val.items))
  }

  /** `n` finite components within `bound`. */
  predicate UniformVectorValue(val: Value, n: nat, bound: real) {
    IsVectorValue(val) && |val.items| == n
    && forall i | 0 <= i < n :: InRange(val.items[i].f, bound)
  }

  predicate IsGeneratedId(s: string) {
    exists k | 0 <= k <= 1000000 :: s == IdString(k)
  }

  predicate IsIdValue(v: Value) {
    v.VStr? && IsGeneratedId(v.s)
  }

  predicate IsCollectionName(s: string) {
    s in InvalidCollectionNames || exists k | 1 <= k <= 1000 :: s == CollectionName(k)
  }

  predicate CollectionNameShape(v: Value) {
    v.VStr? && IsCollectionName(v.s)
  }

  /** One metadata value of one of the five field types. */
  predicate FieldShape(config: FuzzConfig, v: Value) {
    match v
    case VStr(s) =>
      1 <= |s|
      && ((|s| <= 20 && forall i | 0 <= i < |s| :: s[i] in Alphanumerics)
          || (config.probabilitySpecialChars > 0.0 && |s| <= 50 && forall i | 0 <= i < |s| :: s[i] in SpecialAlphabet))
    case VInt(n) => -1000000 <= n <= 1000000
    case VBool(_) => true
    case VList(xs) => 1 <= |xs| <= 10 && forall i | 0 <= i < |xs| :: xs[i].VInt? && 0 <= xs[i].i <= 100
    case VDict(d) => |d| == 1 && d[0].0 == "nested_value" && d[0].1 in NestedValues
    case _ => false
  }

  /** At most `max_metadata_size` fields, keyed `field_0 .. field_{n-1}`. */
  predicate MetadataShape(config: FuzzConfig, m: Dict) {
    |m| <= config.maxMetadataSize
    && forall i | 0 <= i < |m| :: m[i].0 == FieldName(i) && FieldShape(config, m[i].1)
  }

  predicate MetadataEntryShape(config: FuzzConfig, v: Value) {
    v == VNone || (v.VDict? && MetadataShape(config, v.entries))
  }

  /** The parameters of `insert` and `batch_insert`. */
  predicate InsertShape(config: FuzzConfig, d: Dict) {
    |d| == 4 && d[0].0 == "vectors" && d[1].0 == "ids" && d[2].0 == "metadata" && d[3].0 == "collection_name"
    && d[0].1.VList? && d[1].1.VList? && d[2].1.VList?
    && 1 <= |d[0].1.items| <= config.maxVectorsPerBatch
    && |d[1].1.items| == |d[0].1.items| && |d[2].1.items| == |d[0].1.items|
    && (forall i | 0 <= i < |d[0].1.items| :: VectorValueShape(config, d[0].1.items[i]))
    && (forall i | 0 <= i < |d[1].1.items| :: IsIdValue(d[1].1.items[i]))
    && (forall i | 0 <= i < |d[2].1.items| :: MetadataEntryShape(config, d[2].1.items[i]))
    && CollectionNameShape(d[3].1)
  }

  /** The parameters of `search`. */
  predicate SearchShape(config: FuzzConfig, d: Dict) {
    |d| == 4 && d[0].0 == "query_vector" && d[1].0 == "limit" && d[2].0 == "metric_type" && d[3].0 == "collection_name"
    && VectorValueShape(config, d[0].1)
    && d[1].1.VInt? && 1 <= d[1].1.i <= 100
    && d[2].1.VStr? && d[2].1.s in Metrics
    && CollectionNameShape(d[3].1)
  }

  /** The parameters of `delete`: 1..50 generated ids, possibly followed by
      the three invalid ones. */
  predicate DeleteShape(d: Dict) {
    |d| == 2 && d[0].0 == "ids" && d[1].0 == "collection_name" && d[0].1.VList?
    && CollectionNameShape(d[1].1)
    && var ids := d[0].1.items;
       ((1 <= |ids| <= 50 && forall i | 0 <= i < |ids| :: IsIdValue(ids[i]))
        || (4 <= |ids| <= 53 && ids[|ids| - 3..] == InvalidIds
            && forall i | 0 <= i < |ids| - 3 :: IsIdValue(ids[i])))
  }

  /** The parameters of `batch_search`. */
  predicate BatchSearchShape(config: FuzzConfig, d: Dict) {
    |d| == 4 && d[0].0 == "query_vectors" && d[1].0 == "limit" && d[2].0 == "metric_type" && d[3].0 == "collection_name"
    && d[0].1.VList? && 1 <= |d[0].1.items| <= 10
    && (forall i | 0 <= i < |d[0].1.items| :: VectorValueShape(config, d[0].1.items[i]))
    && d[1].1.VInt? && 1 <= d[1].1.i <= 50
    && d[2].1.VStr? && d[2].1.s in Metrics
    && CollectionNameShape(d[3].1)
  }

  /** One sub-operation of `mixed_operations`. */
  predicate MixedOpShape(config: FuzzConfig, op: Value) {
    op.VDict? && |op.entries| >= 2 && op.entries[0].0 == "type"
    && var d := op.entries;
       ((d[0].1 == VStr("insert") && |d| == 3 && d[1].0 == "vectors" && d[2].0 == "id"
         && d[1].1.VList? && |d[1].1.items| == 1 && VectorValueShape(config, d[1].1.items[0])
         && IsIdValue(d[2].1))
        || (d[0].1 == VStr("search") && |d| == 3 && d[1].0 == "query_vector" && d[2].0 == "limit"
            && VectorValueShape(config, d[1].1) && d[2].1.VInt? && 1 <= d[2].1.i <= 20)
        || (d[0].1 == VStr("delete") && |d| == 2 && d[1].0 == "ids"
            && d[1].1.VList? && |d[1].1.items| == 1 && IsIdValue(d[1].1.items[0])))
  }

  /** The parameters of `mixed_operations`. */
  predicate MixedShape(config: FuzzConfig, d: Dict) {
    |d| == 2 && d[0].0 == "operations" && d[1].0 == "collection_name"
    && d[0].1.VList? && 2 <= |d[0].1.items| <= 10
    && (forall i | 0 <= i < |d[0].1.items| :: MixedOpShape(config, d[0].1.items[i]))
    && CollectionNameShape(d[1].1)
  }

  /** The parameters each operation is generated with. */
  predicate ParamsShape(config: FuzzConfig, operation: string, d: Dict) {
    if operation == "insert" || operation == "batch_insert" then InsertShape(config, d)
    else if operation == "search" then SearchShape(config, d)
    else if operation == "delete" then DeleteShape(d)
    else if operation == "batch_search" then BatchSearchShape(config, d)
    else operation == "mixed_operations" && MixedShape(config, d)
  }

  // ---------------------------------------------------------------------
  // Generators

  /** `_generate_vector(dimension)` */
  method GenerateVector(config: FuzzConfig, dimension: Option<int>) returns (v: seq<Float>)
    ensures VectorShape(config, dimension.GetOr(config.vectorDimension), v)
  {
    var dim := dimension.GetOr(config.vectorDimension);
    var invalid := Random();
    if invalid < config.probabilityInvalidVector {
      var empty := Random();
      if empty < 0.5 {
        return [];
      }
      var n := RandInt(1, 256);
      v := UniformVector(n.value, 1.0);
      return;
    }
    ghost var requested := dim;
    var large := Random();
    if large < config.probabilityLargeVector {
      var d := RandInt(256, 1000);
      dim := d.value;
    }
    var bound := ComponentBound(config);
    v := [];
    var i := 0;
    while i < dim
      invariant 0 <= i <= RangeLength(dim) && |v| == i
      invariant forall j | 0 <= j < i :: InRange(v[j], bound)
    {
      var negative := Random();
      var x;
      if negative < config.probabilityNegativeFloats {
        x := Uniform(-10.0, 10.0);
      } else {
        x := Uniform(-1.0, 1.0);
      }
      v := v + [Finite(x)];
      i := i + 1;
    }
    ghost var regular := v;
    var infinities := Random();
    if infinities < 0.01 {
      v := v + [PosInf, NegInf];
    }
    var nan := Random();
    if nan < 0.01 {
      v := v + [NaN];
    }
    assert v[..|regular|] == regular;
    assert RegularVector(v, dim, bound);
    if dim != requested {
      assert 256 <= dim <= 1000;
    }
  }

  /** `[random.uniform(-bound, bound) for _ in range(n)]` */
  method UniformVector(n: int, bound: real) returns (v: seq<Float>)
    requires bound >= 0.0
    ensures |v| == RangeLength(n) && forall i | 0 <= i < |v| :: InRange(v[i], bound)
  {
    v := [];
    var i := 0;
    while i < n
      invariant 0 <= i <= RangeLength(n) && |v| == i
      invariant forall j | 0 <= j < i :: InRange(v[j], bound)
    {
      var x := Uniform(-bound, bound);
      v := v + [Finite(x)];
      i := i + 1;
    }
  }

  /** A `_generate_vector()` call, as the value placed in a parameter dict. */
  method GenerateVectorValue(config: FuzzConfig) returns (val: Value)
    ensures VectorValueShape(config, val)
  {
    var v := GenerateVector(config, None);
    val := VectorValue(v);
    assert FloatsOf(val.items) == v;
  }

  /** `_generate_metadata()` */
  method GenerateMetadata(config: FuzzConfig) returns (r: Result<Dict>)
    ensures r.Ok? <==> config.maxMetadataSize >= 0
    ensures r.Ok? ==> MetadataShape(config, r.value)
  {
    var numFields :- RandInt(0, config.maxMetadataSize);
    var metadata: Dict := [];
    var i := 0;
    while i < numFields
      invariant 0 <= i <= numFields && |metadata| == i
      invariant forall j | 0 <= j < i :: metadata[j].0 == FieldName(j) && FieldShape(config, metadata[j].1)
    {
      var value := GenerateField(config);
      FieldNameFresh(metadata, i);
      // `metadata[f'field_{i}'] = value` on a key not yet present appends it
      metadata := metadata + [(FieldName(i), value)];
      i := i + 1;
    }
    return Ok(metadata);
  }

  /** A key `field_i` is not among `field_0 .. field_{i-1}`. */
  lemma FieldNameFresh(metadata: Dict, i: nat)
    requires |metadata| == i && forall j | 0 <= j < i :: metadata[j].0 == FieldName(j)
    ensures FieldName(i) !in Keys(metadata)
  {
    if FieldName(i) in Keys(metadata) {
      var j :| 0 <= j < i && Keys(metadata)[j] == FieldName(i);
      FieldNameInjective(i, j);
    }
  }

  /** The value of one metadata field. */
  method GenerateField(config: FuzzConfig) returns (value: Value)
    ensures FieldShape(config, value)
  {
    var fieldType := Choice(FieldTypes);
    if fieldType == "string" {
      var special := Random();
      if special < config.probabilitySpecialChars {
        var k := RandInt(1, 50);
        var s := Choices(SpecialAlphabet, k.value);
        value := VStr(s);
      } else {
        var k := RandInt(1, 20);
        var s := Choices(Alphanumerics, k.value);
        value := VStr(s);
      }
    } else if fieldType == "number" {
      var n := RandInt(-1000000, 1000000);
      value := VInt(n.value);
    } else if fieldType == "boolean" {
      var b := Choice([true, false]);
      value := VBool(b);
    } else if fieldType == "list" {
      var k := RandInt(1, 10);
      var xs := RandIntList(k.value, 0, 100);
      value := VList(xs);
    } else {
      var nested := Choice(NestedValues);
      value := VDict([("nested_value", nested)]);
    }
  }

  /** `[random.randint(lo, hi) for _ in range(n)]` with `lo <= hi`. */
  method RandIntList(n: nat, lo: int, hi: int) returns (xs: seq<Value>)
    requires lo <= hi
    ensures |xs| == n && forall i | 0 <= i < n :: xs[i].VInt? && lo <= xs[i].i <= hi
  {
    xs := [];
    while |xs| < n
      invariant |xs| <= n && forall i | 0 <= i < |xs| :: xs[i].VInt? && lo <= xs[i].i <= hi
    {
      var x := RandInt(lo, hi);
      xs := xs + [VInt(x.value)];
    }
  }

  /** `f"id_{random.randint(0, 1000000)}"` */
  method GenerateId() returns (id: string)
    ensures IsGeneratedId(id)
  {
    var k := RandInt(0, 1000000);
    id := IdString(k.value);
  }

  /** `[f"id_{random.randint(0, 1000000)}" for _ in range(n)]` */
  method GenerateIds(n: nat) returns (ids: seq<Value>)
    ensures |ids| == n && forall i | 0 <= i < n :: IsIdValue(ids[i])
  {
    ids := [];
    while |ids| < n
      invariant |ids| <= n && forall i | 0 <= i < |ids| :: IsIdValue(ids[i])
    {
      var id := GenerateId();
      ids := ids + [VStr(id)];
    }
  }

  /** `[self._generate_vector() for _ in range(n)]` */
  method GenerateVectors(config: FuzzConfig, n: nat) returns (vectors: seq<Value>)
    ensures |vectors| == n && forall i | 0 <= i < n :: VectorValueShape(config, vectors[i])
  {
    vectors := [];
    while |vectors| < n
      invariant |vectors| <= n && forall i | 0 <= i < |vectors| :: VectorValueShape(config, vectors[i])
    {
      var v := GenerateVectorValue(config);
      vectors := vectors + [v];
    }
  }

  /** The metadata loop of `_generate_insert_params`: a dict for about 70% of
      the vectors, `None` for the rest. */
  method GenerateMetadataList(config: FuzzConfig, n: nat) returns (r: Result<seq<Value>>)
    ensures config.maxMetadataSize >= 0 ==> r.Ok?
    ensures r.Ok? ==> |r.value| == n && forall i | 0 <= i < n :: MetadataEntryShape(config, r.value[i])
  {
    var metadata: seq<Value> := [];
    var i := 0;
    while i < n
      invariant 0 <= i <= n && |metadata| == i
      invariant forall j | 0 <= j < i :: MetadataEntryShape(config, metadata[j])
    {
      var draw := Random();
      if draw < 0.7 {
        var m :- GenerateMetadata(config);
        metadata := metadata + [VDict(m)];
      } else {
        metadata := metadata + [VNone];
      }
      i := i + 1;
    }
    return Ok(metadata);
  }

  /** `_generate_collection_name()` */
  method GenerateCollectionName() returns (name: string)
    ensures IsCollectionName(name)
  {
    var invalid := Random();
    if invalid < 0.1 {
      name := Choice(InvalidCollectionNames);
    } else {
      var k := RandInt(1, 1000);
      name := CollectionName(k.value);
    }
  }

  /** `_generate_insert_params()`, which `_generate_batch_insert_params` also
      returns. */
  method GenerateInsertParams(config: FuzzConfig) returns (r: Result<Dict>)
    ensures config.maxVectorsPerBatch < 1 ==> r.Err?
    ensures config.maxVectorsPerBatch >= 1 && config.maxMetadataSize >= 0 ==> r.Ok?
    ensures r.Ok? ==> InsertShape(config, r.value)
  {
    var numVectors :- RandInt(1, config.maxVectorsPerBatch);
    var vectors := GenerateVectors(config, numVectors);
    var ids := GenerateIds(numVectors);
    var metadata :- GenerateMetadataList(config, numVectors);
    var name := GenerateCollectionName();
    return Ok([("vectors", VList(vectors)), ("ids", VList(ids)), ("metadata", VList(metadata)),
               ("collection_name", VStr(name))]);
  }

  /** `_generate_search_params()` */
  method GenerateSearchParams(config: FuzzConfig) returns (params: Dict)
    ensures SearchShape(config, params)
  {
    var queryVector := GenerateVectorValue(config);
    var limit := RandInt(1, 100);
    var metric := Choice(Metrics);
    var name := GenerateCollectionName();
    params := [("query_vector", queryVector), ("limit", VInt(limit.value)), ("metric_type", VStr(metric)),
               ("collection_name", VStr(name))];
  }

  /** `_generate_delete_params()` */
  method GenerateDeleteParams() returns (params: Dict)
    ensures DeleteShape(params)
  {
    var numIds := RandInt(1, 50);
    var ids := GenerateIds(numIds.value);
    var invalid := Random();
    if invalid < 0.2 {
      ids := ids + InvalidIds;
    }
    var name := GenerateCollectionName();
    params := [("ids", VList(ids)), ("collection_name", VStr(name))];
  }

  /** `_generate_batch_search_params()` */
  method GenerateBatchSearchParams(config: FuzzConfig) returns (params: Dict)
    ensures BatchSearchShape(config, params)
  {
    var numQueries := RandInt(1, 10);
    var queryVectors := GenerateVectors(config, numQueries.value);
    var limit := RandInt(1, 50);
    var metric := Choice(Metrics);
    var name := GenerateCollectionName();
    params := [("query_vectors", VList(queryVectors)), ("limit", VInt(limit.value)), ("metric_type", VStr(metric)),
               ("collection_name", VStr(name))];
  }

  /** `_generate_mixed_operations_params()` */
  method GenerateMixedParams(config: FuzzConfig) returns (params: Dict)
    ensures MixedShape(config, params)
  {
    var operations: seq<Value> := [];
    var numOperations := RandInt(2, 10);
    var i := 0;
    while i < numOperations.value
      invariant 0 <= i <= numOperations.value && |operations| == i
      invariant forall j | 0 <= j < i :: MixedOpShape(config, operations[j])
    {
      var op := GenerateMixedOp(config);
      operations := operations + [op];
      i := i + 1;
    }
    var name := GenerateCollectionName();
    params := [("operations", VList(operations)), ("collection_name", VStr(name))];
  }

  /** One sub-operation of `_generate_mixed_operations_params`. */
  method GenerateMixedOp(config: FuzzConfig) returns (op: Value)
    ensures MixedOpShape(config, op)
  {
    var opType := Choice(MixedTypes);
    if opType == "insert" {
      var v := GenerateVectorValue(config);
      var id := GenerateId();
      op := VDict([("type", VStr("insert")), ("vectors", VList([v])), ("id", VStr(id))]);
    } else if opType == "search" {
      var v := GenerateVectorValue(config);
      var limit := RandInt(1, 20);
      op := VDict([("type", VStr("search")), ("query_vector", v), ("limit", VInt(limit.value))]);
    } else {
      var id := GenerateId();
      op := VDict([("type", VStr("delete")), ("ids", VList([VStr(id)]))]);
    }
  }

  /** `generate_test()`: one of the six operations, never `'unknown'`, with
      the parameters of that operation. Only the insert parameters can raise,
      through `randint` on an empty range. */
  method GenerateTest(config: FuzzConfig) returns (r: Result<(string, Dict)>)
    ensures r.Ok? ==> r.value.0 in Operations && ParamsShape(config, r.value.0, r.value.1)
    ensures r.Err? ==> config.maxVectorsPerBatch < 1 || config.maxMetadataSize < 0
  {
    var operation := Choice(Operations);
    if operation == "insert" || operation == "batch_insert" {
      var params :- GenerateInsertParams(config);
      return Ok((operation, params));
    } else if operation == "search" {
      var params := GenerateSearchParams(config);
      return Ok(("search", params));
    } else if operation == "delete" {
      var params := GenerateDeleteParams();
      return Ok(("delete", params));
    } else if operation == "batch_search" {
      var params := GenerateBatchSearchParams(config);
      return Ok(("batch_search", params));
    } else {
      var params := GenerateMixedParams(config);
      return Ok(("mixed_operations", params));
    }
  }

  // ---------------------------------------------------------------------
  // Edge cases

  /** An insert of one vector with a fixed id and empty metadata. */
  predicate SingleInsertShape(d: Dict, id: string) {
    |d| == 4 && d[0].0 == "vectors" && d[0].1.VList? && |d[0].1.items| == 1
    && d[1] == ("ids", VList([VStr(id)])) && d[2] == ("metadata", VList([VDict([])]))
    && d[3].0 == "collection_name" && CollectionNameShape(d[3].1)
  }

  /** A search with limit 10 and metric `L2`. */
  predicate FixedSearchShape(d: Dict) {
    |d| == 4 && d[0].0 == "query_vector" && d[1] == ("limit", VInt(10)) && d[2] == ("metric_type", VStr("L2"))
    && d[3].0 == "collection_name"
  }

  /** `vector_dimension` components, `special` at every index divisible by
      10 and finite in `[-1, 1]` elsewhere. */
  predicate SpikedVector(config: FuzzConfig, val: Value, special: Float) {
    IsVectorValue(val) && |val.items| == RangeLength(config.vectorDimension)
    && forall i | 0 <= i < |val.items| ::
         if i % 10 == 0 then val.items[i] == VFloat(special) else InRange(val.items[i].f, 1.0)
  }

  /** `[f"id_{i}" for i in range(1000)]` */
  function LargeBatchIds(): (ids: seq<Value>)
    ensures |ids| == 1000 && forall i | 0 <= i < 1000 :: ids[i] == VStr(IdString(i))
  {
    seq(1000, i requires 0 <= i < 1000 => VStr(IdString(i)))
  }

  /** Every edge case `generate_edge_case_test` can return. */
  predicate EdgeCaseShape(config: FuzzConfig, operation: string, d: Dict) {
    // empty_vector
    (operation == "insert" && SingleInsertShape(d, "empty_id") && d[0].1.items[0] == VList([]))
    // very_large_vector
    || (operation == "insert" && SingleInsertShape(d, "large_vector_id")
        && UniformVectorValue(d[0].1.items[0], 10000, 1.0))
    // nan_values, inf_values
    || (operation == "search" && FixedSearchShape(d) && CollectionNameShape(d[3].1)
        && (SpikedVector(config, d[0].1, NaN) || SpikedVector(config, d[0].1, PosInf)))
    // very_large_batch
    || (operation == "batch_insert" && |d| == 4
        && d[0].0 == "vectors" && d[0].1.VList? && |d[0].1.items| == 1000
        && (forall i | 0 <= i < 1000 ::
              UniformVectorValue(d[0].1.items[i], RangeLength(config.vectorDimension), 1.0))
        && d[1] == ("ids", VList(LargeBatchIds()))
        && d[2] == ("metadata", VList(seq(1000, _ => VDict([]))))
        && d[3].0 == "collection_name" && CollectionNameShape(d[3].1))
    // empty_metadata
    || (operation == "insert" && SingleInsertShape(d, "empty_metadata_id")
        && VectorValueShape(config, d[0].1.items[0]))
    // malformed_id
    || (operation == "delete" && |d| == 2
        && d[0] == ("ids", VList([VStr(""), VStr("invalid@id"), VStr("id with spaces")]))
        && d[1].0 == "collection_name" && CollectionNameShape(d[1].1))
    // nonexistent_collection
    || (operation == "search" && FixedSearchShape(d) && VectorValueShape(config, d[0].1)
        && d[3].1 == VStr("nonexistent_collection"))
  }

  /** `[special if i % 10 == 0 else random.uniform(-1, 1) for i in range(vector_dimension)]` */
  method GenerateSpikedVector(config: FuzzConfig, special: Float) returns (val: Value)
    ensures SpikedVector(config, val, special)
  {
    var items: seq<Value> := [];
    var i := 0;
    while i < config.vectorDimension
      invariant 0 <= i <= RangeLength(config.vectorDimension) && |items| == i
      invariant forall j | 0 <= j < i :: items[j].VFloat?
      invariant forall j | 0 <= j < i ::
        if j % 10 == 0 then items[j] == VFloat(special) else InRange(items[j].f, 1.0)
    {
      if i % 10 == 0 {
        items := items + [VFloat(special)];
      } else {
        var x := Uniform(-1.0, 1.0);
        items := items + [VFloat(Finite(x))];
      }
      i := i + 1;
    }
    val := VList(items);
  }

  /** The 1000 vectors of `very_large_batch`. */
  method GenerateLargeBatchVectors(config: FuzzConfig) returns (vectors: seq<Value>)
    ensures |vectors| == 1000
    ensures forall i | 0 <= i < 1000 :: UniformVectorValue(vectors[i], RangeLength(config.vectorDimension), 1.0)
  {
    vectors := [];
    while |vectors| < 1000
      invariant |vectors| <= 1000
      invariant forall i | 0 <= i < |vectors| ::
        UniformVectorValue(vectors[i], RangeLength(config.vectorDimension), 1.0)
    {
      var v := UniformVector(config.vectorDimension, 1.0);
      vectors := vectors + [VectorValue(v)];
    }
  }

  /** `generate_edge_case_test()` */
  method GenerateEdgeCaseTest(config: FuzzConfig) returns (operation: string, params: Dict)
    ensures EdgeCaseShape(config, operation, params)
  {
    var edgeCase := Choice(EdgeCases);
    var name := GenerateCollectionName();
    if edgeCase == "empty_vector" {
      operation := "insert";
      params := [("vectors", VList([VList([])])), ("ids", VList([VStr("empty_id")])),
                 ("metadata", VList([VDict([])])), ("collection_name", VStr(name))];
    } else if edgeCase == "very_large_vector" {
      var v := UniformVector(10000, 1.0);
      operation := "insert";
      params := [("vectors", VList([VectorValue(v)])), ("ids", VList([VStr("large_vector_id")])),
                 ("metadata", VList([VDict([])])), ("collection_name", VStr(name))];
    } else if edgeCase == "nan_values" || edgeCase == "inf_values" {
      var v := GenerateSpikedVector(config, if edgeCase == "nan_values" then NaN else PosInf);
      operation := "search";
      params := [("query_vector", v), ("limit", VInt(10)), ("metric_type", VStr("L2")),
                 ("collection_name", VStr(name))];
    } else if edgeCase == "very_large_batch" {
      var vectors := GenerateLargeBatchVectors(config);
      operation := "batch_insert";
      params := [("vectors", VList(vectors)), ("ids", VList(LargeBatchIds())),
                 ("metadata", VList(seq(1000, _ => VDict([])))), ("collection_name", VStr(name))];
    } else if edgeCase == "empty_metadata" {
      var v := GenerateVectorValue(config);
      operation := "insert";
      params := [("vectors", VList([v])), ("ids", VList([VStr("empty_metadata_id")])),
                 ("metadata", VList([VDict([])])), ("collection_name", VStr(name))];
    } else if edgeCase == "malformed_id" {
      operation := "delete";
      params := [("ids", VList([VStr(""), VStr("invalid@id"), VStr("id with spaces")])),
                 ("collection_name", VStr(name))];
    } else {
      var v := GenerateVectorValue(config);
      operation := "search";
      params := [("query_vector", v), ("limit", VInt(10)), ("metric_type", VStr("L2")),
                 ("collection_name", VStr("nonexistent_collection"))];
    }
  }

  // ---------------------------------------------------------------------
  // Properties

  /** Generated metadata never repeats a key. */
  lemma MetadataKeysUnique(config: FuzzConfig, m: Dict)
    requires MetadataShape(config, m)
    ensures UniqueKeys(m)
  {
    forall i, j | 0 <= i < j < |m| ensures m[i].0 != m[j].0 {
      if m[i].0 == m[j].0 {
        FieldNameInjective(i, j);
      }
    }
  }

  /** The ids of `very_large_batch` are pairwise distinct. */
  lemma LargeBatchIdsDistinct(i: nat, j: nat)
    requires i < j < 1000
    ensures IdString(i) != IdString(j)
  {
    if IdString(i) == IdString(j) {
      IdStringInjective(i, j);
    }
  }

  /** With the default configuration a vector never exceeds 1003
      components, and one longer than 256 comes from the large branch, so its
      first 256 components are finite. */
  lemma DefaultVectorLength(v: seq<Float>)
    requires VectorShape(DefaultConfig, DefaultConfig.vectorDimension, v)
    ensures |v| <= 1003
    ensures |v| > 256 ==> forall i | 0 <= i < 256 :: v[i].Finite?
  {
    if RegularVector(v, 128, 10.0) {
      assert |v| - RangeLength(128) <= 3;
    } else if !InvalidVector(v) {
      var n :| 256 <= n <= 1000 && RegularVector(v, n, 10.0);
      assert |v| - RangeLength(n) <= 3;
    }
  }

  /** With neither invalid nor large vectors possible, a vector has exactly
      `vector_dimension` regular components. */
  lemma PlainVectorLength(config: FuzzConfig, v: seq<Float>)
    requires config.probabilityInvalidVector <= 0.0 && config.probabilityLargeVector <= 0.0
    requires VectorShape(config, config.vectorDimension, v)
    ensures RangeLength(config.vectorDimension) <= |v| <= RangeLength(config.vectorDimension) + 3
    ensures forall i | 0 <= i < RangeLength(config.vectorDimension) :: v[i].Finite?
  {
  }

  /** The first entry of a dict is what subscripting its key finds. */
  lemma SubscriptFirst(d: Dict, k: string)
    requires d != [] && d[0].0 == k
    ensures Subscript(VDict(d), k) == Ok(d[0].1)
  {
    assert Keys(d)[0] == k;
  }

  /** A generated sub-operation's `type` is insert, search or delete. */
  lemma GeneratedOpKnown(config: FuzzConfig, op: Value)
    requires MixedOpShape(config, op)
    ensures Orchestration.KnownKind(op)
  {
    SubscriptFirst(op.entries, "type");
  }

  lemma {:induction false} GeneratedOpsKnownPrefix(config: FuzzConfig, ops: seq<Value>, n: nat)
    requires n <= |ops| && forall i | 0 <= i < |ops| :: MixedOpShape(config, ops[i])
    ensures Orchestration.CountKnownPrefix(ops, n) == n
  {
    if n > 0 {
      GeneratedOpsKnownPrefix(config, ops, n - 1);
      GeneratedOpKnown(config, ops[n - 1]);
    }
  }

  /** Every generated sub-operation has a type the tester executes. */
  lemma GeneratedOpsAllKnown(config: FuzzConfig, ops: seq<Value>)
    requires forall i | 0 <= i < |ops| :: MixedOpShape(config, ops[i])
    ensures Orchestration.CountKnown(ops) == |ops|
  {
    GeneratedOpsKnownPrefix(config, ops, |ops|);
  }

  /** Running generated `mixed_operations` parameters yields one entry per
      generated sub-operation: none is skipped as unknown. */
  lemma GeneratedMixedOneEntryPerOp(config: FuzzConfig, d: Dict, adapter: Orchestration.Adapter)
    requires MixedShape(config, d)
    requires Orchestration.ExecuteSpec("mixed_operations", d, adapter).Ok?
    ensures var data := Orchestration.ExecuteSpec("mixed_operations", d, adapter).value;
      data.VList? && |data.items| == |d[0].1.items|
  {
    var ops := d[0].1.items;
    assert Iterate(Lookup(d, "operations").value) == Ok(ops) by {
      assert Lookup(d, "operations") == Some(d[0].1);
    }
    GeneratedOpsAllKnown(config, ops);
    Orchestration.MixedOneEntryPerKnownOp(d, adapter);
  }

  /** Running generated `batch_search` parameters yields one payload per
      generated query vector. */
  lemma GeneratedBatchOnePayloadPerQuery(config: FuzzConfig, d: Dict, adapter: Orchestration.Adapter)
    requires BatchSearchShape(config, d)
    requires Orchestration.ExecuteSpec("batch_search", d, adapter).Ok?
    ensures var data := Orchestration.ExecuteSpec("batch_search", d, adapter).value;
      data.VList? && |data.items| == |d[0].1.items|
  {
    assert Orchestration.ExecuteSpec("batch_search", d, adapter) == Orchestration.BatchSearchSpec(d, adapter);
    assert Keys(d)[0] == "query_vectors";
    Orchestration.BatchRunOnePayloadPerQuery(DictGet(d, "collection_name", Orchestration.DefaultCollection),
      d[0].1.items, DictGet(d, "limit", Orchestration.DefaultLimit),
      DictGet(d, "metric_type", Orchestration.DefaultMetric), adapter);
  }
}
