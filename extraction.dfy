/**
 * `_extract_search_result_ids`: turns the search payload of any adapter into
 * a flat list of id strings. The functions give the meaning of each branch;
 * `ExtractResultIds` is the loop-based procedure and is proved to compute
 * exactly `ExtractIds`.
 */
module Extraction {
  import opened Values

  // ---------------------------------------------------------------------
  // Specification

  /** `[str(x) for x in xs]` */
  function StrAll(xs: seq<Value>): (r: seq<string>)
    ensures |r| == |xs|
    ensures forall i | 0 <= i < |xs| :: r[i] == Str(xs[i])
  {
    seq(|xs|, i requires 0 <= i < |xs| => Str(xs[i]))
  }

  predicate HasId(item: Value) {
    item.VDict? && "id" in Keys(item.entries)
  }

  /** Milvus shape: `str(item['id'])` for each dict item holding `'id'`. */
  function DataItemIds(items: seq<Value>): seq<string> {
    if items == [] then []
    else
      var last := items[|items| - 1];
      DataItemIds(items[..|items| - 1])
      + (if HasId(last) then [Str(Lookup(last.entries, "id").value)] else [])
  }

  /** Weaviate shape, one item: `item['_additional']['id']` when present. */
  function AdditionalId(item: Value): Result<seq<string>> {
    if item.VDict? && "_additional" in Keys(item.entries) then
      var additional := Lookup(item.entries, "_additional").value;
      var has :- Contains(additional, "id");
      if has then
        var id :- Subscript(additional, "id");
        Ok([Str(id)])
      else Ok([])
    else Ok([])
  }

  /** The ids of one collection's item list under `Get`. */
  function CollectionIds(items: seq<Value>): Result<seq<string>> {
    if items == [] then Ok([])
    else
      var before :- CollectionIds(items[..|items| - 1]);
      var last :- AdditionalId(items[|items| - 1]);
      Ok(before + last)
  }

  /** The ids of every list-valued entry of `Get`, in insertion order. */
  function GetValuesIds(vs: seq<Value>): Result<seq<string>> {
    if vs == [] then Ok([])
    else
      var before :- GetValuesIds(vs[..|vs| - 1]);
      var ids :- ValueIds(vs[|vs| - 1]);
      Ok(before + ids)
  }

  /** The ids one value under `Get` contributes: a list is a collection's items. */
  function ValueIds(v: Value): Result<seq<string>> {
    if v.VList? then CollectionIds(v.items) else Ok([])
  }

  lemma GetValuesIdsStep(vs: seq<Value>, i: nat, before: seq<string>)
    requires i < |vs| && GetValuesIds(vs[..i]) == Ok(before)
    ensures GetValuesIds(vs[..i + 1])
            == if ValueIds(vs[i]).Err? then Err(ValueIds(vs[i]).error) else Ok(before + ValueIds(vs[i]).value)
  {
    assert vs[..i + 1][..i] == vs[..i];
  }

  /** `get_data.values()` exists only on a dict. */
  function GetIds(getData: Value): Result<seq<string>> {
    if getData.VDict? then GetValuesIds(DictValues(getData.entries))
    else Err(AttributeError("values"))
  }

  /** Qdrant shape, one point: `str(point['id'])` when `'id' in point`. */
  function PointId(point: Value): Result<seq<string>> {
    var has :- Contains(point, "id");
    if has then
      var id :- Subscript(point, "id");
      Ok([Str(id)])
    else Ok([])
  }

  function PointIds(points: seq<Value>): Result<seq<string>> {
    if points == [] then Ok([])
    else
      var before :- PointIds(points[..|points| - 1]);
      var last :- PointId(points[|points| - 1]);
      Ok(before + last)
  }

  /** Chroma shape: the elements of every list element, as strings; other
      elements are skipped. */
  function FlattenIds(xs: seq<Value>): seq<string> {
    if xs == [] then []
    else
      var last := xs[|xs| - 1];
      FlattenIds(xs[..|xs| - 1]) + (if last.VList? then StrAll(last.items) else [])
  }

  predicate HasList(d: Dict, k: string) {
    k in Keys(d) && Lookup(d, k).value.VList?
  }

  /** What `_extract_search_result_ids(data)` returns, or the exception it raises. */
  function ExtractIds(data: Value): Result<seq<string>>
    decreases data
  {
    match data
    case VDict(d) =>
      if HasList(d, "data") then Ok(DataItemIds(Lookup(d, "data").value.items))
      else if HasList(d, "ids") then Ok(StrAll(Lookup(d, "ids").value.items))
      else if "result" in Keys(d) then ExtractIds(d[KeyIndex(d, "result")].1)
      else if "Get" in Keys(d) then GetIds(Lookup(d, "Get").value)
      else if HasList(d, "points") then PointIds(Lookup(d, "points").value.items)
      else Ok([])
    case VList(xs) =>
      if |xs| > 0 && xs[0].VList? then Ok(FlattenIds(xs)) else Ok(StrAll(xs))
    case _ => Ok([])
  }

  /** Once a prefix of the items raises, so does the whole loop. */
  lemma CollectionIdsErrPersists(xs: seq<Value>, k: nat)
    requires k <= |xs| && CollectionIds(xs[..k]).Err?
    ensures CollectionIds(xs) == CollectionIds(xs[..k])
    decreases |xs|
  {
    if k < |xs| {
      assert xs[..|xs| - 1][..k] == xs[..k];
      CollectionIdsErrPersists(xs[..|xs| - 1], k);
    } else {
      assert xs[..k] == xs;
    }
  }

  lemma GetValuesIdsErrPersists(vs: seq<Value>, k: nat)
    requires k <= |vs| && GetValuesIds(vs[..k]).Err?
    ensures GetValuesIds(vs) == GetValuesIds(vs[..k])
    decreases |vs|
  {
    if k < |vs| {
      assert vs[..|vs| - 1][..k] == vs[..k];
      GetValuesIdsErrPersists(vs[..|vs| - 1], k);
    } else {
      assert vs[..k] == vs;
    }
  }

  lemma PointIdsErrPersists(xs: seq<Value>, k: nat)
    requires k <= |xs| && PointIds(xs[..k]).Err?
    ensures PointIds(xs) == PointIds(xs[..k])
    decreases |xs|
  {
    if k < |xs| {
      assert xs[..|xs| - 1][..k] == xs[..k];
      PointIdsErrPersists(xs[..|xs| - 1], k);
    } else {
      assert xs[..k] == xs;
    }
  }

  // ---------------------------------------------------------------------
  // The procedure

  method ExtractResultIds(data: Value) returns (r: Result<seq<string>>)
    ensures r == ExtractIds(data)
    decreases data
  {
    match data {
      case VDict(d) =>
        if HasList(d, "data") {
          var ids := CollectDataItemIds(Lookup(d, "data").value.items);
          r := Ok(ids);
        } else if HasList(d, "ids") {
          r := Ok(StrAll(Lookup(d, "ids").value.items));
        } else if "result" in Keys(d) {
          r := ExtractResultIds(d[KeyIndex(d, "result")].1);
        } else if "Get" in Keys(d) {
          var getData := Lookup(d, "Get").value;
          if getData.VDict? {
            r := CollectGetIds(DictValues(getData.entries));
          } else {
            r := Err(AttributeError("values"));
          }
        } else if HasList(d, "points") {
          r := CollectPointIds(Lookup(d, "points").value.items);
        } else {
          r := Ok([]);
        }
      case VList(xs) =>
        if |xs| > 0 && xs[0].VList? {
          var ids := CollectFlattened(xs);
          r := Ok(ids);
        } else {
          r := Ok(StrAll(xs));
        }
      case _ =>
        r := Ok([]);
    }
  }

  /** The loop over `data['data']`. */
  method CollectDataItemIds(items: seq<Value>) returns (resultIds: seq<string>)
    ensures resultIds == DataItemIds(items)
  {
    resultIds := [];
    var i := 0;
    while i < |items|
      invariant 0 <= i <= |items|
      invariant resultIds == DataItemIds(items[..i])
    {
      var item := items[i];
      if item.VDict? && "id" in Keys(item.entries) {
        resultIds := resultIds + [Str(Lookup(item.entries, "id").value)];
      }
      assert items[..i + 1][..i] == items[..i];
      i := i + 1;
    }
    assert items[..i] == items;
  }

  /** The loop over `get_data.values()`. */
  method CollectGetIds(vs: seq<Value>) returns (r: Result<seq<string>>)
    ensures r == GetValuesIds(vs)
  {
    var resultIds: seq<string> := [];
    var i := 0;
    while i < |vs|
      invariant 0 <= i <= |vs|
      invariant GetValuesIds(vs[..i]) == Ok(resultIds)
    {
      GetValuesIdsStep(vs, i, resultIds);
      var ids: Result<seq<string>> := Ok([]);
      if vs[i].VList? {
        ids := CollectCollectionIds(vs[i].items);
      }
      if ids.Err? {
        GetValuesIdsErrPersists(vs, i + 1);
        return Err(ids.error);
      }
      resultIds := resultIds + ids.value;
      i := i + 1;
    }
    assert vs[..i] == vs;
    return Ok(resultIds);
  }

  /** The loop over one collection's items under `Get`. */
  method CollectCollectionIds(items: seq<Value>) returns (r: Result<seq<string>>)
    ensures r == CollectionIds(items)
  {
    var resultIds: seq<string> := [];
    var j := 0;
    while j < |items|
      invariant 0 <= j <= |items|
      invariant CollectionIds(items[..j]) == Ok(resultIds)
    {
      assert items[..j + 1][..j] == items[..j];
      assert items[..j + 1][j] == items[j];
      var item := items[j];
      var found := AdditionalId(item);
      var prev := resultIds;
      if item.VDict? && "_additional" in Keys(item.entries) {
        var additional := Lookup(item.entries, "_additional").value;
        var has := Contains(additional, "id");
        if has.Err? {
          CollectionIdsErrPersists(items, j + 1);
          return Err(has.error);
        }
        if has.value {
          var id := Subscript(additional, "id");
          if id.Err? {
            CollectionIdsErrPersists(items, j + 1);
            return Err(id.error);
          }
          resultIds := resultIds + [Str(id.value)];
        }
      }
      assert found.Ok? && resultIds == prev + found.value;
      j := j + 1;
    }
    assert items[..j] == items;
    return Ok(resultIds);
  }

  /** The loop over `data['points']`. */
  method CollectPointIds(points: seq<Value>) returns (r: Result<seq<string>>)
    ensures r == PointIds(points)
  {
    var resultIds: seq<string> := [];
    var i := 0;
    while i < |points|
      invariant 0 <= i <= |points|
      invariant PointIds(points[..i]) == Ok(resultIds)
    {
      assert points[..i + 1][..i] == points[..i];
      assert points[..i + 1][i] == points[i];
      var found := PointId(points[i]);
      var prev := resultIds;
      var has := Contains(points[i], "id");
      if has.Err? {
        PointIdsErrPersists(points, i + 1);
        return Err(has.error);
      }
      if has.value {
        var id := Subscript(points[i], "id");
        if id.Err? {
          PointIdsErrPersists(points, i + 1);
          return Err(id.error);
        }
        resultIds := resultIds + [Str(id.value)];
      }
      assert found.Ok? && resultIds == prev + found.value;
      i := i + 1;
    }
    assert points[..i] == points;
    return Ok(resultIds);
  }

  /** The loop over a list of lists. */
  method CollectFlattened(xs: seq<Value>) returns (resultIds: seq<string>)
    ensures resultIds == FlattenIds(xs)
  {
    resultIds := [];
    var i := 0;
    while i < |xs|
      invariant 0 <= i <= |xs|
      invariant resultIds == FlattenIds(xs[..i])
    {
      assert xs[..i + 1][..i] == xs[..i];
      if xs[i].VList? {
        resultIds := resultIds + StrAll(xs[i].items);
      }
      i := i + 1;
    }
    assert xs[..i] == xs;
  }

  // ---------------------------------------------------------------------
  // Properties

  /** A payload that is neither a dict nor a list never raises and yields no ids. */
  lemma ScalarPayloadHasNoIds(data: Value)
    requires !data.VDict? && !data.VList?
    ensures ExtractIds(data) == Ok([])
  {
  }

  /** Only the `Get` and `points` shapes can raise: the others always succeed. */
  lemma ExtractIdsFailsOnlyInGetOrPoints(data: Value)
    requires ExtractIds(data).Err?
    ensures data.VDict? && !HasList(data.entries, "data") && !HasList(data.entries, "ids")
  {
  }

  /** `{"result": ... {"result": v}}`, n levels deep. */
  function WrapResult(n: nat, v: Value): Value {
    if n == 0 then v else VDict([("result", WrapResult(n - 1, v))])
  }

  /** Nested `result` wrappers are unwrapped down to the payload inside. */
  lemma {:induction false} ResultWrappersUnwrap(n: nat, v: Value)
    ensures ExtractIds(WrapResult(n, v)) == ExtractIds(v)
  {
    if n > 0 {
      var d := [("result", WrapResult(n - 1, v))];
      assert Keys(d) == ["result"];
      assert KeyIndex(d, "result") == 0;
      ResultWrappersUnwrap(n - 1, v);
    }
  }

  /** The `ids` branch keeps one string per element, in order. */
  lemma IdsBranchKeepsLength(d: Dict)
    requires !HasList(d, "data") && HasList(d, "ids")
    ensures ExtractIds(VDict(d)).Ok?
    ensures |ExtractIds(VDict(d)).value| == |Lookup(d, "ids").value.items|
  {
  }

  /** The Milvus shape keeps exactly the ids of the dict items that carry one. */
  lemma {:induction false} DataItemIdsMembership(items: seq<Value>, s: string)
    ensures s in DataItemIds(items) <==>
      exists i | 0 <= i < |items| :: HasId(items[i]) && s == Str(Lookup(items[i].entries, "id").value)
  {
    if items != [] {
      var init := items[..|items| - 1];
      DataItemIdsMembership(init, s);
      forall i | 0 <= i < |init|
        ensures init[i] == items[i]
      {
      }
    }
  }

  /** The Milvus shape yields at most one id per item. */
  lemma {:induction false} DataItemIdsBound(items: seq<Value>)
    ensures |DataItemIds(items)| <= |items|
  {
    if items != [] {
      DataItemIdsBound(items[..|items| - 1]);
    }
  }

  /** The Chroma shape takes the elements of the list elements only. */
  lemma {:induction false} FlattenIdsMembership(xs: seq<Value>, s: string)
    ensures s in FlattenIds(xs) <==>
      exists i, j | 0 <= i < |xs| && xs[i].VList? && 0 <= j < |xs[i].items| :: s == Str(xs[i].items[j])
  {
    if xs != [] {
      var init := xs[..|xs| - 1];
      var last := xs[|xs| - 1];
      FlattenIdsMembership(init, s);
      forall i | 0 <= i < |init|
        ensures init[i] == xs[i]
      {
      }
      if last.VList? && s in StrAll(last.items) {
        var j :| 0 <= j < |last.items| && StrAll(last.items)[j] == s;
        assert xs[|xs| - 1].VList? && s == Str(xs[|xs| - 1].items[j]);
      }
    }
  }

  /** A Weaviate item carrying `{"_additional": {"id": x}}`. */
  function WeaviateItem(x: Value): Value {
    VDict([("_additional", VDict([("id", x)]))])
  }

  /** One item of that shape yields `str(x)`. */
  lemma WeaviateItemId(x: Value)
    ensures AdditionalId(WeaviateItem(x)) == Ok([Str(x)])
  {
    assert Keys(WeaviateItem(x).entries) == ["_additional"];
    assert Keys(VDict([("id", x)]).entries) == ["id"];
  }

  function WeaviateItems(xs: seq<Value>): (items: seq<Value>)
    ensures |items| == |xs| && forall i | 0 <= i < |xs| :: items[i] == WeaviateItem(xs[i])
  {
    seq(|xs|, i requires 0 <= i < |xs| => WeaviateItem(xs[i]))
  }

  /** Items of that shape yield `str(x)` for every `x`, in order. */
  lemma {:induction false} WeaviateItemsYieldIds(xs: seq<Value>)
    ensures CollectionIds(WeaviateItems(xs)) == Ok(StrAll(xs))
  {
    if xs != [] {
      var items := WeaviateItems(xs);
      var init := xs[..|xs| - 1];
      var last := xs[|xs| - 1];
      assert items[..|items| - 1] == WeaviateItems(init);
      assert items[|items| - 1] == WeaviateItem(last);
      WeaviateItemsYieldIds(init);
      WeaviateItemId(last);
      assert CollectionIds(items) == Ok(StrAll(init) + [Str(last)]);
      assert StrAll(xs) == StrAll(init) + [Str(last)];
    }
  }

  /** `{"Get": {collection: items}}` yields the ids of those items. */
  lemma TopLevelGetOneCollection(collection: string, items: seq<Value>)
    ensures ExtractIds(VDict([("Get", VDict([(collection, VList(items))]))])) == CollectionIds(items)
  {
    var d := [("Get", VDict([(collection, VList(items))]))];
    assert Keys(d) == ["Get"];
    var vs := DictValues([(collection, VList(items))]);
    assert vs == [VList(items)];
    assert Lookup(d, "Get") == Some(VDict([(collection, VList(items))]));
    assert vs[..|vs| - 1] == [];
    assert GetValuesIds(vs) == CollectionIds(items) by {
      match CollectionIds(items)
      case Ok(ids) => assert [] + ids == ids;
      case Err(_) =>
    }
    assert ExtractIds(VDict(d)) == GetIds(VDict([(collection, VList(items))]));
  }

  /** The top-level `Get` shape with Weaviate items yields every id, in order. */
  lemma TopLevelGetYieldsIds(collection: string, xs: seq<Value>)
    ensures ExtractIds(VDict([("Get", VDict([(collection, VList(WeaviateItems(xs)))]))]))
         == Ok(StrAll(xs))
  {
    TopLevelGetOneCollection(collection, WeaviateItems(xs));
    WeaviateItemsYieldIds(xs);
  }

  /** The Weaviate GraphQL payload nests `Get` under a `data` dict, which
      the top-level `Get` test never sees: no ids at all. */
  lemma NestedGetYieldsNothing(getPayload: Value)
    ensures ExtractIds(VDict([("data", VDict([("Get", getPayload)]))])) == Ok([])
  {
    var d := [("data", VDict([("Get", getPayload)]))];
    assert Keys(d) == ["data"];
  }

  /** `{"data": []}` yields no ids. */
  lemma EmptyDataYieldsNothing()
    ensures ExtractIds(VDict([("data", VList([]))])) == Ok([])
  {
    assert Keys([("data", VList([]))]) == ["data"];
  }

  /** A Qdrant `{"result": [points]}` payload goes through the flat-list
      branch: every point dict is turned into its whole `str`. */
  lemma QdrantResultListStringifiesPoints(points: seq<Value>)
    requires points == [] || !points[0].VList?
    ensures ExtractIds(VDict([("result", VList(points))])) == Ok(StrAll(points))
  {
    var d := [("result", VList(points))];
    assert Keys(d) == ["result"];
    assert KeyIndex(d, "result") == 0;
  }

  /** The Qdrant `points` shape yields `str(id)` of every point dict with an id. */
  lemma {:induction false} PointIdsOfDicts(points: seq<Value>)
    requires forall i | 0 <= i < |points| :: points[i].VDict?
    ensures PointIds(points) == Ok(DataItemIds(points))
  {
    if points != [] {
      PointIdsOfDicts(points[..|points| - 1]);
    }
  }
}
