/**
 * `DatabaseResult`: what one adapter produced for one test, and the
 * per-adapter map the comparators work on.
 */
module Outcomes {
  import opened Values

  /** One adapter's outcome. `error` holds the exception `str(e)` was taken
      from; `executionTime` is the measured wall-clock duration. */
  datatype DatabaseResult = DatabaseResult(
    database: string,
    success: bool,
    data: Value,
    error: Option<Exception>,
    executionTime: real)

  /** A `Dict[str, DatabaseResult]` in insertion order. */
  type Results = seq<(string, DatabaseResult)>

  /** A Python dict never holds the same adapter name twice. */
  predicate UniqueNames(rs: Results) {
    forall i, j | 0 <= i < j < |rs| :: rs[i].0 != rs[j].0
  }

  function Names(rs: Results): (ns: seq<string>)
    ensures |ns| == |rs| && forall i | 0 <= i < |rs| :: ns[i] == rs[i].0
  {
    seq(|rs|, i requires 0 <= i < |rs| => rs[i].0)
  }

  /** The result of an adapter whose call raised `e`. */
  function Failed(name: string, e: Exception, elapsed: real): DatabaseResult {
    DatabaseResult(name, false, VNone, Some(e), elapsed)
  }

  /** `{k: v for k, v in results.items() if v.success}` */
  function Successful(rs: Results): (r: Results)
    ensures |r| <= |rs|
    ensures forall i | 0 <= i < |r| :: r[i].1.success && r[i] in rs
    ensures forall i | 0 <= i < |rs| && rs[i].1.success :: rs[i] in r
  {
    if rs == [] then []
    else
      var init := Successful(rs[..|rs| - 1]);
      assert forall p | p in rs[..|rs| - 1] :: p in rs;
      assert forall i | 0 <= i < |rs| - 1 :: rs[..|rs| - 1][i] == rs[i];
      init + (if rs[|rs| - 1].1.success then [rs[|rs| - 1]] else [])
  }

  /** `{k: v for k, v in results.items() if not v.success}` */
  function Unsuccessful(rs: Results): (r: Results)
    ensures |r| <= |rs|
    ensures forall i | 0 <= i < |r| :: !r[i].1.success && r[i] in rs
    ensures forall i | 0 <= i < |rs| && !rs[i].1.success :: rs[i] in r
  {
    if rs == [] then []
    else
      var init := Unsuccessful(rs[..|rs| - 1]);
      assert forall p | p in rs[..|rs| - 1] :: p in rs;
      assert forall i | 0 <= i < |rs| - 1 :: rs[..|rs| - 1][i] == rs[i];
      init + (if rs[|rs| - 1].1.success then [] else [rs[|rs| - 1]])
  }

  /** Every adapter lands in exactly one side of the partition. */
  lemma {:induction false} PartitionSizes(rs: Results)
    ensures |Successful(rs)| + |Unsuccessful(rs)| == |rs|
  {
    if rs != [] {
      PartitionSizes(rs[..|rs| - 1]);
    }
  }

  /** The success side is empty exactly when no adapter succeeded. */
  lemma {:induction false} SuccessfulEmptyIff(rs: Results)
    ensures Successful(rs) == [] <==> forall i | 0 <= i < |rs| :: !rs[i].1.success
  {
    if rs != [] {
      SuccessfulEmptyIff(rs[..|rs| - 1]);
      assert forall i | 0 <= i < |rs| - 1 :: rs[..|rs| - 1][i] == rs[i];
    }
  }

  /** The failure side is empty exactly when every adapter succeeded. */
  lemma {:induction false} UnsuccessfulEmptyIff(rs: Results)
    ensures Unsuccessful(rs) == [] <==> forall i | 0 <= i < |rs| :: rs[i].1.success
  {
    if rs != [] {
      UnsuccessfulEmptyIff(rs[..|rs| - 1]);
      assert forall i | 0 <= i < |rs| - 1 :: rs[..|rs| - 1][i] == rs[i];
    }
  }

  /** When everything succeeded, the success side is the whole map. */
  lemma {:induction false} AllSuccessfulKept(rs: Results)
    requires forall i | 0 <= i < |rs| :: rs[i].1.success
    ensures Successful(rs) == rs
  {
    if rs != [] {
      AllSuccessfulKept(rs[..|rs| - 1]);
    }
  }

  /** The filters keep the map's order: filtering a concatenation is the
      concatenation of the filtered parts. */
  lemma {:induction false} SuccessfulConcat(xs: Results, ys: Results)
    ensures Successful(xs + ys) == Successful(xs) + Successful(ys)
  {
    if ys != [] {
      var zs, init, y := xs + ys, ys[..|ys| - 1], ys[|ys| - 1];
      var last: Results := if y.1.success then [y] else [];
      assert zs[..|zs| - 1] == xs + init && zs[|zs| - 1] == y;
      assert Successful(zs) == Successful(xs + init) + last;
      assert Successful(ys) == Successful(init) + last;
      SuccessfulConcat(xs, init);
      assert (Successful(xs) + Successful(init)) + last == Successful(xs) + (Successful(init) + last);
    } else {
      assert xs + ys == xs;
    }
  }

  lemma {:induction false} UnsuccessfulConcat(xs: Results, ys: Results)
    ensures Unsuccessful(xs + ys) == Unsuccessful(xs) + Unsuccessful(ys)
  {
    if ys != [] {
      var zs, init, y := xs + ys, ys[..|ys| - 1], ys[|ys| - 1];
      var last: Results := if y.1.success then [] else [y];
      assert zs[..|zs| - 1] == xs + init && zs[|zs| - 1] == y;
      assert Unsuccessful(zs) == Unsuccessful(xs + init) + last;
      assert Unsuccessful(ys) == Unsuccessful(init) + last;
      UnsuccessfulConcat(xs, init);
      assert (Unsuccessful(xs) + Unsuccessful(init)) + last == Unsuccessful(xs) + (Unsuccessful(init) + last);
    } else {
      assert xs + ys == xs;
    }
  }
}
