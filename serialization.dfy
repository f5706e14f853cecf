/**
 * `ResultAnalyzer._make_serializable`: tuples become lists, containers are
 * converted element by element, JSON scalars are kept and any other object
 * is replaced by its `str`.
 */
module Serialization {
  import opened Values

  /** `_make_serializable(obj)` */
  function MakeSerializable(v: Value): (r: Value)
    ensures (v.VList? || v.VTuple?) ==> r.VList? && |r.items| == |(if v.VList? then v.items else v.elems)|
    ensures v.VDict? ==> r.VDict? && Keys(r.entries) == Keys(v.entries)
    ensures (v.VNone? || v.VBool? || v.VInt? || v.VFloat? || v.VStr?) ==> r == v
    ensures v.VOther? ==> r == VStr(Str(v))
    decreases v
  {
    match v
    case VList(xs) => VList(seq(|xs|, i requires 0 <= i < |xs| => MakeSerializable(xs[i])))
    case VTuple(xs) => VList(seq(|xs|, i requires 0 <= i < |xs| => MakeSerializable(xs[i])))
    case VDict(d) => VDict(seq(|d|, i requires 0 <= i < |d| => (d[i].0, MakeSerializable(d[i].1))))
    case VOther(_) => VStr(Str(v))
    case _ => v
  }

  /** A value `json.dump` accepts as it is: no tuples and no other objects. */
  predicate Serializable(v: Value) {
    match v
    case VTuple(_) => false
    case VOther(_) => false
    case VList(xs) => forall i | 0 <= i < |xs| :: Serializable(xs[i])
    case VDict(d) => forall i | 0 <= i < |d| :: Serializable(d[i].1)
    case _ => true
  }

  /** The output is always serializable. */
  lemma {:induction false} MakeSerializableIsSerializable(v: Value)
    ensures Serializable(MakeSerializable(v))
    decreases v
  {
    match v
    case VList(xs) =>
      forall i | 0 <= i < |xs| { MakeSerializableIsSerializable(xs[i]); }
    case VTuple(xs) =>
      forall i | 0 <= i < |xs| { MakeSerializableIsSerializable(xs[i]); }
    case VDict(d) =>
      forall i | 0 <= i < |d| { MakeSerializableIsSerializable(d[i].1); }
    case _ =>
  }

  /** A serializable value is left exactly as it is. */
  lemma {:induction false} SerializableUnchanged(v: Value)
    requires Serializable(v)
    ensures MakeSerializable(v) == v
    decreases v
  {
    match v
    case VList(xs) =>
      forall i | 0 <= i < |xs| ensures MakeSerializable(xs[i]) == xs[i] {
        SerializableUnchanged(xs[i]);
      }
      assert MakeSerializable(v).items == xs;
    case VDict(d) =>
      forall i | 0 <= i < |d| ensures MakeSerializable(d[i].1) == d[i].1 {
        SerializableUnchanged(d[i].1);
      }
      assert MakeSerializable(v).entries == d;
    case _ =>
  }

  /** Converting twice is the same as converting once. */
  lemma MakeSerializableIdempotent(v: Value)
    ensures MakeSerializable(MakeSerializable(v)) == MakeSerializable(v)
  {
    MakeSerializableIsSerializable(v);
    SerializableUnchanged(MakeSerializable(v));
  }

  /** A tuple becomes the list of its converted elements. */
  lemma TupleBecomesList(xs: seq<Value>)
    ensures MakeSerializable(VTuple(xs)) == MakeSerializable(VList(xs))
  {
  }
}
