/**
 * Python values as the fuzzing framework sees them: test inputs, adapter
 * payloads (decoded JSON) and configuration dictionaries, together with the
 * few Python built-ins the core applies to them (`in`, subscription, `len`,
 * iteration, truthiness, `str`, `==`, hashability, `str.lower`).
 */
module Values {

  datatype Option<+T> = None | Some(value: T) {
    function GetOr(default: T): T {
      match this
      case Some(v) => v
      case None => default
    }
  }

  /** A Python float: a finite real or one of IEEE 754's special values. */
  datatype Float = Finite(r: real) | PosInf | NegInf | NaN

  /** A Python object. Dictionaries keep their insertion order. */
  datatype Value =
    | VNone
    | VBool(b: bool)
    | VInt(i: int)
    | VFloat(f: Float)
    | VStr(s: string)
    | VList(items: seq<Value>)
    | VTuple(elems: seq<Value>)
    | VDict(entries: seq<(string, Value)>)
    | VOther(text: string)  // any other object, carrying the text `str()` gives it

  /** A Python dict with string keys, in insertion order. */
  type Dict = seq<(string, Value)>

  /** The Python exceptions the core raises or catches. */
  datatype Exception =
    | KeyError(key: string)
    | TypeError(detail: string)
    | AttributeError(attribute: string)
    | ValueError(detail: string)
    | AdapterError(message: string)       // whatever an adapter call raised
    | UnknownOperation(operation: string) // `Exception(f"Unknown operation: ...")`
    | GatherError(cause: string)          // "Gather error: ..." of the fan-in fallback

  /** Either a value or the exception that was raised instead. */
  datatype Result<+T> = Ok(value: T) | Err(error: Exception) {
    predicate IsFailure() { Err? }
    function PropagateFailure<U>(): Result<U>
      requires Err?
    {
      Err(error)
    }
    function Extract(): T
      requires Ok?
    {
      value
    }
  }

  // ---------------------------------------------------------------------
  // Dictionaries

  function Keys(d: Dict): (ks: seq<string>)
    ensures |ks| == |d|
    ensures forall i :: 0 <= i < |d| ==> ks[i] == d[i].0
  {
    seq(|d|, i requires 0 <= i < |d| => d[i].0)
  }

  /** `d.values()`, in insertion order. */
  function DictValues(d: Dict): (vs: seq<Value>)
    ensures |vs| == |d| && forall i | 0 <= i < |d| :: vs[i] == d[i].1
  {
    seq(|d|, i requires 0 <= i < |d| => d[i].1)
  }

  /** A Python dict never holds the same key twice. */
  predicate UniqueKeys(d: Dict) {
    forall i, j :: 0 <= i < j < |d| ==> d[i].0 != d[j].0
  }

  /** `d[k]` if `k in d` (the first entry with that key). */
  function Lookup(d: Dict, k: string): (r: Option<Value>)
    ensures r.Some? <==> k in Keys(d)
  {
    if d == [] then None
    else if d[0].0 == k then Some(d[0].1)
    else
      assert Keys(d) == [d[0].0] + Keys(d[1..]);
      Lookup(d[1..], k)
  }

  /** The position of the entry `Lookup` finds. */
  function KeyIndex(d: Dict, k: string): (i: nat)
    requires k in Keys(d)
    ensures i < |d| && d[i].0 == k && Lookup(d, k) == Some(d[i].1)
    ensures forall j | 0 <= j < i :: d[j].0 != k
  {
    if d[0].0 == k then 0
    else
      assert k in Keys(d[1..]) by {
        var j :| 0 <= j < |d| && Keys(d)[j] == k;
        assert Keys(d[1..])[j - 1] == k;
      }
      var j := KeyIndex(d[1..], k);
      assert d[1 + j] == d[1..][j];
      1 + j
  }

  /** Looking up in a concatenation finds the first part's entry first. */
  lemma {:induction false} LookupConcat(a: Dict, b: Dict, k: string)
    ensures Lookup(a + b, k) == if k in Keys(a) then Lookup(a, k) else Lookup(b, k)
    ensures k in Keys(a + b) <==> k in Keys(a) || k in Keys(b)
  {
    if a != [] {
      assert (a + b)[1..] == a[1..] + b;
      assert Keys(a) == [a[0].0] + Keys(a[1..]);
      LookupConcat(a[1..], b, k);
    } else {
      assert a + b == b;
    }
  }

  /** `d.get(k, default)` */
  function DictGet(d: Dict, k: string, default: Value): Value {
    Lookup(d, k).GetOr(default)
  }

  // ---------------------------------------------------------------------
  // Built-ins on arbitrary values

  /** `k in v` for a string `k`: key test on a dict, element test on a list or
      tuple, substring test on a str; anything else raises TypeError. */
  function Contains(v: Value, k: string): Result<bool> {
    match v
    case VDict(d) => Ok(k in Keys(d))
    case VList(xs) => Ok(VStr(k) in xs)
    case VTuple(xs) => Ok(VStr(k) in xs)
    case VStr(s) => Ok(IsSubstring(k, s))
    case _ => Err(TypeError("argument is not iterable"))
  }

  /** `k` occurs in `s` at some position. */
  predicate IsSubstring(k: string, s: string)
    decreases |s|
  {
    (|k| <= |s| && s[..|k|] == k) || (s != [] && IsSubstring(k, s[1..]))
  }

  /** `v[k]` for a string `k`. */
  function Subscript(v: Value, k: string): Result<Value> {
    match v
    case VDict(d) => if k in Keys(d) then Ok(Lookup(d, k).value) else Err(KeyError(k))
    case VList(_) => Err(TypeError("list indices must be integers or slices, not str"))
    case VTuple(_) => Err(TypeError("tuple indices must be integers or slices, not str"))
    case VStr(_) => Err(TypeError("string indices must be integers"))
    case _ => Err(TypeError("object is not subscriptable"))
  }

  /** Python truthiness (`bool(v)`). */
  predicate Truthy(v: Value) {
    match v
    case VNone => false
    case VBool(b) => b
    case VInt(i) => i != 0
    case VFloat(f) => !(f.Finite? && f.r == 0.0)
    case VStr(s) => s != []
    case VList(xs) => xs != []
    case VTuple(xs) => xs != []
    case VDict(d) => d != []
    case VOther(_) => true
  }

  /** `isinstance(v, int)`; `bool` is a subclass of `int` in Python. */
  predicate IsInt(v: Value) {
    v.VInt? || v.VBool?
  }

  /** The integer an `int` (or `bool`) stands for. */
  function IntOf(v: Value): int
    requires IsInt(v)
  {
    if v.VInt? then v.i else if v.b then 1 else 0
  }

  /** `len(v)` */
  function Len(v: Value): Result<nat> {
    match v
    case VStr(s) => Ok(|s|)
    case VList(xs) => Ok(|xs|)
    case VTuple(xs) => Ok(|xs|)
    case VDict(d) => Ok(|d|)
    case _ => Err(TypeError("object has no len()"))
  }

  /** The elements a `for` loop over `v` visits. */
  function Iterate(v: Value): Result<seq<Value>> {
    match v
    case VList(xs) => Ok(xs)
    case VTuple(xs) => Ok(xs)
    case VDict(d) => Ok(seq(|d|, i requires 0 <= i < |d| => VStr(d[i].0)))
    case VStr(s) => Ok(seq(|s|, i requires 0 <= i < |s| => VStr([s[i]])))
    case _ => Err(TypeError("object is not iterable"))
  }

  /** Whether `v` may be put in a Python set. */
  predicate Hashable(v: Value) {
    match v
    case VList(_) => false
    case VDict(_) => false
    case VTuple(xs) => forall i | 0 <= i < |xs| :: Hashable(xs[i])
    case _ => true
  }

  // ---------------------------------------------------------------------
  // Equality

  predicate IsNumber(v: Value) {
    v.VBool? || v.VInt? || v.VFloat?
  }

  function AsFloat(v: Value): Float
    requires IsNumber(v)
  {
    match v
    case VBool(b) => Finite(if b then 1.0 else 0.0)
    case VInt(i) => Finite(i as real)
    case VFloat(f) => f
  }

  /** IEEE equality: NaN equals nothing. */
  predicate FloatEq(a: Float, b: Float) {
    match (a, b)
    case (Finite(x), Finite(y)) => x == y
    case (PosInf, PosInf) => true
    case (NegInf, NegInf) => true
    case _ => false
  }

  /** Python `a == b`: numbers compare by value across bool, int and float. */
  predicate PyEq(a: Value, b: Value) {
    if IsNumber(a) && IsNumber(b) then FloatEq(AsFloat(a), AsFloat(b))
    else match (a, b)
      case (VNone, VNone) => true
      case (VStr(s), VStr(t)) => s == t
      case (VList(xs), VList(ys)) => |xs| == |ys| && forall i | 0 <= i < |xs| :: PyEq(xs[i], ys[i])
      case (VTuple(xs), VTuple(ys)) => |xs| == |ys| && forall i | 0 <= i < |xs| :: PyEq(xs[i], ys[i])
      case (VDict(d), VDict(e)) =>
        |d| == |e| &&
        forall i | 0 <= i < |d| :: d[i].0 in Keys(e) && PyEq(d[i].1, Lookup(e, d[i].0).value)
      case (VOther(s), VOther(t)) => s == t
      case _ => false
  }

  /** `len(set(vs)) > 1` for hashable values: two of them differ. */
  predicate MoreThanOneValue(vs: seq<Value>) {
    exists i, j | 0 <= i < j < |vs| :: !PyEq(vs[i], vs[j])
  }

  // ---------------------------------------------------------------------
  // Text

  function DigitChar(d: nat): char
    requires d < 10
  {
    "0123456789"[d]
  }

  function NatToString(n: nat): (s: string)
    ensures |s| >= 1
    ensures forall i | 0 <= i < |s| :: '0' <= s[i] <= '9'
  {
    if n < 10 then [DigitChar(n)] else NatToString(n / 10) + [DigitChar(n % 10)]
  }

  /** `str(i)` for an int. */
  function IntToString(i: int): string {
    if i < 0 then "-" + NatToString(-i) else NatToString(i)
  }

  /** `s` with zeros in front up to `width` characters. */
  function PadZeros(s: string, width: nat): (r: string)
    ensures |r| == if |s| >= width then |s| else width
  {
    if |s| >= width then s else "0" + PadZeros(s, width - 1)
  }

  /** The 17 digits written after the point for a fraction: scaled by
      `10^17`, truncated, and padded with leading zeros. */
  function FractionDigits(frac: real): string
    requires 0.0 <= frac < 1.0
  {
    PadZeros(NatToString((frac * 100000000000000000.0).Floor), 17)
  }

  /** A non-negative number: its integral part, a point, then `0` when it
      is integral and its 17 fraction digits otherwise. */
  function MagnitudeToString(m: real): string
    requires 0.0 <= m
  {
    var frac := m - m.Floor as real;
    NatToString(m.Floor) + "." + if frac == 0.0 then "0" else FractionDigits(frac)
  }

  /** `str(f)` for a float; a non-integral value is written with its sign,
      the integral part of its magnitude, and exactly 17 fractional digits
      (truncated), not Python's shortest round-trip form. */
  function FloatToString(f: Float): string {
    match f
    case PosInf => "inf"
    case NegInf => "-inf"
    case NaN => "nan"
    case Finite(r) => (if r < 0.0 then "-" else "") + MagnitudeToString(Abs(r))
  }

  /** The magnitude of a number. */
  function Abs(r: real): (m: real)
    ensures 0.0 <= m && (m == r || m == -r)
  {
    if r < 0.0 then -r else r
  }

  function Pow10(k: nat): (p: nat)
    ensures p >= 1
  {
    if k == 0 then 1 else 10 * Pow10(k - 1)
  }

  /** A number below `10^k` has at most `k` decimal digits. */
  lemma {:induction false} NatToStringLength(n: nat, k: nat)
    requires 1 <= k && n < Pow10(k)
    ensures |NatToString(n)| <= k
  {
    if n >= 10 {
      assert k != 1 by {
        assert Pow10(1) == 10;
      }
      NatToStringLength(n / 10, k - 1);
    }
  }

  /** The number a string of decimal digits denotes. */
  function ParseNat(s: string): nat
    requires forall i | 0 <= i < |s| :: '0' <= s[i] <= '9'
  {
    if s == [] then 0
    else ParseNat(s[..|s| - 1]) * 10 + ((s[|s| - 1] as int) - ('0' as int))
  }

  /** `str(n)` reads back as `n`. */
  lemma {:induction false} ParseNatToString(n: nat)
    ensures ParseNat(NatToString(n)) == n
  {
    var s := NatToString(n);
    if n >= 10 {
      ParseNatToString(n / 10);
      assert s[..|s| - 1] == NatToString(n / 10);
    }
    var d := n % 10;
    assert ("0123456789"[d] as int) - ('0' as int) == d;
  }

  /** Distinct numbers give distinct decimal strings, so distinct names. */
  lemma NatToStringInjective(m: nat, n: nat)
    requires NatToString(m) == NatToString(n)
    ensures m == n
  {
    ParseNatToString(m);
    ParseNatToString(n);
  }

  /** A leading zero does not change the number a digit string denotes. */
  lemma {:induction false} ParseNatLeadingZero(s: string)
    requires forall i | 0 <= i < |s| :: '0' <= s[i] <= '9'
    ensures forall i | 0 <= i < |"0" + s| :: '0' <= ("0" + s)[i] <= '9'
    ensures ParseNat("0" + s) == ParseNat(s)
  {
    assert forall i | 0 < i < |"0" + s| :: ("0" + s)[i] == s[i - 1];
    if s != [] {
      var t := "0" + s;
      assert t[..|t| - 1] == "0" + s[..|s| - 1];
      ParseNatLeadingZero(s[..|s| - 1]);
    }
  }

  lemma {:induction false} PadZerosDigits(s: string, width: nat)
    requires forall i | 0 <= i < |s| :: '0' <= s[i] <= '9'
    ensures forall i | 0 <= i < |PadZeros(s, width)| :: '0' <= PadZeros(s, width)[i] <= '9'
  {
    if |s| < width {
      var p := PadZeros(s, width - 1);
      PadZerosDigits(s, width - 1);
      assert forall i | 0 < i < |"0" + p| :: ("0" + p)[i] == p[i - 1];
    }
  }

  lemma {:induction false} ParsePadZeros(s: string, width: nat)
    requires forall i | 0 <= i < |s| :: '0' <= s[i] <= '9'
    ensures forall i | 0 <= i < |PadZeros(s, width)| :: '0' <= PadZeros(s, width)[i] <= '9'
    ensures ParseNat(PadZeros(s, width)) == ParseNat(s)
  {
    PadZerosDigits(s, width);
    if |s| < width {
      var p := PadZeros(s, width - 1);
      assert PadZeros(s, width) == "0" + p;
      ParsePadZeros(s, width - 1);
      ParseNatLeadingZero(p);
    } else {
      assert PadZeros(s, width) == s;
    }
  }

  /** The fraction is written as exactly 17 digits that read back as the
      fraction scaled by `10^17` and truncated. */
  lemma FractionDigitsReadBack(frac: real)
    requires 0.0 <= frac < 1.0
    ensures |FractionDigits(frac)| == 17
    ensures forall i | 0 <= i < 17 :: '0' <= FractionDigits(frac)[i] <= '9'
    ensures ParseNat(FractionDigits(frac)) == (frac * 100000000000000000.0).Floor
  {
    var n := (frac * 100000000000000000.0).Floor;
    assert Pow10(5) == 100000 && Pow10(10) == 10000000000;
    assert Pow10(17) == 100000000000000000;
    NatToStringLength(n, 17);
    ParseNatToString(n);
    PadZerosDigits(NatToString(n), 17);
    ParsePadZeros(NatToString(n), 17);
  }

  /** A negative float is written as a minus sign and its magnitude. */
  lemma FloatNegative(r: real)
    requires r < 0.0
    ensures FloatToString(Finite(r)) == "-" + FloatToString(Finite(-r))
  {
    var a := MagnitudeToString(Abs(r));
    assert Abs(-r) == Abs(r);
    assert FloatToString(Finite(-r)) == a;
  }

  /** A whole number is written with a single `0` after the point. */
  lemma FloatWhole(n: nat)
    ensures FloatToString(Finite(n as real)) == NatToString(n) + ".0"
  {
    var r := n as real;
    assert r.Floor == n;
    assert Abs(r) == r;
    var m := MagnitudeToString(r);
    assert m == NatToString(n) + ".0";
    assert FloatToString(Finite(r)) == "" + m;
    assert "" + m == m;
  }

  /** `str(v)`; strings inside containers are quoted as by `repr`. */
  function Str(v: Value): string {
    match v
    case VNone => "None"
    case VBool(b) => if b then "True" else "False"
    case VInt(i) => IntToString(i)
    case VFloat(f) => FloatToString(f)
    case VStr(s) => s
    case VList(xs) =>
      "[" + Join(seq(|xs|, i requires 0 <= i < |xs| =>
                   if xs[i].VStr? then Quote(xs[i].s) else Str(xs[i]))) + "]"
    case VTuple(xs) =>
      "(" + Join(seq(|xs|, i requires 0 <= i < |xs| =>
                   if xs[i].VStr? then Quote(xs[i].s) else Str(xs[i])))
      + (if |xs| == 1 then ",)" else ")")
    case VDict(d) =>
      "{" + Join(seq(|d|, i requires 0 <= i < |d| =>
                   Quote(d[i].0) + ": " + if d[i].1.VStr? then Quote(d[i].1.s) else Str(d[i].1))) + "}"
    case VOther(t) => t
  }

  /** `repr` of a string, without escape sequences. */
  function Quote(s: string): string {
    "'" + s + "'"
  }

  /** `", ".join(parts)` */
  function Join(parts: seq<string>): string {
    if parts == [] then ""
    else if |parts| == 1 then parts[0]
    else parts[0] + ", " + Join(parts[1..])
  }

  /** `s.lower()` on the characters Unicode lowers to an ASCII letter:
      A to Z, and the Kelvin sign U+212A, which lowers to `k`. Every other
      character is kept. */
  function Lower(s: string): (r: string)
    ensures |r| == |s|
  {
    seq(|s|, i requires 0 <= i < |s| =>
      if 'A' <= s[i] <= 'Z' then (s[i] as int + 32) as char
      else if s[i] == '\U{212A}' then 'k'
      else s[i])
  }
}
