/** Python values as a JSON request body delivers them, and the parts of Python's
    semantics on them that the handlers rely on. */
module Json {

  /** A value decoded from JSON: None, bool, int, float, str, list or dict. */
  datatype Value =
    | Null
    | Bool(b: bool)
    | Int(i: int)
    | Float(x: real)
    | Str(s: string)
    | List(items: seq<Value>)
    | Object(fields: map<string, Value>)

  /** A value, or the exception raised instead of it. */
  datatype Result<+T, +E> = Success(value: T) | Failure(error: E)

  /** `isinstance(v, (int, float))`: a Python bool is an int. */
  predicate IsNumber(v: Value) {
    v.Bool? || v.Int? || v.Float?
  }

  /** The number a numeric value stands for (True is 1, False is 0). */
  function NumberOf(v: Value): real
    requires IsNumber(v)
  {
    match v
    case Bool(b) => if b then 1.0 else 0.0
    case Int(i) => i as real
    case Float(x) => x
  }

  /** Python's `==`: numbers compare by value whatever their type, lists element by
      element, dicts key by key; everything else only equals the same value. */
  predicate PyEq(a: Value, b: Value)
    decreases a
    ensures a == b ==> PyEq(a, b)
    ensures PyEq(a, b) && IsNumber(a) ==> IsNumber(b) && NumberOf(a) == NumberOf(b)
    ensures PyEq(a, b) && a.List? ==> b.List? && |a.items| == |b.items|
  {
    if IsNumber(a) && IsNumber(b) then NumberOf(a) == NumberOf(b)
    else match a
      case List(xs) =>
        b.List? && |xs| == |b.items| && forall i :: 0 <= i < |xs| ==> PyEq(xs[i], b.items[i])
      case Object(m) =>
        b.Object? && m.Keys == b.fields.Keys && forall k :: k in m ==> PyEq(m[k], b.fields[k])
      case _ => a == b
  }

  /** `t in s` on two strings: `t` occurs in `s` as a contiguous substring. */
  predicate IsSubstring(t: string, s: string) {
    exists i :: 0 <= i <= |s| && t <= s[i..]
  }
}
