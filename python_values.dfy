/**
 * The Python values the validators of this core are applied to, and the few
 * built-in operations the validators use on them: isinstance, the ordering
 * operators, len and the equality behind `in` on a set.
 */
module PyValues {
  import opened Wrappers

  /** None, bool, int, float and str. A float is an exact real number here. */
  datatype Value = NoneV | Bool(b: bool) | Int(i: int) | Float(f: real) | Str(s: string)

  /** The built-in types that the validators name in isinstance checks. */
  datatype PyType = NoneType | BoolType | IntType | FloatType | StrType

  /** The kinds of exception the validators, state classes and strategies raise. */
  datatype ErrorKind = TypeError | ValueError | AttributeError | KeyError | RuntimeError

  /** isinstance(v, t); bool is a subclass of int, so True and False are ints. */
  predicate IsInstance(v: Value, t: PyType) {
    match t
    case NoneType => v.NoneV?
    case BoolType => v.Bool?
    case IntType => v.Int? || v.Bool?
    case FloatType => v.Float?
    case StrType => v.Str?
  }

  /** isinstance(v, (int, float)). */
  predicate IsNumber(v: Value) {
    IsInstance(v, IntType) || IsInstance(v, FloatType)
  }

  /** The number a numeric value denotes (False is 0 and True is 1); None for the other values. */
  function Numeric(v: Value): (r: Option<real>)
    ensures r.Some? <==> IsNumber(v)
    ensures v.Int? ==> r == Some(v.i as real)
    ensures v.Float? ==> r == Some(v.f)
  {
    match v
    case Bool(b) => Some(if b then 1.0 else 0.0)
    case Int(i) => Some(i as real)
    case Float(f) => Some(f)
    case _ => None
  }

  /** -1, 0 or 1 as x is less than, equal to or greater than y. */
  function Sign(x: real, y: real): (r: int)
    ensures r == -1 <==> x < y
    ensures r == 0 <==> x == y
    ensures r == 1 <==> x > y
  {
    if x < y then -1 else if x == y then 0 else 1
  }

  /** Lexicographic order of code points, as Python orders two str values. */
  function StrCompare(s: string, t: string): (r: int)
    ensures -1 <= r <= 1
    ensures r == 0 <==> s == t
  {
    if s == [] then (if t == [] then 0 else -1)
    else if t == [] then 1
    else if s[0] < t[0] then -1
    else if s[0] > t[0] then 1
    else
      var r := StrCompare(s[1..], t[1..]);
      assert r == 0 ==> s == [s[0]] + s[1..] == [t[0]] + t[1..] == t;
      r
  }

  /** The operand pairs on which `<`, `>` and `>=` are defined: two numbers or two strings. */
  predicate Comparable(a: Value, b: Value) {
    (IsNumber(a) && IsNumber(b)) || (a.Str? && b.Str?)
  }

  /**
   * Three-way comparison underlying `a < b`, `a > b` and `a >= b`; comparing
   * values of unrelated types (a str with an int, anything with None) raises
   * TypeError.
   */
  function Compare(a: Value, b: Value): (r: Result<int, ErrorKind>)
    ensures r.Ok? <==> Comparable(a, b)
    ensures r.Err? ==> r.error == TypeError
    ensures r.Ok? ==> -1 <= r.value <= 1
    ensures IsNumber(a) && IsNumber(b) ==>
      (r.value < 0 <==> Numeric(a).value < Numeric(b).value) &&
      (r.value > 0 <==> Numeric(a).value > Numeric(b).value)
  {
    if IsNumber(a) && IsNumber(b) then Ok(Sign(Numeric(a).value, Numeric(b).value))
    else if a.Str? && b.Str? then Ok(StrCompare(a.s, b.s))
    else Err(TypeError)
  }

  /** len(v): defined on str only among these values; otherwise TypeError. */
  function Len(v: Value): (r: Result<int, ErrorKind>)
    ensures r.Ok? <==> v.Str?
    ensures r.Ok? ==> r.value == |v.s|
    ensures r.Err? ==> r.error == TypeError
  {
    if v.Str? then Ok(|v.s|) else Err(TypeError)
  }

  /** a == b: numbers compare by value across bool, int and float; other values structurally. */
  predicate PyEq(a: Value, b: Value) {
    if IsNumber(a) && IsNumber(b) then Numeric(a).value == Numeric(b).value else a == b
  }
}
