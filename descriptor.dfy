/**
 * Private-slot validators (python3-gist/descriptor.py).
 *
 * A Validator is a class-level data descriptor. When the owning class is
 * created it is told its field name `f` and remembers the private name `_f`.
 * Every assignment to `f` on an instance first runs the validator's
 * constraint and only then stores the value under `_f`; every read of `f`
 * returns what is stored under `_f`. The concrete validators are OneOf
 * (membership), Number (type, minimum, maximum) and String (type, minimum
 * length, maximum length, predicate); Component is a record of three fields
 * declared with them.
 */
module PrivateSlot {
  import opened Wrappers
  import opened PyValues

  /** The constraint a concrete validator applies, with the parameters its constructor stored. */
  datatype Rule =
    | OneOf(options: set<Value>)
    | Number(minvalue: Value, maxvalue: Value)
    | String(minsize: Value, maxsize: Value, pred: Option<string -> bool>)

  /** The test inside validate that raised. */
  datatype Check = TypeCheck | MinCheck | MaxCheck | PredicateCheck | MembershipCheck

  /** The exception validate raised: its kind and the test that raised it. */
  datatype Violation = Violation(kind: ErrorKind, check: Check)

  /** Why an assignment or a read of a validated field failed. */
  datatype Error =
    | Rejected(violation: Violation)  // validate raised
    | Unbound                         // the validator was never bound to a field, so it has no private_name
    | MissingSlot(slot: string)       // the instance has no attribute under the private name

  /** The exception kind an error surfaces as. */
  function KindOf(e: Error): ErrorKind {
    match e
    case Rejected(v) => v.kind
    case _ => AttributeError
  }

  /** OneOf(*options): the options are collected into a set. */
  function MakeOneOf(options: seq<Value>): (r: Rule)
    ensures r.OneOf?
    ensures forall o :: o in r.options <==> o in options
  {
    OneOf(set o | o in options)
  }

  /** Whether `bound` is absent (None) or `x` lies on the allowed side of it, compared as numbers. */
  predicate AtLeast(x: real, lo: Value) {
    lo.NoneV? || (IsNumber(lo) && Numeric(lo).value <= x)
  }

  predicate AtMost(x: real, hi: Value) {
    hi.NoneV? || (IsNumber(hi) && x <= Numeric(hi).value)
  }

  /**
   * The guard `bound is not None and x < bound` (or `x > bound` when `above`):
   * Pass when the guard is false, Fail(ValueError) when it is true, and the
   * comparison's TypeError when the two cannot be ordered.
   */
  function BoundTest(x: Value, bound: Value, above: bool): Outcome<ErrorKind> {
    if bound.NoneV? then Pass
    else match Compare(x, bound)
      case Err(k) => Fail(k)
      case Ok(c) => if (if above then c > 0 else c < 0) then Fail(ValueError) else Pass
  }

  /** One test of a fail-fast chain: a failure is reported as raised by `check`, success goes on with `rest`. */
  function AndThen(check: Check, test: Outcome<ErrorKind>, rest: Outcome<Violation>): Outcome<Violation> {
    if test.Fail? then Fail(Violation(test.error, check)) else rest
  }

  /** OneOf.validate: the value must equal (by Python's ==) one of the options. */
  function ValidateOneOf(options: set<Value>, v: Value): (r: Outcome<Violation>)
    ensures r.Pass? <==> exists o :: o in options && PyEq(v, o)
    ensures v in options ==> r.Pass?
    ensures r.Fail? ==> r.error == Violation(ValueError, MembershipCheck)
  {
    if exists o :: o in options && PyEq(v, o) then Pass
    else Fail(Violation(ValueError, MembershipCheck))
  }

  /** Number.validate: an int or float, then not below minvalue, then not above maxvalue. */
  function ValidateNumber(minvalue: Value, maxvalue: Value, v: Value): (r: Outcome<Violation>)
    ensures r.Pass? <==>
      IsNumber(v) && AtLeast(Numeric(v).value, minvalue) && AtMost(Numeric(v).value, maxvalue)
    ensures !IsNumber(v) ==> r == Fail(Violation(TypeError, TypeCheck))
    ensures IsNumber(v) && IsNumber(minvalue) && Numeric(v).value < Numeric(minvalue).value ==>
      r == Fail(Violation(ValueError, MinCheck))
    ensures (IsNumber(v) && AtLeast(Numeric(v).value, minvalue) &&
             IsNumber(maxvalue) && Numeric(v).value > Numeric(maxvalue).value) ==>
      r == Fail(Violation(ValueError, MaxCheck))
    ensures r.Fail? && r.error.kind == ValueError ==> r.error.check in {MinCheck, MaxCheck}
  {
    if !IsNumber(v) then Fail(Violation(TypeError, TypeCheck))
    else
      AndThen(MinCheck, BoundTest(v, minvalue, false),
      AndThen(MaxCheck, BoundTest(v, maxvalue, true),
      Pass))
  }

  /** String.validate: a str, then at least minsize long, then at most maxsize long, then the predicate holds. */
  function ValidateString(minsize: Value, maxsize: Value, pred: Option<string -> bool>, v: Value): (r: Outcome<Violation>)
    ensures r.Pass? <==>
      v.Str? && AtLeast(|v.s| as real, minsize) && AtMost(|v.s| as real, maxsize) &&
      (pred.Some? ==> pred.value(v.s))
    ensures !v.Str? ==> r == Fail(Violation(TypeError, TypeCheck))
    ensures v.Str? && IsNumber(minsize) && (|v.s| as real) < Numeric(minsize).value ==>
      r == Fail(Violation(ValueError, MinCheck))
    ensures (v.Str? && AtLeast(|v.s| as real, minsize) &&
             IsNumber(maxsize) && (|v.s| as real) > Numeric(maxsize).value) ==>
      r == Fail(Violation(ValueError, MaxCheck))
    ensures r == Fail(Violation(ValueError, PredicateCheck)) <==>
      v.Str? && AtLeast(|v.s| as real, minsize) && AtMost(|v.s| as real, maxsize) &&
      pred.Some? && !pred.value(v.s)
  {
    if !v.Str? then Fail(Violation(TypeError, TypeCheck))
    else
      var n := Int(|v.s|);
      AndThen(MinCheck, BoundTest(n, minsize, false),
      AndThen(MaxCheck, BoundTest(n, maxsize, true),
      AndThen(PredicateCheck, if pred.Some? && !pred.value(v.s) then Fail(ValueError) else Pass,
      Pass)))
  }

  /** validate, dispatched on the concrete validator. */
  function Validate(rule: Rule, v: Value): Outcome<Violation> {
    match rule
    case OneOf(options) => ValidateOneOf(options, v)
    case Number(lo, hi) => ValidateNumber(lo, hi, v)
    case String(lo, hi, pred) => ValidateString(lo, hi, pred, v)
  }

  /** Which options a OneOf was given, in which order and how often, does not change what it accepts. */
  lemma OneOfIgnoresOrderAndDuplicates(xs: seq<Value>, ys: seq<Value>, v: Value)
    requires forall x :: x in xs <==> x in ys
    ensures Validate(MakeOneOf(xs), v) == Validate(MakeOneOf(ys), v)
  {
    assert MakeOneOf(xs).options == MakeOneOf(ys).options;
  }

  /** The private name `'_' + name` under which a field's value is kept. */
  function PrivateName(name: string): (r: string)
    ensures |r| == |name| + 1 && r[0] == '_' && r[1..] == name
  {
    "_" + name
  }

  /** Different fields never share a private slot. */
  lemma PrivateNameInjective(a: string, b: string)
    requires PrivateName(a) == PrivateName(b)
    ensures a == b
  {
    assert a == PrivateName(a)[1..];
  }

  /** Validator.__get__ on an instance: getattr(instance, self.private_name). */
  function Read(privateName: Option<string>, dict: map<string, Value>): (r: Result<Value, Error>)
    ensures r.Ok? <==> privateName.Some? && privateName.value in dict
    ensures r.Ok? ==> r.value == dict[privateName.value]
    ensures r.Err? ==> r.error.Unbound? || r.error.MissingSlot?
  {
    if privateName.None? then Err(Unbound)
    else if privateName.value !in dict then Err(MissingSlot(privateName.value))
    else Ok(dict[privateName.value])
  }

  /** Validator.__set__: validate, then setattr(instance, self.private_name, value). */
  function Write(rule: Rule, privateName: Option<string>, dict: map<string, Value>, v: Value): (r: Result<map<string, Value>, Error>)
    ensures r.Ok? ==> privateName.Some? && r.value.Keys == dict.Keys + {privateName.value}
    ensures r.Ok? ==> r.value[privateName.value] == v
    ensures Validate(rule, v).Fail? ==> r == Err(Rejected(Validate(rule, v).error))
  {
    match Validate(rule, v)
    case Fail(e) => Err(Rejected(e))
    case Pass => if privateName.None? then Err(Unbound) else Ok(dict[privateName.value := v])
  }

  /** An assignment succeeds exactly when the value validates and the field is bound; validation is decided first. */
  lemma WriteSucceedsIffValid(rule: Rule, privateName: Option<string>, dict: map<string, Value>, v: Value)
    ensures Write(rule, privateName, dict, v).Ok? <==> Validate(rule, v).Pass? && privateName.Some?
    ensures Validate(rule, v).Fail? ==>
      Write(rule, privateName, dict, v) == Err(Rejected(Validate(rule, v).error))
  {
  }

  /** After a successful assignment, reading the field gives back exactly the assigned value. */
  lemma ReadAfterWrite(rule: Rule, privateName: Option<string>, dict: map<string, Value>, v: Value)
    requires Write(rule, privateName, dict, v).Ok?
    ensures Read(privateName, Write(rule, privateName, dict, v).value) == Ok(v)
  {
  }

  /** A successful assignment adds or replaces the private slot and leaves every other attribute as it was. */
  lemma WriteTouchesOnlyItsSlot(rule: Rule, privateName: Option<string>, dict: map<string, Value>, v: Value)
    requires Write(rule, privateName, dict, v).Ok?
    ensures var d := Write(rule, privateName, dict, v).value;
      d.Keys == dict.Keys + {privateName.value} &&
      forall k :: k in dict && k != privateName.value ==> d[k] == dict[k]
  {
  }

  /** Assigning the same valid value a second time changes nothing further. */
  lemma WriteIdempotent(rule: Rule, privateName: Option<string>, dict: map<string, Value>, v: Value)
    requires Write(rule, privateName, dict, v).Ok?
    ensures var d := Write(rule, privateName, dict, v).value;
      Write(rule, privateName, d, v) == Ok(d)
  {
    var d := Write(rule, privateName, dict, v).value;
    assert d[privateName.value := v] == d;
  }

  /** A field that was never successfully assigned cannot be read. */
  lemma ReadBeforeWrite(privateName: Option<string>, dict: map<string, Value>)
    requires privateName.Some? && privateName.value !in dict
    ensures Read(privateName, dict) == Err(MissingSlot(privateName.value))
    ensures KindOf(Read(privateName, dict).error) == AttributeError
  {
  }

  /** An instance of a class with validated fields: its attribute dictionary. */
  class Instance {
    var dict: map<string, Value>

    constructor ()
      ensures dict == map[]
    {
      dict := map[];
    }
  }

  /** A validator object: its constraint and, once bound to a field, that field's private name. */
  class Validator {
    const rule: Rule
    var privateName: Option<string>

    constructor (rule: Rule)
      ensures this.rule == rule && privateName == None
    {
      this.rule := rule;
      privateName := None;
    }

    /** __set_name__: the owning class tells the validator the name of its field. */
    method SetName(name: string)
      modifies this
      ensures privateName == Some(PrivateName(name))
    {
      privateName := Some(PrivateName(name));
    }

    /** __get__ for a read of the field on `inst`. */
    method Get(inst: Instance) returns (r: Result<Value, Error>)
      ensures r == Read(privateName, inst.dict)
    {
      if privateName.None? {
        return Err(Unbound);
      }
      if privateName.value !in inst.dict {
        return Err(MissingSlot(privateName.value));
      }
      r := Ok(inst.dict[privateName.value]);
    }

    /** __set__ for an assignment `inst.f = v`: nothing is stored unless validation passes. */
    method Set(inst: Instance, v: Value) returns (r: Outcome<Error>)
      modifies inst
      ensures var w := Write(rule, privateName, old(inst.dict), v);
        (w.Ok? ==> r == Pass && inst.dict == w.value) &&
        (w.Err? ==> r == Fail(w.error) && inst.dict == old(inst.dict))
    {
      var checked := Validate(rule, v);
      if checked.Fail? {
        return Fail(Rejected(checked.error));
      }
      if privateName.None? {
        return Fail(Unbound);
      }
      inst.dict := inst.dict[privateName.value := v];
      r := Pass;
    }
  }

  /** A validator as a record type holds it: its constraint and its private name. */
  datatype Field = Field(rule: Rule, privateName: Option<string>)

  /** The state a constructor leaves behind: whether it raised, and the attributes set by then. */
  datatype Construction = Construction(outcome: Outcome<Error>, dict: map<string, Value>)

  /** Assigning values[i] to fields[i] for i = 0, 1, ... in order, stopping at the first error. */
  function WriteAll(fields: seq<Field>, values: seq<Value>, dict: map<string, Value>): (r: Construction)
    requires |fields| == |values|
    ensures dict.Keys <= r.dict.Keys
    decreases |fields|
  {
    if fields == [] then Construction(Pass, dict)
    else match Write(fields[0].rule, fields[0].privateName, dict, values[0])
      case Err(e) => Construction(Fail(e), dict)
      case Ok(d) => WriteAll(fields[1..], values[1..], d)
  }

  /**
   * Construction is not atomic: when the first k assignments succeed and
   * assignment k (counting from 0) fails, the constructor raises that error and the k
   * values already assigned stay on the instance.
   */
  lemma {:induction false} WriteAllStopsAtFirstFailure(fields: seq<Field>, values: seq<Value>, dict: map<string, Value>, k: nat)
    requires |fields| == |values| && k < |fields|
    requires WriteAll(fields[..k], values[..k], dict).outcome.Pass?
    requires Write(fields[k].rule, fields[k].privateName, WriteAll(fields[..k], values[..k], dict).dict, values[k]).Err?
    ensures WriteAll(fields, values, dict) ==
      Construction(
        Fail(Write(fields[k].rule, fields[k].privateName, WriteAll(fields[..k], values[..k], dict).dict, values[k]).error),
        WriteAll(fields[..k], values[..k], dict).dict)
  {
    if k > 0 {
      var d := Write(fields[0].rule, fields[0].privateName, dict, values[0]);
      assert fields[..k][0] == fields[0] && values[..k][0] == values[0];
      assert fields[..k][1..] == fields[1..][..k - 1] && values[..k][1..] == values[1..][..k - 1];
      WriteAllStopsAtFirstFailure(fields[1..], values[1..], d.value, k - 1);
    }
  }

  /** Whether no two fields are bound to the same private name, and every field is bound. */
  predicate DistinctlyBound(fields: seq<Field>) {
    (forall i :: 0 <= i < |fields| ==> fields[i].privateName.Some?) &&
    (forall i, j :: 0 <= i < j < |fields| ==> fields[i].privateName != fields[j].privateName)
  }

  /** After a construction that raised nothing, every field reads back the value given for it. */
  lemma {:induction false} WriteAllReadBack(fields: seq<Field>, values: seq<Value>, dict: map<string, Value>, i: nat)
    requires |fields| == |values| && i < |fields|
    requires DistinctlyBound(fields)
    requires WriteAll(fields, values, dict).outcome.Pass?
    ensures Read(fields[i].privateName, WriteAll(fields, values, dict).dict) == Ok(values[i])
  {
    var d := Write(fields[0].rule, fields[0].privateName, dict, values[0]);
    assert d.Ok?;
    assert DistinctlyBound(fields[1..]) by {
      forall a, b | 0 <= a < b < |fields[1..]|
        ensures fields[1..][a].privateName != fields[1..][b].privateName
      {
        assert fields[1..][a] == fields[a + 1] && fields[1..][b] == fields[b + 1];
      }
    }
    if i == 0 {
      KeptByLaterWrites(fields[1..], values[1..], d.value, fields[0].privateName.value, values[0]);
    } else {
      WriteAllReadBack(fields[1..], values[1..], d.value, i - 1);
    }
  }

  /** Later assignments to other private names keep an attribute that is already set. */
  lemma {:induction false} KeptByLaterWrites(fields: seq<Field>, values: seq<Value>, dict: map<string, Value>, slot: string, v: Value)
    requires |fields| == |values|
    requires forall i :: 0 <= i < |fields| ==> fields[i].privateName != Some(slot)
    requires slot in dict && dict[slot] == v
    ensures var d := WriteAll(fields, values, dict).dict; slot in d && d[slot] == v
  {
    if fields != [] {
      var w := Write(fields[0].rule, fields[0].privateName, dict, values[0]);
      if w.Ok? {
        assert forall i :: 0 <= i < |fields[1..]| ==> fields[1..][i] == fields[i + 1];
        KeptByLaterWrites(fields[1..], values[1..], w.value, slot, v);
      }
    }
  }

  /** ASCII upper case: at least one cased character and no lower-case one, as str.isupper decides for ASCII text. */
  function IsUpper(s: string): (r: bool)
    ensures r <==> (exists i :: 0 <= i < |s| && 'A' <= s[i] <= 'Z') && (forall i :: 0 <= i < |s| ==> !('a' <= s[i] <= 'z'))
  {
    HasCharIn(s, 'A', 'Z') && !HasCharIn(s, 'a', 'z')
  }

  /** Whether `s` has a character from `lo` to `hi`. */
  predicate HasCharIn(s: string, lo: char, hi: char)
    ensures HasCharIn(s, lo, hi) <==> exists i :: 0 <= i < |s| && lo <= s[i] <= hi
  {
    s != [] && (lo <= s[0] <= hi || (assert forall i :: 0 <= i < |s| - 1 ==> s[1..][i] == s[i + 1]; HasCharIn(s[1..], lo, hi)))
  }

  /** Component's field declarations. */
  const NameRule: Rule := String(Int(3), Int(10), Some(IsUpper))
  const KindRule: Rule := MakeOneOf([Str("wood"), Str("metal"), Str("plastic")])
  const QuantityRule: Rule := Number(Int(0), NoneV)

  /** The fields of Component in the order its constructor assigns them. */
  const ComponentFields: seq<Field> :=
    [Field(NameRule, Some("_name")), Field(KindRule, Some("_kind")), Field(QuantityRule, Some("_quantity"))]

  /** Component(name, kind, quantity) as a function of its arguments. */
  function ComponentInit(name: Value, kind: Value, quantity: Value): Construction {
    WriteAll(ComponentFields, [name, kind, quantity], map[])
  }

  /** Component(name, kind, quantity) written out as its three assignments. */
  lemma ComponentInitSteps(name: Value, kind: Value, quantity: Value)
    ensures ComponentInit(name, kind, quantity) ==
      match Write(NameRule, Some("_name"), map[], name)
      case Err(e) => Construction(Fail(e), map[])
      case Ok(d1) =>
        match Write(KindRule, Some("_kind"), d1, kind)
        case Err(e) => Construction(Fail(e), d1)
        case Ok(d2) =>
          match Write(QuantityRule, Some("_quantity"), d2, quantity)
          case Err(e) => Construction(Fail(e), d2)
          case Ok(d3) => Construction(Pass, d3)
  {
    var f := ComponentFields;
    var vs := [name, kind, quantity];
    assert f[1..] == [f[1], f[2]] && f[1..][1..] == [f[2]] && f[1..][1..][1..] == [];
    assert vs[1..] == [kind, quantity] && vs[1..][1..] == [quantity] && vs[1..][1..][1..] == [];
    match Write(NameRule, Some("_name"), map[], name)
    case Err(_) =>
    case Ok(d1) =>
      assert WriteAll(f, vs, map[]) == WriteAll(f[1..], vs[1..], d1);
      match Write(KindRule, Some("_kind"), d1, kind)
      case Err(_) =>
      case Ok(d2) =>
        assert WriteAll(f[1..], vs[1..], d1) == WriteAll(f[1..][1..], vs[1..][1..], d2);
        match Write(QuantityRule, Some("_quantity"), d2, quantity)
        case Err(_) =>
        case Ok(d3) =>
          assert WriteAll(f[1..][1..], vs[1..][1..], d2) == WriteAll(f[1..][1..][1..], vs[1..][1..][1..], d3);
  }

  /** Component's constructor raises nothing exactly when all three values validate; then all three read back. */
  lemma ComponentConstructed(name: Value, kind: Value, quantity: Value)
    ensures ComponentInit(name, kind, quantity).outcome.Pass? <==>
      Validate(NameRule, name).Pass? && Validate(KindRule, kind).Pass? && Validate(QuantityRule, quantity).Pass?
    ensures ComponentInit(name, kind, quantity).outcome.Pass? ==>
      ComponentInit(name, kind, quantity).dict == map["_name" := name, "_kind" := kind, "_quantity" := quantity]
  {
    ComponentInitSteps(name, kind, quantity);
  }

  /** A rejected kind leaves the already assigned name on the half-built instance. */
  lemma ComponentPartiallyBuilt(name: Value, kind: Value, quantity: Value)
    requires Validate(NameRule, name).Pass? && Validate(KindRule, kind).Fail?
    ensures ComponentInit(name, kind, quantity) ==
      Construction(Fail(Rejected(Validate(KindRule, kind).error)), map["_name" := name])
  {
    ComponentInitSteps(name, kind, quantity);
  }

  /**
   * The name "AB" is refused by the minimum-length test before the predicate
   * is consulted; "ab", which fails both, is refused for its length too, and
   * "abc" by the predicate.
   */
  lemma ComponentNameChecksInOrder(kind: Value, quantity: Value)
    ensures ComponentInit(Str("AB"), kind, quantity) == Construction(Fail(Rejected(Violation(ValueError, MinCheck))), map[])
    ensures ComponentInit(Str("ab"), kind, quantity) == Construction(Fail(Rejected(Violation(ValueError, MinCheck))), map[])
    ensures ComponentInit(Str("abc"), kind, quantity) == Construction(Fail(Rejected(Violation(ValueError, PredicateCheck))), map[])
  {
    ComponentInitSteps(Str("AB"), kind, quantity);
    ComponentInitSteps(Str("ab"), kind, quantity);
    ComponentInitSteps(Str("abc"), kind, quantity);
    assert !IsUpper("abc");
  }

  /** The class object Component, holding its three validators, each bound to its field when the class is created. */
  class ComponentClass {
    const name: Validator
    const kind: Validator
    const quantity: Validator

    ghost predicate Valid()
      reads name, kind, quantity
    {
      [Field(name.rule, name.privateName), Field(kind.rule, kind.privateName),
       Field(quantity.rule, quantity.privateName)] == ComponentFields
    }

    /** Evaluating the class body: three validators, then __set_name__ for each. */
    constructor ()
      ensures Valid()
      ensures fresh(name) && fresh(kind) && fresh(quantity)
    {
      var n := new Validator(NameRule);
      var k := new Validator(KindRule);
      var q := new Validator(QuantityRule);
      n.SetName("name");
      k.SetName("kind");
      q.SetName("quantity");
      name, kind, quantity := n, k, q;
      assert PrivateName("name") == "_name" && PrivateName("kind") == "_kind";
      assert PrivateName("quantity") == "_quantity";
    }

    /** Component(name, kind, quantity): a fresh instance and three assignments in declaration order. */
    method New(nameV: Value, kindV: Value, quantityV: Value) returns (obj: Instance, r: Outcome<Error>)
      requires Valid()
      ensures fresh(obj)
      ensures Construction(r, obj.dict) == ComponentInit(nameV, kindV, quantityV)
    {
      ComponentInitSteps(nameV, kindV, quantityV);
      obj := new Instance();
      r := name.Set(obj, nameV);
      if r.Fail? {
        return;
      }
      r := kind.Set(obj, kindV);
      if r.Fail? {
        return;
      }
      r := quantity.Set(obj, quantityV);
    }
  }
}
