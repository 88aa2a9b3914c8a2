/**
 * The strategy registry of python3-gist/register.py.
 *
 * A module-level dictionary maps each strategy's `name` to its class; the
 * `register` decorator inserts a class under its name when the class is
 * defined, and an Adder looks its strategy up by name and delegates `add` to
 * an instance of it.
 */
module Strategies {
  import opened Wrappers
  import opened PyValues

  /** The registered strategy classes. */
  datatype StrategyClass = StringAddStrategy | IntegerAddStrategy {

    /** The class attribute `name`, the key the class is registered under. */
    function Name(): string {
      match this
      case StringAddStrategy => "StringStrategy"
      case IntegerAddStrategy => "IntegerStrategy"
    }
  }

  /** What `add` or the lookup raises: TypeError naming the rejected operand, or KeyError naming the missing name. */
  datatype StrategyError = TypeErrorFor(value: Value) | KeyErrorFor(key: string)

  /** StringAddStrategy.add: both operands must be str, `a` checked first; the result joins them with ", ". */
  function StringAdd(a: Value, b: Value): (r: Result<Value, StrategyError>)
    ensures r.Ok? <==> a.Str? && b.Str?
    ensures !a.Str? ==> r == Err(TypeErrorFor(a))
    ensures a.Str? && !b.Str? ==> r == Err(TypeErrorFor(b))
    ensures r.Ok? ==> r.value.Str? && |r.value.s| == |a.s| + 2 + |b.s|
    ensures r.Ok? ==> r.value.s[..|a.s|] == a.s && r.value.s[|a.s|..|a.s| + 2] == ", " && r.value.s[|a.s| + 2..] == b.s
  {
    if !a.Str? then Err(TypeErrorFor(a))
    else if !b.Str? then Err(TypeErrorFor(b))
    else Ok(Str(a.s + ", " + b.s))
  }

  /** The int value of an int instance (True is 1, False is 0). */
  function IntOf(v: Value): int
    requires IsInstance(v, IntType)
  {
    if v.Bool? then (if v.b then 1 else 0) else v.i
  }

  /** IntegerAddStrategy.add: both operands must be int instances (bool included), `a` checked first; the result is their sum. */
  function IntegerAdd(a: Value, b: Value): (r: Result<Value, StrategyError>)
    ensures r.Ok? <==> IsInstance(a, IntType) && IsInstance(b, IntType)
    ensures !IsInstance(a, IntType) ==> r == Err(TypeErrorFor(a))
    ensures IsInstance(a, IntType) && !IsInstance(b, IntType) ==> r == Err(TypeErrorFor(b))
    ensures r.Ok? ==> r.value.Int? && r.value.i as real == Numeric(a).value + Numeric(b).value
  {
    if !IsInstance(a, IntType) then Err(TypeErrorFor(a))
    else if !IsInstance(b, IntType) then Err(TypeErrorFor(b))
    else Ok(Int(IntOf(a) + IntOf(b)))
  }

  /** `add` on an instance of the given strategy class. */
  function StrategyAdd(cls: StrategyClass, a: Value, b: Value): (r: Result<Value, StrategyError>)
    ensures r.Err? ==> r.error == TypeErrorFor(a) || r.error == TypeErrorFor(b)
    ensures r.Ok? ==> (cls == StringAddStrategy ==> r.value.Str?) && (cls == IntegerAddStrategy ==> r.value.Int?)
  {
    match cls
    case StringAddStrategy => StringAdd(a, b)
    case IntegerAddStrategy => IntegerAdd(a, b)
  }

  /** The strategies agree on no operands: each accepts values the other rejects. */
  lemma StrategiesAreDisjoint(a: Value, b: Value)
    ensures !(StringAdd(a, b).Ok? && IntegerAdd(a, b).Ok?)
    ensures StrategyAdd(StringAddStrategy, Str("one"), Str("two")) == Ok(Str("one, two"))
    ensures StrategyAdd(IntegerAddStrategy, Str("one"), Str("two")) == Err(TypeErrorFor(Str("one")))
  {
    assert "one" + ", " + "two" == "one, two";
  }

  /** The registry: every entry is filed under its class's own name. */
  predicate KeyedByName(entries: map<string, StrategyClass>) {
    forall n :: n in entries ==> entries[n].Name() == n
  }

  /** Registering the classes in order, as their definitions run. */
  function RegisterAll(entries: map<string, StrategyClass>, classes: seq<StrategyClass>): (r: map<string, StrategyClass>)
    ensures entries.Keys <= r.Keys
    ensures forall n :: n in entries && (forall i :: 0 <= i < |classes| ==> classes[i].Name() != n) ==> r[n] == entries[n]
    decreases |classes|
  {
    if classes == [] then entries
    else RegisterAll(entries[classes[0].Name() := classes[0]], classes[1..])
  }

  /** Registering keeps the registry keyed by name, and every registered class can be found under its name. */
  lemma {:induction false} RegisterAllFindsEach(entries: map<string, StrategyClass>, classes: seq<StrategyClass>)
    requires KeyedByName(entries)
    ensures KeyedByName(RegisterAll(entries, classes))
    ensures forall c :: c in classes ==> c.Name() in RegisterAll(entries, classes) && RegisterAll(entries, classes)[c.Name()] == c
    ensures forall n :: n in RegisterAll(entries, classes) <==> n in entries || exists c :: c in classes && c.Name() == n
    decreases |classes|
  {
    if classes != [] {
      var c0 := classes[0];
      var e := entries[c0.Name() := c0];
      RegisterAllFindsEach(e, classes[1..]);
      forall c | c in classes
        ensures c.Name() in RegisterAll(entries, classes) && RegisterAll(entries, classes)[c.Name()] == c
      {
        if c != c0 {
          assert c in classes[1..];
        } else if c !in classes[1..] {
          // No later class shares c0's name: names are distinct per class.
          assert forall i :: 0 <= i < |classes[1..]| ==> classes[1..][i] in classes[1..];
        }
      }
      forall n
        ensures n in RegisterAll(entries, classes) <==> n in entries || exists c :: c in classes && c.Name() == n
      {
        if exists c :: c in classes[1..] && c.Name() == n {
          var c :| c in classes[1..] && c.Name() == n;
          assert c in classes;
        }
        if exists c :: c in classes && c.Name() == n {
          var c :| c in classes && c.Name() == n;
          if c != c0 {
            assert c in classes[1..];
          }
        }
      }
    }
  }

  /** The classes decorated with @register, in the order the module defines them. */
  const DefinedClasses: seq<StrategyClass> := [StringAddStrategy, IntegerAddStrategy]

  /** strategy_dict, the module-level registry. */
  class StrategyTable {
    var entries: map<string, StrategyClass>

    predicate Valid()
      reads this
    {
      KeyedByName(entries)
    }

    /** Loading the module: the dictionary starts empty and each decorated class registers itself. */
    constructor ()
      ensures Valid()
      ensures entries == RegisterAll(map[], DefinedClasses)
    {
      entries := map[];
      new;
      var stringCls := Register(StringAddStrategy);
      var integerCls := Register(IntegerAddStrategy);
      LoadedRegistry();
    }

    /** register: files the class under its name, replacing any earlier entry, and returns it unchanged. */
    method Register(cls: StrategyClass) returns (r: StrategyClass)
      requires Valid()
      modifies this
      ensures Valid()
      ensures entries == old(entries)[cls.Name() := cls]
      ensures r == cls
    {
      entries := entries[cls.Name() := cls];
      r := cls;
    }
  }

  /** The registry after module load holds exactly the two strategies, each under its name. */
  lemma LoadedRegistry()
    ensures RegisterAll(map[], DefinedClasses) == map["StringStrategy" := StringAddStrategy, "IntegerStrategy" := IntegerAddStrategy]
  {
    assert DefinedClasses[1..] == [IntegerAddStrategy];
    assert DefinedClasses[1..][1..] == [];
  }

  /** An Adder: the strategy instance it delegates to. */
  class Adder {
    const strategy: StrategyClass

    constructor (cls: StrategyClass)
      ensures strategy == cls
    {
      strategy := cls;
    }

    /** Adder.__init__: looks the strategy up by name; a name nobody registered raises KeyError. */
    static method New(table: StrategyTable, name: string) returns (r: Result<Adder, StrategyError>)
      requires table.Valid()
      ensures r.Ok? <==> name in table.entries
      ensures r.Err? ==> r.error == KeyErrorFor(name)
      ensures r.Ok? ==> fresh(r.value) && r.value.strategy == table.entries[name]
      ensures r.Ok? ==> r.value.strategy.Name() == name
    {
      if name in table.entries {
        var adder := new Adder(table.entries[name]);
        r := Ok(adder);
      } else {
        r := Err(KeyErrorFor(name));
      }
    }

    /** add: the value the strategy's add returns (and the adder prints), or what it raises. */
    method Add(a: Value, b: Value) returns (r: Result<Value, StrategyError>)
      ensures r == StrategyAdd(strategy, a, b)
    {
      r := StrategyAdd(strategy, a, b);
    }
  }
}
