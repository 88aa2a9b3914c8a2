/**
 * Direct-slot validators (python3-gist/descriptor-2.py).
 *
 * A Descriptor is a class-level data descriptor constructed as
 * `Cls(name, **opts)`: `name` becomes its `name` attribute and every option an
 * attribute of its own. Assigning to the field runs the `__set__` methods of
 * the descriptor's class hierarchy, one after the other along the method
 * resolution order through `super().__set__`: Typed checks the type, Unsigned
 * the sign, MaxSized the length, and Descriptor finally stores the value in
 * the instance dictionary under the descriptor's `name`. The model writes
 * each class's resolution order out and derives the ordered chain of checks
 * from it.
 *
 * Two behaviours of the code are kept as written: MaxSized.__set__ never
 * calls super().__set__, so a MaxSized or SizedString field never stores
 * anything; and Stock declares `age = Integer(18)`, so the age is stored
 * under the key 18 rather than "age".
 */
module DirectSlot {
  import opened Wrappers
  import opened PyValues

  /** The descriptor classes of the module. */
  datatype Cls =
    | DescriptorCls | TypedCls | UnsignedCls | MaxSizedCls
    | IntegerCls | UnsignedIntegerCls | FloatCls | UnsignedFloatCls | StringCls | SizedStringCls

  /** The bases each class statement lists, in order (object left out). */
  function Bases(c: Cls): seq<Cls> {
    match c
    case DescriptorCls => []
    case TypedCls => [DescriptorCls]
    case UnsignedCls => [DescriptorCls]
    case MaxSizedCls => [DescriptorCls]
    case IntegerCls => [TypedCls]
    case UnsignedIntegerCls => [IntegerCls, UnsignedCls]
    case FloatCls => [TypedCls]
    case UnsignedFloatCls => [FloatCls, UnsignedCls]
    case StringCls => [TypedCls]
    case SizedStringCls => [StringCls, MaxSizedCls]
  }

  /** The method resolution order Python computes for each class (object left out). */
  function Mro(c: Cls): seq<Cls> {
    match c
    case DescriptorCls => [DescriptorCls]
    case TypedCls => [TypedCls, DescriptorCls]
    case UnsignedCls => [UnsignedCls, DescriptorCls]
    case MaxSizedCls => [MaxSizedCls, DescriptorCls]
    case IntegerCls => [IntegerCls, TypedCls, DescriptorCls]
    case UnsignedIntegerCls => [UnsignedIntegerCls, IntegerCls, TypedCls, UnsignedCls, DescriptorCls]
    case FloatCls => [FloatCls, TypedCls, DescriptorCls]
    case UnsignedFloatCls => [UnsignedFloatCls, FloatCls, TypedCls, UnsignedCls, DescriptorCls]
    case StringCls => [StringCls, TypedCls, DescriptorCls]
    case SizedStringCls => [SizedStringCls, StringCls, TypedCls, MaxSizedCls, DescriptorCls]
  }

  /** Whether `h` occurs in s[k..]. */
  predicate OccursFrom(h: Cls, s: seq<Cls>, k: nat)
    decreases |s| - k
  {
    k < |s| && (s[k] == h || OccursFrom(h, s, k + 1))
  }

  /** Whether `h` occurs in the tail of one of lists[i..]. */
  predicate InSomeTail(h: Cls, lists: seq<seq<Cls>>, i: nat)
    decreases |lists| - i
  {
    i < |lists| && (OccursFrom(h, lists[i], 1) || InSomeTail(h, lists, i + 1))
  }

  /** The first head of lists[i..], in list order, that occurs in no tail of `lists`: the next class C3 takes. */
  function GoodHead(lists: seq<seq<Cls>>, i: nat): Option<Cls>
    decreases |lists| - i
  {
    if i >= |lists| then None
    else if |lists[i]| > 0 && !InSomeTail(lists[i][0], lists, 0) then Some(lists[i][0])
    else GoodHead(lists, i + 1)
  }

  /** `s` without its first element when that element is `h`. */
  function DropHead(h: Cls, s: seq<Cls>): seq<Cls> {
    if |s| > 0 && s[0] == h then s[1..] else s
  }

  /** `lists` with `h` removed from the front of every list that starts with it. */
  function RemoveHead(lists: seq<seq<Cls>>, h: Cls): seq<seq<Cls>> {
    seq(|lists|, i requires 0 <= i < |lists| => DropHead(h, lists[i]))
  }

  /** Whether every list of lists[i..] is empty. */
  predicate AllEmpty(lists: seq<seq<Cls>>, i: nat)
    decreases |lists| - i
  {
    i >= |lists| || (lists[i] == [] && AllEmpty(lists, i + 1))
  }

  /**
   * The C3 merge Python uses to build a resolution order; None when no head
   * is good (an inconsistent hierarchy, where Python raises TypeError) or
   * when `fuel` steps do not suffice.
   */
  function Merge(lists: seq<seq<Cls>>, fuel: nat): Option<seq<Cls>>
    decreases fuel
  {
    if AllEmpty(lists, 0) then Some([])
    else if fuel == 0 then None
    else match GoodHead(lists, 0)
      case None => None
      case Some(h) =>
        match Merge(RemoveHead(lists, h), fuel - 1)
        case None => None
        case Some(rest) => Some([h] + rest)
  }

  /** The resolution orders of `bases`, in order. */
  function BaseMros(bases: seq<Cls>): seq<seq<Cls>> {
    seq(|bases|, i requires 0 <= i < |bases| => Mro(bases[i]))
  }

  /** C3 for class `c`: `c`, then the merge of its bases' orders and its list of bases. */
  function C3(c: Cls): Option<seq<Cls>> {
    match Merge(BaseMros(Bases(c)) + [Bases(c)], 10)
    case None => None
    case Some(m) => Some([c] + m)
  }

  /** One step of the merge: take the good head and merge what is left. */
  lemma MergeStep(lists: seq<seq<Cls>>, fuel: nat, h: Cls, next: seq<seq<Cls>>, rest: seq<Cls>)
    requires !AllEmpty(lists, 0) && fuel > 0 && GoodHead(lists, 0) == Some(h)
    requires RemoveHead(lists, h) == next && Merge(next, fuel - 1) == Some(rest)
    ensures Merge(lists, fuel) == Some([h] + rest)
  {
  }

  /**
   * Every written-out resolution order is the one Python's C3 linearisation
   * computes from the class statement and the orders of its bases; so, by
   * induction over the hierarchy, it is Python's resolution order.
   */
  lemma MroIsC3(c: Cls)
    ensures C3(c) == Some(Mro(c))
  {
    match c
    case DescriptorCls =>
      assert BaseMros(Bases(DescriptorCls)) + [Bases(DescriptorCls)] == [[]];
      assert AllEmpty([[]], 0);
      assert [DescriptorCls] + [] == Mro(DescriptorCls);
    case TypedCls => SingleBaseC3(c);
    case UnsignedCls => SingleBaseC3(c);
    case MaxSizedCls => SingleBaseC3(c);
    case IntegerCls => TypedSubclassC3(c);
    case FloatCls => TypedSubclassC3(c);
    case StringCls => TypedSubclassC3(c);
    case UnsignedIntegerCls => UnsignedIntegerC3();
    case UnsignedFloatCls => UnsignedFloatC3();
    case SizedStringCls => SizedStringC3();
  }

  /** The merge for Typed, Unsigned and MaxSized: their base's order and their base list, both [Descriptor]. */
  lemma SingleBaseC3(c: Cls)
    requires c in {TypedCls, UnsignedCls, MaxSizedCls}
    ensures C3(c) == Some(Mro(c))
  {
    assert BaseMros(Bases(c)) + [Bases(c)] == [[DescriptorCls], [DescriptorCls]];
    assert GoodHead([[DescriptorCls], [DescriptorCls]], 0) == Some(DescriptorCls);
    assert RemoveHead([[DescriptorCls], [DescriptorCls]], DescriptorCls) == [[], []];
    assert AllEmpty([[], []], 0);
    MergeStep([[DescriptorCls], [DescriptorCls]], 10, DescriptorCls, [[], []], []);
    assert [DescriptorCls] + [] == [DescriptorCls];
    assert [c] + [DescriptorCls] == Mro(c);
  }

  /** The merge for Integer, Float and String: Typed's order and the base list [Typed]. */
  lemma TypedSubclassC3(c: Cls)
    requires c in {IntegerCls, FloatCls, StringCls}
    ensures C3(c) == Some(Mro(c))
  {
    assert BaseMros(Bases(c)) + [Bases(c)] == [[TypedCls, DescriptorCls], [TypedCls]];
    assert GoodHead([[TypedCls, DescriptorCls], [TypedCls]], 0) == Some(TypedCls);
    assert RemoveHead([[TypedCls, DescriptorCls], [TypedCls]], TypedCls) == [[DescriptorCls], []];
    assert GoodHead([[DescriptorCls], []], 0) == Some(DescriptorCls);
    assert RemoveHead([[DescriptorCls], []], DescriptorCls) == [[], []];
    assert AllEmpty([[], []], 0);
    MergeStep([[DescriptorCls], []], 9, DescriptorCls, [[], []], []);
    assert [DescriptorCls] + [] == [DescriptorCls];
    MergeStep([[TypedCls, DescriptorCls], [TypedCls]], 10, TypedCls, [[DescriptorCls], []], [DescriptorCls]);
    assert [TypedCls] + [DescriptorCls] == [TypedCls, DescriptorCls];
    assert [c] + [TypedCls, DescriptorCls] == Mro(c);
  }

  /** The merge for UnsignedInteger: Integer goes first, then Typed; Unsigned waits until Typed is taken, and Descriptor, in every tail until then, comes last. */
  lemma UnsignedIntegerC3()
    ensures C3(UnsignedIntegerCls) == Some(Mro(UnsignedIntegerCls))
  {
    assert BaseMros(Bases(UnsignedIntegerCls)) + [Bases(UnsignedIntegerCls)] == [[IntegerCls, TypedCls, DescriptorCls], [UnsignedCls, DescriptorCls], [IntegerCls, UnsignedCls]];
    assert GoodHead([[IntegerCls, TypedCls, DescriptorCls], [UnsignedCls, DescriptorCls], [IntegerCls, UnsignedCls]], 0) == Some(IntegerCls);
    assert RemoveHead([[IntegerCls, TypedCls, DescriptorCls], [UnsignedCls, DescriptorCls], [IntegerCls, UnsignedCls]], IntegerCls) == [[TypedCls, DescriptorCls], [UnsignedCls, DescriptorCls], [UnsignedCls]];
    assert GoodHead([[TypedCls, DescriptorCls], [UnsignedCls, DescriptorCls], [UnsignedCls]], 0) == Some(TypedCls);
    assert RemoveHead([[TypedCls, DescriptorCls], [UnsignedCls, DescriptorCls], [UnsignedCls]], TypedCls) == [[DescriptorCls], [UnsignedCls, DescriptorCls], [UnsignedCls]];
    assert GoodHead([[DescriptorCls], [UnsignedCls, DescriptorCls], [UnsignedCls]], 0) == Some(UnsignedCls);
    assert RemoveHead([[DescriptorCls], [UnsignedCls, DescriptorCls], [UnsignedCls]], UnsignedCls) == [[DescriptorCls], [DescriptorCls], []];
    assert GoodHead([[DescriptorCls], [DescriptorCls], []], 0) == Some(DescriptorCls);
    assert RemoveHead([[DescriptorCls], [DescriptorCls], []], DescriptorCls) == [[], [], []];
    assert AllEmpty([[], [], []], 0);
    MergeStep([[DescriptorCls], [DescriptorCls], []], 7, DescriptorCls, [[], [], []], []);
    assert [DescriptorCls] + [] == [DescriptorCls];
    MergeStep([[DescriptorCls], [UnsignedCls, DescriptorCls], [UnsignedCls]], 8, UnsignedCls, [[DescriptorCls], [DescriptorCls], []], [DescriptorCls]);
    assert [UnsignedCls] + [DescriptorCls] == [UnsignedCls, DescriptorCls];
    MergeStep([[TypedCls, DescriptorCls], [UnsignedCls, DescriptorCls], [UnsignedCls]], 9, TypedCls, [[DescriptorCls], [UnsignedCls, DescriptorCls], [UnsignedCls]], [UnsignedCls, DescriptorCls]);
    assert [TypedCls] + [UnsignedCls, DescriptorCls] == [TypedCls, UnsignedCls, DescriptorCls];
    MergeStep([[IntegerCls, TypedCls, DescriptorCls], [UnsignedCls, DescriptorCls], [IntegerCls, UnsignedCls]], 10, IntegerCls, [[TypedCls, DescriptorCls], [UnsignedCls, DescriptorCls], [UnsignedCls]], [TypedCls, UnsignedCls, DescriptorCls]);
    assert [IntegerCls] + [TypedCls, UnsignedCls, DescriptorCls] == [IntegerCls, TypedCls, UnsignedCls, DescriptorCls];
    assert [UnsignedIntegerCls] + [IntegerCls, TypedCls, UnsignedCls, DescriptorCls] == Mro(UnsignedIntegerCls);
  }

  /** The merge for UnsignedFloat: Float goes first, then Typed; Unsigned waits until Typed is taken, and Descriptor, in every tail until then, comes last. */
  lemma UnsignedFloatC3()
    ensures C3(UnsignedFloatCls) == Some(Mro(UnsignedFloatCls))
  {
    assert BaseMros(Bases(UnsignedFloatCls)) + [Bases(UnsignedFloatCls)] == [[FloatCls, TypedCls, DescriptorCls], [UnsignedCls, DescriptorCls], [FloatCls, UnsignedCls]];
    assert GoodHead([[FloatCls, TypedCls, DescriptorCls], [UnsignedCls, DescriptorCls], [FloatCls, UnsignedCls]], 0) == Some(FloatCls);
    assert RemoveHead([[FloatCls, TypedCls, DescriptorCls], [UnsignedCls, DescriptorCls], [FloatCls, UnsignedCls]], FloatCls) == [[TypedCls, DescriptorCls], [UnsignedCls, DescriptorCls], [UnsignedCls]];
    assert GoodHead([[TypedCls, DescriptorCls], [UnsignedCls, DescriptorCls], [UnsignedCls]], 0) == Some(TypedCls);
    assert RemoveHead([[TypedCls, DescriptorCls], [UnsignedCls, DescriptorCls], [UnsignedCls]], TypedCls) == [[DescriptorCls], [UnsignedCls, DescriptorCls], [UnsignedCls]];
    assert GoodHead([[DescriptorCls], [UnsignedCls, DescriptorCls], [UnsignedCls]], 0) == Some(UnsignedCls);
    assert RemoveHead([[DescriptorCls], [UnsignedCls, DescriptorCls], [UnsignedCls]], UnsignedCls) == [[DescriptorCls], [DescriptorCls], []];
    assert GoodHead([[DescriptorCls], [DescriptorCls], []], 0) == Some(DescriptorCls);
    assert RemoveHead([[DescriptorCls], [DescriptorCls], []], DescriptorCls) == [[], [], []];
    assert AllEmpty([[], [], []], 0);
    MergeStep([[DescriptorCls], [DescriptorCls], []], 7, DescriptorCls, [[], [], []], []);
    assert [DescriptorCls] + [] == [DescriptorCls];
    MergeStep([[DescriptorCls], [UnsignedCls, DescriptorCls], [UnsignedCls]], 8, UnsignedCls, [[DescriptorCls], [DescriptorCls], []], [DescriptorCls]);
    assert [UnsignedCls] + [DescriptorCls] == [UnsignedCls, DescriptorCls];
    MergeStep([[TypedCls, DescriptorCls], [UnsignedCls, DescriptorCls], [UnsignedCls]], 9, TypedCls, [[DescriptorCls], [UnsignedCls, DescriptorCls], [UnsignedCls]], [UnsignedCls, DescriptorCls]);
    assert [TypedCls] + [UnsignedCls, DescriptorCls] == [TypedCls, UnsignedCls, DescriptorCls];
    MergeStep([[FloatCls, TypedCls, DescriptorCls], [UnsignedCls, DescriptorCls], [FloatCls, UnsignedCls]], 10, FloatCls, [[TypedCls, DescriptorCls], [UnsignedCls, DescriptorCls], [UnsignedCls]], [TypedCls, UnsignedCls, DescriptorCls]);
    assert [FloatCls] + [TypedCls, UnsignedCls, DescriptorCls] == [FloatCls, TypedCls, UnsignedCls, DescriptorCls];
    assert [UnsignedFloatCls] + [FloatCls, TypedCls, UnsignedCls, DescriptorCls] == Mro(UnsignedFloatCls);
  }

  /** The merge for SizedString: String goes first, then Typed; MaxSized waits until Typed is taken, and Descriptor, in every tail until then, comes last. */
  lemma SizedStringC3()
    ensures C3(SizedStringCls) == Some(Mro(SizedStringCls))
  {
    assert BaseMros(Bases(SizedStringCls)) + [Bases(SizedStringCls)] == [[StringCls, TypedCls, DescriptorCls], [MaxSizedCls, DescriptorCls], [StringCls, MaxSizedCls]];
    assert GoodHead([[StringCls, TypedCls, DescriptorCls], [MaxSizedCls, DescriptorCls], [StringCls, MaxSizedCls]], 0) == Some(StringCls);
    assert RemoveHead([[StringCls, TypedCls, DescriptorCls], [MaxSizedCls, DescriptorCls], [StringCls, MaxSizedCls]], StringCls) == [[TypedCls, DescriptorCls], [MaxSizedCls, DescriptorCls], [MaxSizedCls]];
    assert GoodHead([[TypedCls, DescriptorCls], [MaxSizedCls, DescriptorCls], [MaxSizedCls]], 0) == Some(TypedCls);
    assert RemoveHead([[TypedCls, DescriptorCls], [MaxSizedCls, DescriptorCls], [MaxSizedCls]], TypedCls) == [[DescriptorCls], [MaxSizedCls, DescriptorCls], [MaxSizedCls]];
    assert GoodHead([[DescriptorCls], [MaxSizedCls, DescriptorCls], [MaxSizedCls]], 0) == Some(MaxSizedCls);
    assert RemoveHead([[DescriptorCls], [MaxSizedCls, DescriptorCls], [MaxSizedCls]], MaxSizedCls) == [[DescriptorCls], [DescriptorCls], []];
    assert GoodHead([[DescriptorCls], [DescriptorCls], []], 0) == Some(DescriptorCls);
    assert RemoveHead([[DescriptorCls], [DescriptorCls], []], DescriptorCls) == [[], [], []];
    assert AllEmpty([[], [], []], 0);
    MergeStep([[DescriptorCls], [DescriptorCls], []], 7, DescriptorCls, [[], [], []], []);
    assert [DescriptorCls] + [] == [DescriptorCls];
    MergeStep([[DescriptorCls], [MaxSizedCls, DescriptorCls], [MaxSizedCls]], 8, MaxSizedCls, [[DescriptorCls], [DescriptorCls], []], [DescriptorCls]);
    assert [MaxSizedCls] + [DescriptorCls] == [MaxSizedCls, DescriptorCls];
    MergeStep([[TypedCls, DescriptorCls], [MaxSizedCls, DescriptorCls], [MaxSizedCls]], 9, TypedCls, [[DescriptorCls], [MaxSizedCls, DescriptorCls], [MaxSizedCls]], [MaxSizedCls, DescriptorCls]);
    assert [TypedCls] + [MaxSizedCls, DescriptorCls] == [TypedCls, MaxSizedCls, DescriptorCls];
    MergeStep([[StringCls, TypedCls, DescriptorCls], [MaxSizedCls, DescriptorCls], [StringCls, MaxSizedCls]], 10, StringCls, [[TypedCls, DescriptorCls], [MaxSizedCls, DescriptorCls], [MaxSizedCls]], [TypedCls, MaxSizedCls, DescriptorCls]);
    assert [StringCls] + [TypedCls, MaxSizedCls, DescriptorCls] == [StringCls, TypedCls, MaxSizedCls, DescriptorCls];
    assert [SizedStringCls] + [StringCls, TypedCls, MaxSizedCls, DescriptorCls] == Mro(SizedStringCls);
  }

  /** The classes that define __init__ themselves. */
  predicate DefinesInit(c: Cls) {
    c in {DescriptorCls, MaxSizedCls}
  }

  /** The expected_type a class body assigns, if any. */
  function DeclaredExpectedType(c: Cls): Option<PyType> {
    match c
    case TypedCls => Some(NoneType)
    case IntegerCls => Some(IntType)
    case FloatCls => Some(FloatType)
    case StringCls => Some(StrType)
    case _ => None
  }

  /** Looking up the class attribute expected_type along `mro`; Typed itself sets type(None). */
  function ExpectedTypeIn(mro: seq<Cls>): PyType {
    if mro == [] then NoneType
    else match DeclaredExpectedType(mro[0])
      case Some(t) => t
      case None => ExpectedTypeIn(mro[1..])
  }

  /** The class whose __init__ runs for a class with resolution order `mro`. */
  function InitOwner(mro: seq<Cls>): (r: Cls)
    ensures DefinesInit(r) && (r in mro || r == DescriptorCls)
  {
    InitOwnerFrom(mro, 0)
  }

  /** The first class of mro[i..] that defines __init__. */
  function InitOwnerFrom(mro: seq<Cls>, i: nat): (r: Cls)
    ensures DefinesInit(r) && (r in mro || r == DescriptorCls)
    decreases |mro| - i
  {
    if i >= |mro| then DescriptorCls
    else if DefinesInit(mro[i]) then mro[i]
    else InitOwnerFrom(mro, i + 1)
  }

  /** One __set__ method of the chain. */
  datatype Step =
    | TypeStep(expected: PyType)  // Typed.__set__
    | UnsignedStep                // Unsigned.__set__
    | MaxSizedStep                // MaxSized.__set__
    | StoreStep                   // Descriptor.__set__

  /**
   * The __set__ methods that run, in order, when the first class of `mro`
   * handles an assignment and each one hands on through super().__set__ to
   * the next class of `mro` that defines one.
   */
  function SetterSteps(mro: seq<Cls>, expected: PyType): seq<Step> {
    if mro == [] then []
    else match mro[0]
      case TypedCls => [TypeStep(expected)] + SetterSteps(mro[1..], expected)
      case UnsignedCls => [UnsignedStep] + SetterSteps(mro[1..], expected)
      case MaxSizedCls => [MaxSizedStep]  // does not call super().__set__
      case DescriptorCls => [StoreStep]   // stores, and object has no __set__ to call
      case _ => SetterSteps(mro[1..], expected)
  }

  /** The chain of __set__ methods an assignment to a field declared with class `c` runs. */
  function SetChain(c: Cls): seq<Step> {
    SetterSteps(Mro(c), ExpectedTypeIn(Mro(c)))
  }

  /** The chain of each class, as its resolution order determines it. */
  lemma SetChainTable()
    ensures SetChain(DescriptorCls) == [StoreStep]
    ensures SetChain(TypedCls) == [TypeStep(NoneType), StoreStep]
    ensures SetChain(UnsignedCls) == [UnsignedStep, StoreStep]
    ensures SetChain(MaxSizedCls) == [MaxSizedStep]
    ensures SetChain(IntegerCls) == [TypeStep(IntType), StoreStep]
    ensures SetChain(UnsignedIntegerCls) == [TypeStep(IntType), UnsignedStep, StoreStep]
    ensures SetChain(FloatCls) == [TypeStep(FloatType), StoreStep]
    ensures SetChain(UnsignedFloatCls) == [TypeStep(FloatType), UnsignedStep, StoreStep]
    ensures SetChain(StringCls) == [TypeStep(StrType), StoreStep]
    ensures SetChain(SizedStringCls) == [TypeStep(StrType), MaxSizedStep]
  {
  }

  /** The exception an assignment or a declaration raised, and the class whose method raised it. */
  datatype Error = Error(kind: ErrorKind, raisedBy: Cls)

  /**
   * Running a chain of __set__ methods on `v` with the descriptor's
   * attributes `attrs`: Ok(true) when Descriptor.__set__ was reached and
   * stores, Ok(false) when the chain ended without storing.
   */
  function Run(steps: seq<Step>, attrs: map<string, Value>, v: Value): (r: Result<bool, Error>)
    ensures r.Err? ==> r.error.raisedBy in {TypedCls, UnsignedCls, MaxSizedCls}
    ensures r.Ok? && r.value ==> StoreStep in steps
    decreases |steps|
  {
    if steps == [] then Ok(false)
    else match steps[0]
      case StoreStep => Ok(true)
      case TypeStep(t) =>
        // An expected_type option shadows the class attribute; no value is a
        // type, so isinstance raises TypeError whatever `v` is.
        if "expected_type" in attrs then Err(Error(TypeError, TypedCls))
        else if IsInstance(v, t) then Run(steps[1..], attrs, v) else Err(Error(TypeError, TypedCls))
      case UnsignedStep =>
        (match Compare(v, Int(0))
         case Err(k) => Err(Error(k, UnsignedCls))
         case Ok(c) => if c < 0 then Err(Error(ValueError, UnsignedCls)) else Run(steps[1..], attrs, v))
      case MaxSizedStep =>
        match Len(v)
        case Err(k) => Err(Error(k, MaxSizedCls))
        case Ok(n) =>
          if "size" !in attrs then Err(Error(AttributeError, MaxSizedCls))
          else match Compare(Int(n), attrs["size"])
            case Err(k) => Err(Error(k, MaxSizedCls))
            case Ok(c) => if c >= 0 then Err(Error(ValueError, MaxSizedCls)) else Run(steps[1..], attrs, v)
  }

  /** A descriptor object's state: its class, its `name` attribute (the storage key) and its option attributes. */
  datatype Binding = Binding(cls: Cls, key: Value, attrs: map<string, Value>)

  /** `instance.f = v` for a field declared with `b`: the new instance dictionary, or the exception. */
  function Assign(b: Binding, dict: map<Value, Value>, v: Value): (r: Result<map<Value, Value>, Error>)
    ensures r.Ok? ==> r.value == dict || r.value == dict[b.key := v]
    ensures r.Err? ==> r.error.raisedBy in {TypedCls, UnsignedCls, MaxSizedCls}
  {
    match Run(SetChain(b.cls), b.attrs, v)
    case Err(e) => Err(e)
    case Ok(stored) => Ok(if stored then dict[b.key := v] else dict)
  }

  /** Whether fields of class `c` store what they accept: exactly when MaxSized is not among its classes. */
  predicate Stores(c: Cls) {
    MaxSizedCls !in Mro(c)
  }

  /** A chain that runs to completion stores exactly when it contains Descriptor.__set__. */
  lemma {:induction false} RunStoresIffStoreStep(steps: seq<Step>, attrs: map<string, Value>, v: Value)
    requires Run(steps, attrs, v).Ok?
    ensures Run(steps, attrs, v).value <==> StoreStep in steps
    decreases |steps|
  {
    if steps != [] && steps[0] != StoreStep {
      RunStoresIffStoreStep(steps[1..], attrs, v);
      assert StoreStep in steps <==> StoreStep in steps[1..] by {
        assert steps == [steps[0]] + steps[1..];
      }
    }
  }

  /** Descriptor.__set__ is reached by the chain of every class except those built on MaxSized. */
  lemma ChainStoresIffStores(c: Cls)
    ensures StoreStep in SetChain(c) <==> Stores(c)
  {
    SetChainTable();
    match c
    case DescriptorCls =>
    case TypedCls =>
    case UnsignedCls =>
    case MaxSizedCls =>
    case IntegerCls =>
    case UnsignedIntegerCls =>
    case FloatCls =>
    case UnsignedFloatCls =>
    case StringCls =>
    case SizedStringCls =>
  }

  /**
   * An accepted value is written under the descriptor's `name`, replacing
   * any earlier entry and touching no other key, provided the class stores
   * at all; otherwise the dictionary is left as it was.
   */
  lemma AssignWritesOnlyItsKey(b: Binding, dict: map<Value, Value>, v: Value)
    requires Assign(b, dict, v).Ok?
    ensures var d := Assign(b, dict, v).value;
      (Stores(b.cls) ==> b.key in d && d[b.key] == v && d.Keys == dict.Keys + {b.key}) &&
      (!Stores(b.cls) ==> d == dict) &&
      forall k :: k in dict && k != b.key ==> d[k] == dict[k]
  {
    RunStoresIffStoreStep(SetChain(b.cls), b.attrs, v);
    ChainStoresIffStores(b.cls);
  }

  /**
   * Typed and its single-base subclasses accept exactly the instances of
   * their expected type and raise TypeError otherwise, storing nothing; the
   * bare Typed expects type(None). A descriptor given an expected_type option
   * raises TypeError on every assignment.
   */
  lemma TypedAcceptsIffInstance(c: Cls, key: Value, attrs: map<string, Value>, dict: map<Value, Value>, v: Value)
    requires c in {TypedCls, IntegerCls, FloatCls, StringCls}
    ensures Assign(Binding(c, key, attrs), dict, v) ==
      if "expected_type" !in attrs && IsInstance(v, ExpectedTypeIn(Mro(c))) then Ok(dict[key := v])
      else Err(Error(TypeError, TypedCls))
    ensures ExpectedTypeIn(Mro(TypedCls)) == NoneType && ExpectedTypeIn(Mro(IntegerCls)) == IntType
    ensures ExpectedTypeIn(Mro(FloatCls)) == FloatType && ExpectedTypeIn(Mro(StringCls)) == StrType
  {
    SetChainTable();
  }

  /** Unsigned raises ValueError below zero and accepts zero; a value that cannot be compared with 0 raises TypeError. */
  lemma UnsignedRejectsNegative(key: Value, attrs: map<string, Value>, dict: map<Value, Value>, v: Value)
    ensures Assign(Binding(UnsignedCls, key, attrs), dict, v) ==
      if !IsNumber(v) then Err(Error(TypeError, UnsignedCls))
      else if Numeric(v).value < 0.0 then Err(Error(ValueError, UnsignedCls))
      else Ok(dict[key := v])
    ensures Assign(Binding(UnsignedCls, key, attrs), dict, Int(0)) == Ok(dict[key := Int(0)])
  {
    SetChainTable();
  }

  /**
   * UnsignedInteger and UnsignedFloat check the type before the sign: a
   * value of the wrong type raises Typed's TypeError, never ValueError, and
   * only a well-typed negative value raises Unsigned's ValueError. An
   * expected_type option makes Typed raise TypeError whatever the value.
   */
  lemma UnsignedTypedChecksTypeFirst(c: Cls, key: Value, attrs: map<string, Value>, dict: map<Value, Value>, v: Value)
    requires c == UnsignedIntegerCls || c == UnsignedFloatCls
    ensures var t := if c == UnsignedIntegerCls then IntType else FloatType;
      Assign(Binding(c, key, attrs), dict, v) ==
        if "expected_type" in attrs || !IsInstance(v, t) then Err(Error(TypeError, TypedCls))
        else if Numeric(v).value < 0.0 then Err(Error(ValueError, UnsignedCls))
        else Ok(dict[key := v])
  {
    SetChainTable();
  }

  /**
   * With size n, MaxSized and SizedString accept a string only when it is
   * strictly shorter than n: length n - 1 passes and length n raises
   * ValueError. Either way nothing is stored.
   */
  lemma MaxSizedIsStrict(c: Cls, key: Value, dict: map<Value, Value>, n: int, s: string)
    requires c == MaxSizedCls || c == SizedStringCls
    ensures Assign(Binding(c, key, map["size" := Int(n)]), dict, Str(s)) ==
      if |s| < n then Ok(dict) else Err(Error(ValueError, MaxSizedCls))
  {
    SetChainTable();
  }

  /** A MaxSized or SizedString field never stores a value, whatever it accepts. */
  lemma MaxSizedNeverStores(b: Binding, dict: map<Value, Value>, v: Value)
    requires b.cls == MaxSizedCls || b.cls == SizedStringCls
    requires Assign(b, dict, v).Ok?
    ensures Assign(b, dict, v).value == dict
  {
    AssignWritesOnlyItsKey(b, dict, v);
  }

  /** Whether keyword `key` is among `opts`. */
  predicate HasOption(opts: seq<(string, Value)>, key: string) {
    exists i :: 0 <= i < |opts| && opts[i].0 == key
  }

  /** The attributes `setattr(self, key, value)` for each option in turn leaves on the descriptor. */
  function OptionsMap(opts: seq<(string, Value)>): (m: map<string, Value>)
    ensures forall k :: k in m <==> HasOption(opts, k)
    decreases |opts|
  {
    if opts == [] then map[]
    else
      var init := opts[..|opts| - 1];
      var last := opts[|opts| - 1];
      assert forall k :: HasOption(opts, k) <==> HasOption(init, k) || k == last.0 by {
        forall k ensures HasOption(opts, k) <==> HasOption(init, k) || k == last.0 {
          if HasOption(init, k) {
            var i :| 0 <= i < |init| && init[i].0 == k;
            assert opts[i].0 == k;
          }
          if HasOption(opts, k) && k != last.0 {
            var i :| 0 <= i < |opts| && opts[i].0 == k;
            assert init[i].0 == k;
          }
        }
      }
      OptionsMap(init)[last.0 := last.1]
  }

  /** Keyword arguments have distinct names, so each option's attribute holds that option's value. */
  lemma {:induction false} OptionsMapValue(opts: seq<(string, Value)>, i: nat)
    requires i < |opts|
    requires forall j, k :: 0 <= j < k < |opts| ==> opts[j].0 != opts[k].0
    ensures OptionsMap(opts)[opts[i].0] == opts[i].1
  {
    if i < |opts| - 1 {
      OptionsMapValue(opts[..|opts| - 1], i);
    }
  }

  /** An instance of a class with direct-slot fields: its __dict__. */
  class Instance {
    var dict: map<Value, Value>

    constructor ()
      ensures dict == map[]
    {
      dict := map[];
    }
  }

  /** A descriptor object. */
  class Descriptor {
    const cls: Cls
    const name: Value
    var attrs: map<string, Value>

    function View(): Binding
      reads this
    {
      Binding(cls, name, attrs)
    }

    /** Descriptor.__init__(self, name, **opts) for an object of class `cls`: set name, then each option in turn. */
    constructor (cls: Cls, name: Value, opts: seq<(string, Value)>)
      ensures View() == Binding(cls, name, OptionsMap(opts))
    {
      this.cls := cls;
      this.name := name;
      attrs := map[];
      new;
      var i := 0;
      while i < |opts|
        invariant 0 <= i <= |opts|
        invariant cls == this.cls && name == this.name
        invariant attrs == OptionsMap(opts[..i])
      {
        assert opts[..i + 1][..i] == opts[..i];
        attrs := attrs[opts[i].0 := opts[i].1];
        i := i + 1;
      }
      assert opts[..|opts|] == opts;
    }

    /** __set__ for `inst.f = v`: the chain of checks, and the store when the chain reaches Descriptor. */
    method Set(inst: Instance, v: Value) returns (r: Outcome<Error>)
      modifies inst
      ensures var a := Assign(View(), old(inst.dict), v);
        (a.Ok? ==> r == Pass && inst.dict == a.value) &&
        (a.Err? ==> r == Fail(a.error) && inst.dict == old(inst.dict))
    {
      var run := Run(SetChain(cls), attrs, v);
      if run.Err? {
        return Fail(run.error);
      }
      if run.value {
        inst.dict := inst.dict[name := v];
      }
      r := Pass;
    }
  }

  /**
   * Calling `cls(name, **opts)`: the __init__ its resolution order selects
   * runs. An option called `name` collides with the named parameter, so
   * binding the call raises TypeError before that __init__'s body starts;
   * MaxSized's raises TypeError when no size option is given, before any
   * attribute is set; otherwise every option becomes an attribute.
   */
  method NewDescriptor(cls: Cls, name: Value, opts: seq<(string, Value)>) returns (r: Result<Descriptor, Error>)
    ensures r.Err? <==> HasOption(opts, "name") || (InitOwner(Mro(cls)) == MaxSizedCls && !HasOption(opts, "size"))
    ensures r.Err? ==> r.error == Error(TypeError, InitOwner(Mro(cls)))
    ensures r.Ok? ==> fresh(r.value) && r.value.View() == Binding(cls, name, OptionsMap(opts))
  {
    if HasOption(opts, "name") {
      return Err(Error(TypeError, InitOwner(Mro(cls))));
    }
    if InitOwner(Mro(cls)) == MaxSizedCls && !HasOption(opts, "size") {
      return Err(Error(TypeError, MaxSizedCls));
    }
    var d := new Descriptor(cls, name, opts);
    r := Ok(d);
  }

  /** Exactly the classes with MaxSized in their resolution order demand a size option. */
  lemma SizeDemandedByMaxSized(c: Cls)
    ensures InitOwner(Mro(c)) == MaxSizedCls <==> MaxSizedCls in Mro(c)
  {
    match c
    case DescriptorCls => assert InitOwner(Mro(DescriptorCls)) == DescriptorCls;
    case TypedCls => assert InitOwner(Mro(TypedCls)) == DescriptorCls;
    case UnsignedCls => assert InitOwner(Mro(UnsignedCls)) == DescriptorCls;
    case MaxSizedCls => assert InitOwner(Mro(MaxSizedCls)) == MaxSizedCls;
    case IntegerCls => assert InitOwner(Mro(IntegerCls)) == DescriptorCls;
    case UnsignedIntegerCls => assert InitOwner(Mro(UnsignedIntegerCls)) == DescriptorCls;
    case FloatCls => assert InitOwner(Mro(FloatCls)) == DescriptorCls;
    case UnsignedFloatCls => assert InitOwner(Mro(UnsignedFloatCls)) == DescriptorCls;
    case StringCls => assert InitOwner(Mro(StringCls)) == DescriptorCls;
    case SizedStringCls => assert InitOwner(Mro(SizedStringCls)) == MaxSizedCls;
  }

  /** What reading attribute `field` on an instance gives. */
  datatype Attr = InstanceValue(value: Value) | DescriptorObject

  /**
   * These descriptors define no __get__, so a read finds the instance
   * dictionary's entry under the field's name when there is one, and the
   * class attribute, the descriptor itself, otherwise.
   */
  function GetAttr(dict: map<Value, Value>, field: string): (r: Attr)
    ensures r.InstanceValue? <==> Str(field) in dict
    ensures r.InstanceValue? ==> r.value == dict[Str(field)]
  {
    if Str(field) in dict then InstanceValue(dict[Str(field)]) else DescriptorObject
  }

  /** The record a constructor leaves behind: whether it raised, and the dictionary by then. */
  datatype Construction = Construction(outcome: Outcome<Error>, dict: map<Value, Value>)

  /** Assigning values[i] through bindings[i] for i = 0, 1, ... in order, stopping at the first exception. */
  function AssignAll(bindings: seq<Binding>, values: seq<Value>, dict: map<Value, Value>): (r: Construction)
    requires |bindings| == |values|
    ensures dict.Keys <= r.dict.Keys
    decreases |bindings|
  {
    if bindings == [] then Construction(Pass, dict)
    else match Assign(bindings[0], dict, values[0])
      case Err(e) => Construction(Fail(e), dict)
      case Ok(d) => AssignAll(bindings[1..], values[1..], d)
  }

  /**
   * When the first k assignments succeed and assignment k (counting from 0) raises, the
   * constructor raises that exception with the first k assignments in place.
   */
  lemma {:induction false} AssignAllStopsAtFirstFailure(bindings: seq<Binding>, values: seq<Value>, dict: map<Value, Value>, k: nat)
    requires |bindings| == |values| && k < |bindings|
    requires AssignAll(bindings[..k], values[..k], dict).outcome.Pass?
    requires Assign(bindings[k], AssignAll(bindings[..k], values[..k], dict).dict, values[k]).Err?
    ensures AssignAll(bindings, values, dict) ==
      Construction(
        Fail(Assign(bindings[k], AssignAll(bindings[..k], values[..k], dict).dict, values[k]).error),
        AssignAll(bindings[..k], values[..k], dict).dict)
  {
    if k > 0 {
      var d := Assign(bindings[0], dict, values[0]);
      assert bindings[..k][0] == bindings[0] && values[..k][0] == values[0];
      assert bindings[..k][1..] == bindings[1..][..k - 1] && values[..k][1..] == values[1..][..k - 1];
      AssignAllStopsAtFirstFailure(bindings[1..], values[1..], d.value, k - 1);
    }
  }

  /** Stock's field declarations, in the order its constructor assigns them. */
  const StockBindings: seq<Binding> := [
    Binding(SizedStringCls, Str("name"), map["size" := Int(8)]),
    Binding(IntegerCls, Int(18), map[]),
    Binding(UnsignedIntegerCls, Str("shares"), map[]),
    Binding(UnsignedFloatCls, Str("price"), map[])
  ]

  /** Stock(name, age, shares, price) as a function of its arguments. */
  function StockInit(name: Value, age: Value, shares: Value, price: Value): Construction {
    AssignAll(StockBindings, [name, age, shares, price], map[])
  }

  /** Stock(name, age, shares, price) written out as its four assignments. */
  lemma StockInitSteps(name: Value, age: Value, shares: Value, price: Value)
    ensures StockInit(name, age, shares, price) ==
      match Assign(StockBindings[0], map[], name)
      case Err(e) => Construction(Fail(e), map[])
      case Ok(d1) =>
        match Assign(StockBindings[1], d1, age)
        case Err(e) => Construction(Fail(e), d1)
        case Ok(d2) =>
          match Assign(StockBindings[2], d2, shares)
          case Err(e) => Construction(Fail(e), d2)
          case Ok(d3) =>
            match Assign(StockBindings[3], d3, price)
            case Err(e) => Construction(Fail(e), d3)
            case Ok(d4) => Construction(Pass, d4)
  {
    var b := StockBindings;
    var vs := [name, age, shares, price];
    match Assign(b[0], map[], name)
    case Err(_) =>
    case Ok(d1) =>
      assert AssignAll(b, vs, map[]) == AssignAll(b[1..], vs[1..], d1);
      match Assign(b[1], d1, age)
      case Err(_) =>
      case Ok(d2) =>
        assert AssignAll(b[1..], vs[1..], d1) == AssignAll(b[2..], vs[2..], d2);
        match Assign(b[2], d2, shares)
        case Err(_) =>
        case Ok(d3) =>
          assert AssignAll(b[2..], vs[2..], d2) == AssignAll(b[3..], vs[3..], d3);
          match Assign(b[3], d3, price)
          case Err(_) =>
          case Ok(d4) =>
            assert AssignAll(b[3..], vs[3..], d3) == AssignAll(b[4..], vs[4..], d4);
  }

  /** What each of Stock's four assignments does to the dictionary `dict`. */
  lemma StockFieldAssigns(dict: map<Value, Value>, v: Value)
    ensures Assign(StockBindings[0], dict, v) ==
      if !v.Str? then Err(Error(TypeError, TypedCls))
      else if |v.s| < 8 then Ok(dict) else Err(Error(ValueError, MaxSizedCls))
    ensures Assign(StockBindings[1], dict, v) ==
      if IsInstance(v, IntType) then Ok(dict[Int(18) := v]) else Err(Error(TypeError, TypedCls))
    ensures Assign(StockBindings[2], dict, v) ==
      if !IsInstance(v, IntType) then Err(Error(TypeError, TypedCls))
      else if Numeric(v).value < 0.0 then Err(Error(ValueError, UnsignedCls))
      else Ok(dict[Str("shares") := v])
    ensures Assign(StockBindings[3], dict, v) ==
      if !IsInstance(v, FloatType) then Err(Error(TypeError, TypedCls))
      else if Numeric(v).value < 0.0 then Err(Error(ValueError, UnsignedCls))
      else Ok(dict[Str("price") := v])
  {
    if v.Str? {
      MaxSizedIsStrict(SizedStringCls, Str("name"), dict, 8, v.s);
    } else {
      SetChainTable();
    }
    TypedAcceptsIffInstance(IntegerCls, Int(18), map[], dict, v);
    UnsignedTypedChecksTypeFirst(UnsignedIntegerCls, Str("shares"), map[], dict, v);
    UnsignedTypedChecksTypeFirst(UnsignedFloatCls, Str("price"), map[], dict, v);
  }

  /**
   * Stock's constructor raises nothing exactly when the name is a str
   * shorter than 8, the age an int, the shares a non-negative int and the
   * price a non-negative float. The dictionary then holds the age under the
   * key 18 and the shares and price under their names, and no name: so
   * reading `name` or `age` on the instance gives the descriptor back.
   */
  lemma StockConstructed(name: Value, age: Value, shares: Value, price: Value)
    ensures StockInit(name, age, shares, price).outcome.Pass? <==>
      name.Str? && |name.s| < 8 && IsInstance(age, IntType) &&
      IsInstance(shares, IntType) && Numeric(shares).value >= 0.0 &&
      price.Float? && price.f >= 0.0
    ensures var c := StockInit(name, age, shares, price);
      c.outcome.Pass? ==>
        c.dict == map[Int(18) := age, Str("shares") := shares, Str("price") := price] &&
        GetAttr(c.dict, "name") == DescriptorObject && GetAttr(c.dict, "age") == DescriptorObject &&
        GetAttr(c.dict, "shares") == InstanceValue(shares) && GetAttr(c.dict, "price") == InstanceValue(price)
  {
    StockInitSteps(name, age, shares, price);
    // The name is never stored, so the age is assigned into the empty dictionary.
    StockFieldAssigns(map[], name);
    StockFieldAssigns(map[], age);
    StockFieldAssigns(map[Int(18) := age], shares);
    StockFieldAssigns(map[Int(18) := age][Str("shares") := shares], price);
  }

  /** An int price is refused by UnsignedFloat's type check after name, age and shares were assigned. */
  lemma StockPriceMustBeFloat()
    ensures StockInit(Str("stock"), Int(1), Int(1), Int(1)) ==
      Construction(Fail(Error(TypeError, TypedCls)), map[Int(18) := Int(1), Str("shares") := Int(1)])
  {
    StockInitSteps(Str("stock"), Int(1), Int(1), Int(1));
    SetChainTable();
  }

  /** The class object Stock, holding its four descriptors. */
  class StockClass {
    const name: Descriptor
    const age: Descriptor
    const shares: Descriptor
    const price: Descriptor

    ghost predicate Valid()
      reads name, age, shares, price
    {
      [name.View(), age.View(), shares.View(), price.View()] == StockBindings
    }

    /** Evaluating the class body: SizedString('name', size=8), Integer(18), UnsignedInteger('shares'), UnsignedFloat('price'). */
    constructor ()
      ensures Valid()
      ensures fresh(name) && fresh(age) && fresh(shares) && fresh(price)
    {
      var sizeOpt := [("size", Int(8))];
      assert sizeOpt[0].0 == "size";
      var n := NewDescriptor(SizedStringCls, Str("name"), sizeOpt);
      var a := NewDescriptor(IntegerCls, Int(18), []);
      var s := NewDescriptor(UnsignedIntegerCls, Str("shares"), []);
      var p := NewDescriptor(UnsignedFloatCls, Str("price"), []);
      SizeDemandedByMaxSized(IntegerCls);
      SizeDemandedByMaxSized(UnsignedIntegerCls);
      SizeDemandedByMaxSized(UnsignedFloatCls);
      assert OptionsMap(sizeOpt) == map["size" := Int(8)];
      name, age, shares, price := n.value, a.value, s.value, p.value;
    }

    /** Stock(name, age, shares, price): a fresh instance and four assignments in declaration order. */
    method New(nameV: Value, ageV: Value, sharesV: Value, priceV: Value) returns (obj: Instance, r: Outcome<Error>)
      requires Valid()
      ensures fresh(obj)
      ensures Construction(r, obj.dict) == StockInit(nameV, ageV, sharesV, priceV)
    {
      StockInitSteps(nameV, ageV, sharesV, priceV);
      obj := new Instance();
      r := name.Set(obj, nameV);
      if r.Fail? {
        return;
      }
      r := age.Set(obj, ageV);
      if r.Fail? {
        return;
      }
      r := shares.Set(obj, sharesV);
      if r.Fail? {
        return;
      }
      r := price.Set(obj, priceV);
    }
  }
}
